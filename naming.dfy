/**
  The pure naming rules of both uploaders: the object key a file is stored
  under (`generate_space_key` / `generate_s3_key`), the public URL of a key
  (`get_public_url` / the inline S3 URL) and the content type of a file
  (`get_content_type`).
*/
module Naming {
  import opened Wrappers
  import opened PyStrings
  import opened Paths
  import opened Config

  /** `mimetypes.guess_type(str(path))[0]`: the system's extension table is outside
      the model, so it is a parameter. */
  type MimeGuess = Path -> Option<string>

  const OctetStream := "application/octet-stream"

  /** `get_content_type`: the guessed type, or the generic binary type when the
      guess is None or empty. */
  function ContentType(guess: MimeGuess, path: Path): (t: string)
    ensures t != ""
    ensures t == OctetStream || guess(path) == Some(t)
    ensures (guess(path).None? || guess(path) == Some("")) ==> t == OctetStream
    ensures guess(path).Some? && guess(path).value != "" ==> t == guess(path).value
  {
    match guess(path)
    case Some(t) => if t != "" then t else OctetStream
    case None => OctetStream
  }

  /** `generate_space_key(filename, custom_path)` and `generate_s3_key`, which
      are the same rule over the configured prefix. An empty `customPath`
      stands for both None and "", which the uploaders treat alike. */
  function GenerateKey(config: Config, filename: string, customPath: string): (key: string)
    // the key always ends with the filename, and is exactly the filename when
    // there is neither a custom path nor a prefix
    ensures |filename| <= |key| && key[|key| - |filename|..] == filename
    ensures customPath == "" && config.prefix == "" ==> key == filename
  {
    if customPath != "" then
      (if EndsWith(customPath, '/') then customPath else customPath + "/") + filename
    else if config.prefix != "" then
      RStrip(config.prefix, '/') + "/" + filename
    else
      filename
  }

  /** The key `upload_file` stores a local file under: a non-empty destination
      is the key verbatim, otherwise the key is generated from the file's name. */
  function ObjectKey(config: Config, path: Path, destination: string): (key: string)
    requires path.Normal()
    ensures destination != "" ==> key == destination
    ensures destination == "" ==> key == GenerateKey(config, path.Name(), "")
  {
    if destination != "" then destination else GenerateKey(config, path.Name(), "")
  }

  /** The part of every public URL that comes before the key. */
  function UrlBase(config: Config): string {
    match config
    case SpacesConfig(_, _, endpoint, _, bucket, filesUrl, _) =>
      if filesUrl != "" then RStrip(filesUrl, '/') + "/"
      else "https://" + bucket + "." + endpoint + "/"
    case S3Config(_, _, region, bucket, _) =>
      "https://" + bucket + ".s3." + region + ".amazonaws.com/"
  }

  /** `get_public_url(key)` for Spaces; the f-string of `upload_file` and
      `list_files` for S3. */
  function PublicUrl(config: Config, key: string): (url: string)
    ensures url == UrlBase(config) + key
  {
    match config
    case SpacesConfig(_, _, endpoint, _, bucket, filesUrl, _) =>
      if filesUrl != "" then RStrip(filesUrl, '/') + "/" + key
      else "https://" + bucket + "." + endpoint + "/" + key
    case S3Config(_, _, region, bucket, _) =>
      "https://" + bucket + ".s3." + region + ".amazonaws.com/" + key
  }

  // ---- Key resolution ----

  /** A non-empty custom path wins over the configured prefix; exactly one '/'
      separates it from the filename, whether or not it already ends in one. */
  lemma CustomPathWins(config: Config, filename: string, customPath: string)
    requires customPath != ""
    ensures var base := if EndsWith(customPath, '/') then customPath[..|customPath| - 1] else customPath;
      GenerateKey(config, filename, customPath) == base + "/" + filename
    ensures forall other: Config :: GenerateKey(other, filename, customPath) == GenerateKey(config, filename, customPath)
  {
    if EndsWith(customPath, '/') {
      var base := customPath[..|customPath| - 1];
      assert customPath == base + "/";
      assert customPath + filename == base + "/" + filename;
    }
  }

  /** A trailing '/' on the custom path makes no difference:
      resolving under "docs" and under "docs/" gives the same key. */
  lemma CustomPathTrailingSlash(config: Config, filename: string, customPath: string)
    requires customPath != "" && !EndsWith(customPath, '/')
    ensures GenerateKey(config, filename, customPath + "/") == GenerateKey(config, filename, customPath)
  {
    var slashed := customPath + "/";
    assert EndsWith(slashed, '/');
  }

  /** Without a custom path, a non-empty prefix is joined to the filename by
      exactly one '/': the stripped prefix never ends in '/', and any run of
      trailing slashes on the prefix gives the same key. */
  lemma PrefixJoin(config: Config, filename: string, slashes: nat)
    requires config.prefix != ""
    ensures var stem := RStrip(config.prefix, '/');
      && GenerateKey(config, filename, "") == stem + "/" + filename
      && !EndsWith(stem, '/')
      && config.prefix == stem + config.prefix[|stem|..]
      && forall i :: |stem| <= i < |config.prefix| ==> config.prefix[i] == '/'
    ensures var padded := config.(prefix := config.prefix + seq(slashes, _ => '/'));
      GenerateKey(padded, filename, "") == GenerateKey(config, filename, "")
  {
    var padded := config.prefix + seq(slashes, _ => '/');
    RStripTrailing(config.prefix, slashes);
  }

  /** Appending separators to a string does not change what `rstrip` keeps. */
  lemma {:induction false} RStripTrailing(s: string, n: nat)
    ensures RStrip(s + seq(n, _ => '/'), '/') == RStrip(s, '/')
  {
    if n == 0 {
      assert s + seq(n, _ => '/') == s;
    } else {
      var t := s + seq(n, _ => '/');
      assert t[|t| - 1] == '/';
      assert t[..|t| - 1] == s + seq(n - 1, _ => '/');
      assert RStrip(t, '/') == RStrip(t[..|t| - 1], '/');
      RStripTrailing(s, n - 1);
    }
  }

  /** A prefix made only of slashes strips to "", so the key is "/" + filename:
      it starts with a separator. */
  lemma AllSlashPrefix(config: Config, filename: string)
    requires config.prefix != "" && forall i :: 0 <= i < |config.prefix| ==> config.prefix[i] == '/'
    ensures GenerateKey(config, filename, "") == "/" + filename
  {
  }

  /** Sample keys: a custom path with or without its trailing '/', a
      configured prefix, and no prefix at all. */
  lemma KeyExamples(config: Config)
    ensures GenerateKey(config.(prefix := "ignored"), "a.txt", "docs") == "docs/a.txt"
    ensures GenerateKey(config.(prefix := "x"), "a.txt", "docs/") == "docs/a.txt"
    ensures GenerateKey(config.(prefix := "uploads"), "a.txt", "") == "uploads/a.txt"
    ensures GenerateKey(config.(prefix := ""), "a.txt", "") == "a.txt"
  {
    assert RStrip("uploads", '/') == "uploads";
  }

  // ---- Public URLs ----

  /** With a CDN URL configured, the URL is the CDN base with its trailing
      slashes stripped, one '/', then the key: there is never a doubled '/' at
      the join, whatever the CDN base ends with. */
  lemma CdnUrl(config: Config, key: string)
    requires config.SpacesConfig? && config.filesUrl != ""
    ensures var base := RStrip(config.filesUrl, '/');
      && PublicUrl(config, key) == base + "/" + key
      && !EndsWith(base, '/')
      && base <= config.filesUrl
  {
  }

  /** Without a CDN URL, Spaces uses the virtual-hosted form on the endpoint;
      S3 always uses the regional virtual-hosted form and has no CDN override. */
  lemma VirtualHostedUrl(config: Config, key: string)
    ensures config.SpacesConfig? && config.filesUrl == "" ==>
      PublicUrl(config, key) == "https://" + config.bucket + "." + config.endpoint + "/" + key
    ensures config.S3Config? ==>
      PublicUrl(config, key) == "https://" + config.bucket + ".s3." + config.region + ".amazonaws.com/" + key
  {
  }

  /** Distinct keys have distinct public URLs under one configuration, and the
      key can be read back from the end of its URL. */
  lemma PublicUrlInjective(config: Config, key1: string, key2: string)
    ensures PublicUrl(config, key1) == PublicUrl(config, key2) <==> key1 == key2
    ensures var url := PublicUrl(config, key1); url[|url| - |key1|..] == key1
  {
    var base := UrlBase(config);
    var u1, u2 := PublicUrl(config, key1), PublicUrl(config, key2);
    if u1 == u2 {
      assert key1 == u1[|base|..];
      assert key2 == u2[|base|..];
    }
  }

  /** Sample CDN URL: a base ending in '/' does not double it. */
  lemma CdnExample(config: Config)
    requires config.SpacesConfig?
    ensures PublicUrl(config.(filesUrl := "https://cdn.example.com/"), "a/b.txt") == "https://cdn.example.com/a/b.txt"
  {
    var base := "https://cdn.example.com";
    assert RStrip(base + "/", '/') == RStrip(base, '/') by {
      assert (base + "/")[..|base|] == base;
    }
    assert !EndsWith(base, '/');
  }
}
