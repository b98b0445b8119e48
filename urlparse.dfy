/**
  The path component of `urllib.parse.urlparse(url)`, which is all the uploaders
  read from a parsed URL. The steps follow `urlsplit`: leading control characters
  and spaces are dropped, tabs and line breaks removed, then the scheme, the
  network location, the fragment and the query are cut away; `urlparse` then
  cuts `;params` off the last path segment for the schemes that use them.
*/
module UrlParse {
  import opened PyStrings

  predicate IsAsciiLetter(c: char) {
    'a' <= c <= 'z' || 'A' <= c <= 'Z'
  }

  /** `urllib.parse.scheme_chars`. */
  predicate IsSchemeChar(c: char) {
    IsAsciiLetter(c) || '0' <= c <= '9' || c == '+' || c == '-' || c == '.'
  }

  /** `urllib.parse.uses_params`. */
  const UsesParams: set<string> :=
    {"", "ftp", "hdl", "prospero", "http", "imap", "https", "shttp",
     "rtsp", "rtsps", "rtspu", "sip", "sips", "mms", "sftp", "tel"}

  function AsciiLower(s: string): (r: string)
    ensures |r| == |s|
  {
    if s == [] then []
    else [if 'A' <= s[0] <= 'Z' then (s[0] as int + 32) as char else s[0]] + AsciiLower(s[1..])
  }

  /** `url.lstrip(_WHATWG_C0_CONTROL_OR_SPACE)`. */
  function LStripControl(s: string): (r: string)
    ensures r == [] || r[0] > ' '
  {
    if |s| > 0 && s[0] <= ' ' then LStripControl(s[1..]) else s
  }

  /** Removal of `_UNSAFE_URL_BYTES_TO_REMOVE` (tab, carriage return, line feed). */
  function RemoveUnsafe(s: string): (r: string)
    ensures '\t' !in r && '\r' !in r && '\n' !in r
  {
    if s == [] then []
    else (if s[0] in "\t\r\n" then [] else [s[0]]) + RemoveUnsafe(s[1..])
  }

  /** The position just past the network location of `s[2..]`: the first '/', '?'
      or '#' after the leading "//", or the end of `s`. */
  function NetlocEnd(s: string, from: nat): (i: nat)
    requires from <= |s|
    ensures from <= i <= |s|
    ensures i < |s| ==> s[i] in "/?#"
    ensures forall j :: from <= j < i ==> s[j] !in "/?#"
    decreases |s| - from
  {
    if from == |s| || s[from] in "/?#" then from else NetlocEnd(s, from + 1)
  }

  /** The scheme (lower-cased) and the rest, when `url` starts with one. */
  function SplitScheme(url: string): (string, string) {
    var i := IndexOf(url, ':');
    if 0 < i < |url| && IsAsciiLetter(url[0]) && forall k :: 0 <= k < i ==> IsSchemeChar(url[k])
    then (AsciiLower(url[..i]), url[i + 1..])
    else ("", url)
  }

  /** `s.partition(c)[0]`: everything before the first `c`. */
  function Before(s: string, c: char): (r: string)
    ensures r <= s && c !in r
    ensures forall x :: x in r ==> x in s
  {
    var i := IndexOf(s, c);
    assert forall x :: x in s[..i] ==> x in s;
    s[..i]
  }

  /** `_splitparams(path)[0]`: the path up to the first ';' after its last '/'. */
  function DropParams(path: string): (r: string)
    ensures forall x :: x in r ==> x in path
  {
    var start := AfterLast(path, '/');
    var k := IndexOf(path[start..], ';');
    if start + k < |path| then
      assert forall x :: x in path[..start + k] ==> x in path;
      path[..start + k]
    else path
  }

  /** What follows the network location: everything from the first '/', '?' or
      '#' after a leading "//", or all of `rest` when it does not start with "//". */
  function AfterNetloc(rest: string): (r: string)
    ensures |r| <= |rest| && r == rest[|rest| - |r|..]
  {
    if |rest| >= 2 && rest[..2] == "//" then rest[NetlocEnd(rest, 2)..] else rest
  }

  /** The text before the fragment and the query. */
  function CutQuery(s: string): (r: string)
    ensures r <= s && '?' !in r && '#' !in r
  {
    var r := Before(Before(s, '#'), '?');
    assert '#' !in r;
    r
  }

  /** `urlparse(url).path`. */
  function UrlPath(url: string): (path: string)
    ensures '?' !in path && '#' !in path
  {
    var (scheme, rest) := SplitScheme(RemoveUnsafe(LStripControl(url)));
    var noQuery := CutQuery(AfterNetloc(rest));
    if scheme in UsesParams && ';' in noQuery then DropParams(noQuery) else noQuery
  }

  /** Removing tab, carriage return and line feed changes nothing when there are none. */
  lemma {:induction false} RemoveUnsafeNone(s: string)
    requires '\t' !in s && '\r' !in s && '\n' !in s
    ensures RemoveUnsafe(s) == s
  {
    if s != [] {
      assert s[0] !in "\t\r\n";
      assert s == [s[0]] + s[1..];
      RemoveUnsafeNone(s[1..]);
    }
  }

  /** Cutting at a character the first part lacks cuts the second part. */
  lemma BeforeConcat(a: string, b: string, c: char)
    requires c !in a
    ensures Before(a + b, c) == a + Before(b, c)
  {
    var s := a + b;
    var k := IndexOf(b, c);
    assert forall j :: 0 <= j < |a| ==> s[j] == a[j] && a[j] != c;
    assert forall j :: |a| <= j < |s| ==> s[j] == b[j - |a|];
    if k < |b| {
      assert s[|a| + k] == c;
    } else {
      assert c !in s by {
        assert forall j :: 0 <= j < |s| ==> s[j] != c;
      }
    }
    assert IndexOf(s, c) == |a| + k;
    assert s[..|a| + k] == a + b[..k];
  }

  /** Lower-casing leaves a lower-case string as it is. */
  lemma {:induction false} AsciiLowerOfLower(s: string)
    requires forall i :: 0 <= i < |s| ==> 'a' <= s[i] <= 'z'
    ensures AsciiLower(s) == s
  {
    if s != [] {
      AsciiLowerOfLower(s[1..]);
    }
  }

  /** An "https://" prefix is read as the scheme "https", followed by the rest. */
  lemma HttpsScheme(rest: string)
    ensures SplitScheme("https://" + rest) == ("https", "//" + rest)
  {
    var url := "https://" + rest;
    HttpsColon(rest);
    assert url[..5] == "https" by {
      assert forall j :: 0 <= j < 5 ==> url[j] == "https"[j];
    }
    AsciiLowerOfLower("https");
    assert url[6..] == "//" + rest by {
      assert forall j :: 6 <= j < |url| ==> url[j] == ("//" + rest)[j - 6];
    }
  }

  /** In "https://" + `rest` the first ':' is at 5, after scheme characters only. */
  lemma HttpsColon(rest: string)
    ensures IndexOf("https://" + rest, ':') == 5
    ensures forall k :: 0 <= k < 5 ==> IsSchemeChar(("https://" + rest)[k])
  {
    var url := "https://" + rest;
    assert forall j :: 0 <= j < 8 ==> url[j] == "https://"[j];
  }

  /** The network location after "//" ends at the first '/' of what follows the host. */
  lemma HostEnd(host: string, path: string)
    requires '/' !in host && '?' !in host && '#' !in host
    requires |path| > 0 && path[0] == '/'
    ensures NetlocEnd("//" + (host + path), 2) == 2 + |host|
  {
    var s := "//" + (host + path);
    assert s[2 + |host|] == '/';
    assert forall j :: 2 <= j < 2 + |host| ==> s[j] == host[j - 2];
  }

  /** Cutting a path followed by nothing, a query or a fragment at '#' and then
      at '?' leaves the path. */
  lemma QueryCut(path: string, tail: string)
    requires '?' !in path && '#' !in path
    requires tail == [] || tail[0] == '?' || tail[0] == '#'
    ensures CutQuery(path + tail) == path
  {
    BeforeConcat(path, tail, '#');
    var cut := Before(tail, '#');
    BeforeConcat(path, cut, '?');
    assert Before(cut, '?') == [] by {
      if cut != [] {
        assert cut[0] == tail[0] == '?';
      }
    }
    assert path + [] == path;
  }

  /** The path of an https URL whose host is followed by a path starting with '/',
      and then by nothing, a query or a fragment, is that path. */
  lemma HttpsUrlPath(host: string, path: string, tail: string)
    requires '/' !in host && '?' !in host && '#' !in host
    requires |path| > 0 && path[0] == '/' && '?' !in path && '#' !in path && ';' !in path
    requires tail == [] || tail[0] == '?' || tail[0] == '#'
    requires var url := host + path + tail; '\t' !in url && '\r' !in url && '\n' !in url
    ensures UrlPath("https://" + (host + path + tail)) == path
  {
    HostPathTail(host, path, tail);
    HttpsUrlPathOf(host + path + tail, path);
  }

  /** After "//", a host, a path starting with '/' and a query or fragment, the
      network location and then the query and fragment are cut off. */
  lemma HostPathTail(host: string, path: string, tail: string)
    requires '/' !in host && '?' !in host && '#' !in host
    requires |path| > 0 && path[0] == '/' && '?' !in path && '#' !in path
    requires tail == [] || tail[0] == '?' || tail[0] == '#'
    ensures CutQuery(AfterNetloc("//" + (host + path + tail))) == path
  {
    var after := host + path + tail;
    assert AfterNetloc("//" + after) == path + tail by {
      assert after == host + (path + tail);
      HostEnd(host, path + tail);
    }
    QueryCut(path, tail);
  }

  /** The steps of `UrlPath` on "https://" + `after`, when `after` is a host
      followed by `path` and a query or fragment that `CutQuery` removes. */
  lemma HttpsUrlPathOf(after: string, path: string)
    requires '\t' !in after && '\r' !in after && '\n' !in after
    requires CutQuery(AfterNetloc("//" + after)) == path && ';' !in path
    ensures UrlPath("https://" + after) == path
  {
    HttpsClean(after);
    HttpsScheme(after);
  }

  /** An https URL without tab or line breaks is left as it is by the cleaning steps. */
  lemma HttpsClean(after: string)
    requires '\t' !in after && '\r' !in after && '\n' !in after
    ensures RemoveUnsafe(LStripControl("https://" + after)) == "https://" + after
  {
    var url := "https://" + after;
    assert LStripControl(url) == url by {
      assert url[0] == 'h';
    }
    assert '\t' !in url && '\r' !in url && '\n' !in url by {
      assert forall j :: 0 <= j < 8 ==> url[j] == "https://"[j];
      assert forall j :: 8 <= j < |url| ==> url[j] == after[j - 8];
    }
    RemoveUnsafeNone(url);
  }
}
