/**
  The transfer operations of both uploaders: `upload_file`, `upload_from_url`,
  `list_files` and (Spaces only) `delete_file`. The storage service and the
  HTTP download are outside the model: each call receives the answer they give
  as a parameter, and returns the request it sent so that what is sent can be
  stated. Results are the records the uploaders return as dictionaries.
*/
module Transfer {
  import opened Wrappers
  import opened PyStrings
  import opened Paths
  import opened UrlParse
  import opened Config
  import opened Naming
  import opened LocalFs

  /** The storage client's answer to one request. */
  datatype Reply<+T> =
    | Done(value: T)
    | ClientError(message: string)   // botocore's ClientError, with str(e)
    | OtherError(message: string)    // any other exception the client raises

  /** What `requests.get(url, stream=True, timeout=30)` gives. */
  datatype Download =
    | RequestFailed(message: string)                      // the request itself raised
    | Response(status: int, statusError: string, body: Body)  // statusError: str(HTTPError) for 4xx/5xx

  /** The response body as `iter_content` delivers it. */
  datatype Body =
    | Complete(size: nat)                        // the stream ended normally
    | Interrupted(written: nat, message: string) // the stream raised after `written` bytes
    | WriteFailed(written: nat, message: string) // `f.write` raised an OSError after `written` bytes

  /** `raise_for_status()` raises for client and server errors only. */
  predicate IsHttpError(status: int) {
    400 <= status < 600
  }

  const PublicRead := "public-read"

  /** The call `s3_client.upload_file(str(path), bucket, key, ExtraArgs=...)`. */
  datatype PutRequest = PutRequest(source: Path, bucket: string, key: string,
                                   contentType: string, acl: Option<string>)

  /** An error string `f"{context}: {str(e)}"`, kept as its two parts. */
  datatype ErrorText = ErrorText(context: string, cause: Cause)
  datatype Cause = Message(text: string) | LocalError(error: OsError)

  /** The dictionary `upload_file` and `upload_from_url` return; `success` is
      the constructor. The key field is `space_key` for Spaces and `s3_key` for S3. */
  datatype UploadResult =
    | Uploaded(bucket: string, key: string, url: string, filename: string, sizeBytes: nat,
               contentType: string, uploadedAt: string, sourceUrl: Option<string>)
    | UploadFailed(error: ErrorText, failedFile: Option<string>, sourceUrl: Option<string>)

  /** The exceptions that leave an operation instead of a result. */
  datatype Exception =
    | FileNotFound(path: Path)       // upload_file: FileNotFoundError
    | NotAFile(path: Path)           // upload_file: ValueError("Not a file")
    | CleanupFailed(error: OsError)  // upload_from_url: unlink in `finally` raised
    | BackendException(message: string) // list_files, delete_file: a non-ClientError

  datatype Outcome<+T> = Returned(value: T) | Raised(exception: Exception)

  /** The request `upload_file` sent, if it got that far, and how it ended. */
  datatype UploadCall = UploadCall(request: Option<PutRequest>, outcome: Outcome<UploadResult>)

  const UploadFailedContext := "Upload failed"
  const DownloadFailedContext := "Failed to download from URL"
  const UrlUploadFailedContext := "Upload from URL failed"
  const DeleteFailedContext := "Failed to delete file"
  const DeletedMessage := "File deleted successfully"

  /** The context of a `ClientError` during an upload. */
  function ClientErrorContext(config: Config): string {
    if config.SpacesConfig? then "DO Spaces upload failed" else "S3 upload failed"
  }

  /** The default of `make_public`: True for Spaces, False for S3. */
  function DefaultMakePublic(config: Config): bool {
    config.SpacesConfig?
  }

  /** The upload request for a local file: always a content type, and the
      public-read ACL exactly when the file is to be public. */
  function PutRequestFor(config: Config, guess: MimeGuess, path: Path, destination: string,
                         makePublic: bool): (req: PutRequest)
    requires path.Normal()
    ensures req.source == path && req.bucket == config.bucket
    ensures req.key == ObjectKey(config, path, destination)
    ensures req.contentType == ContentType(guess, path) && req.contentType != ""
    ensures req.acl.Some? <==> makePublic
    ensures req.acl.Some? ==> req.acl.value == PublicRead
  {
    PutRequest(path, config.bucket, ObjectKey(config, path, destination), ContentType(guess, path),
               if makePublic then Some(PublicRead) else None)
  }

  /** The result `upload_file` builds once `request` for a file of `size` bytes
      has been sent and the service gave `put`. */
  function PutResult(config: Config, request: PutRequest, filename: string, size: nat, put: Reply<()>,
                     uploadedAt: string): UploadResult
  {
    match put
    case Done(_) =>
      Uploaded(config.bucket, request.key, PublicUrl(config, request.key), filename,
               size, request.contentType, uploadedAt, None)
    case ClientError(message) =>
      UploadFailed(ErrorText(ClientErrorContext(config), Message(message)), Some(filename), None)
    case OtherError(message) =>
      UploadFailed(ErrorText(UploadFailedContext, Message(message)), Some(filename), None)
  }

  /** `upload_file(file_path, space_path=None, make_public=True)` for Spaces and
      `upload_file(file_path, s3_path=None, make_public=False)` for S3. The
      service's answer `put` and the clock reading `uploadedAt` come first so
      that the Python method's own parameters keep their defaults. */
  function UploadFile(fs: FileSystem, config: Config, guess: MimeGuess, put: Reply<()>, uploadedAt: string,
                      path: Path, destination: string := "",
                      makePublic: bool := DefaultMakePublic(config)): (c: UploadCall)
    requires path.Normal()
    reads fs
    // validation comes before the backend is called
    ensures c.request.Some? <==> fs.IsFile(path)
    ensures !fs.Exists(path) ==> c.outcome == Raised(FileNotFound(path))
    ensures fs.Exists(path) && !fs.IsFile(path) ==> c.outcome == Raised(NotAFile(path))
    ensures fs.IsFile(path) ==>
      c.outcome.Returned? && c.request == Some(PutRequestFor(config, guess, path, destination, makePublic))
    // backend failures are results, never exceptions
    ensures c.outcome.Returned? ==> (c.outcome.value.Uploaded? <==> put.Done?)
    ensures c.outcome.Returned? && c.outcome.value.Uploaded? ==>
      var u := c.outcome.value;
      && u.bucket == config.bucket && u.key == c.request.value.key
      && u.url == PublicUrl(config, u.key) && u.filename == path.Name()
      && u.sizeBytes == fs.files[path] && u.contentType == c.request.value.contentType
      && u.uploadedAt == uploadedAt && u.sourceUrl.None?
    ensures c.outcome.Returned? && c.outcome.value.UploadFailed? ==>
      var f := c.outcome.value;
      && f.failedFile == Some(path.Name()) && f.sourceUrl.None?
      && f.error == ErrorText(if put.ClientError? then ClientErrorContext(config) else UploadFailedContext,
                              Message(put.message))
  {
    if !fs.Exists(path) then UploadCall(None, Raised(FileNotFound(path)))
    else if !fs.IsFile(path) then UploadCall(None, Raised(NotAFile(path)))
    else
      var request := PutRequestFor(config, guess, path, destination, makePublic);
      UploadCall(Some(request), Returned(PutResult(config, request, path.Name(), fs.files[path], put, uploadedAt)))
  }

  /** Called with the defaults, `upload_file` stores a file under its generated
      key, public-read on Spaces and private on S3. */
  lemma DefaultUpload(fs: FileSystem, config: Config, guess: MimeGuess, put: Reply<()>, uploadedAt: string,
                      path: Path)
    requires path.Normal() && fs.IsFile(path)
    ensures var request := UploadFile(fs, config, guess, put, uploadedAt, path).request.value;
      && request.key == GenerateKey(config, path.Name(), "")
      && (config.SpacesConfig? ==> request.acl == Some(PublicRead))
      && (config.S3Config? ==> request.acl.None?)
  {
  }

  // ---- upload_from_url ----

  /** The directory `upload_from_url` downloads into: `Path('/tmp')` when "/tmp"
      exists, else `Path('.')`, the working directory. */
  const TmpDir := Path(true, ["tmp"])

  function TempDirectory(tmpExists: bool): (dir: Path)
    ensures dir.Normal()
    ensures tmpExists ==> dir == TmpDir
    ensures !tmpExists ==> dir == Cwd
  {
    TmpPaths();
    if tmpExists then PathOf("/tmp") else PathOf(".")
  }

  /** "/tmp" parses as the absolute path with the one component "tmp", and "."
      as the working directory. */
  lemma TmpPaths()
    ensures PathOf("/tmp") == TmpDir
    ensures PathOf(".") == Cwd
  {
    ComponentsAppend("", "tmp");
    assert "" + "/" + "tmp" == "/tmp";
    assert AfterLast("", '/') == 0;
    assert AfterLast(".", '/') == 0;
  }

  /** The filename `upload_from_url` uses: the given one, else the name (the
      last component) of the URL's path, else `download_<stamp>` where `stamp`
      is the current UTC time formatted as `%Y%m%d_%H%M%S`. */
  function DownloadName(url: string, filename: string, stamp: string): (name: string)
    ensures filename != "" ==> name == filename
    ensures filename == "" && PathOf(UrlPath(url)).parts != [] ==> name == PathOf(UrlPath(url)).Name()
    ensures filename == "" && PathOf(UrlPath(url)).parts == [] ==> name == "download_" + stamp
  {
    if filename != "" then filename
    else
      var fromUrl := PathOf(UrlPath(url)).Name();
      if fromUrl != "" then fromUrl else "download_" + stamp
  }

  /** For an https URL whose path ends in a component `c` (before any query or
      fragment), the derived filename is `c`. */
  lemma DownloadNameFromUrl(host: string, dir: string, c: string, tail: string, stamp: string)
    requires '/' !in host && '?' !in host && '#' !in host
    requires dir == "" || dir[0] == '/'
    requires '?' !in dir && '#' !in dir && ';' !in dir
    requires IsComponent(c) && '?' !in c && '#' !in c && ';' !in c
    requires tail == [] || tail[0] == '?' || tail[0] == '#'
    requires var url := host + (dir + "/" + c) + tail; '\t' !in url && '\r' !in url && '\n' !in url
    ensures PathOf(UrlPath("https://" + (host + (dir + "/" + c) + tail))).Name() == c
    ensures DownloadName("https://" + (host + (dir + "/" + c) + tail), "", stamp) == c
  {
    var path := dir + "/" + c;
    assert path[0] == '/';
    HttpsUrlPath(host, path, tail);
    PathOfLastSegment(dir, c);
  }

  /** A name taken from the URL can look generated: when the URL's last
      segment is `download_<stamp>`, the derived name is the one the clock would
      have given, although the URL's path has components. So a name of that
      form does not show that the URL had no name. */
  lemma UrlNameLooksGenerated(host: string, dir: string, tail: string, stamp: string)
    requires '/' !in host && '?' !in host && '#' !in host
    requires dir == "" || dir[0] == '/'
    requires '?' !in dir && '#' !in dir && ';' !in dir
    requires IsComponent("download_" + stamp)
    requires '?' !in stamp && '#' !in stamp && ';' !in stamp
    requires tail == [] || tail[0] == '?' || tail[0] == '#'
    requires var url := host + (dir + "/" + ("download_" + stamp)) + tail;
      '\t' !in url && '\r' !in url && '\n' !in url
    ensures var url := "https://" + (host + (dir + "/" + ("download_" + stamp)) + tail);
      && PathOf(UrlPath(url)).parts != []
      && DownloadName(url, "", stamp) == "download_" + stamp
  {
    var c := "download_" + stamp;
    assert '?' !in c && '#' !in c && ';' !in c by {
      assert forall i :: 0 <= i < |c| ==> c[i] == if i < 9 then "download_"[i] else stamp[i - 9];
    }
    DownloadNameFromUrl(host, dir, c, tail, stamp);
  }

  /** The temporary file: `temp_dir / f"temp_{filename}"`. It is not unique: two
      downloads of the same name use the same path. For a name without '/' it
      lies directly in the temporary directory and is named `temp_<name>`. */
  function TempFile(tmpExists: bool, name: string): (p: Path)
    ensures p.Normal()
    ensures '/' !in name ==> p.Parent() == TempDirectory(tmpExists) && p.Name() == "temp_" + name
  {
    if '/' !in name then
      PrefixedComponent("temp_", name);
      JoinComponent(TempDirectory(tmpExists), "temp_" + name);
      Join(TempDirectory(tmpExists), "temp_" + name)
    else
      Join(TempDirectory(tmpExists), "temp_" + name)
  }

  /** A derived filename is always a single path component, since the clock
      format has no '/': the URL's last segment, or `download_<stamp>`. */
  lemma DerivedNameIsComponent(url: string, stamp: string)
    requires '/' !in stamp
    ensures IsComponent(DownloadName(url, "", stamp))
  {
    var fromUrl := PathOf(UrlPath(url)).Name();
    if fromUrl == "" {
      PrefixedComponent("download_", stamp);
      assert DownloadName(url, "", stamp) == "download_" + stamp;
    } else {
      assert DownloadName(url, "", stamp) == fromUrl;
    }
  }

  /** The fixed prefixes of generated names are components, and so is such a
      prefix followed by text without '/'. */
  lemma PrefixedComponent(prefix: string, s: string)
    requires prefix == "download_" || prefix == "temp_"
    requires '/' !in s
    ensures IsComponent(prefix + s)
  {
    assert IsComponent(prefix) by {
      assert prefix[0] != '.';
      assert forall i :: 0 <= i < |prefix| ==> prefix[i] != '/';
    }
    ComponentConcat(prefix, s);
  }

  /** Without an explicit destination, the uploaded key and the reported
      filename of a download carry the `temp_` prefix of its temporary file. */
  lemma TempPrefixLeaks(config: Config, tmpExists: bool, name: string)
    requires '/' !in name
    ensures ObjectKey(config, TempFile(tmpExists, name), "") == GenerateKey(config, "temp_" + name, "")
    ensures config.prefix == "" ==> ObjectKey(config, TempFile(tmpExists, name), "") == "temp_" + name
  {
  }

  /** The download leg got a body to write: no request error and no 4xx/5xx status. */
  predicate Fetched(download: Download) {
    download.Response? && !IsHttpError(download.status)
  }

  /** A local `OSError` ended the download: opening the temporary file or
      writing to it raised. */
  predicate FailsLocally(download: Download, openError: Option<OsError>) {
    Fetched(download) && (openError.Some? || download.body.WriteFailed?)
  }

  /** What the `try` block of `upload_from_url` produces for a temporary file
      `temp`, given the error opening it for writing would raise: the result and
      the upload request sent, if any. */
  function UrlAttempt(config: Config, guess: MimeGuess, temp: Path, destination: string, makePublic: bool,
                      url: string, download: Download, openError: Option<OsError>, put: Reply<()>,
                      uploadedAt: string): (a: (UploadResult, Option<PutRequest>))
    requires temp.Normal()
    // the backend is called exactly when the whole body reached the temporary file
    ensures a.1.Some? <==> Fetched(download) && openError.None? && download.body.Complete?
    ensures a.1.Some? ==> a.1.value == PutRequestFor(config, guess, temp, destination, makePublic)
    ensures a.0.Uploaded? <==> a.1.Some? && put.Done?
    ensures a.0.Uploaded? ==>
      && a.0.bucket == config.bucket && a.0.key == a.1.value.key
      && a.0.url == PublicUrl(config, a.0.key) && a.0.filename == temp.Name()
      && a.0.sizeBytes == download.body.size && a.0.contentType == a.1.value.contentType
      && a.0.uploadedAt == uploadedAt && a.0.sourceUrl == Some(url)
    // a failed inner upload is passed on as it is, without the source URL
    ensures a.0.UploadFailed? && a.1.Some? ==>
      && a.0.sourceUrl.None? && a.0.failedFile == Some(temp.Name())
      && a.0.error == ErrorText(if put.ClientError? then ClientErrorContext(config) else UploadFailedContext,
                                Message(put.message))
    // every failure before the upload names the source URL; a local OSError is
    // "Upload from URL failed", anything else "Failed to download from URL"
    ensures a.1.None? ==>
      && a.0.UploadFailed? && a.0.sourceUrl == Some(url) && a.0.failedFile.None?
      && a.0.error.context == (if FailsLocally(download, openError) then UrlUploadFailedContext
                               else DownloadFailedContext)
      && (download.RequestFailed? ==> a.0.error.cause == Message(download.message))
      && (download.Response? && IsHttpError(download.status) ==> a.0.error.cause == Message(download.statusError))
      && (Fetched(download) && openError.Some? ==> a.0.error.cause == LocalError(openError.value))
      && (Fetched(download) && openError.None? && !download.body.Complete? ==>
            a.0.error.cause == Message(download.body.message))
  {
    match download
    case RequestFailed(message) =>
      (UploadFailed(ErrorText(DownloadFailedContext, Message(message)), None, Some(url)), None)
    case Response(status, statusError, body) =>
      if IsHttpError(status) then
        (UploadFailed(ErrorText(DownloadFailedContext, Message(statusError)), None, Some(url)), None)
      else if openError.Some? then
        (UploadFailed(ErrorText(UrlUploadFailedContext, LocalError(openError.value)), None, Some(url)), None)
      else
        match body
        case Interrupted(_, message) =>
          (UploadFailed(ErrorText(DownloadFailedContext, Message(message)), None, Some(url)), None)
        case WriteFailed(_, message) =>
          (UploadFailed(ErrorText(UrlUploadFailedContext, Message(message)), None, Some(url)), None)
        case Complete(size) =>
          var (result, request) :=
            UploadDownloaded(config, guess, temp, destination, makePublic, url, size, put, uploadedAt);
          (result, Some(request))
  }

  /** `result['source_url'] = url`, which `upload_from_url` does only on success. */
  function WithSourceUrl(result: UploadResult, url: string): UploadResult {
    match result
    case Uploaded(bucket, key, publicUrl, name, sizeBytes, contentType, at, _) =>
      Uploaded(bucket, key, publicUrl, name, sizeBytes, contentType, at, Some(url))
    case UploadFailed(_, _, _) => result
  }

  /** What the inner `upload_file` call on a downloaded file of `size` bytes
      gives `upload_from_url`: its request, and its result with `source_url`
      added when it succeeded. */
  function UploadDownloaded(config: Config, guess: MimeGuess, temp: Path, destination: string, makePublic: bool,
                            url: string, size: nat, put: Reply<()>, uploadedAt: string): (a: (UploadResult, PutRequest))
    requires temp.Normal()
    ensures a.1 == PutRequestFor(config, guess, temp, destination, makePublic)
    ensures a.0.Uploaded? <==> put.Done?
    ensures a.0.Uploaded? ==>
      && a.0.bucket == config.bucket && a.0.key == a.1.key
      && a.0.url == PublicUrl(config, a.0.key) && a.0.filename == temp.Name()
      && a.0.sizeBytes == size && a.0.contentType == a.1.contentType
      && a.0.uploadedAt == uploadedAt && a.0.sourceUrl == Some(url)
    ensures a.0.UploadFailed? ==>
      && a.0.sourceUrl.None? && a.0.failedFile == Some(temp.Name())
      && a.0.error == ErrorText(if put.ClientError? then ClientErrorContext(config) else UploadFailedContext,
                                Message(put.message))
  {
    var request := PutRequestFor(config, guess, temp, destination, makePublic);
    (WithSourceUrl(PutResult(config, request, temp.Name(), size, put, uploadedAt), url), request)
  }

  /** The inner upload of `upload_from_url`: `upload_file` on the downloaded
      file, whose result is returned with `source_url` added on success. */
  method UploadTemp(fs: FileSystem, config: Config, guess: MimeGuess, temp: Path, destination: string,
                    makePublic: bool, url: string, put: Reply<()>, uploadedAt: string)
    returns (result: UploadResult, request: PutRequest)
    requires temp.Normal() && fs.IsFile(temp)
    ensures (result, request) ==
      UploadDownloaded(config, guess, temp, destination, makePublic, url, fs.files[temp], put, uploadedAt)
  {
    var call := UploadFile(fs, config, guess, put, uploadedAt, temp, destination, makePublic);
    request := call.request.value;
    result := WithSourceUrl(call.outcome.value, url);
  }

  /** The `try` block of `upload_from_url`: download into `temp`, then upload it. */
  method DownloadAndUpload(fs: FileSystem, config: Config, guess: MimeGuess, temp: Path, destination: string,
                           makePublic: bool, url: string, download: Download, put: Reply<()>,
                           uploadedAt: string)
    returns (result: UploadResult, sent: Option<PutRequest>)
    requires fs.Valid() && temp.Normal()
    modifies fs
    ensures fs.Valid() && fs.dirs == old(fs.dirs)
    ensures (result, sent) ==
      UrlAttempt(config, guess, temp, destination, makePublic, url, download, old(fs.OpenError(temp)), put, uploadedAt)
    ensures fs.files - {temp} == old(fs.files) - {temp}
    ensures temp in fs.dirs ==> fs.files == old(fs.files)
  {
    sent := None;
    match download {
      case RequestFailed(message) =>
        result := UploadFailed(ErrorText(DownloadFailedContext, Message(message)), None, Some(url));
      case Response(status, statusError, body) =>
        if IsHttpError(status) {
          result := UploadFailed(ErrorText(DownloadFailedContext, Message(statusError)), None, Some(url));
        } else {
          // the response's Content-Type header is read and never used
          var openError := fs.OpenForWrite(temp);
          if openError.Some? {
            result := UploadFailed(ErrorText(UrlUploadFailedContext, LocalError(openError.value)), None, Some(url));
          } else {
            match body {
              case Interrupted(written, message) =>
                fs.Append(temp, written);
                result := UploadFailed(ErrorText(DownloadFailedContext, Message(message)), None, Some(url));
              case WriteFailed(written, message) =>
                fs.Append(temp, written);
                result := UploadFailed(ErrorText(UrlUploadFailedContext, Message(message)), None, Some(url));
              case Complete(size) =>
                fs.Append(temp, size);
                var request;
                result, request := UploadTemp(fs, config, guess, temp, destination, makePublic, url, put, uploadedAt);
                sent := Some(request);
            }
          }
        }
    }
  }

  /** The `finally` block of `upload_from_url`: `temp` is unlinked when it
      exists, and an unlink error escapes. */
  method RemoveIfExists(fs: FileSystem, temp: Path) returns (err: Option<OsError>)
    requires fs.Valid()
    modifies fs
    ensures fs.Valid() && fs.dirs == old(fs.dirs)
    ensures fs.files == old(fs.files) - {temp}
    ensures err.Some? <==> temp in fs.dirs
    ensures err.Some? ==> err.value == IsADirectoryError(temp)
  {
    err := None;
    if fs.Exists(temp) {
      err := fs.Unlink(temp);
    }
    if err.None? {
      assert fs.files == old(fs.files) - {temp};
    }
  }

  /** `upload_from_url(url, filename=None, space_path=None, make_public=True)`
      for Spaces, with `s3_path` and `make_public=False` for S3. `stamp` stands
      for the clock reading used when no filename can be derived; the outside
      answers come first so that the Python method's own parameters keep their defaults. */
  method UploadFromUrl(fs: FileSystem, config: Config, guess: MimeGuess, stamp: string, download: Download,
                       put: Reply<()>, uploadedAt: string, url: string, filename: string := "",
                       destination: string := "", makePublic: bool := DefaultMakePublic(config))
    returns (r: Outcome<UploadResult>, sent: Option<PutRequest>)
    requires fs.Valid()
    modifies fs
    ensures fs.Valid()
    // only the temporary file is touched, and it is gone afterwards
    ensures var temp := TempFile(old(fs.Exists(TmpDir)), DownloadName(url, filename, stamp));
      && fs.dirs == old(fs.dirs)
      && fs.files == old(fs.files) - {temp}
      && (r.Returned? ==> !fs.Exists(temp))
    // only a directory in the way of the temporary file makes the call raise,
    // from the cleanup in `finally`
    ensures var temp := TempFile(old(fs.Exists(TmpDir)), DownloadName(url, filename, stamp));
      && (r.Raised? <==> temp in old(fs.dirs))
      && (r.Raised? ==> r.exception == CleanupFailed(IsADirectoryError(temp)))
    // otherwise the result is that of the download and upload
    ensures var temp := TempFile(old(fs.Exists(TmpDir)), DownloadName(url, filename, stamp));
      var a := UrlAttempt(config, guess, temp, destination, makePublic, url, download,
                          old(fs.OpenError(temp)), put, uploadedAt);
      && sent == a.1
      && (r.Returned? ==> r.value == a.0)
  {
    var name := DownloadName(url, filename, stamp);
    var temp := TempFile(fs.Exists(TmpDir), name);
    var result;
    result, sent := DownloadAndUpload(fs, config, guess, temp, destination, makePublic, url, download, put, uploadedAt);
    var cleanupError := RemoveIfExists(fs, temp);
    if cleanupError.Some? {
      r := Raised(CleanupFailed(cleanupError.value));
    } else {
      r := Returned(result);
    }
  }

  // ---- list_files ----

  /** One object of a `list_objects_v2` page. */
  datatype ObjectInfo = ObjectInfo(key: string, size: nat, lastModified: string)

  /** One entry of the list `list_files` returns. */
  datatype ListEntry = ListEntry(key: string, size: nat, lastModified: string, url: string)

  /** The call `list_objects_v2(Bucket=..., Prefix=..., MaxKeys=...)`. */
  datatype ListRequest = ListRequest(bucket: string, prefix: string, maxKeys: int)

  /** A non-empty prefix argument, else the configured prefix. */
  function ListPrefix(config: Config, prefix: string): (p: string)
    ensures prefix != "" ==> p == prefix
    ensures prefix == "" ==> p == config.prefix
  {
    if prefix != "" then prefix else config.prefix
  }

  /** The objects a successful page holds; a page without `Contents` holds none. */
  function Supplied(reply: Reply<Option<seq<ObjectInfo>>>): seq<ObjectInfo> {
    if reply.Done? && reply.value.Some? then reply.value.value else []
  }

  /** The entry for one listed object: its URL is the public URL of its key. */
  function Entry(config: Config, obj: ObjectInfo): (e: ListEntry)
    ensures e.key == obj.key && e.size == obj.size && e.lastModified == obj.lastModified
    ensures e.url == PublicUrl(config, obj.key)
  {
    ListEntry(obj.key, obj.size, obj.lastModified, PublicUrl(config, obj.key))
  }

  /** `list_files(prefix=None, max_files=100)` */
  method ListFiles(config: Config, reply: Reply<Option<seq<ObjectInfo>>>, prefix: string := "",
                   maxFiles: int := 100)
    returns (request: ListRequest, r: Outcome<seq<ListEntry>>)
    ensures request == ListRequest(config.bucket, ListPrefix(config, prefix), maxFiles)
    ensures reply.ClientError? ==> r == Returned([])
    ensures reply.OtherError? <==> r.Raised?
    ensures reply.OtherError? ==> r.exception == BackendException(reply.message)
    ensures reply.Done? ==> r.Returned? && |r.value| == |Supplied(reply)|
    ensures r.Returned? ==> |r.value| <= |Supplied(reply)|
    ensures r.Returned? ==> forall i :: 0 <= i < |r.value| ==> r.value[i] == Entry(config, Supplied(reply)[i])
  {
    request := ListRequest(config.bucket, ListPrefix(config, prefix), maxFiles);
    match reply {
      case ClientError(_) =>
        r := Returned([]);
      case OtherError(message) =>
        r := Raised(BackendException(message));
      case Done(contents) =>
        var files: seq<ListEntry> := [];
        if contents.Some? {
          var objects := contents.value;
          for i := 0 to |objects|
            invariant |files| == i
            invariant forall j :: 0 <= j < i ==> files[j] == Entry(config, objects[j])
          {
            var obj := objects[i];
            files := files + [ListEntry(obj.key, obj.size, obj.lastModified, PublicUrl(config, obj.key))];
          }
        }
        r := Returned(files);
    }
  }

  // ---- delete_file (Spaces only) ----

  /** The call `delete_object(Bucket=..., Key=...)`. */
  datatype DeleteRequest = DeleteRequest(bucket: string, key: string)

  /** The dictionary `delete_file` returns. */
  datatype DeleteResult =
    | Deleted(key: string, message: string)
    | DeleteFailed(error: ErrorText, key: string)

  /** `delete_file(key)`: the request is sent without checking that the object
      exists, and the backend's answer decides the result. */
  function DeleteFile(config: Config, key: string, reply: Reply<()>): (r: (DeleteRequest, Outcome<DeleteResult>))
    requires config.SpacesConfig?
    ensures r.0 == DeleteRequest(config.bucket, key)
    ensures reply.Done? <==> r.1 == Returned(Deleted(key, DeletedMessage))
    ensures reply.ClientError? ==>
      r.1 == Returned(DeleteFailed(ErrorText(DeleteFailedContext, Message(reply.message)), key))
    ensures reply.OtherError? <==> r.1.Raised?
    ensures reply.OtherError? ==> r.1.exception == BackendException(reply.message)
  {
    var request := DeleteRequest(config.bucket, key);
    match reply
    case Done(_) => (request, Returned(Deleted(key, DeletedMessage)))
    case ClientError(message) =>
      (request, Returned(DeleteFailed(ErrorText(DeleteFailedContext, Message(message)), key)))
    case OtherError(message) => (request, Raised(BackendException(message)))
  }
}
