# File upload tool: uploaders to DigitalOcean Spaces and Amazon S3

This project models the core of the file upload tool's two uploader classes,
`DOSpacesUploader` (do_uploader.py) and `S3Uploader` (uploader.py), and
proves what they promise. The classes are near twins, so one model covers
both. The `Config` datatype has one constructor per class, and each keeps its
own URL form, defaults and error texts.

Modules, one per file:

- `Wrappers`: `Option` and `Result`.
- `PyStrings`: the Python string operations the classes use: `strip`, `rstrip('/')`, `split('=', 1)` and the first-occurrence search behind `in` and `split`.
- `Paths`: the part of `pathlib.PurePosixPath` they use: parsing, `/`, `.name` and `.parent`.
- `UrlParse`: the `path` part of `urllib.parse.urlparse`.
- `EnvFile`: `_load_env_file`. The `.env` file is a fold over its lines, and `os.environ` is the class `Environment`, which the loader updates in place.
- `Config`: each `__init__`: validation of the required variables and the defaults.
- `Naming`: `get_content_type`, `generate_space_key` / `generate_s3_key` and `get_public_url` / the inline S3 URL.
- `LocalFs`: the local filesystem as a class `FileSystem`. It holds the set of directories and the sizes of the regular files, which `open`, the write loop and `unlink` change.
- `Transfer`: `upload_file`, `upload_from_url`, `list_files` and `delete_file`. Only `DOSpacesUploader` has `delete_file`, so `DeleteFile` requires a Spaces configuration.

Outside effects are parameters:

- Each call receives the storage service's answer as a `Reply` value and the HTTP download's outcome as a `Download` value. It returns the request it sent, so what is sent can be stated.
- `mimetypes.guess_type` is a function parameter, `MimeGuess`.
- The clock is a parameter. The upload timestamp and the `%Y%m%d_%H%M%S` stamp of a generated filename are opaque strings.
- The Python code's default arguments are Dafny default parameters: `make_public` is `DefaultMakePublic(config)` (True for Spaces, False for S3), `destination` and `filename` are "" (standing for None), and `max_files` is 100. The outside answers come before them in each signature.

Both classes keep several behaviours that look like accidents, and the model keeps them too:

- The temporary file of `upload_from_url` is always `temp_<filename>`. A file already at that path is overwritten and then deleted (`UploadFromUrl`).
- The `temp_` prefix ends up in the object key and in the `filename` field when no destination key is given (`TempPrefixLeaks`).
- The `Content-Type` header of the download is read and never used.
- A prefix made only of slashes gives the key `"/" + filename` (`AllSlashPrefix`).
- A name taken from the URL can be indistinguishable from a generated `download_<stamp>` (`UrlNameLooksGenerated`).

Behaviours the model keeps as the code has them:

- `raise_for_status` rejects only statuses 400 to 599, not every status outside 2xx.
- A failed inner upload is returned without `source_url`.
- If the cleanup in `finally` raises, that exception replaces the result. This happens when a directory sits at the temporary path. Opening that path for writing fails, and `unlink` then raises `IsADirectoryError`.
- The listing is bounded only by what the service returns for `MaxKeys`. The code itself never truncates.
- A local `OSError` while opening or writing the temporary file is caught by the generic handler and returned as "Upload from URL failed", not raised; a broken download stream is "Failed to download from URL".

## Model

| member | source | states |
|---|---|---|
| PyStrings.IndexOf | do_uploader.py:34-35 | the position of the first occurrence of a character, or the length when the character is absent |
| PyStrings.RStrip | do_uploader.py:94 | `rstrip('/')` gives a prefix of the input that does not end in '/', and everything it drops is '/' |
| PyStrings.StripTrims | do_uploader.py:33 | `strip()` gives a string that neither starts nor ends with whitespace, and gives "" exactly when the line is all whitespace |
| PyStrings.StripIsInfix | do_uploader.py:33 | `strip()` gives a contiguous piece of the line, with only whitespace removed on either side |
| PyStrings.SplitFirst | do_uploader.py:35 | `split('=', 1)` gives a key without '=' and a value that rebuild the line around its first '=' |
| Paths.Path.Name | do_uploader.py:131 | `.name` is "" exactly for a path without components; otherwise it is a single component (non-empty, not ".", no '/') and it is the last one: the parent's components followed by it are the path's components |
| Paths.PathOf | do_uploader.py:209 | `Path(s)` is absolute iff `s` starts with '/', and it keeps only non-empty components other than "." |
| Paths.ComponentsAppend | do_uploader.py:209 | appending "/" and a component to any string appends exactly that component to the components `Path` keeps |
| Paths.PathOfLastSegment | do_uploader.py:209-210 | the `.name` of `Path(d + "/" + c)` is the component `c`, and its parent has the components of `Path(d)` |
| Paths.ComponentConcat | do_uploader.py:216 | a component followed by text without '/' is still a single component |
| Paths.JoinComponent | do_uploader.py:216 | `dir / name` for a single component is a path named `name` whose parent is `dir` |
| UrlParse.UrlPath | do_uploader.py:208-209 | the path `urlparse` returns never contains the query ('?') or the fragment ('#') |
| UrlParse.HttpsUrlPath | do_uploader.py:208-209 | for `https://` + host + path + tail, where the host has no '/', '?' or '#', the path starts with '/' and has no '?', '#' or ';', the tail is empty or starts a query or fragment, and there is no tab or line break, `urlparse(url).path` is exactly the path |
| EnvFile.ParseLine | do_uploader.py:33-35 | a stripped line is an assignment iff it is non-empty, is not a `#` comment and contains '='; the key is the text before the first '=', which it does not contain, and the value is everything after |
| EnvFile.ApplyEffect | do_uploader.py:34-37 | one line never removes a variable and never changes one with a non-empty value; only the assigned variable can change, and only to the assigned non-empty value, which it takes when it was unset or empty |
| EnvFile.LoadLinesStep | do_uploader.py:32-37 | loading one more line applies that line to the environment loaded so far |
| EnvFile.KeepsSetVariables | do_uploader.py:36 | a variable that already has a non-empty value is never overwritten |
| EnvFile.OnlyAdds | do_uploader.py:36-37 | loading never removes a variable |
| EnvFile.ValuesComeFromLines | do_uploader.py:34-37 | every loaded value was there before, or is the non-empty value of some line assigning that name |
| EnvFile.FirstAssignmentWins | do_uploader.py:36-37 | an unset or empty variable ends with the value of the first line that assigns it a non-empty value |
| EnvFile.LeavesUnassigned | do_uploader.py:34-37 | a variable that no line assigns a non-empty value keeps its presence and its value |
| EnvFile.LoadDotEnv | do_uploader.py:29-37 | without a `.env` the environment is unchanged, and loading one never removes a variable |
| EnvFile.Environment.LoadEnvFile | do_uploader.py:27-37 | the loop leaves `os.environ` equal to the fold of the lines over the old environment, or unchanged when there is no `.env`; uploader.py:27-37 is the same loader |
| Config.SpacesFromEnv | do_uploader.py:45-62 | construction succeeds iff key, secret, endpoint and bucket are set and non-empty; otherwise the error names all four; region defaults to "nyc3", the CDN URL and prefix to "" |
| Config.S3FromEnv | uploader.py:45-59 | construction succeeds iff key, secret and bucket are set and non-empty; otherwise the error names all three; region defaults to "us-east-1", the prefix to "" |
| Config.NewSpacesUploader | do_uploader.py:39-62 | `.env` is loaded into the environment first, and validation reads the loaded environment |
| Config.NewS3Uploader | uploader.py:39-59 | `.env` is loaded into the environment first, and validation reads the loaded environment |
| Naming.ContentType | do_uploader.py:79-82 | the content type is never empty: it is the guessed type when that is non-empty, and `application/octet-stream` when the guess is None or empty; uploader.py:74-77 is the same rule |
| Naming.GenerateKey | do_uploader.py:84-99 | every key ends with the filename, and with neither custom path nor prefix the key is the filename; uploader.py:79-94 (`generate_s3_key`) is the same rule |
| Naming.CustomPathWins | do_uploader.py:86-91 | with a custom path the key is that path, one '/', and the filename, whatever the configured prefix |
| Naming.CustomPathTrailingSlash | do_uploader.py:89-90 | a custom path with or without its trailing '/' gives the same key |
| Naming.PrefixJoin | do_uploader.py:92-94 | with a prefix and no custom path the key is the prefix without trailing slashes, '/', and the filename; extra trailing slashes on the prefix change nothing |
| Naming.RStripTrailing | do_uploader.py:94 | `rstrip('/')` ignores any number of trailing slashes |
| Naming.AllSlashPrefix | do_uploader.py:94 | a prefix made only of slashes gives the key "/" followed by the filename |
| Naming.KeyExamples | uploader.py:79-94 | the three branches of `generate_s3_key` on sample inputs |
| Naming.ObjectKey | do_uploader.py:131-132 | a non-empty destination is the key verbatim; otherwise the key is the one generated for the file's `.name` with no custom path |
| Naming.PublicUrl | do_uploader.py:101-109 | every URL is the backend's base followed by the key |
| Naming.CdnUrl | do_uploader.py:103-106 | with a CDN URL, the URL is the CDN base without trailing slashes, one '/', and the key |
| Naming.VirtualHostedUrl | do_uploader.py:107-109 | without a CDN URL, the Spaces URL is `https://<bucket>.<endpoint>/<key>`; the S3 URL of uploader.py:137 and 276 is `https://<bucket>.s3.<region>.amazonaws.com/<key>`, with no CDN override |
| Naming.PublicUrlInjective | do_uploader.py:101-109 | different keys get different URLs, and a URL ends with its key |
| Naming.CdnExample | do_uploader.py:105-106 | a CDN base with a trailing slash does not double the slash |
| LocalFs.FileSystem.OpenError | do_uploader.py:227 | opening for writing succeeds iff the path is not a directory and its parent is an existing directory (not a file); a directory at the path gives `IsADirectoryError`, a regular file at the parent `NotADirectoryError`; when the parent is missing, the error is `NotADirectoryError` iff walking down from the root reaches a regular file before a missing component, `FileNotFoundError` otherwise |
| LocalFs.FileAboveParent | do_uploader.py:222-227 | with the file `/tmp/temp_a` present, `--filename a/b/c` opens `/tmp/temp_a/b/c` and gets `NotADirectoryError`, not `FileNotFoundError` |
| LocalFs.FileSystem.OpenForWrite | do_uploader.py:227 | `open(p, 'wb')` creates or truncates `p` to size 0 and changes nothing else; on error nothing changes |
| LocalFs.FileSystem.Append | do_uploader.py:228-229 | the write loop grows the open file by the bytes written and changes nothing else |
| LocalFs.FileSystem.Unlink | do_uploader.py:262 | `unlink` removes a file, refuses a directory with `IsADirectoryError`, and fails with `FileNotFoundError` on a missing path |
| Transfer.PutRequestFor | do_uploader.py:131-138 | the upload always carries a non-empty content type, the key `ObjectKey` chooses, and the public-read ACL iff the file is to be public |
| Transfer.UploadFile | do_uploader.py:111-189 | a missing path raises FileNotFoundError and a non-file raises ValueError, both before any request; otherwise the request is sent and a backend error of any kind is a failure result with the error text and filename, never an exception; success carries the public URL of the key, the size on disk and the content type; uploader.py:96-174 is the same, with its own URL and "S3 upload failed" |
| Transfer.DefaultUpload | do_uploader.py:111 | with the default arguments the upload goes to the generated key and is public-read on Spaces; uploader.py:96 makes it private on S3 |
| Transfer.DownloadName | do_uploader.py:207-212 | a given filename is used as is; otherwise the name is the `.name` of the URL's path when that path has components, and `download_<stamp>` when it has none |
| Transfer.DownloadNameFromUrl | do_uploader.py:207-210 | for an https URL whose path ends in the component `c`, followed by nothing, a query or a fragment, the derived filename is `c` |
| Transfer.UrlNameLooksGenerated | do_uploader.py:207-212 | a URL whose last segment is `download_<stamp>` yields exactly the name the clock would have produced, although its path has components |
| Transfer.DerivedNameIsComponent | do_uploader.py:207-212 | a derived filename, from the URL's last path segment or `download_<stamp>`, is a single path component |
| Transfer.TempDirectory | do_uploader.py:215 | the download directory is the absolute path "/tmp" when it exists, and the working directory otherwise |
| Transfer.TempFile | do_uploader.py:216 | for a name without '/', the temporary file lies directly in the download directory and is named `temp_<name>` |
| Transfer.TempPrefixLeaks | do_uploader.py:216-235 | without a destination, the uploaded key is the key generated for `temp_<filename>`, and with no prefix it is `temp_<filename>` itself |
| Transfer.UrlAttempt | do_uploader.py:218-258 | the upload is sent iff the download succeeded, the temporary file could be opened and the whole body was written; a request error, HTTP 4xx/5xx or a broken stream gives "Failed to download from URL" with its message, a local open or write error gives "Upload from URL failed", both with `source_url`; an inner failure is the inner error text with no `source_url` |
| Transfer.UploadDownloaded | do_uploader.py:235-239 | the inner upload of the downloaded file; `source_url` is added only to a success |
| Transfer.UploadTemp | do_uploader.py:235-239 | calling `upload_file` on the downloaded file and adding `source_url` to a success gives `UploadDownloaded` |
| Transfer.DownloadAndUpload | do_uploader.py:218-258 | the `try` block's result and request are `UrlAttempt`, and it changes no local path but the temporary file |
| Transfer.RemoveIfExists | do_uploader.py:259-262 | the cleanup removes the temporary file, or raises `IsADirectoryError` when a directory is in the way |
| Transfer.UploadFromUrl | do_uploader.py:191-262 | on every return the temporary path no longer exists and no other path changed; the call raises only when a directory occupies the temporary path (for names the operating system accepts); otherwise the result is `UrlAttempt`; uploader.py:176-247 is the same |
| Transfer.ListPrefix | do_uploader.py:276 | a non-empty prefix argument wins over the configured prefix |
| Transfer.Entry | do_uploader.py:286-292 | a listed entry keeps the object's key, size and time, and its URL is the public URL of the key |
| Transfer.ListFiles | do_uploader.py:264-298 | the request uses the chosen prefix and `max_files` (100 by default); the loop gives one entry per object in service order and never more; a ClientError gives []; any other error propagates; uploader.py:249-283 is the same, with the S3 URL |
| Transfer.DeleteFile | do_uploader.py:300-334 | the delete request is sent with no existence check; success gives the key and "File deleted successfully"; a ClientError gives a failure with "Failed to delete file" and the key; any other error propagates |

## Left out

- boto3 and requests transport: creating the client, uploading, listing, deleting and downloading are not modelled. Each call receives the outcome as a parameter, and a failure to create the client in `__init__` is not modelled.
- The bytes of the downloaded file: the 8 KiB chunk loop is one `Append` of the byte count that arrived. Byte contents do not affect any claim.
- `mimetypes.guess_type`: its extension table is system data, so the model takes the guess as a function parameter.
- `datetime.utcnow()`: timestamps are opaque string parameters, and their formatting is not modelled.
- `_format_size` (floating-point formatting) and every `print`.
- `main()` and its argparse command line, including the exit code.
- The example, test and configuration scripts. They only call the API or define constants.
- EnvFile.Environment.LoadEnvFile: assigning a key that is empty or contains NUL, or a value that contains NUL, makes `os.environ` raise. The model does not capture that, because it is a check inside the runtime.
- EnvFile.Environment.LoadEnvFile: a `.env` that exists but cannot be read (for example a directory) raises from `open`. The model only distinguishes a present list of lines from an absent file.
- Filesystem consistency: the model does not require every ancestor of an existing path to be a directory. `OpenError` consults the ancestors above the parent only when the parent is missing, which agrees with the OS on every state a real filesystem can be in.
- UrlParse.UrlPath: `urlsplit` raises `ValueError` for a malformed IPv6 network location, and for a non-ASCII network location whose NFKC normalisation contains '/', '?', '#', '@' or ':' (such as `https://a\u2100b/x.pdf`). That error would escape `upload_from_url` before its `try`, and the model does not capture it. The model takes only the path.
- Paths.PathOf: pathlib keeps a leading "//" as a separate root. The model treats it like "/".
- Transfer.UploadFromUrl: the file may fail to `stat()` between the write and the upload. That outside interference is not modelled.
- Transfer.UploadFromUrl: file permissions are not modelled. In a shared /tmp, `temp_<name>` may belong to another user: `open` then raises `PermissionError`, which becomes "Upload from URL failed", and the `unlink` in `finally` raises `PermissionError`, which escapes. The model's claim that only a directory at the temporary path makes the call raise holds only without permissions.
- LocalFs.FileSystem.OpenError: names the operating system refuses are not modelled. A component longer than 255 bytes makes `open` raise `OSError` (ENAMETOOLONG), and a NUL character makes it raise `ValueError`. The model opens such a name like any other, because it has no byte length and no name rules.
- Transfer.UploadFromUrl: for a temporary name the operating system refuses, the model sends the upload and returns its result. The code fails instead. With a name that is too long, `open` (do_uploader.py:227) raises, the handler at line 251 turns this into "Upload from URL failed", and then on Python 3.12 and earlier `temp_file.exists()` in `finally` (line 261) raises ENAMETOOLONG again, which escapes. With a NUL in the name, the `ValueError` from `open` becomes "Upload from URL failed" at the same handler, and `exists()` answers False, so that failure is returned. The model does not capture either outcome.
- Transfer.UploadFromUrl: paths are compared as text. Paths that differ only by `..` or by symbolic links name the same file in the operating system, but not in the model.
- Transfer.DownloadName: the stamp of `download_<stamp>` is an opaque parameter; the `%Y%m%d_%H%M%S` format is not modelled beyond having no '/'.
