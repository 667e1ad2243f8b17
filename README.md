# Upload service: naming, placement, limits and response shaping

A Dafny model of the logic of a small Express upload service (`server.js`).
Two POST routes, `/api/upload/files` and `/api/upload/videos`, accept
multipart batches. An upload middleware checks each batch against the route's
limits and writes every part to disk under
`D:\file-uploads\<files|videos>\<timestamp>-<sanitised original name>`.
The handler then answers with JSON: an error becomes status 400 with
`success: false`, and a success carries one entry per stored file with its
download URL.

The model is purely functional, like the rules it models: a ternary, a
regex replace, a template string and an `Array.map`. The clock reading of
each stored part and the result of the disk writes are parameters.

Modules:

- `Wrappers`: an `Option` type.
- `Decimal`: decimal text of a natural number (the timestamp, the port, the
  count in the message) and its parser.
- `Naming`: the category chosen from the field name, the sanitiser and the
  stored name.
- `Paths`: the Windows `path.join` and `path.basename`, for one-segment names.
- `Limits`: the middleware's per-route limits, as a scan that stops at the
  first offending part and as a predicate over the whole batch.
- `Upload`: storing a batch, the handler's response, and end-to-end lemmas.

Sanitisation follows the code: every character of `/ : * ? " < > |` is
replaced by `-`, one for one. Forbidden characters are not deleted.

## Model

| member | source | states |
|---|---|---|
| `Naming.CategoryOf` | server.js:24 | the bucket is `Videos` exactly when the field name is `videos`; every other field name gives `Files` |
| `Naming.SubDirectory` | server.js:24 | the subdirectory is `videos` or `files`, and it is `videos` exactly when the field name is `videos` |
| `Naming.DirName` | server.js:24 | the directory name is `videos` exactly for the videos bucket |
| `Naming.CategoryOfDirName` | server.js:24 | each bucket is selected by the field name equal to its own directory name |
| `Naming.Sanitize` | server.js:31 | same length as the input; each forbidden character becomes `-` and every other character (non-ASCII included) stays at its position; no forbidden character remains |
| `Naming.SanitizeIdempotent` | server.js:31 | sanitising an already sanitised name returns it unchanged |
| `Naming.SanitizeFixedPoint` | server.js:31 | a name is left unchanged exactly when it contains no forbidden character |
| `Naming.SanitizeAppend` | server.js:31 | sanitising a concatenation equals concatenating the sanitised pieces (the replace is global and local to each character) |
| `Naming.StoredName` | server.js:31 | the stored name contains no forbidden character and is one character longer than timestamp text plus original |
| `Naming.SplitStoredNameRoundTrip` | server.js:30-31 | splitting a stored name at its first dash gives back the timestamp and the sanitised original |
| `Naming.StoredNameInjective` | server.js:30-31 | two stored names are equal exactly when their timestamps are equal and their originals sanitise alike |
| `Naming.DistinctInstantsDistinctNames` | server.js:30-31 | names made at different milliseconds always differ |
| `Naming.SameInstantCollision` | server.js:30-31 | in the same millisecond, `a:b` and `a?b` get the same stored name, so duplicates are not always avoided |
| `Decimal.Decimal` | server.js:31 | the decimal text is non-empty, all digits, and has no leading zero |
| `Decimal.ParseDecimal` | server.js:31 | parsing the decimal text of `n` gives `n` |
| `Decimal.DecimalInjective` | server.js:31 | two numbers have the same decimal text exactly when they are equal |
| `Paths.Join` | server.js:25 | the joined path is the directory, a backslash, then the name |
| `Paths.Basename` | server.js:60 | the basename is the longest suffix of the path without a separator: it is a suffix, it holds no separator, and it is preceded by a separator unless it is the whole path |
| `Paths.BasenameOfJoin` | server.js:60 | the basename of `join(dir, name)` is `name` when `name` has no separator |
| `Paths.BasenameCutsAtBackslash` | server.js:31 | a backslash, which the sanitiser keeps, cuts the basename: `a\b` joined gives basename `b` |
| `Limits.LimitsFor` | server.js:37-45 | files: at most 150 parts of at most 50·1024·1024 bytes; videos: at most 25 parts of at most 100·1024·1024 bytes |
| `Limits.Scan` | server.js:37-45 | no rejection exactly when every remaining part fits; a rejection names the first part that does not fit and the limit it breaks (count, then field name, then size) |
| `Limits.Admit` | server.js:37-45 | a refusal names a part of the batch that breaks a limit, and every part before it fits |
| `Limits.AdmitIffAdmissible` | server.js:37-45 | the middleware lets a batch through exactly when it has at most the route's part count, every part is under the route's field name, and every part is within the size limit |
| `Limits.AdmittedFieldIsRoute` | server.js:40 | every admitted part was sent under the route's field name, so the category chosen for it is the route's own |
| `Limits.OverCountRefused` | server.js:37-45 | a batch with too many parts, whose earlier parts all fit, is refused as too many at the first part over the count |
| `Limits.FilesAtLimitAccepted` | server.js:39-40 | 150 files of exactly 50 MiB are accepted |
| `Limits.FilesOverCountRefused` | server.js:39-40 | a 151st file is refused as too many |
| `Limits.FilesOverSizeRefused` | server.js:39 | a file of 50 MiB plus one byte is refused as too large |
| `Limits.VideosAtLimitAccepted` | server.js:44-45 | 25 videos of exactly 100 MiB are accepted |
| `Limits.VideosOverCountRefused` | server.js:44-45 | a 26th video is refused as too many |
| `Limits.VideosOverSizeRefused` | server.js:44 | a video of 100 MiB plus one byte is refused as too large |
| `Upload.StoredNameIsOneSegment` | server.js:31 | a stored name holds no path separator when the original holds no backslash |
| `Upload.Store` | server.js:21-33 | a stored part keeps its original name and size; its path is the directory chosen by its field name, a backslash, then the stored name; its basename is the stored name when the original has no backslash |
| `Upload.StoreAll` | server.js:21-33 | one stored file per part, in order, part `i` stored at clock reading `stamps[i]` |
| `Upload.ErrorMessage` | server.js:56 | every refusal carries a non-empty message |
| `Upload.Receive` | server.js:55-56 | the batch is stored exactly when it is admissible and no write failed; a refused batch carries the message of its first violation; an admitted batch whose write fails carries the write error's message; a stored batch is every part stored in order at its clock reading |
| `Upload.UrlPrefix` | server.js:60 | the download prefix of a bucket is `http://localhost:3000/uploads/<bucket>/`, with the port rendered in decimal |
| `Upload.Summaries` | server.js:57-61 | the map gives one entry per stored file, in order; entry `i` has file `i`'s original name and size, and its URL is the route's prefix plus the basename of file `i`'s path |
| `Upload.Summary` | server.js:57-61 | an entry keeps the stored file's original name and size; its URL is the bucket's prefix followed by one separator-free path segment |
| `Upload.SuccessMessage` | server.js:62 | the message starts with the success lead-in and ends with the noun of the bucket (files or videos) |
| `Upload.MessageCountRoundTrip` | server.js:62 | the count can be read back from the success message |
| `Upload.Respond` | server.js:54-77 | success exactly for stored outcomes; status 400 with the error message and no list on an error; on success status 200, a list under the route's key with as many entries as stored files, in order, entry `i` holding file `i`'s original name, its size, and the route's prefix plus the basename of its path, and a message whose count equals the list length |
| `Upload.Handle` | server.js:54-77 | the answer is a success exactly when the batch is admissible and no write failed; status 200 on success and 400 otherwise; no list on failure, one entry per part on success |
| `Upload.HandleWriteFails` | server.js:56 | an admitted batch whose disk write fails is answered 400, `success: false`, no list, with the write error's message |
| `Upload.HandleRefuses` | server.js:69 | a batch outside the limits is answered 400, `success: false`, no list, with the message of its first violation |
| `Upload.HandleAccepts` | server.js:70-75 | an admitted, written batch is answered 200 with one entry per part; entry `i` holds the original name, the size, and the route's prefix followed by the stored name of part `i` |
| `Upload.StoredInRouteBucket` | server.js:24-25 | an admitted part is written directly into the directory of the route's bucket, under its stored name; that is the bucket its download URL names |
| `Upload.DistinctDownloadUrls` | server.js:60 | two parts of one batch stored at different milliseconds get different download URLs |

## Left out

- Express setup, routing, CORS, static serving of `public/` and of the upload root, and `app.listen`: framework wiring with no logic of its own.
- Creating the storage directories with `fs.existsSync` and `fs.mkdirSync`: filesystem I/O.
- Multipart parsing, streaming and disk writes by the upload middleware: a foreign library. Only its limits are modelled. A write failure is a parameter (`writeError`) carrying its message.
- Upload.ErrorMessage: the messages `Too many files`, `Unexpected field` and `File too large` are the middleware's own texts, which are not in this repository.
- Limits.Scan: the order in which violations are reported (part count, then field name, then size, part by part) approximates the middleware's streaming checks. When a limit is broken and a write also fails, the model reports the limit.
- Upload.Receive: the model does not capture files that were written before a batch was refused. Those files stay on disk, or are removed by the middleware.
- `Date.now()`: each stored part takes its clock reading as a parameter (`stamps[i]`). The model does not assume the readings increase or differ.
- The size string `(size/1024/1024).toFixed(2) + 'MB'`: floating-point formatting. Entries carry the size in bytes instead.
- Paths.Basename: Windows `path.basename` also strips trailing separators, and `path.join` normalises `.` and `..` segments. Neither is modelled. The download-URL lemmas require an original name without a backslash.
- Original names reach the handler as base names: with the middleware's default settings (`preservePath` off) `originalname` holds neither `/` nor `\`. The backslash-free requirements of `Upload.Store`, `Upload.HandleAccepts` and `Upload.DistinctDownloadUrls` therefore hold for every name the handler receives; `Paths.BasenameCutsAtBackslash` describes a name the middleware does not deliver.
- Limits.LimitsFor: `fileSize` is read as an inclusive maximum (a part of exactly 50 MiB or 100 MiB is accepted), as in `Limits.FilesAtLimitAccepted` and `Limits.VideosAtLimitAccepted`. The repository pins no version of the middleware and its parser, and a version that refuses a part on reaching exactly `fileSize` bytes would refuse those parts.
- A POST whose body is not multipart: the middleware calls back with no error and no file list, `req.files.map` throws, and the framework answers 500 instead of the JSON 400. This error path is not modelled; `Upload.Handle` always has a list of parts.
- Console logging, and the Chinese text of the success message beyond the lead-in, the count and the noun.
