# filesfolders: the decision layer of a Kudu VFS / triggered-webjobs client

`updater/filesfolders.js` is a thin client for two HTTP APIs of an Azure
website's Kudu service. The VFS API creates, deletes, lists and uploads files
and directories. The triggered-webjobs API replaces, inspects and runs
background jobs. Almost everything it does is I/O. This project models the
small layer of decisions inside that I/O, without any I/O:

- **`checkForError`**: the heuristic that spots an authentication failure the
  website serves as an HTML page instead of a 401 status. It first unwraps a
  promisified result that packs the response in an array. A response is then
  flagged when its content type is exactly `text/html` and its body contains
  `401 - Unauthorized`.
- **Request construction**: the verb, URL, credentials, headers and body of
  every request each operation issues. Directory targets get a `/` or
  `/?recursive=true` suffix.
- **Settlement**: how each operation's promise settles from the transport's
  result. It resolves with the response or the body, rejects with the
  transport error or the credentials message, or never rejects at all.

Each operation is a function from its inputs to a `Run`. A `Run` holds the
requests the operation issues, in order, and the first settlement of its
promise. The inputs are:

- a `Config`, standing for `config.website` and `config.auth()`;
- the transport's answers, as `Transport` values;
- for `upload`, whether the local source file exists.

Files:

- `js_string.dfy` (module `JsString`): JavaScript's `String.prototype.indexOf`.
  It is proved to find the first occurrence, and to find one exactly when a
  reference "contains" predicate holds.
- `filesfolders.dfy` (module `FilesFolders`): the data model, `CheckForError`,
  request construction and the ten operations.
- `filesfolders_properties.dfy` (module `FilesFoldersProperties`): lemmas
  relating several calls. They cover wrapped and bare responses, the exact
  content-type test, directory suffixes, settlement order, the missing source
  in `upload`, and the DELETE-then-PUT of `uploadWebjob`.

JavaScript values are modelled by `Value`: `undefined`, a string, a response
object or an array. This lets the model follow line 214 exactly. A bare
response is examined as it is. A `[response]` or `[response, body]` array is
replaced by its first element when that element has headers. An array whose
first element has no headers is examined as an array, and an array never has
headers. The promisified calls `mk`, `rm` and `list` take a `Packing`
parameter. It says whether the promise library fulfils with the response alone
or with `[response, body]`. The DELETE of `uploadWebjob` is promisified too, but
it needs no `Packing`: its `.then(function () {…})` ignores the fulfilled value.

Three behaviours of the code worth noting:

- On a transport error, `mk` and `rm` resolve with `undefined`, the value of
  `console.log`. They do not resolve with a response.
- The `Content-Disposition` header of `uploadWebjob` is
  `attachement; filename=<name>`, with the misspelling as written.
- `uploadWebjob` does not check that the source file exists. Only `upload`
  does.

## Model

| member | source | states |
|---|---|---|
| `JsString.IndexOfFrom` | updater/filesfolders.js:219 | the search from an offset returns -1 exactly when no occurrence starts at or after it; otherwise it returns an occurrence with none before it |
| `JsString.IndexOf` | updater/filesfolders.js:219 | `indexOf` is above -1 exactly when the pattern occurs at some offset, and then it is the first occurrence |
| `FilesFolders.Unwrap` | updater/filesfolders.js:214 | the examined value is the first element of an array whose first element has headers, and otherwise the input itself |
| `FilesFolders.CheckForError` | updater/filesfolders.js:212-225 | returns a message exactly when the unwrapped value is a response with content type exactly `text/html` and a body containing `401 - Unauthorized`; the message is always the fixed "Invalid Credentials" text |
| `FilesFolders.Promised` | updater/filesfolders.js:7 | a promisified call fulfils with the response, or with `[response, body]`; either way `checkForError`'s unwrapping recovers the response when it has headers |
| `FilesFolders.Swallowed` | updater/filesfolders.js:32-34 | `.then(r => r).catch(console.log)` always resolves: with the fulfilled value, or with `undefined` after an error |
| `FilesFolders.Screened` | updater/filesfolders.js:56-61 | after a completed request, the promise rejects with the credentials message exactly on an auth-failure page and otherwise resolves with the success value |
| `FilesFolders.Settled` | updater/filesfolders.js:138-155 | callback settlement order: a transport error rejects with that error; else an auth-failure page rejects with the message; else the promise resolves with the response, or the body |
| `FilesFolders.Mk` | updater/filesfolders.js:27-35 | one PUT to the VFS URL, suffixed `/` for a directory; never rejects; resolves with the fulfilled value or `undefined` |
| `FilesFolders.MkDir` | updater/filesfolders.js:11-13 | a PUT to `base/api/vfs/<dir>/`; never rejects; resolves with the fulfilled value, or `undefined` after a transport error |
| `FilesFolders.MkFile` | updater/filesfolders.js:15-17 | a PUT to `base/api/vfs/<file>` with no suffix; never rejects; resolves with the fulfilled value, or `undefined` after a transport error |
| `FilesFolders.Rm` | updater/filesfolders.js:37-46 | one DELETE to the VFS URL, suffixed `/?recursive=true` for a directory; never rejects; resolves with the fulfilled value or `undefined` |
| `FilesFolders.RmDir` | updater/filesfolders.js:19-21 | a DELETE to `base/api/vfs/<dir>/?recursive=true`; never rejects; resolves with the fulfilled value, or `undefined` after a transport error |
| `FilesFolders.RmFile` | updater/filesfolders.js:23-25 | a DELETE to `base/api/vfs/<file>` with no suffix; never rejects; resolves with the fulfilled value, or `undefined` after a transport error |
| `FilesFolders.List` | updater/filesfolders.js:48-67 | a GET to `base/api/vfs/<target>/`; a transport error rejects with it, an auth-failure page rejects with the message, anything else resolves with the fulfilled value |
| `FilesFolders.Upload` | updater/filesfolders.js:69-92 | a missing source rejects with "The file <source> does not exist or cannot be read." and issues no request; otherwise the file is piped into a PUT to `base/api/vfs/<target>`, which rejects only on a transport error and otherwise resolves with the response |
| `FilesFolders.UploadWebjob` | updater/filesfolders.js:94-131 | a DELETE of `base/api/triggeredwebjobs/<name>` comes first; a transport failure there rejects and no PUT follows; otherwise a PUT of the file to the same URL follows, with the `Content-Disposition` header, and the callback settlement applies to it |
| `FilesFolders.GetWebjobInfo` | updater/filesfolders.js:133-157 | a GET to `base/api/triggeredwebjobs/<name>`, settled by the callback rule, resolving with the response |
| `FilesFolders.GetWebjobLog` | updater/filesfolders.js:159-182 | a GET to the given absolute URL, settled by the callback rule, resolving with the body |
| `FilesFolders.TriggerWebjob` | updater/filesfolders.js:184-210 | a POST to `base/api/triggeredwebjobs/<name>/run`, settled by the callback rule, resolving with the response |
| `FilesFoldersProperties.WrappedSameAsBare` | updater/filesfolders.js:214 | a response with headers gets the same verdict bare, as `[response]` or as `[response, ...rest]` |
| `FilesFoldersProperties.WrappedHeaderlessIsClean` | updater/filesfolders.js:214-216 | an array whose first element lacks headers is examined as it is and is never flagged |
| `FilesFoldersProperties.ContentTypeIsExact` | updater/filesfolders.js:216 | any content type other than exactly `text/html` is not flagged, bare or wrapped |
| `FilesFoldersProperties.CharsetNotFlagged` | updater/filesfolders.js:216 | `text/html; charset=utf-8` is not flagged, whatever the body |
| `FilesFoldersProperties.MissingPartsAreClean` | updater/filesfolders.js:216-219 | missing headers, a missing content type or a missing body are never flagged |
| `FilesFoldersProperties.TruncatedMarkerNotFlagged` | updater/filesfolders.js:219 | a body that is a proper prefix of the marker is not flagged, whatever the headers |
| `FilesFoldersProperties.MarkerInsidePageFlagged` | updater/filesfolders.js:219-220 | an HTML body with the marker at any offset is flagged with the credentials message |
| `FilesFoldersProperties.FlagSurvivesSurroundingText` | updater/filesfolders.js:216-220 | a flagged body stays flagged, with the same message, when any text is added before or after it |
| `FilesFoldersProperties.DirectoryIsSuffix` | updater/filesfolders.js:27-40 | `mkDir(p)` behaves as `mkFile(p + '/')`, and `rmDir(p)` as `rmFile(p + '/?recursive=true')` |
| `FilesFoldersProperties.ListAddressesDirectory` | updater/filesfolders.js:28-50 | `list(p)` GETs the same URL that `mkDir(p)` PUTs to |
| `FilesFoldersProperties.MutationsSettleAlike` | updater/filesfolders.js:32-45 | `mk` and `rm` settle identically on the same transport result, and never with a rejection, so a caller cannot observe the transport error |
| `FilesFoldersProperties.ListIgnoresPacking` | updater/filesfolders.js:54-61 | whether and why `list` rejects does not depend on how the promise library packs the result |
| `FilesFoldersProperties.ReadsSettleAlike` | updater/filesfolders.js:54-208 | `list` on a bare response, `getWebjobInfo` and `triggerWebjob` settle identically; `getWebjobLog` rejects on the same inputs and resolves with the body |
| `FilesFoldersProperties.LogIsNeverFailurePage` | updater/filesfolders.js:163-178 | when the callback's body is the response's body, a log text that `getWebjobLog` resolves with from a response whose content type is exactly `text/html` never contains `401 - Unauthorized` |
| `FilesFoldersProperties.UploadDoesNotScreen` | updater/filesfolders.js:82-89 | an auth-failure page that `getWebjobInfo` rejects, `upload` resolves with |
| `FilesFoldersProperties.MissingSourceIssuesNothing` | updater/filesfolders.js:74-76 | with a missing source, `upload` rejects without issuing a request, whatever the transport would do |
| `FilesFoldersProperties.DeleteStatusIgnored` | updater/filesfolders.js:102-104 | once the DELETE completes, its response makes no difference to `uploadWebjob` |
| `FilesFoldersProperties.DeleteBeforePut` | updater/filesfolders.js:96-108 | the DELETE precedes the PUT, and both address the job URL that `getWebjobInfo` reads |

## Left out

- The HTTP transport (`request` and its promisified `*Async` variants) is not modelled. Each call's result is an input `Transport` value, and the promise library's packing is the `Packing` parameter.
- The local filesystem is reduced to a boolean "source exists" and a `FileStream(source)` request body. This covers `fs.existsSync`, `fs.createReadStream` and piping the stream into the request.
- `uploadWebjob` opens its source without checking that it exists. In the code, a missing file surfaces as an error event on the stream. The model does not represent that event.
- `config.website` and `config.auth()` come from a configuration module that is not part of this model. They are the `Config` parameter.
- The `debug(...)` and `console.log` logging is left out. It is a side effect with no effect on results.
- Asynchrony and promise scheduling are left out. Each operation yields its first settlement.
- In `uploadWebjob`, `getWebjobInfo`, `getWebjobLog` and `triggerWebjob`, the callback rejects on a transport error without returning. It then calls `checkForError` on an undefined response, which throws inside the callback. The model keeps the rejection, which is the first settlement, and does not model the exception thrown after it. For the same reason, `CheckForError` requires a defined value.
- `Transport.Ok` carries the callback's `body` apart from `response.body`, and the model does not require them to be equal, although the `request` library makes them so. Only `LogIsNeverFailurePage` depends on their equality, and it assumes it through `BodyMirrored`.
- HTTP header-name case folding is left out. Headers are looked up under the lower-case `content-type` key, as the HTTP stack delivers them.
