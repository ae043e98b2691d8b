# Read-through image cache: a Dafny model of the request handler

The system is a small HTTP proxy in front of `https://http.cat/`. A request
names a key in its path (`/418`). GET serves `<key>.jpg` from a cache
directory. On a miss it fetches the image from the upstream, writes it back
and serves it. PUT uploads a file for a key and DELETE removes it. Any other
verb is refused with 405. Before any of this, the handler removes the first
`/` from the URL and trims it. It then refuses the request with 400 when the
resulting key is empty or when JavaScript's `isNaN` holds of it.

The model has five modules:

- `KeyValidation` (`key_validation.dfy`) holds the key check as pure functions.
  It covers `replace('/', '')`, which removes the first `/` wherever it is, and
  `trim` over the full ECMAScript whitespace set. It also covers `isNaN`, as
  the StringNumericLiteral grammar that `Number()` accepts (section 7.1.4.1.1
  of ECMA-262). Lemmas prove that a numeric key holds only literal
  characters, so never a `/`, a `?` or a space.
- `KeyExamples` (`key_examples.dfy`) states what the key check decides for
  concrete URLs.
- `CacheStore` (`cache_store.dfy`) is the specification. The cache directory
  is a `map` from file name to bytes, and the key `k` owns the file
  `k + ".jpg"`. One request is a pure step from a directory to a response, a
  new directory and the list of operations it issued (file reads, writes,
  unlinks, upstream GETs). Two things are inputs to the step: what the
  upstream answers, and which storage operation fails.
- `CacheServer` (`cache_server.dfy`) is the handler as a class that owns the
  directory and updates it in place. It has one method per cache helper, one
  per verb, and `Serve` for the whole callback. Each method is proved to
  perform the step of `CacheStore`. The PUT body loop is `CollectBody`.
- `CacheProperties` (`cache_properties.dfy`) states what the handler
  guarantees, first per verb and then across requests.

`isNaN` converts the key with `Number()`, which refuses a numeric prefix
followed by other characters. So `/12abc` is answered 400
(`KeyExamples.PrefixNumericRejected`).

## Model

| member | source | states |
|---|---|---|
| `KeyValidation.RemoveFirstSlash` | index.js:70 | a URL without `/` is unchanged; a URL with one loses exactly one character |
| `KeyValidation.RemoveFirstSlashAt` | index.js:70 | the removed `/` is the first one: the text before it and the text after it are kept, in order |
| `KeyValidation.Trim` | index.js:70 | the result is the input minus leading and trailing JS whitespace only; it is empty exactly when the input is all whitespace, and otherwise starts and ends with non-whitespace |
| `KeyValidation.ExtractCode` | index.js:70 | the key of a URL: the URL minus its first `/`, trimmed (its properties are those of `RemoveFirstSlashAt`, `Trim` and `CodeOfPath`) |
| `KeyValidation.IsNumeric` | index.js:73 | `!isNaN(code)` for a trimmed, non-empty key: the key is a StringNumericLiteral of section 7.1.4.1.1 of ECMA-262 (an optionally signed decimal literal with optional fraction and exponent, `Infinity`, or a `0x`/`0o`/`0b` integer) |
| `KeyValidation.Validate` | index.js:70-76 | an accepted key is the trimmed URL minus its first `/`, is non-empty and numeric, and contains no `/`; a refused URL yields an empty or non-numeric key |
| `KeyValidation.NumericLiteralChars` | index.js:73 | every character of a string that `Number()` accepts is a digit, a hex letter, a radix or exponent mark, a sign, a `.` or a letter of `Infinity` |
| `KeyValidation.DigitsAreNumeric` | index.js:73 | a string of decimal digits passes `isNaN` |
| `KeyValidation.FractionIsNumeric` | index.js:73 | digits, `.`, digits (at least one digit) pass `isNaN` |
| `KeyValidation.ExponentIsNumeric` | index.js:73 | digits, `e`, digits pass `isNaN` |
| `KeyValidation.NegativeIsNumeric` | index.js:73 | a `-` in front of an unsigned decimal literal still passes `isNaN` |
| `KeyValidation.CodeOfPath` | index.js:70 | the key of `/` followed by a string without surrounding whitespace is that string |
| `KeyExamples.ValidateOfPath` | index.js:70-73 | the URL `/s` is accepted with key `s` exactly when `s` is non-empty and numeric |
| `KeyExamples.PrefixNumericRejected` | index.js:73 | `/12abc` is refused |
| `KeyExamples.FaviconRejected` | index.js:72-73 | `/favicon.ico` is refused |
| `KeyExamples.EmptyKeyRejected` | index.js:73 | `/` is refused, because the key is empty |
| `KeyExamples.IntegerKeyAccepted` | index.js:73 | `/418` is accepted with key `418` |
| `KeyExamples.FractionKeyAccepted` | index.js:73 | `/1.5` is accepted with key `1.5` |
| `KeyExamples.SignedKeyAccepted` | index.js:73 | `/-3` is accepted with key `-3` |
| `KeyExamples.HexKeyAccepted` | index.js:73 | `/0x1F` is accepted with key `0x1F` |
| `KeyExamples.ExponentKeyAccepted` | index.js:73 | `/1e3` is accepted with key `1e3` |
| `KeyExamples.InfinityKeyAccepted` | index.js:73 | `/Infinity` is accepted with key `Infinity` |
| `CacheStore.ReadCached` | index.js:43-50 | getCachedFile: the contents of `<key>.jpg`, or nothing when the file is missing or cannot be read |
| `CacheStore.SaveCached` | index.js:52-55 | saveCachedFile: `<key>.jpg` is created or overwritten with the data |
| `CacheStore.DeleteCached` | index.js:57-65 | deleteCachedFile on success: `<key>.jpg` is removed |
| `CacheStore.Flatten` | index.js:104-106 | `Buffer.concat` of the body chunks, in order |
| `CacheStore.GetStep` | index.js:83-100 | GET as a step: hit served with 200 image/jpeg; a miss fetches, writes back and serves; a failed fetch or write-back is 404 |
| `CacheStore.PutStep` | index.js:103-111 | PUT as a step: the body is written to the key's file and answered 201; a failed write reaches the outer catch and is 500 |
| `CacheStore.DeleteStep` | index.js:114-124 | DELETE as a step: 200 "Deleted" when the unlink succeeds, 404 "Not Found" otherwise |
| `CacheStore.Dispatch` | index.js:81-130 | the `switch` on the verb for a valid key: GET, PUT, DELETE, otherwise 405 |
| `CacheStore.Handle` | index.js:68-136 | the handler as a step: key check with 400, then the dispatch on the verb |
| `CacheStore.FileNameInjective` | index.js:44 | distinct keys have distinct cache files `<key>.jpg` |
| `CacheStore.FlattenAppend` | index.js:106 | joining two runs of chunks joins their contents in order |
| `CacheStore.FlattenLength` | index.js:106 | the joined body is as long as all its chunks together |
| `CacheServer.CollectBody` | index.js:104-106 | the loop over the body chunks yields their concatenation in order, of the summed length |
| `CacheServer.Server.GetCachedFile` | index.js:43-50 | returns the file's bytes when the file exists and is readable, otherwise nothing; the directory is unchanged and one read is issued |
| `CacheServer.Server.SaveCachedFile` | index.js:52-55 | when the write succeeds, the key's file holds exactly the data and every other file is unchanged; a failed write changes nothing |
| `CacheServer.Server.DeleteCachedFile` | index.js:57-65 | reports true exactly when the file existed and the unlink succeeded, in which case the file is removed; otherwise nothing changes |
| `CacheServer.Server.FetchUpstream` | index.js:88-89 | issues the GET to the upstream URL of the key and returns its body on success, nothing on failure |
| `CacheServer.Server.HandleGet` | index.js:83-100 | response, new directory and issued operations are those of the GET step |
| `CacheServer.Server.HandlePut` | index.js:103-111 | response, new directory and issued operations are those of the PUT step on the joined body |
| `CacheServer.Server.HandleDelete` | index.js:114-124 | response, new directory and issued operations are those of the DELETE step |
| `CacheServer.Server.Serve` | index.js:68-136 | the whole callback performs the handler's step: key check, then dispatch on the verb |
| `CacheProperties.InvalidKeyTouchesNothing` | index.js:70-76 | an empty or non-numeric key gives 400 for every verb, leaves the directory unchanged and issues no file or network operation |
| `CacheProperties.ForeignCharRejected` | index.js:73 | a key holding a character no numeric literal has (a second `/`, a `?`, an inner space) is refused |
| `CacheProperties.GetHit` | index.js:84-98 | a readable cached file is served as 200 image/jpeg with exactly its bytes; the directory is unchanged and the only operation is the read, so the upstream is not asked |
| `CacheProperties.EmptyFileIsHit` | index.js:85 | an empty cached file still counts as a hit: 200 with an empty body and no upstream request |
| `CacheProperties.GetMissFills` | index.js:85-91 | on a miss with a successful fetch and write-back, the fetched bytes are stored under the key and served with 200, after a read, a fetch and a write |
| `CacheProperties.GetMissFails` | index.js:87-95 | on a miss whose fetch fails, or whose write-back fails, the answer is 404 and the directory is unchanged; a failed fetch issues no write |
| `CacheProperties.GetStatus` | index.js:83-99 | GET answers 200 exactly when the file was read, or was fetched and written back, and 404 otherwise |
| `CacheProperties.PutStores` | index.js:103-110 | PUT sets the key's file to the concatenated body and overwrites any earlier content; all other files are unchanged; answers 201 and asks nothing of the upstream |
| `CacheProperties.PutWriteError` | index.js:131-135 | a PUT whose write fails answers 500 and changes nothing |
| `CacheProperties.DeleteReports` | index.js:114-123 | DELETE answers 200 "Deleted" exactly when the file existed and was unlinked, which removes it; otherwise it answers 404 "Not Found" and changes nothing |
| `CacheProperties.OtherVerbRefused` | index.js:127-129 | a verb other than GET, PUT or DELETE on a valid key answers 405, leaves the directory unchanged and issues nothing |
| `CacheProperties.StatusCodes` | index.js:68-136 | every response status is one of 200, 201, 400, 404, 405, 500 |
| `CacheProperties.StepsKeepOtherFiles` | index.js:43-65 | the GET, PUT and DELETE steps on one key leave every other file exactly as it was |
| `CacheProperties.OnlyOwnEntryChanges` | index.js:44-58 | a request on one key never changes the file of any other key |
| `CacheProperties.StepsTouchOwnKey` | index.js:43-65 | every operation of the GET, PUT and DELETE steps names only the key's own file or its own upstream URL |
| `CacheProperties.OnlyOwnEffects` | index.js:88 | every operation a request issues names only its own key's file or its own upstream URL |
| `CacheProperties.WriteThenRead` | index.js:103-110 | after a successful PUT, a GET of the same key serves the written bytes, changes nothing and asks nothing of the upstream |
| `CacheProperties.FillThenHit` | index.js:84-91 | a GET that filled the cache is followed by a hit with the same bytes and no second upstream request |
| `CacheProperties.DeleteThenGet` | index.js:114-123 | after a successful DELETE, a GET with the upstream failing answers 404, a second DELETE answers 404, and the file is gone |
| `CacheProperties.PutGetDeleteRun` | index.js:81-124 | PUT, GET, DELETE, GET with the upstream down, then DELETE on one key answer 201, 200 with the uploaded bytes, 200, 404 and 404, and the key's file is removed |
| `CacheProperties.Scenario418` | index.js:81-124 | the same run on `/418` writes, serves and removes `418.jpg` |

## Left out

- Command-line parsing and its error messages (index.js:8-29), the creation of the cache directory, and `server.listen`. These are startup configuration. The cache root is a fixed directory and the model keys it by file name.
- The network. The upstream answer is an input of each request, `Fetched(bytes)` or `FetchFailed`. Any rejected request (a network error or a non-2xx answer) is `FetchFailed`. How superagent parses a body of a non-image content type is not modelled: the oracle yields bytes.
- Real file-system semantics and `path.join`. The directory is a map from file name to bytes. A failed `writeFile` leaves the map unchanged, so a truncated file left by an interrupted write is not modelled. A valid key contains no `/` (`KeyValidation.Validate`), so `path.join` adds nothing beyond the file name.
- Errors while streaming the request body (an aborted upload), which would reach the 500 path. The PUT body is a given list of chunks.
- Errors raised by `res.writeHead`/`res.end` themselves, console logging, and all headers except `Content-Type`.
- Concurrency. Requests are handled one after another. The stampede of two concurrent misses and reads interleaved with writes or deletes are not modelled.
- JavaScript strings are UTF-16 code units, while Dafny characters are Unicode scalar values. Lone surrogates cannot occur in the model.
