/**
 * The cache-aside store and the request handler, as pure functions.
 *
 * The cache directory is a map from file name to file contents; the entry of
 * key `code` is the file `code + ".jpg"`. One request is a step from a
 * directory to a response and a new directory, together with the list of
 * storage and network operations it issued. The upstream answer and the
 * success or failure of each storage operation are inputs of the step.
 */
module CacheStore {
  import opened Wrappers
  import opened KeyValidation

  newtype byte = b: int | 0 <= b < 0x100

  type Bytes = seq<byte>

  /** The cache directory: file name to file contents. */
  type Dir = map<string, Bytes>

  /** What the upstream fetch of one request yields. */
  datatype Upstream = Fetched(body: Bytes) | FetchFailed

  /** Which storage operations of one request fail (any error of readFile, writeFile, unlink). */
  datatype Faults = Faults(readFails: bool, writeFails: bool, unlinkFails: bool)

  /** An operation the handler issues against the cache directory or the network. */
  datatype Effect =
    | ReadFile(name: string)
    | WriteFile(name: string)
    | Unlink(name: string)
    | HttpGet(url: string)

  datatype Body = Text(text: string) | Image(bytes: Bytes)

  datatype Response = Response(status: nat, contentType: string, body: Body)

  /** One handled request: the response, the directory afterwards, the operations issued. */
  datatype Step = Step(response: Response, dir: Dir, effects: seq<Effect>)

  const Extension := ".jpg"
  const UpstreamOrigin := "https://http.cat/"

  const BadRequest := Response(400, "text/plain", Text("Bad request: вкажіть HTTP код у URL, наприклад /200"))
  const NotFound := Response(404, "text/plain", Text("Not Found"))
  const Created := Response(201, "text/plain", Text("Created"))
  const Deleted := Response(200, "text/plain", Text("Deleted"))
  const MethodNotAllowed := Response(405, "text/plain", Text("Method Not Allowed"))
  const InternalServerError := Response(500, "text/plain", Text("Internal Server Error"))

  function ImageResponse(image: Bytes): Response
  {
    Response(200, "image/jpeg", Image(image))
  }

  /** The name of the cache file of a key. */
  function FileName(code: string): string
  {
    code + Extension
  }

  /** The URL fetched on a cache miss. */
  function UpstreamUrl(code: string): string
  {
    UpstreamOrigin + code
  }

  /** Distinct keys have distinct cache files. */
  lemma FileNameInjective(a: string, b: string)
    ensures FileName(a) == FileName(b) ==> a == b
  {
    assert a == FileName(a)[..|a|];
    assert b == FileName(b)[..|b|];
  }

  // ---------------------------------------------------------------------
  // The three cache helpers
  // ---------------------------------------------------------------------

  /** getCachedFile: the contents of the key's file, or None when reading fails for any reason. */
  function ReadCached(dir: Dir, code: string, fails: bool): Option<Bytes>
  {
    if !fails && FileName(code) in dir then Some(dir[FileName(code)]) else None
  }

  /** saveCachedFile: the key's file is created or overwritten with `data`. */
  function SaveCached(dir: Dir, code: string, data: Bytes): Dir
  {
    dir[FileName(code) := data]
  }

  /** deleteCachedFile: the key's file is removed. */
  function DeleteCached(dir: Dir, code: string): Dir
  {
    dir - {FileName(code)}
  }

  /** Buffer.concat: the chunks of a request body joined in order. */
  function Flatten(chunks: seq<Bytes>): Bytes
  {
    if chunks == [] then [] else chunks[0] + Flatten(chunks[1..])
  }

  /** The total number of bytes in a list of chunks. */
  function TotalLength(chunks: seq<Bytes>): nat
  {
    if chunks == [] then 0 else |chunks[0]| + TotalLength(chunks[1..])
  }

  /** Joining two lists of chunks joins their contents. */
  lemma {:induction false} FlattenAppend(a: seq<Bytes>, b: seq<Bytes>)
    ensures Flatten(a + b) == Flatten(a) + Flatten(b)
  {
    if a != [] {
      assert (a + b)[1..] == a[1..] + b;
      FlattenAppend(a[1..], b);
    } else {
      assert a + b == b;
    }
  }

  /** The joined body is as long as all its chunks together. */
  lemma {:induction false} FlattenLength(chunks: seq<Bytes>)
    ensures |Flatten(chunks)| == TotalLength(chunks)
  {
    if chunks != [] {
      FlattenLength(chunks[1..]);
    }
  }

  // ---------------------------------------------------------------------
  // The verbs
  // ---------------------------------------------------------------------

  /**
   * GET: serve the cached file; on a miss fetch it from the upstream, write
   * it back and serve it. A failed fetch or a failed write-back is a 404.
   */
  function GetStep(code: string, dir: Dir, upstream: Upstream, faults: Faults): Step
  {
    var name := FileName(code);
    match ReadCached(dir, code, faults.readFails)
    case Some(image) => Step(ImageResponse(image), dir, [ReadFile(name)])
    case None =>
      var fetch := [ReadFile(name), HttpGet(UpstreamUrl(code))];
      match upstream
      case FetchFailed => Step(NotFound, dir, fetch)
      case Fetched(image) =>
        if faults.writeFails then Step(NotFound, dir, fetch + [WriteFile(name)])
        else Step(ImageResponse(image), SaveCached(dir, code, image), fetch + [WriteFile(name)])
  }

  /** PUT: write the whole body to the key's file; a write error is a 500. */
  function PutStep(code: string, data: Bytes, dir: Dir, faults: Faults): Step
  {
    var name := FileName(code);
    if faults.writeFails then Step(InternalServerError, dir, [WriteFile(name)])
    else Step(Created, SaveCached(dir, code, data), [WriteFile(name)])
  }

  /** DELETE: unlink the key's file; a missing file and an unlink error are both a 404. */
  function DeleteStep(code: string, dir: Dir, faults: Faults): Step
  {
    var name := FileName(code);
    if !faults.unlinkFails && name in dir then Step(Deleted, DeleteCached(dir, code), [Unlink(name)])
    else Step(NotFound, dir, [Unlink(name)])
  }

  /** The request handler: the key check, then the dispatch on the verb. */
  function Handle(verb: string, url: string, body: seq<Bytes>, dir: Dir, upstream: Upstream, faults: Faults): Step
  {
    match Validate(url)
    case None => Step(BadRequest, dir, [])
    case Some(code) => Dispatch(verb, code, body, dir, upstream, faults)
  }

  /** The `switch (method)` of the handler, for a valid key. */
  function Dispatch(verb: string, code: string, body: seq<Bytes>, dir: Dir, upstream: Upstream, faults: Faults): Step
  {
    if verb == "GET" then GetStep(code, dir, upstream, faults)
    else if verb == "PUT" then PutStep(code, Flatten(body), dir, faults)
    else if verb == "DELETE" then DeleteStep(code, dir, faults)
    else Step(MethodNotAllowed, dir, [])
  }
}
