/**
 * What the request handler guarantees, stated over the step function
 * CacheStore.Handle: per verb, across requests, and for the key check.
 */
module CacheProperties {
  import opened Wrappers
  import opened KeyValidation
  import opened CacheStore
  import KeyExamples

  /** The effects contain no upstream request. */
  predicate NoUpstreamRequest(effects: seq<Effect>)
  {
    forall i :: 0 <= i < |effects| ==> !effects[i].HttpGet?
  }

  /** The operation names the key's own file, or the key's upstream URL. */
  predicate IsOwnEffect(e: Effect, code: string)
  {
    match e
    case HttpGet(url) => url == UpstreamUrl(code)
    case ReadFile(name) => name == FileName(code)
    case WriteFile(name) => name == FileName(code)
    case Unlink(name) => name == FileName(code)
  }

  /** Every operation is one of the key's own. */
  predicate OnlyTouches(effects: seq<Effect>, code: string)
  {
    forall i :: 0 <= i < |effects| ==> IsOwnEffect(effects[i], code)
  }

  // ---------------------------------------------------------------------
  // Key check
  // ---------------------------------------------------------------------

  /** An empty or non-numeric key is a 400 that leaves the directory alone and issues no operation. */
  lemma InvalidKeyTouchesNothing(verb: string, url: string, body: seq<Bytes>, dir: Dir, upstream: Upstream, faults: Faults)
    requires ExtractCode(url) == [] || !IsNumeric(ExtractCode(url))
    ensures Handle(verb, url, body, dir, upstream, faults) == Step(BadRequest, dir, [])
  {
  }

  /** A key holding a character no numeric literal has (a second '/', '?', an inner space) is refused. */
  lemma ForeignCharRejected(url: string, i: nat)
    requires i < |ExtractCode(url)| && !IsLiteralChar(ExtractCode(url)[i])
    ensures Validate(url) == None
  {
  }

  // ---------------------------------------------------------------------
  // One request
  // ---------------------------------------------------------------------

  /** A hit serves exactly the stored bytes, leaves the directory alone and asks nothing of the upstream. */
  lemma GetHit(url: string, code: string, dir: Dir, body: seq<Bytes>, upstream: Upstream, faults: Faults)
    requires Validate(url) == Some(code)
    requires FileName(code) in dir && !faults.readFails
    ensures var s := Handle("GET", url, body, dir, upstream, faults);
            s == Step(ImageResponse(dir[FileName(code)]), dir, [ReadFile(FileName(code))])
            && NoUpstreamRequest(s.effects)
  {
  }

  /** An empty cached file is still a hit: a 200 with an empty body, no upstream request. */
  lemma EmptyFileIsHit(url: string, code: string, dir: Dir, upstream: Upstream, faults: Faults)
    requires Validate(url) == Some(code)
    requires FileName(code) in dir && dir[FileName(code)] == [] && !faults.readFails
    ensures var s := Handle("GET", url, [], dir, upstream, faults);
            s.response == ImageResponse([]) && NoUpstreamRequest(s.effects)
  {
  }

  /** A miss with a successful fetch and write-back stores and serves the fetched bytes. */
  lemma GetMissFills(url: string, code: string, dir: Dir, image: Bytes, faults: Faults)
    requires Validate(url) == Some(code)
    requires FileName(code) !in dir || faults.readFails
    requires !faults.writeFails
    ensures var s := Handle("GET", url, [], dir, Fetched(image), faults);
            s.response == ImageResponse(image) && s.dir == dir[FileName(code) := image]
            && s.effects == [ReadFile(FileName(code)), HttpGet(UpstreamUrl(code)), WriteFile(FileName(code))]
  {
  }

  /**
   * A miss whose fetch fails, or whose write-back fails, is a 404 and leaves the
   * directory alone; a failed fetch issues no write.
   */
  lemma GetMissFails(url: string, code: string, dir: Dir, upstream: Upstream, faults: Faults)
    requires Validate(url) == Some(code)
    requires FileName(code) !in dir || faults.readFails
    requires upstream.FetchFailed? || faults.writeFails
    ensures var s := Handle("GET", url, [], dir, upstream, faults);
            s.response == NotFound && s.dir == dir
            && (upstream.FetchFailed? ==> s.effects == [ReadFile(FileName(code)), HttpGet(UpstreamUrl(code))])
  {
  }

  /** GET answers 200 exactly when the file was read, or fetched and written back. */
  lemma GetStatus(url: string, code: string, dir: Dir, upstream: Upstream, faults: Faults)
    requires Validate(url) == Some(code)
    ensures var s := Handle("GET", url, [], dir, upstream, faults);
            && (s.response.status == 200 <==>
                 (FileName(code) in dir && !faults.readFails) || (upstream.Fetched? && !faults.writeFails))
            && (s.response.status != 200 ==> s.response == NotFound)
  {
  }

  /** PUT stores the joined body under the key, replacing any previous file, and answers 201. */
  lemma PutStores(url: string, code: string, body: seq<Bytes>, dir: Dir, upstream: Upstream, faults: Faults)
    requires Validate(url) == Some(code)
    requires !faults.writeFails
    ensures var s := Handle("PUT", url, body, dir, upstream, faults);
            s.response == Created && s.dir == dir[FileName(code) := Flatten(body)]
            && s.dir[FileName(code)] == Flatten(body) && NoUpstreamRequest(s.effects)
  {
  }

  /** A PUT whose write fails reaches the outer handler: 500 and nothing written. */
  lemma PutWriteError(url: string, code: string, body: seq<Bytes>, dir: Dir, upstream: Upstream, faults: Faults)
    requires Validate(url) == Some(code)
    requires faults.writeFails
    ensures var s := Handle("PUT", url, body, dir, upstream, faults);
            s.response == InternalServerError && s.dir == dir
  {
  }

  /**
   * DELETE reports truthfully: 200 "Deleted" exactly when the file existed and
   * was unlinked, which removes it; otherwise 404 and nothing changes.
   */
  lemma DeleteReports(url: string, code: string, dir: Dir, upstream: Upstream, faults: Faults)
    requires Validate(url) == Some(code)
    ensures var s := Handle("DELETE", url, [], dir, upstream, faults);
            && (s.response == Deleted <==> FileName(code) in dir && !faults.unlinkFails)
            && (s.response == Deleted ==> s.dir == dir - {FileName(code)} && FileName(code) !in s.dir)
            && (s.response != Deleted ==> s.response == NotFound && s.dir == dir)
            && NoUpstreamRequest(s.effects)
  {
  }

  /** Any verb other than GET, PUT and DELETE on a valid key is a 405 that touches nothing. */
  lemma OtherVerbRefused(verb: string, url: string, body: seq<Bytes>, dir: Dir, upstream: Upstream, faults: Faults)
    requires Validate(url).Some?
    requires verb != "GET" && verb != "PUT" && verb != "DELETE"
    ensures Handle(verb, url, body, dir, upstream, faults) == Step(MethodNotAllowed, dir, [])
  {
  }

  /** Every response is one of the handler's six. */
  lemma StatusCodes(verb: string, url: string, body: seq<Bytes>, dir: Dir, upstream: Upstream, faults: Faults)
    ensures var status := Handle(verb, url, body, dir, upstream, faults).response.status;
            status == 200 || status == 201 || status == 400 || status == 404 || status == 405 || status == 500
  {
  }

  /** The file `name` is the same in both directories: absent from both, or present with equal contents. */
  predicate SameFile(d1: Dir, d2: Dir, name: string)
  {
    (name in d1 <==> name in d2) && (name in d1 ==> d1[name] == d2[name])
  }

  /** The step of each verb on `code` leaves every other file as it was. */
  lemma StepsKeepOtherFiles(code: string, name: string, data: Bytes, dir: Dir, upstream: Upstream, faults: Faults)
    requires name != FileName(code)
    ensures SameFile(GetStep(code, dir, upstream, faults).dir, dir, name)
    ensures SameFile(PutStep(code, data, dir, faults).dir, dir, name)
    ensures SameFile(DeleteStep(code, dir, faults).dir, dir, name)
  {
  }

  /** A request changes at most its own key's file: every other key's file is as before. */
  lemma OnlyOwnEntryChanges(verb: string, url: string, code: string, other: string,
                            body: seq<Bytes>, dir: Dir, upstream: Upstream, faults: Faults)
    requires Validate(url) == Some(code)
    requires other != code
    ensures SameFile(Handle(verb, url, body, dir, upstream, faults).dir, dir, FileName(other))
  {
    FileNameInjective(other, code);
    StepsKeepOtherFiles(code, FileName(other), Flatten(body), dir, upstream, faults);
    assert Handle(verb, url, body, dir, upstream, faults) == Dispatch(verb, code, body, dir, upstream, faults);
  }

  /** The operations of each verb's step name only the key's file and the key's upstream URL. */
  lemma StepsTouchOwnKey(code: string, data: Bytes, dir: Dir, upstream: Upstream, faults: Faults)
    ensures OnlyTouches(GetStep(code, dir, upstream, faults).effects, code)
    ensures OnlyTouches(PutStep(code, data, dir, faults).effects, code)
    ensures OnlyTouches(DeleteStep(code, dir, faults).effects, code)
  {
  }

  /** A request issues operations on its own key's file and its own upstream URL only. */
  lemma OnlyOwnEffects(verb: string, url: string, code: string,
                       body: seq<Bytes>, dir: Dir, upstream: Upstream, faults: Faults)
    requires Validate(url) == Some(code)
    ensures OnlyTouches(Handle(verb, url, body, dir, upstream, faults).effects, code)
  {
    StepsTouchOwnKey(code, Flatten(body), dir, upstream, faults);
    assert Handle(verb, url, body, dir, upstream, faults) == Dispatch(verb, code, body, dir, upstream, faults);
  }

  // ---------------------------------------------------------------------
  // Several requests
  // ---------------------------------------------------------------------

  /** After a successful PUT, a GET of the same key serves the written bytes without asking the upstream. */
  lemma WriteThenRead(putUrl: string, getUrl: string, body: seq<Bytes>, dir: Dir,
                      up1: Upstream, f1: Faults, up2: Upstream, f2: Faults)
    requires Validate(putUrl).Some? && Validate(getUrl) == Validate(putUrl)
    requires !f1.writeFails && !f2.readFails
    ensures var s1 := Handle("PUT", putUrl, body, dir, up1, f1);
            var s2 := Handle("GET", getUrl, [], s1.dir, up2, f2);
            s2.response == ImageResponse(Flatten(body)) && s2.dir == s1.dir && NoUpstreamRequest(s2.effects)
  {
  }

  /** A GET that filled the cache is followed by a hit: same bytes, no second upstream request. */
  lemma FillThenHit(url: string, code: string, dir: Dir, image: Bytes, f1: Faults, up2: Upstream, f2: Faults)
    requires Validate(url) == Some(code)
    requires FileName(code) !in dir && !f1.writeFails && !f2.readFails
    ensures var s1 := Handle("GET", url, [], dir, Fetched(image), f1);
            var s2 := Handle("GET", url, [], s1.dir, up2, f2);
            s1.response == ImageResponse(image) && s2.response == ImageResponse(image)
            && s2.dir == s1.dir && NoUpstreamRequest(s2.effects)
  {
  }

  /** After a successful DELETE, a GET whose fetch fails is a 404, and a second DELETE is a 404. */
  lemma DeleteThenGet(url: string, code: string, dir: Dir, f1: Faults, f2: Faults, f3: Faults)
    requires Validate(url) == Some(code)
    requires FileName(code) in dir && !f1.unlinkFails
    ensures var s1 := Handle("DELETE", url, [], dir, FetchFailed, f1);
            var s2 := Handle("GET", url, [], s1.dir, FetchFailed, f2);
            var s3 := Handle("DELETE", url, [], s2.dir, FetchFailed, f3);
            s1.response == Deleted && s2.response == NotFound && s3.response == NotFound
            && FileName(code) !in s3.dir
  {
  }

  /**
   * The run PUT, GET, DELETE, GET with the upstream down, DELETE on one key:
   * 201, 200 with the uploaded bytes, 200, 404, 404, and the key's file is gone.
   */
  lemma PutGetDeleteRun(url: string, code: string, x: Bytes, dir: Dir)
    requires Validate(url) == Some(code)
    ensures var ok := Faults(false, false, false);
            var s1 := Handle("PUT", url, [x], dir, FetchFailed, ok);
            var s2 := Handle("GET", url, [], s1.dir, FetchFailed, ok);
            var s3 := Handle("DELETE", url, [], s2.dir, FetchFailed, ok);
            var s4 := Handle("GET", url, [], s3.dir, FetchFailed, ok);
            var s5 := Handle("DELETE", url, [], s4.dir, FetchFailed, ok);
            && s1.response == Created && s2.response == ImageResponse(x)
            && s3.response == Deleted && s4.response == NotFound && s5.response == NotFound
            && s5.dir == dir - {FileName(code)}
  {
    assert Flatten([x]) == x;
  }

  /** The same run on `/418`: the file `418.jpg` is written, served and removed. */
  lemma Scenario418(url: string, x: Bytes, dir: Dir)
    requires url == "/418"
    ensures var ok := Faults(false, false, false);
            var s1 := Handle("PUT", url, [x], dir, FetchFailed, ok);
            var s2 := Handle("GET", url, [], s1.dir, FetchFailed, ok);
            var s3 := Handle("DELETE", url, [], s2.dir, FetchFailed, ok);
            var s4 := Handle("GET", url, [], s3.dir, FetchFailed, ok);
            var s5 := Handle("DELETE", url, [], s4.dir, FetchFailed, ok);
            && s1.response.status == 201 && s2.response == ImageResponse(x)
            && s3.response.status == 200 && s4.response.status == 404 && s5.response.status == 404
            && s5.dir == dir - {"418.jpg"}
  {
    KeyExamples.IntegerKeyAccepted(url);
    PutGetDeleteRun(url, "418", x, dir);
    assert FileName("418") == "418.jpg";
  }
}
