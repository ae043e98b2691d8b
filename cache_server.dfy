/**
 * The request handler as a server object that owns the cache directory.
 *
 * Each method performs the operations of the handler in order, updating the
 * directory in place, and is proved to do what the corresponding step
 * function of CacheStore describes. The ghost field `effects` records every
 * storage and network operation issued.
 */
module CacheServer {
  import opened Wrappers
  import opened KeyValidation
  import opened CacheStore

  /** The PUT body loop: the chunks are collected in order and joined. */
  method CollectBody(chunks: seq<Bytes>) returns (data: Bytes)
    ensures data == Flatten(chunks)
    ensures |data| == TotalLength(chunks)
  {
    data := [];
    var i := 0;
    while i < |chunks|
      invariant 0 <= i <= |chunks|
      invariant data == Flatten(chunks[..i])
    {
      assert chunks[..i + 1] == chunks[..i] + [chunks[i]];
      FlattenAppend(chunks[..i], [chunks[i]]);
      data := data + chunks[i];
      i := i + 1;
    }
    assert chunks[..i] == chunks;
    FlattenLength(chunks);
  }

  class Server {
    /** The cache directory: file name to contents. */
    var dir: Dir
    /** Every storage and network operation issued so far, oldest first. */
    ghost var effects: seq<Effect>

    constructor (initial: Dir)
      ensures dir == initial && effects == []
    {
      dir := initial;
      effects := [];
    }

    /** getCachedFile: any read error reads as a miss. */
    method GetCachedFile(code: string, fails: bool) returns (image: Option<Bytes>)
      modifies this`effects
      ensures image == ReadCached(dir, code, fails)
      ensures image.Some? ==> FileName(code) in dir && image.value == dir[FileName(code)]
      ensures effects == old(effects) + [ReadFile(FileName(code))]
    {
      var name := FileName(code);
      effects := effects + [ReadFile(name)];
      if !fails && name in dir {
        image := Some(dir[name]);
      } else {
        image := None;
      }
    }

    /** saveCachedFile: `saved` is false when writeFile throws. */
    method SaveCachedFile(code: string, data: Bytes, fails: bool) returns (saved: bool)
      modifies this
      ensures saved == !fails
      ensures dir == if saved then SaveCached(old(dir), code, data) else old(dir)
      ensures effects == old(effects) + [WriteFile(FileName(code))]
    {
      var name := FileName(code);
      effects := effects + [WriteFile(name)];
      if fails {
        saved := false;
      } else {
        dir := dir[name := data];
        saved := true;
      }
    }

    /** deleteCachedFile: true when the file existed and was unlinked. */
    method DeleteCachedFile(code: string, fails: bool) returns (deleted: bool)
      modifies this
      ensures deleted == (!fails && FileName(code) in old(dir))
      ensures dir == if deleted then DeleteCached(old(dir), code) else old(dir)
      ensures effects == old(effects) + [Unlink(FileName(code))]
    {
      var name := FileName(code);
      effects := effects + [Unlink(name)];
      if !fails && name in dir {
        dir := dir - {name};
        deleted := true;
      } else {
        deleted := false;
      }
    }

    /** The upstream request `GET https://http.cat/<code>`; None when it is rejected. */
    method FetchUpstream(code: string, upstream: Upstream) returns (image: Option<Bytes>)
      modifies this`effects
      ensures image == if upstream.Fetched? then Some(upstream.body) else None
      ensures effects == old(effects) + [HttpGet(UpstreamUrl(code))]
    {
      effects := effects + [HttpGet(UpstreamUrl(code))];
      match upstream
      case Fetched(body) => image := Some(body);
      case FetchFailed => image := None;
    }

    method HandleGet(code: string, upstream: Upstream, faults: Faults) returns (response: Response)
      modifies this
      ensures var s := GetStep(code, old(dir), upstream, faults);
              response == s.response && dir == s.dir && effects == old(effects) + s.effects
    {
      var image := GetCachedFile(code, faults.readFails);
      if image.None? {
        image := FetchUpstream(code, upstream);
        if image.None? {
          return NotFound;
        }
        var saved := SaveCachedFile(code, image.value, faults.writeFails);
        if !saved {
          return NotFound;
        }
      }
      response := ImageResponse(image.value);
    }

    method HandlePut(code: string, chunks: seq<Bytes>, faults: Faults) returns (response: Response)
      modifies this
      ensures var s := PutStep(code, Flatten(chunks), old(dir), faults);
              response == s.response && dir == s.dir && effects == old(effects) + s.effects
    {
      var data := CollectBody(chunks);
      var saved := SaveCachedFile(code, data, faults.writeFails);
      if !saved {
        return InternalServerError;
      }
      response := Created;
    }

    method HandleDelete(code: string, faults: Faults) returns (response: Response)
      modifies this
      ensures var s := DeleteStep(code, old(dir), faults);
              response == s.response && dir == s.dir && effects == old(effects) + s.effects
    {
      var deleted := DeleteCachedFile(code, faults.unlinkFails);
      if deleted {
        response := Deleted;
      } else {
        response := NotFound;
      }
    }

    /** The `http.createServer` callback: one request against the directory. */
    method Serve(verb: string, url: string, chunks: seq<Bytes>, upstream: Upstream, faults: Faults)
      returns (response: Response)
      modifies this
      ensures var s := Handle(verb, url, chunks, old(dir), upstream, faults);
              response == s.response && dir == s.dir && effects == old(effects) + s.effects
    {
      var key := Validate(url);
      if key.None? {
        return BadRequest;
      }
      var code := key.value;
      if verb == "GET" {
        response := HandleGet(code, upstream, faults);
      } else if verb == "PUT" {
        response := HandlePut(code, chunks, faults);
      } else if verb == "DELETE" {
        response := HandleDelete(code, faults);
      } else {
        response := MethodNotAllowed;
      }
    }
  }
}
