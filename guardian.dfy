/**
 * The guardian (guardian.go): the PUT/DELETE/GET front end that eagerly
 * materializes or deletes every preset's derivative of one source image on S3,
 * guarded by the in-flight map keyed by the CRC-64 of the source URL.
 *
 * guardian.go uses the package-level `presets` map and the two-part
 * `MakeCacheKey(preset, u.String())`.
 */
module SharaqGuardian {
  import opened Common

  /** The package-level `presets` map: name to transformation rule. */
  const Presets: map<string, string> := map[
    "pc-thumb" := "360x216",
    "ticket-thumb" := "170x230",
    "wando-thumb" := "596x450",
    "email-thumb" := "596x450"
  ]

  /** The public base URL the status page links every derivative under. */
  const ViewBase: string := "http://ix.peatix.com.s3.amazonaws.com/"

  type Uint64 = x: int | 0 <= x < 0x1_0000_0000_0000_0000

  /**
   * An incoming request: its HTTP method, the raw `url` form value and what
   * url.Parse made of it (None when it returned an error).
   */
  datatype Request = Request(httpMethod: string, rawUrl: string, parsed: Option<Url>)

  /** Both checks every handler makes before it does anything else. */
  predicate UrlOk(req: Request)
  {
    req.rawUrl != "" && req.parsed.Some?
  }

  const BadUrl: seq<Event> := [HttpError("Bad url", 500)]
  const Busy: seq<Event> := [HttpError("url is being processed", 500)]
  const Rejected: seq<Event> := [HttpError("What, what, what?", 400)]

  /**
   * The end of HandleStore and HandleDelete: a non-empty report becomes a 500
   * carrying it; an empty one leaves the default 200 (the elapsed-time header
   * is not modelled).
   */
  function Reply(buf: string): seq<Event>
  {
    if |buf| > 0 then [HttpError(buf, 500)] else []
  }

  /** The per-preset image URLs HandleView renders. */
  function ViewImages(u: Url): (images: map<string, string>)
    ensures images.Keys == Presets.Keys
    ensures forall name :: name in images ==>
      images[name] == "http://ix.peatix.com.s3.amazonaws.com" + StorePath(name, u)
  {
    map name | name in Presets :: ViewBase + name + u.path
  }

  /** HandleView, without the template text itself. */
  function HandleView(req: Request): (resp: seq<Event>)
    ensures !UrlOk(req) ==> resp == BadUrl
    ensures UrlOk(req) ==> resp == [SetHeader("Content-Type", "text/html; charset=utf8"),
                                     RenderView(ViewImages(req.parsed.value))]
  {
    if req.rawUrl == "" then BadUrl
    else if req.parsed.None? then BadUrl
    else [SetHeader("Content-Type", "text/html; charset=utf8"), RenderView(ViewImages(req.parsed.value))]
  }

  /** The errors transformAllAndStore reports for `u`, branch by branch in `order`. */
  function StoreErrors(order: seq<string>, u: Url,
                       transform: Transformer, put: string -> Outcome): seq<string>
    requires IsEnumeration(order, Presets.Keys)
  {
    Failures(PutOutcomes(Presets, order, u, transform, put))
  }

  /** What HandleStore answers. */
  function StoreResponse(req: Request, order: seq<string>,
                         transform: Transformer, put: string -> Outcome): seq<Event>
    requires IsEnumeration(order, Presets.Keys)
  {
    if !UrlOk(req) then BadUrl
    else Reply(ErrLines(StoreErrors(order, req.parsed.value, transform, put)))
  }

  /** What HandleDelete answers. */
  function DeleteResponse(req: Request, order: seq<string>, del: string -> Outcome): seq<Event>
  {
    if !UrlOk(req) then BadUrl
    else Reply(ErrLines(Failures(DelOutcomes(order, req.parsed.value, del))))
  }

  /** The transformAllAndStore error count never exceeds the number of presets. */
  lemma StoreErrorsBounded(order: seq<string>, u: Url,
                           transform: Transformer, put: string -> Outcome)
    requires IsEnumeration(order, Presets.Keys)
    ensures |StoreErrors(order, u, transform, put)| <= |Presets|
  {
    FailuresCount(PutOutcomes(Presets, order, u, transform, put));
    EnumerationLength(order, Presets.Keys);
  }

  /**
   * HandleStore fails with 500 iff some preset's transform or PUT failed; the
   * body then holds one "Err: ...\n" line per failing preset; it is never
   * the "url is being processed" answer.
   */
  lemma StoreResponseReportsFailures(req: Request, order: seq<string>,
                                     transform: Transformer, put: string -> Outcome)
    requires IsEnumeration(order, Presets.Keys)
    requires UrlOk(req)
    ensures var outs := PutOutcomes(Presets, order, req.parsed.value, transform, put);
      && (StoreResponse(req, order, transform, put) == [] <==> forall i :: 0 <= i < |outs| ==> outs[i] == Pass)
      && (StoreResponse(req, order, transform, put) != [] ==>
            StoreResponse(req, order, transform, put) == [HttpError(ErrLines(Failures(outs)), 500)]
            && |Failures(outs)| == |FailedBranches(outs)|)
    ensures StoreResponse(req, order, transform, put) != Busy
  {
    var outs := PutOutcomes(Presets, order, req.parsed.value, transform, put);
    ErrLinesShape(Failures(outs));
    FailuresEmpty(outs);
    FailuresCount(outs);
    NotBusy(Failures(outs));
  }

  /** A non-empty report starts with "Err: ", so it is never the busy message. */
  lemma NotBusy(errs: seq<string>)
    ensures Reply(ErrLines(errs)) != Busy
  {
    ErrLinesShape(errs);
    if errs != [] {
      assert ErrLines(errs)[0] == 'E';
    }
  }

  /**
   * HandleDelete fails with 500 iff some Bucket.Del failed, one line per
   * failure; it is never the "url is being processed" answer.
   */
  lemma DeleteResponseReportsFailures(req: Request, order: seq<string>, del: string -> Outcome)
    requires UrlOk(req)
    ensures var outs := DelOutcomes(order, req.parsed.value, del);
      && (DeleteResponse(req, order, del) == [] <==> forall i :: 0 <= i < |outs| ==> outs[i] == Pass)
      && (DeleteResponse(req, order, del) != [] ==>
            DeleteResponse(req, order, del) == [HttpError(ErrLines(Failures(outs)), 500)]
            && |Failures(outs)| == |FailedBranches(outs)|)
    ensures DeleteResponse(req, order, del) != Busy
  {
    var outs := DelOutcomes(order, req.parsed.value, del);
    ErrLinesShape(Failures(outs));
    FailuresEmpty(outs);
    FailuresCount(outs);
    NotBusy(Failures(outs));
  }

  class Guardian {
    /** CRC-64 of a URL string; the table is not part of this model. */
    const hash: string -> Uint64
    const cache: UrlCache
    /** The keys of the `processing` map (every stored value is `true`). */
    var processing: set<Uint64>

    constructor (hash: string -> Uint64, cache: UrlCache)
      ensures this.hash == hash && this.cache == cache
      ensures processing == {}
    {
      this.hash := hash;
      this.cache := cache;
      processing := {};
    }

    /** Marks the URL as in flight. It admits the caller even when the URL already is. */
    method MarkProcessing(u: Url) returns (ok: bool)
      modifies this`processing
      ensures ok
      ensures processing == old(processing) + {hash(u.text)}
    {
      var k := hash(u.text);
      processing := processing + {k};
      ok := true;
    }

    /** Clears the URL's mark; the marks of other URLs stay. */
    method UnmarkProcessing(u: Url)
      modifies this`processing
      ensures processing == old(processing) - {hash(u.text)}
    {
      var k := hash(u.text);
      processing := processing - {k};
    }

    /**
     * transformAllAndStore: one branch per preset; a branch transforms and,
     * only when that worked, PUTs to "/" + preset + u.Path. Returns what the
     * drained error channel holds and the keys a PUT was sent to.
     */
    method TransformAllAndStore(u: Url, order: seq<string>,
                                transform: Transformer, put: string -> Outcome)
      returns (errs: seq<string>, puts: seq<string>)
      requires IsEnumeration(order, Presets.Keys)
      ensures errs == StoreErrors(order, u, transform, put)
      ensures puts == PutPaths(Presets, order, u, transform)
    {
      errs, puts := [], [];
      for i := 0 to |order|
        invariant errs == Failures(PutOutcomes(Presets, order[..i], u, transform, put))
        invariant puts == PutPaths(Presets, order[..i], u, transform)
      {
        var result, sent := TransformAndPut(Presets[order[i]], order[i], u, transform, put);
        PutStep(Presets, order, i, u, transform, put, result, sent);
        if result.Fail? {
          errs := errs + [result.msg];
        }
        if sent.Some? {
          puts := puts + [sent.value];
        }
      }
      assert order[..|order|] == order;
    }

    /** HandleStore: validate, mark, materialize every preset, report, unmark. */
    method HandleStore(req: Request, order: seq<string>,
                       transform: Transformer, put: string -> Outcome)
      returns (resp: seq<Event>, puts: seq<string>)
      requires IsEnumeration(order, Presets.Keys)
      modifies this`processing
      ensures resp == StoreResponse(req, order, transform, put)
      ensures !UrlOk(req) ==> puts == [] && processing == old(processing)
      ensures UrlOk(req) ==> puts == PutPaths(Presets, order, req.parsed.value, transform)
      ensures UrlOk(req) ==> processing == old(processing) - {hash(req.parsed.value.text)}
    {
      puts := [];
      if req.rawUrl == "" {
        return BadUrl, puts;
      }
      if req.parsed.None? {
        return BadUrl, puts;
      }
      var u := req.parsed.value;
      var marked := MarkProcessing(u);
      if !marked {
        return Busy, puts;
      }
      var errs;
      errs, puts := TransformAllAndStore(u, order, transform, put);
      var buf := FormatErrors(errs);
      resp := Reply(buf);
      UnmarkProcessing(u);
    }

    /**
     * HandleDelete: validate, mark, Bucket.Del every preset's object and clear
     * its two-part cache key whatever Del answered, report, unmark.
     */
    method HandleDelete(req: Request, order: seq<string>, del: string -> Outcome)
      returns (resp: seq<Event>)
      requires IsEnumeration(order, Presets.Keys)
      modifies this`processing, cache
      ensures resp == DeleteResponse(req, order, del)
      ensures !UrlOk(req) ==> processing == old(processing) && cache.entries == old(cache.entries)
      ensures UrlOk(req) ==> processing == old(processing) - {hash(req.parsed.value.text)}
      ensures UrlOk(req) ==> cache.entries == old(cache.entries) - CacheKeys([], Presets.Keys, req.parsed.value)
    {
      if req.rawUrl == "" {
        return BadUrl;
      }
      if req.parsed.None? {
        return BadUrl;
      }
      var u := req.parsed.value;
      var marked := MarkProcessing(u);
      if !marked {
        return Busy;
      }
      var errs := [];
      for i := 0 to |order|
        invariant errs == Failures(DelOutcomes(order[..i], u, del))
        invariant cache.entries == old(cache.entries) - CacheKeys([], Elements(order[..i]), u)
        invariant processing == old(processing) + {hash(u.text)}
      {
        assert order[..i + 1][..i] == order[..i];
        CacheKeysStep([], order, i, u, old(cache.entries));
        var preset := order[i];
        var path := StorePath(preset, u);
        var err := del(path);
        if err.Fail? {
          errs := errs + [err.msg];
        }
        cache.Delete(KeyFor([], preset, u));
      }
      assert order[..|order|] == order;
      assert Elements(order) == Presets.Keys;
      var buf := FormatErrors(errs);
      resp := Reply(buf);
      UnmarkProcessing(u);
    }

    /** ServeHTTP: GET views, PUT stores, DELETE deletes, anything else is a 400. */
    method ServeHttp(req: Request, order: seq<string>, transform: Transformer,
                     put: string -> Outcome, del: string -> Outcome)
      returns (resp: seq<Event>, puts: seq<string>)
      requires IsEnumeration(order, Presets.Keys)
      modifies this`processing, cache
      ensures req.httpMethod == "GET" ==> resp == HandleView(req)
      ensures req.httpMethod == "PUT" ==> resp == StoreResponse(req, order, transform, put)
      ensures req.httpMethod == "DELETE" ==> resp == DeleteResponse(req, order, del)
      ensures req.httpMethod !in {"GET", "PUT", "DELETE"} ==> resp == Rejected
      ensures req.httpMethod == "PUT" && UrlOk(req) ==> puts == PutPaths(Presets, order, req.parsed.value, transform)
      ensures !(req.httpMethod == "PUT" && UrlOk(req)) ==> puts == []
      ensures req.httpMethod != "DELETE" ==> cache.entries == old(cache.entries)
      ensures req.httpMethod !in {"PUT", "DELETE"} ==> processing == old(processing)
      ensures req.httpMethod in {"PUT", "DELETE"} && !UrlOk(req) ==>
        processing == old(processing) && cache.entries == old(cache.entries)
      ensures req.httpMethod in {"PUT", "DELETE"} && UrlOk(req) ==>
        processing == old(processing) - {hash(req.parsed.value.text)}
      ensures req.httpMethod == "DELETE" && UrlOk(req) ==>
        cache.entries == old(cache.entries) - CacheKeys([], Presets.Keys, req.parsed.value)
    {
      puts := [];
      match req.httpMethod {
        case "GET" =>
          resp := HandleView(req);
        case "PUT" =>
          resp, puts := HandleStore(req, order, transform, put);
        case "DELETE" =>
          resp := HandleDelete(req, order, del);
        case _ =>
          resp := Rejected;
      }
    }
  }

  /**
   * The guard never turns anyone away: marking a URL that is already in
   * flight succeeds too, so two overlapping runs for one URL are both
   * admitted, and when the first one finishes it clears the mark while the
   * second is still at work.
   */
  method MarkTwiceAdmitsBoth(g: Guardian, u: Url) returns (first: bool, second: bool)
    modifies g`processing
    ensures first && second
    ensures g.hash(u.text) !in g.processing
    ensures g.processing == old(g.processing) - {g.hash(u.text)}
  {
    first := g.MarkProcessing(u);
    second := g.MarkProcessing(u);
    assert g.hash(u.text) in g.processing;
    g.UnmarkProcessing(u);
  }

  /**
   * The mark depends on the URL alone: marking and then unmarking a URL that
   * was not in flight leaves the in-flight set exactly as it was.
   */
  method MarkThenUnmarkRestores(g: Guardian, u: Url)
    requires g.hash(u.text) !in g.processing
    modifies g`processing
    ensures g.processing == old(g.processing)
  {
    var ok := g.MarkProcessing(u);
    g.UnmarkProcessing(u);
  }
}
