/**
 * The S3 backend (aws/backend.go): serves a derivative by redirecting to its
 * public bucket URL once it is known to exist, materializes every preset
 * into the bucket and deletes them again.
 */
module Aws {
  import opened Common

  /** The S3Backend struct, less its clients: the bucket name and the preset table. */
  datatype S3Backend = S3Backend(bucketName: string, presets: map<string, string>)

  /** What http.Head returned: an error, or a response with its status code. */
  datatype HeadResult = HeadError(msg: string) | HeadStatus(code: int)

  /** The key Serve reads and writes: MakeCacheKey("s3", preset, u.String()). */
  function ServeKey(preset: string, u: Url): CacheKey
  {
    KeyFor(["s3"], preset, u)
  }

  /** The public URL of a preset's derivative; it ends in the object key Store and Delete use. */
  function SpecificUrl(bucketName: string, preset: string, u: Url): (url: string)
    ensures url == "http://" + bucketName + ".s3.amazonaws.com" + StorePath(preset, u)
    ensures url != ""
  {
    "http://" + bucketName + ".s3.amazonaws.com/" + preset + u.path
  }

  /**
   * Serve: a cache hit is a 301 to the cached location; on a miss the
   * derivative's URL is probed with HEAD: 200 caches it and answers 301 to it,
   * any other status triggers background materialization and answers 302 to
   * the original, and a HEAD error jumps straight to that 302 without
   * materializing anything.
   */
  function Serve(s: S3Backend, target: Option<Url>, preset: Option<string>,
                 entries: map<CacheKey, string>, head: string -> HeadResult): (r: ServeOutcome)
    ensures target.None? ==> r == Refused("Bad url")
    ensures target.Some? && preset.None? ==> r == Refused("Bad preset")
    ensures target.Some? && preset.Some? ==>
      var u, p := target.value, preset.value;
      var cached := LookupIn(entries, ServeKey(p, u));
      var url := SpecificUrl(s.bucketName, p, u);
      && (cached != "" ==> r == ServeOutcome(Redirect(301, cached), None, None, false))
      && (cached == "" ==> r.probe == Some(url))
      && (r.cacheSet.Some? <==> cached == "" && head(url) == HeadStatus(200))
      && (r.cacheSet.Some? ==> r.cacheSet.value == (ServeKey(p, u), url) && r.events == Redirect(301, url))
      && (r.materialize <==> cached == "" && head(url).HeadStatus? && head(url).code != 200)
      && (cached == "" && head(url) != HeadStatus(200) ==> r.events == Redirect(302, u.text))
  {
    if target.None? then Refused("Bad url")
    else if preset.None? then Refused("Bad preset")
    else
      var u, p := target.value, preset.value;
      var cacheKey := ServeKey(p, u);
      var cachedUrl := LookupIn(entries, cacheKey);
      if cachedUrl != "" then ServeOutcome(Redirect(301, cachedUrl), None, None, false)
      else
        var specificUrl := SpecificUrl(s.bucketName, p, u);
        match head(specificUrl)
        case HeadError(_) =>
          // goto FALLBACK
          ServeOutcome(Redirect(302, u.text), None, Some(specificUrl), false)
        case HeadStatus(code) =>
          if code == 200 then ServeOutcome(Redirect(301, specificUrl), Some((cacheKey, specificUrl)), Some(specificUrl), false)
          else ServeOutcome(Redirect(302, u.text), None, Some(specificUrl), true)
  }

  /**
   * Once a HEAD has confirmed a derivative and its location is cached, every
   * later request for it is a 301 to that same location with no HEAD and no
   * materialization, whatever HEAD would now say.
   */
  lemma ConfirmedLocationIsServedFromCache(s: S3Backend, u: Url, p: string, entries: map<CacheKey, string>,
                                           head: string -> HeadResult, later: string -> HeadResult)
    requires Serve(s, Some(u), Some(p), entries, head).cacheSet.Some?
    ensures var (key, location) := Serve(s, Some(u), Some(p), entries, head).cacheSet.value;
      && Serve(s, Some(u), Some(p), entries[key := location], later)
         == ServeOutcome(Redirect(301, location), None, None, false)
      && Serve(s, Some(u), Some(p), entries, head).events == Redirect(301, location)
  {
  }

  /**
   * StoreTransformedContent: one branch per preset transforms and, only when
   * that worked, PUTs to "/" + preset + u.Path; every branch error becomes one
   * "Err: ...\n" line of the returned error. It never touches the cache.
   */
  method StoreTransformedContent(s: S3Backend, u: Url, order: seq<string>,
                                 transform: Transformer, put: string -> Outcome)
    returns (err: Outcome, puts: seq<string>)
    requires IsEnumeration(order, s.presets.Keys)
    ensures err == Aggregate("error while transforming: ", Failures(PutOutcomes(s.presets, order, u, transform, put)))
    ensures puts == PutPaths(s.presets, order, u, transform)
  {
    var errs;
    errs, puts := TransformAndPutAll(s.presets, u, order, transform, put);
    var buf := FormatErrors(errs);
    if |buf| > 0 {
      err := Fail("error while transforming: " + buf);
    } else {
      err := Pass;
    }
  }

  /** The fan-out of StoreTransformedContent: one transform and, when it worked, one PUT per preset. */
  method TransformAndPutAll(presets: map<string, string>, u: Url, order: seq<string>,
                            transform: Transformer, put: string -> Outcome)
    returns (errs: seq<string>, puts: seq<string>)
    requires forall p :: p in order ==> p in presets
    ensures errs == Failures(PutOutcomes(presets, order, u, transform, put))
    ensures puts == PutPaths(presets, order, u, transform)
  {
    errs, puts := [], [];
    for i := 0 to |order|
      invariant errs == Failures(PutOutcomes(presets, order[..i], u, transform, put))
      invariant puts == PutPaths(presets, order[..i], u, transform)
    {
      var result, sent := TransformAndPut(presets[order[i]], order[i], u, transform, put);
      PutStep(presets, order, i, u, transform, put, result, sent);
      if result.Fail? {
        errs := errs + [result.msg];
      }
      if sent.Some? {
        puts := puts + [sent.value];
      }
    }
    assert order[..|order|] == order;
  }

  /** The store result is nil iff every preset's transform and PUT succeeded. */
  lemma StoreFailsIffSomeBranchFails(s: S3Backend, u: Url, order: seq<string>,
                                     transform: Transformer, put: string -> Outcome)
    requires IsEnumeration(order, s.presets.Keys)
    ensures var outs := PutOutcomes(s.presets, order, u, transform, put);
      && (Aggregate("error while transforming: ", Failures(outs)) == Pass
          <==> forall p :: p in s.presets ==> PutBranch(s.presets[p], p, u, transform, put) == Pass)
      && |Failures(outs)| <= |s.presets|
  {
    var outs := PutOutcomes(s.presets, order, u, transform, put);
    AggregateFailsIffErrors("error while transforming: ", Failures(outs));
    FailuresEmpty(outs);
    FailuresCount(outs);
    EnumerationLength(order, s.presets.Keys);
    PutOutcomesAt(s.presets, order, u, transform, put);
    if forall i :: 0 <= i < |outs| ==> outs[i] == Pass {
      forall p | p in s.presets ensures PutBranch(s.presets[p], p, u, transform, put) == Pass {
        var i :| 0 <= i < |order| && order[i] == p;
      }
    }
  }

  lemma {:induction false} PutOutcomesAt(presets: map<string, string>, order: seq<string>, u: Url,
                                         transform: Transformer, put: string -> Outcome)
    requires forall p :: p in order ==> p in presets
    ensures forall i :: 0 <= i < |order| ==>
      PutOutcomes(presets, order, u, transform, put)[i] == PutBranch(presets[order[i]], order[i], u, transform, put)
  {
    if order != [] {
      PutOutcomesAt(presets, order[..|order| - 1], u, transform, put);
    }
  }

  /**
   * Delete: Bucket.Del on every preset's object key, collecting its errors,
   * and, whatever Del answered, the cache entry MakeCacheKey(preset, u.String())
   * is cleared: the two-part key, not the "s3" key Serve uses.
   */
  method Delete(s: S3Backend, u: Url, order: seq<string>, del: string -> Outcome, cache: UrlCache)
    returns (err: Outcome)
    requires IsEnumeration(order, s.presets.Keys)
    modifies cache
    ensures err == Aggregate("error while deleting: ", Failures(DelOutcomes(order, u, del)))
    ensures cache.entries == old(cache.entries) - CacheKeys([], s.presets.Keys, u)
  {
    var errs := [];
    for i := 0 to |order|
      invariant errs == Failures(DelOutcomes(order[..i], u, del))
      invariant cache.entries == old(cache.entries) - CacheKeys([], Elements(order[..i]), u)
    {
      assert order[..i + 1][..i] == order[..i];
      CacheKeysStep([], order, i, u, old(cache.entries));
      var preset := order[i];
      var path := StorePath(preset, u);
      var e := del(path);
      if e.Fail? {
        errs := errs + [e.msg];
      }
      cache.Delete(KeyFor([], preset, u));
    }
    assert order[..|order|] == order;
    assert Elements(order) == s.presets.Keys;
    var buf := FormatErrors(errs);
    if |buf| > 0 {
      err := Fail("error while deleting: " + buf);
    } else {
      err := Pass;
    }
  }

  /** Delete with the key Serve uses: MakeCacheKey("s3", preset, u.String()). */
  method DeleteIntended(s: S3Backend, u: Url, order: seq<string>, del: string -> Outcome, cache: UrlCache)
    returns (err: Outcome)
    requires IsEnumeration(order, s.presets.Keys)
    modifies cache
    ensures err == Aggregate("error while deleting: ", Failures(DelOutcomes(order, u, del)))
    ensures cache.entries == old(cache.entries) - CacheKeys(["s3"], s.presets.Keys, u)
  {
    var errs := [];
    for i := 0 to |order|
      invariant errs == Failures(DelOutcomes(order[..i], u, del))
      invariant cache.entries == old(cache.entries) - CacheKeys(["s3"], Elements(order[..i]), u)
    {
      assert order[..i + 1][..i] == order[..i];
      CacheKeysStep(["s3"], order, i, u, old(cache.entries));
      var preset := order[i];
      var path := StorePath(preset, u);
      var e := del(path);
      if e.Fail? {
        errs := errs + [e.msg];
      }
      cache.Delete(ServeKey(preset, u));
    }
    assert order[..|order|] == order;
    assert Elements(order) == s.presets.Keys;
    var buf := FormatErrors(errs);
    if |buf| > 0 {
      err := Fail("error while deleting: " + buf);
    } else {
      err := Pass;
    }
  }

  /**
   * As written, Delete leaves the entry Serve reads: after deleting a source
   * URL, a request for any of its presets that was cached before is still a
   * 301 to the old location, which no longer exists in the bucket.
   */
  lemma DeleteLeavesServeEntry(s: S3Backend, u: Url, p: string, entries: map<CacheKey, string>,
                               head: string -> HeadResult)
    requires p in s.presets
    requires LookupIn(entries, ServeKey(p, u)) != ""
    ensures Serve(s, Some(u), Some(p), entries - CacheKeys([], s.presets.Keys, u), head)
         == ServeOutcome(Redirect(301, entries[ServeKey(p, u)]), None, None, false)
  {
    SchemesDisjoint(["s3"], [], p, s.presets.Keys, u);
  }

  /**
   * With the Serve key, a request after the delete misses the cache and goes
   * back to probing the bucket, for every preset.
   */
  lemma DeleteIntendedClearsServeEntry(s: S3Backend, u: Url, p: string, entries: map<CacheKey, string>,
                                       head: string -> HeadResult)
    requires p in s.presets
    ensures Serve(s, Some(u), Some(p), entries - CacheKeys(["s3"], s.presets.Keys, u), head).probe
         == Some(SpecificUrl(s.bucketName, p, u))
  {
    assert ServeKey(p, u) in CacheKeys(["s3"], s.presets.Keys, u);
  }
}
