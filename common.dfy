/**
 * Values shared by the guardian, the dispatcher and both storage backends:
 * parsed URLs, what a handler writes to its http.ResponseWriter, the logical
 * URL cache and its key codec, and the aggregation of the per-preset
 * fan-out (one branch per preset, its error collected or the first one kept).
 */
module Common {

  datatype Option<+T> = None | Some(value: T)

  /** Go's `error`: nil is Pass, anything else carries its Error() text. */
  datatype Outcome = Pass | Fail(msg: string)

  /** A constructor's `(*T, error)` pair. */
  datatype Result<+T> = Ok(value: T) | Err(msg: string)

  /** A parsed *url.URL: `text` is u.String(), `path` is u.Path. */
  datatype Url = Url(text: string, path: string)

  /** One thing a handler does to its http.ResponseWriter, in the order it does it. */
  datatype Event =
    | HttpError(message: string, code: int)         // http.Error(w, message, code)
    | AddHeader(name: string, value: string)         // w.Header().Add
    | SetHeader(name: string, value: string)         // w.Header().Set
    | WriteHeader(code: int)                         // w.WriteHeader
    | ServeFile(path: string)                        // http.ServeFile(w, r, path)
    | RenderView(images: map<string, string>)        // the status page template, run on its data

  /** Add a Location header, then write the status line. */
  function Redirect(code: int, location: string): seq<Event>
  {
    [AddHeader("Location", location), WriteHeader(code)]
  }

  /**
   * What one read request did: the writer events, the cache entry it set
   * (key and location), the address it probed (HEAD or stat) and whether it
   * launched background materialization of every preset.
   */
  datatype ServeOutcome = ServeOutcome(
    events: seq<Event>,
    cacheSet: Option<(CacheKey, string)>,
    probe: Option<string>,
    materialize: bool)

  /** A response that only reports an error, with no side effect. */
  function Refused(message: string): ServeOutcome
  {
    ServeOutcome([HttpError(message, 500)], None, None, false)
  }

  // ---------------------------------------------------------------------------
  // The logical cache

  /**
   * urlcache.MakeCacheKey(parts...). Its digest is not part of this model;
   * the key keeps the parts themselves, so distinct part lists give distinct
   * keys, which is the property the cache relies on.
   */
  datatype CacheKey = CacheKey(parts: seq<string>)

  function MakeCacheKey(parts: seq<string>): CacheKey
  {
    CacheKey(parts)
  }

  /** URLCache.Lookup: the stored location, or "" on a miss. */
  function LookupIn(entries: map<CacheKey, string>, key: CacheKey): string
  {
    if key in entries then entries[key] else ""
  }

  /** The shared URLCache object: a map from key to location. */
  class UrlCache {
    var entries: map<CacheKey, string>

    constructor ()
      ensures entries == map[]
    {
      entries := map[];
    }

    method Delete(key: CacheKey)
      modifies this
      ensures entries == old(entries) - {key}
    {
      entries := entries - {key};
    }
  }

  // ---------------------------------------------------------------------------
  // Fan-out over the preset table

  /**
   * `order` is the order in which a `range` over the preset map visits its
   * keys (or in which the goroutines report back): every key exactly once.
   */
  predicate IsEnumeration(order: seq<string>, keys: set<string>)
  {
    && (forall i, j :: 0 <= i < j < |order| ==> order[i] != order[j])
    && (forall p :: p in order ==> p in keys)
    && (forall p :: p in keys ==> p in order)
  }

  lemma {:induction false} EnumerationLength(order: seq<string>, keys: set<string>)
    requires IsEnumeration(order, keys)
    ensures |order| == |keys|
  {
    if order != [] {
      var n := |order| - 1;
      var front := order[..n];
      assert IsEnumeration(front, keys - {order[n]}) by {
        forall p | p in front ensures p in keys - {order[n]} {
          var i :| 0 <= i < n && front[i] == p;
          assert order[i] == p;
        }
      }
      EnumerationLength(front, keys - {order[n]});
    }
  }

  function Elements(s: seq<string>): set<string>
  {
    set p | p in s
  }

  /** The errors the branches report, in the order they report them. */
  function Failures(outs: seq<Outcome>): seq<string>
  {
    if outs == [] then []
    else
      var last := outs[|outs| - 1];
      Failures(outs[..|outs| - 1]) + (if last.Fail? then [last.msg] else [])
  }

  /** errgroup.Group.Wait: the first error reported, or nil. */
  function FirstFailure(outs: seq<Outcome>): Outcome
  {
    if outs == [] then Pass
    else
      var before := FirstFailure(outs[..|outs| - 1]);
      if before.Fail? then before else outs[|outs| - 1]
  }

  function FailedBranches(outs: seq<Outcome>): set<nat>
  {
    set i: nat | i < |outs| && outs[i].Fail?
  }

  /** Each failing branch contributes exactly one error, and no other branch does. */
  lemma {:induction false} FailuresCount(outs: seq<Outcome>)
    ensures |Failures(outs)| == |FailedBranches(outs)| <= |outs|
  {
    if outs != [] {
      var n := |outs| - 1;
      FailuresCount(outs[..n]);
      var before := FailedBranches(outs[..n]);
      assert n !in before;
      if outs[n].Fail? {
        assert FailedBranches(outs) == before + {n};
      } else {
        assert FailedBranches(outs) == before;
      }
    }
  }

  /** Every error collected comes from a failing branch, and every failing branch's error is collected. */
  lemma {:induction false} FailuresMembers(outs: seq<Outcome>)
    ensures forall m :: m in Failures(outs) <==> Fail(m) in outs
  {
    if outs != [] {
      var n := |outs| - 1;
      FailuresMembers(outs[..n]);
      assert outs == outs[..n] + [outs[n]];
    }
  }

  lemma {:induction false} FailuresEmpty(outs: seq<Outcome>)
    ensures Failures(outs) == [] <==> forall i :: 0 <= i < |outs| ==> outs[i] == Pass
  {
    FailuresCount(outs);
    if Failures(outs) == [] {
      forall i | 0 <= i < |outs| ensures outs[i] == Pass {
        assert outs[i].Fail? ==> i in FailedBranches(outs);
      }
    } else {
      var i :| i in FailedBranches(outs);
    }
  }

  /** The errgroup result is nil iff nothing failed, and otherwise the first collected error. */
  lemma {:induction false} FirstFailureIsFirst(outs: seq<Outcome>)
    ensures FirstFailure(outs) == (if Failures(outs) == [] then Pass else Fail(Failures(outs)[0]))
  {
    if outs != [] {
      FirstFailureIsFirst(outs[..|outs| - 1]);
    }
  }

  // ---------------------------------------------------------------------------
  // The error report: one `fmt.Fprintf(buf, "Err: %s\n", err)` per error

  function ErrLines(errs: seq<string>): string
  {
    if errs == [] then ""
    else ErrLines(errs[..|errs| - 1]) + "Err: " + errs[|errs| - 1] + "\n"
  }

  /** Drains the error channel into a buffer. */
  method FormatErrors(errs: seq<string>) returns (buf: string)
    ensures buf == ErrLines(errs)
  {
    buf := "";
    for i := 0 to |errs|
      invariant buf == ErrLines(errs[..i])
    {
      assert errs[..i + 1][..i] == errs[..i];
      buf := buf + "Err: " + errs[i] + "\n";
    }
    assert errs[..|errs|] == errs;
  }

  function CountChar(s: string, c: char): nat
  {
    if s == [] then 0 else CountChar(s[..|s| - 1], c) + (if s[|s| - 1] == c then 1 else 0)
  }

  lemma {:induction false} CountCharAppend(s: string, t: string, c: char)
    ensures CountChar(s + t, c) == CountChar(s, c) + CountChar(t, c)
  {
    if t != [] {
      var n := |t| - 1;
      var st := s + t;
      assert st[..|st| - 1] == s + t[..n];
      assert st[|st| - 1] == t[n];
      CountCharAppend(s, t[..n], c);
      assert CountChar(st, c) == CountChar(s + t[..n], c) + (if t[n] == c then 1 else 0);
    } else {
      assert s + t == s;
    }
  }

  /** The report is empty iff there is no error; otherwise it starts with "Err: ". */
  lemma {:induction false} ErrLinesShape(errs: seq<string>)
    ensures ErrLines(errs) == "" <==> errs == []
    ensures errs != [] ==> |ErrLines(errs)| >= 6 && ErrLines(errs)[..5] == "Err: "
  {
    if errs != [] {
      var n := |errs| - 1;
      ErrLinesShape(errs[..n]);
      var before := ErrLines(errs[..n]);
      assert ErrLines(errs) == before + ("Err: " + errs[n] + "\n");
      if n != 0 {
        assert ErrLines(errs)[..5] == before[..5];
      }
    }
  }

  /** When no error text holds a newline, the report has exactly one line per error. */
  lemma {:induction false} ErrLinesOneLineEach(errs: seq<string>)
    requires forall i :: 0 <= i < |errs| ==> '\n' !in errs[i]
    ensures CountChar(ErrLines(errs), '\n') == |errs|
  {
    if errs != [] {
      var n := |errs| - 1;
      ErrLinesOneLineEach(errs[..n]);
      NoChar(errs[n], '\n');
      var before := ErrLines(errs[..n]);
      CountCharAppend(before + "Err: " + errs[n], "\n", '\n');
      CountCharAppend(before + "Err: ", errs[n], '\n');
      CountCharAppend(before, "Err: ", '\n');
      NoChar("Err: ", '\n');
      assert CountChar("\n", '\n') == 1 by {
        assert "\n"[..0] == "";
      }
    }
  }

  lemma {:induction false} NoChar(s: string, c: char)
    requires c !in s
    ensures CountChar(s, c) == 0
  {
    if s != [] {
      NoChar(s[..|s| - 1], c);
    }
  }

  // ---------------------------------------------------------------------------
  // The object-store fan-out shared by the guardian and the S3 backend

  /**
   * The transformer, as called in one branch: t.Transform(rule, u.String())
   * run for `preset`. Each branch makes its own call, so two presets with the
   * same rule may get different answers.
   */
  type Transformer = (string, string, string) -> Outcome

  /** Object key of a preset's derivative: "/" + preset + u.Path. */
  function StorePath(preset: string, u: Url): string
  {
    "/" + preset + u.path
  }

  /**
   * Under one source URL, different presets never share an object key: the
   * key is a "/", then the preset, then the URL's path.
   */
  lemma StorePathInjective(p: string, q: string, u: Url)
    ensures |StorePath(p, u)| == 1 + |p| + |u.path|
    ensures StorePath(p, u)[0] == '/' && StorePath(p, u)[1..1 + |p|] == p && StorePath(p, u)[1 + |p|..] == u.path
    ensures StorePath(p, u) == StorePath(q, u) <==> p == q
  {
    var path := StorePath(p, u);
    assert path[1..1 + |p|] == p;
    if path == StorePath(q, u) {
      assert |p| == |q|;
      assert q == StorePath(q, u)[1..1 + |q|];
    }
  }

  /** One store branch: transform, then PUT the result; the first error ends the branch. */
  function PutBranch(rule: string, preset: string, u: Url,
                     transform: Transformer, put: string -> Outcome): Outcome
  {
    match transform(preset, rule, u.text)
    case Fail(m) => Fail(m)
    case Pass => put(StorePath(preset, u))
  }

  /** One store branch run for real: its outcome, and the object key it PUT to when the transform worked. */
  method TransformAndPut(rule: string, preset: string, u: Url,
                         transform: Transformer, put: string -> Outcome)
    returns (result: Outcome, sent: Option<string>)
    ensures result == PutBranch(rule, preset, u, transform, put)
    ensures transform(preset, rule, u.text).Fail? ==> result == transform(preset, rule, u.text)
    ensures transform(preset, rule, u.text).Pass? ==> result == put(StorePath(preset, u))
    ensures result.Pass? <==> transform(preset, rule, u.text).Pass? && put(StorePath(preset, u)).Pass?
    ensures sent == if transform(preset, rule, u.text).Pass? then Some(StorePath(preset, u)) else None
  {
    var res := transform(preset, rule, u.text);
    if res.Fail? {
      return res, None;
    }
    var path := StorePath(preset, u);
    result := put(path);
    sent := Some(path);
  }

  function PutOutcomes(presets: map<string, string>, order: seq<string>, u: Url,
                       transform: Transformer, put: string -> Outcome): (outs: seq<Outcome>)
    requires forall p :: p in order ==> p in presets
    ensures |outs| == |order|
  {
    if order == [] then []
    else
      var p := order[|order| - 1];
      PutOutcomes(presets, order[..|order| - 1], u, transform, put) + [PutBranch(presets[p], p, u, transform, put)]
  }

  /** The object keys a PUT is sent to: those of the presets whose transform succeeded. */
  function PutPaths(presets: map<string, string>, order: seq<string>, u: Url,
                    transform: Transformer): seq<string>
    requires forall p :: p in order ==> p in presets
  {
    if order == [] then []
    else
      var p := order[|order| - 1];
      PutPaths(presets, order[..|order| - 1], u, transform)
        + (if transform(p, presets[p], u.text).Pass? then [StorePath(p, u)] else [])
  }

  /** One more round of a store loop: its branch's error and PUT, if any, come last. */
  lemma PutStep(presets: map<string, string>, order: seq<string>, i: nat, u: Url,
                transform: Transformer, put: string -> Outcome, result: Outcome, sent: Option<string>)
    requires i < |order|
    requires forall p :: p in order ==> p in presets
    requires result == PutBranch(presets[order[i]], order[i], u, transform, put)
    requires sent == if transform(order[i], presets[order[i]], u.text).Pass? then Some(StorePath(order[i], u)) else None
    ensures Failures(PutOutcomes(presets, order[..i + 1], u, transform, put))
      == Failures(PutOutcomes(presets, order[..i], u, transform, put)) + (if result.Fail? then [result.msg] else [])
    ensures PutPaths(presets, order[..i + 1], u, transform)
      == PutPaths(presets, order[..i], u, transform) + (if sent.Some? then [sent.value] else [])
  {
    assert order[..i + 1][..i] == order[..i];
  }

  /** A PUT goes to a preset's object key exactly when that preset's transform succeeded. */
  lemma {:induction false} PutPathsMembers(presets: map<string, string>, order: seq<string>, u: Url,
                                           transform: Transformer)
    requires forall p :: p in order ==> p in presets
    ensures |PutPaths(presets, order, u, transform)| <= |order|
    ensures forall path :: path in PutPaths(presets, order, u, transform) <==>
      exists p :: p in order && transform(p, presets[p], u.text).Pass? && path == StorePath(p, u)
  {
    if order != [] {
      var n := |order| - 1;
      PutPathsMembers(presets, order[..n], u, transform);
      assert order == order[..n] + [order[n]];
    }
  }

  /** Over a preset order without repeats, no object key receives two PUTs. */
  lemma {:induction false} PutPathsDistinct(presets: map<string, string>, order: seq<string>, u: Url,
                                            transform: Transformer)
    requires forall p :: p in order ==> p in presets
    requires forall i, j :: 0 <= i < j < |order| ==> order[i] != order[j]
    ensures var puts := PutPaths(presets, order, u, transform);
      forall i, j :: 0 <= i < j < |puts| ==> puts[i] != puts[j]
  {
    if order != [] {
      var n := |order| - 1;
      var front := order[..n];
      PutPathsDistinct(presets, front, u, transform);
      PutPathsMembers(presets, front, u, transform);
      forall path | path in PutPaths(presets, front, u, transform)
        ensures path != StorePath(order[n], u)
      {
        var p :| p in front && transform(p, presets[p], u.text).Pass? && path == StorePath(p, u);
        var k :| 0 <= k < n && front[k] == p;
        assert order[k] == p;
        StorePathInjective(p, order[n], u);
      }
      var fp := PutPaths(presets, front, u, transform);
      var puts := PutPaths(presets, order, u, transform);
      forall i, j | 0 <= i < j < |puts| ensures puts[i] != puts[j] {
        if j >= |fp| {
          assert puts[j] == StorePath(order[n], u);
          assert puts[i] == fp[i] && fp[i] in fp;
        } else {
          assert puts[i] == fp[i] && puts[j] == fp[j];
        }
      }
    }
  }

  /** One delete branch: bucket.Del on the preset's object key. */
  function DelOutcomes(order: seq<string>, u: Url, del: string -> Outcome): (outs: seq<Outcome>)
    ensures |outs| == |order|
  {
    if order == [] then []
    else DelOutcomes(order[..|order| - 1], u, del) + [del(StorePath(order[|order| - 1], u))]
  }

  /**
   * The key of one preset's entry for `u`: MakeCacheKey(scheme..., preset, u.String()),
   * where `scheme` is [] for the two-part keys, ["s3"] or ["fs"].
   */
  function KeyFor(scheme: seq<string>, preset: string, u: Url): CacheKey
  {
    MakeCacheKey(scheme + [preset, u.text])
  }

  /** The keys of a set of presets under one scheme. */
  function CacheKeys(scheme: seq<string>, presets: set<string>, u: Url): set<CacheKey>
  {
    set p | p in presets :: KeyFor(scheme, p, u)
  }

  /** Clearing the key of one more preset, as a delete loop does each round. */
  lemma CacheKeysStep(scheme: seq<string>, order: seq<string>, i: nat, u: Url, entries: map<CacheKey, string>)
    requires i < |order|
    ensures entries - CacheKeys(scheme, Elements(order[..i + 1]), u)
         == (entries - CacheKeys(scheme, Elements(order[..i]), u)) - {KeyFor(scheme, order[i], u)}
  {
    assert Elements(order[..i + 1]) == Elements(order[..i]) + {order[i]};
    assert CacheKeys(scheme, Elements(order[..i + 1]), u)
        == CacheKeys(scheme, Elements(order[..i]), u) + {KeyFor(scheme, order[i], u)};
  }

  /** Keys of different schemes never meet: a two-part key is never a three-part one. */
  lemma SchemesDisjoint(scheme: seq<string>, other: seq<string>, p: string, presets: set<string>, u: Url)
    requires |scheme| != |other|
    ensures KeyFor(scheme, p, u) !in CacheKeys(other, presets, u)
  {
    forall q | q in presets ensures KeyFor(other, q, u) != KeyFor(scheme, p, u) {
      assert |KeyFor(other, q, u).parts| != |KeyFor(scheme, p, u).parts|;
    }
  }

  /** The aggregate error: nil when nothing failed, otherwise `prefix` and the report. */
  function Aggregate(prefix: string, errs: seq<string>): Outcome
  {
    if |ErrLines(errs)| > 0 then Fail(prefix + ErrLines(errs)) else Pass
  }

  lemma AggregateFailsIffErrors(prefix: string, errs: seq<string>)
    ensures Aggregate(prefix, errs).Fail? <==> errs != []
    ensures errs != [] ==> Aggregate(prefix, errs) == Fail(prefix + ErrLines(errs))
  {
    ErrLinesShape(errs);
  }
}
