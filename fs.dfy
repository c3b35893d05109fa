/**
 * The filesystem backend (fs/backend.go): serves a derivative as a file under
 * the storage root, writes every preset's derivative there, deletes them, and
 * reaps files older than the configured time-to-live.
 */
module Fs {
  import opened Common

  /** The part of the configuration the backend reads. `imageTTL` is a time.Duration in nanoseconds. */
  datatype Config = Config(root: string, imageTTL: int)

  /** The Backend struct, less its cache and transformer objects. */
  datatype Backend = Backend(root: string, imageTTL: int, presets: map<string, string>)

  /**
   * The foreign functions the backend calls: util.HashedPath, filepath.Join
   * and filepath.Dir, os.Stat (true when it returns no error), os.MkdirAll, os.OpenFile,
   * io.Copy of the derivative into the file, and os.Remove.
   */
  datatype FsEnv = FsEnv(
    hashedPath: (string, string) -> string,
    join: (string, string) -> string,
    dir: string -> string,
    statOk: string -> bool,
    mkdirAll: string -> Outcome,
    openFile: string -> Outcome,
    copy: string -> Outcome,
    remove: string -> Outcome)

  /** NewBackend: refuses an empty Root, otherwise copies its arguments. */
  function NewBackend(c: Config, presets: map<string, string>): (r: Result<Backend>)
    ensures r.Err? <==> c.root == ""
    ensures r.Err? ==> r.msg == "fs backend: 'Root' is required"
    ensures r.Ok? ==> r.value.root == c.root && r.value.imageTTL == c.imageTTL && r.value.presets == presets
  {
    if c.root == "" then Err("fs backend: 'Root' is required")
    else Ok(Backend(c.root, c.imageTTL, presets))
  }

  /** EncodeFilename: the file of a preset's derivative, filepath.Join(root, util.HashedPath(preset, url)). */
  function EncodeFilename(f: Backend, env: FsEnv, preset: string, urlstr: string): string
  {
    env.join(f.root, env.hashedPath(preset, urlstr))
  }

  /**
   * The file depends on the storage root, the preset and the URL string
   * alone: two backends with the same root agree on every file, whatever
   * their TTL or preset table.
   */
  lemma EncodeFilenameDeterministic(f: Backend, g: Backend, env: FsEnv, preset: string, urlstr: string)
    requires f.root == g.root
    ensures EncodeFilename(f, env, preset, urlstr) == EncodeFilename(g, env, preset, urlstr)
  {
  }

  /** The key Serve reads and writes and Delete clears: MakeCacheKey("fs", preset, u.String()). */
  function FsKey(preset: string, u: Url): CacheKey
  {
    KeyFor(["fs"], preset, u)
  }

  /**
   * Serve, as written: a cache hit serves the cached file and returns. On a
   * miss the derivative's file is stat'ed; when it exists the cache is set and
   * the file served, but the branch does not return, so materialization is
   * triggered and a 302 to the original is written after the file as well.
   */
  function Serve(f: Backend, env: FsEnv, target: Option<Url>, preset: Option<string>,
                 entries: map<CacheKey, string>): (r: ServeOutcome)
    ensures target.None? ==> r == Refused("Bad url")
    ensures target.Some? && preset.None? ==> r == Refused("Bad preset")
    ensures target.Some? && preset.Some? ==>
      var u, p := target.value, preset.value;
      var cached := LookupIn(entries, FsKey(p, u));
      var path := EncodeFilename(f, env, p, u.text);
      && (cached != "" ==> r == ServeOutcome([ServeFile(cached)], None, None, false))
      && (cached == "" ==> r.probe == Some(path) && r.materialize)
      && (cached == "" ==> |r.events| >= 2 && r.events[|r.events| - 2..] == Redirect(302, u.text))
      && (cached == "" && !env.statOk(path) ==> r.events == Redirect(302, u.text))
      && (r.cacheSet.Some? <==> cached == "" && env.statOk(path))
      && (r.cacheSet.Some? ==> r.cacheSet.value == (FsKey(p, u), path)
                               && r.events == [ServeFile(path)] + Redirect(302, u.text))
  {
    if target.None? then Refused("Bad url")
    else if preset.None? then Refused("Bad preset")
    else
      var u, p := target.value, preset.value;
      var cacheKey := FsKey(p, u);
      var cachedFile := LookupIn(entries, cacheKey);
      if cachedFile != "" then ServeOutcome([ServeFile(cachedFile)], None, None, false)
      else
        var path := EncodeFilename(f, env, p, u.text);
        if env.statOk(path) then
          ServeOutcome([ServeFile(path)] + Redirect(302, u.text), Some((cacheKey, path)), Some(path), true)
        else
          ServeOutcome(Redirect(302, u.text), None, Some(path), true)
  }

  /**
   * Serve with the return the stat-hit branch evidently lacks: a file found
   * on disk is cached and served, and nothing else happens.
   */
  function ServeIntended(f: Backend, env: FsEnv, target: Option<Url>, preset: Option<string>,
                         entries: map<CacheKey, string>): (r: ServeOutcome)
    ensures target.Some? && preset.Some? ==>
      var u, p := target.value, preset.value;
      var cached := LookupIn(entries, FsKey(p, u));
      var path := EncodeFilename(f, env, p, u.text);
      && (r.materialize <==> cached == "" && !env.statOk(path))
      && (cached == "" && env.statOk(path) ==> r == ServeOutcome([ServeFile(path)], Some((FsKey(p, u), path)), Some(path), false))
      && (r.events != [ServeFile(path)] ==> r == Serve(f, env, target, preset, entries))
    ensures target.None? || preset.None? ==> r == Serve(f, env, target, preset, entries)
  {
    if target.None? || preset.None? then Serve(f, env, target, preset, entries)
    else
      var u, p := target.value, preset.value;
      var cacheKey := FsKey(p, u);
      var path := EncodeFilename(f, env, p, u.text);
      if LookupIn(entries, cacheKey) == "" && env.statOk(path) then
        ServeOutcome([ServeFile(path)], Some((cacheKey, path)), Some(path), false)
      else Serve(f, env, target, preset, entries)
  }

  /**
   * As written, a file found on disk is both served and followed by a 302,
   * and every preset of the URL is materialized again, although the file is
   * already there.
   */
  lemma StatHitFallsThrough(f: Backend, env: FsEnv, u: Url, p: string, entries: map<CacheKey, string>)
    requires LookupIn(entries, FsKey(p, u)) == ""
    requires env.statOk(EncodeFilename(f, env, p, u.text))
    ensures var r := Serve(f, env, Some(u), Some(p), entries);
      && r.events[0] == ServeFile(EncodeFilename(f, env, p, u.text))
      && WriteHeader(302) in r.events
      && r.materialize
    ensures !ServeIntended(f, env, Some(u), Some(p), entries).materialize
  {
    var r := Serve(f, env, Some(u), Some(p), entries);
    assert r.events[2] == WriteHeader(302);
  }

  /**
   * The correction changes only what a stat hit does afterwards: the file
   * probed and the cache entry set are those of Serve, so every statement
   * below about Serve's probe and cache holds for ServeIntended as well.
   */
  lemma ServeIntendedProbesSameFile(f: Backend, env: FsEnv, target: Option<Url>, preset: Option<string>,
                                    entries: map<CacheKey, string>)
    ensures ServeIntended(f, env, target, preset, entries).probe == Serve(f, env, target, preset, entries).probe
    ensures ServeIntended(f, env, target, preset, entries).cacheSet == Serve(f, env, target, preset, entries).cacheSet
  {
  }

  /** A file found on disk is cached under the Serve key, so the next request serves it without a stat. */
  lemma StatHitIsServedFromCache(f: Backend, env: FsEnv, u: Url, p: string, entries: map<CacheKey, string>)
    requires LookupIn(entries, FsKey(p, u)) == ""
    requires env.statOk(EncodeFilename(f, env, p, u.text))
    requires EncodeFilename(f, env, p, u.text) != ""
    ensures var (key, path) := Serve(f, env, Some(u), Some(p), entries).cacheSet.value;
      Serve(f, env, Some(u), Some(p), entries[key := path])
      == ServeOutcome([ServeFile(EncodeFilename(f, env, p, u.text))], None, None, false)
  {
  }

  // ---------------------------------------------------------------------------
  // Materialization

  /** One errgroup branch of StoreTransformedContent; the first failing step ends it, wrapped by errors.Wrap. */
  function WriteBranch(f: Backend, env: FsEnv, preset: string, u: Url,
                       transform: Transformer): Outcome
    requires preset in f.presets
  {
    match transform(preset, f.presets[preset], u.text)
    case Fail(m) => Fail("failed to transform: " + m)
    case Pass =>
      var path := EncodeFilename(f, env, preset, u.text);
      var dir := env.dir(path);
      if !env.statOk(dir) && env.mkdirAll(dir).Fail? then
        Fail("failed to create directory " + dir + ": " + env.mkdirAll(dir).msg)
      else match env.openFile(path)
        case Fail(m) => Fail("failed to open file " + path + ": " + m)
        case Pass =>
          match env.copy(path)
          case Fail(m) => Fail("failed to write content to " + path + ": " + m)
          case Pass => Pass
  }

  function WriteOutcomes(f: Backend, env: FsEnv, order: seq<string>, u: Url,
                         transform: Transformer): (outs: seq<Outcome>)
    requires forall p :: p in order ==> p in f.presets
    ensures |outs| == |order|
  {
    if order == [] then []
    else
      WriteOutcomes(f, env, order[..|order| - 1], u, transform)
        + [WriteBranch(f, env, order[|order| - 1], u, transform)]
  }

  /**
   * The branch got as far as a successful os.OpenFile with O_CREATE: the file
   * now exists on disk, whether or not the copy into it then succeeds.
   */
  predicate FileCreated(f: Backend, env: FsEnv, preset: string, u: Url, transform: Transformer)
    requires preset in f.presets
  {
    var path := EncodeFilename(f, env, preset, u.text);
    var dir := env.dir(path);
    && transform(preset, f.presets[preset], u.text).Pass?
    && (env.statOk(dir) || env.mkdirAll(dir).Pass?)
    && env.openFile(path).Pass?
  }

  /** The files created: those of the branches whose os.OpenFile succeeded. */
  function CreatedFiles(f: Backend, env: FsEnv, order: seq<string>, u: Url,
                        transform: Transformer): seq<string>
    requires forall p :: p in order ==> p in f.presets
  {
    if order == [] then []
    else
      var p := order[|order| - 1];
      CreatedFiles(f, env, order[..|order| - 1], u, transform)
        + (if FileCreated(f, env, p, u, transform) then [EncodeFilename(f, env, p, u.text)] else [])
  }

  /** The files fully written: those of the branches that succeeded. */
  function WrittenFiles(f: Backend, env: FsEnv, order: seq<string>, u: Url,
                        transform: Transformer): seq<string>
    requires forall p :: p in order ==> p in f.presets
  {
    if order == [] then []
    else
      var p := order[|order| - 1];
      WrittenFiles(f, env, order[..|order| - 1], u, transform)
        + (if WriteBranch(f, env, p, u, transform).Pass? then [EncodeFilename(f, env, p, u.text)] else [])
  }

  /**
   * StoreTransformedContent: every preset is transformed and written to its
   * EncodeFilename file, creating the directory when os.Stat says it is
   * missing. The result is errgroup's: nil iff every branch succeeded,
   * otherwise the first branch error. Besides the files fully written, it
   * returns the files os.OpenFile created, which include those of branches
   * whose copy then failed. It never sets the cache.
   */
  method StoreTransformedContent(f: Backend, env: FsEnv, u: Url, order: seq<string>,
                                 transform: Transformer)
    returns (err: Outcome, created: seq<string>, written: seq<string>)
    requires IsEnumeration(order, f.presets.Keys)
    ensures err == FirstFailure(WriteOutcomes(f, env, order, u, transform))
    ensures created == CreatedFiles(f, env, order, u, transform)
    ensures written == WrittenFiles(f, env, order, u, transform)
  {
    err, created, written := Pass, [], [];
    for i := 0 to |order|
      invariant err == FirstFailure(WriteOutcomes(f, env, order[..i], u, transform))
      invariant created == CreatedFiles(f, env, order[..i], u, transform)
      invariant written == WrittenFiles(f, env, order[..i], u, transform)
    {
      WriteStep(f, env, order, i, u, transform);
      var branch, madeFile := WritePreset(f, env, order[i], u, transform);
      if madeFile {
        created := created + [EncodeFilename(f, env, order[i], u.text)];
      }
      if branch.Pass? {
        written := written + [EncodeFilename(f, env, order[i], u.text)];
      }
      if err.Pass? {
        err := branch;
      }
    }
    assert order[..|order|] == order;
  }

  /**
   * One branch of StoreTransformedContent: transform, make the directory if
   * os.Stat fails on it, open, copy. The first failing step ends the branch
   * with its own errors.Wrap message; the branch succeeds iff every step does.
   */
  method WritePreset(f: Backend, env: FsEnv, preset: string, u: Url,
                     transform: Transformer) returns (branch: Outcome, madeFile: bool)
    requires preset in f.presets
    ensures branch == WriteBranch(f, env, preset, u, transform)
    ensures madeFile == FileCreated(f, env, preset, u, transform)
    ensures var path := EncodeFilename(f, env, preset, u.text);
      var dir := env.dir(path);
      var t := transform(preset, f.presets[preset], u.text);
      && (branch.Pass? <==> t.Pass? && (env.statOk(dir) || env.mkdirAll(dir).Pass?)
                            && env.openFile(path).Pass? && env.copy(path).Pass?)
      && (t.Fail? ==> branch == Fail("failed to transform: " + t.msg))
      && (t.Pass? && !env.statOk(dir) && env.mkdirAll(dir).Fail? ==>
            branch == Fail("failed to create directory " + dir + ": " + env.mkdirAll(dir).msg))
      && (t.Pass? && (env.statOk(dir) || env.mkdirAll(dir).Pass?) && env.openFile(path).Fail? ==>
            branch == Fail("failed to open file " + path + ": " + env.openFile(path).msg))
      && (madeFile && env.copy(path).Fail? ==>
            branch == Fail("failed to write content to " + path + ": " + env.copy(path).msg))
  {
    madeFile := false;
    var res := transform(preset, f.presets[preset], u.text);
    if res.Fail? {
      return Fail("failed to transform: " + res.msg), madeFile;
    }
    var path := EncodeFilename(f, env, preset, u.text);
    var dir := env.dir(path);
    if !env.statOk(dir) {
      var made := env.mkdirAll(dir);
      if made.Fail? {
        return Fail("failed to create directory " + dir + ": " + made.msg), madeFile;
      }
    }
    var fh := env.openFile(path);
    if fh.Fail? {
      return Fail("failed to open file " + path + ": " + fh.msg), madeFile;
    }
    madeFile := true;
    var copied := env.copy(path);
    if copied.Fail? {
      return Fail("failed to write content to " + path + ": " + copied.msg), madeFile;
    }
    branch := Pass;
  }

  /** One more branch: the first error so far wins over the new branch's; the branch adds its created and written file. */
  lemma WriteStep(f: Backend, env: FsEnv, order: seq<string>, i: nat, u: Url,
                  transform: Transformer)
    requires i < |order|
    requires forall p :: p in order ==> p in f.presets
    ensures var before := FirstFailure(WriteOutcomes(f, env, order[..i], u, transform));
      FirstFailure(WriteOutcomes(f, env, order[..i + 1], u, transform))
      == if before.Pass? then WriteBranch(f, env, order[i], u, transform) else before
    ensures CreatedFiles(f, env, order[..i + 1], u, transform)
      == CreatedFiles(f, env, order[..i], u, transform)
         + (if FileCreated(f, env, order[i], u, transform) then [EncodeFilename(f, env, order[i], u.text)] else [])
    ensures WrittenFiles(f, env, order[..i + 1], u, transform)
      == WrittenFiles(f, env, order[..i], u, transform)
         + (if WriteBranch(f, env, order[i], u, transform).Pass? then [EncodeFilename(f, env, order[i], u.text)] else [])
  {
    assert order[..i + 1][..i] == order[..i];
  }

  /** A file is created iff some visited preset's branch got its OpenFile through, and that is its file. */
  lemma {:induction false} CreatedFilesMembers(f: Backend, env: FsEnv, u: Url, order: seq<string>,
                                               transform: Transformer)
    requires forall p :: p in order ==> p in f.presets
    ensures |CreatedFiles(f, env, order, u, transform)| <= |order|
    ensures forall path :: path in CreatedFiles(f, env, order, u, transform) <==>
      exists p :: p in order && FileCreated(f, env, p, u, transform) && path == EncodeFilename(f, env, p, u.text)
  {
    if order != [] {
      var n := |order| - 1;
      CreatedFilesMembers(f, env, u, order[..n], transform);
      assert order == order[..n] + [order[n]];
    }
  }

  /** A file is fully written iff some visited preset's branch succeeded, and that is its file. */
  lemma {:induction false} WrittenFilesMembers(f: Backend, env: FsEnv, u: Url, order: seq<string>,
                                               transform: Transformer)
    requires forall p :: p in order ==> p in f.presets
    ensures |WrittenFiles(f, env, order, u, transform)| <= |order|
    ensures forall path :: path in WrittenFiles(f, env, order, u, transform) <==>
      exists p :: p in order && WriteBranch(f, env, p, u, transform).Pass? && path == EncodeFilename(f, env, p, u.text)
  {
    if order != [] {
      var n := |order| - 1;
      WrittenFilesMembers(f, env, u, order[..n], transform);
      assert order == order[..n] + [order[n]];
    }
  }

  /**
   * Every file fully written was created, and a branch whose copy fails after
   * a successful open still leaves its file among the created ones while the
   * branch itself reports an error.
   */
  lemma {:induction false} CreatedCoversWritten(f: Backend, env: FsEnv, u: Url, order: seq<string>,
                                                transform: Transformer)
    requires forall p :: p in order ==> p in f.presets
    ensures forall path :: path in WrittenFiles(f, env, order, u, transform) ==>
      path in CreatedFiles(f, env, order, u, transform)
    ensures forall p :: p in order && FileCreated(f, env, p, u, transform)
                        && env.copy(EncodeFilename(f, env, p, u.text)).Fail? ==>
      && WriteBranch(f, env, p, u, transform).Fail?
      && EncodeFilename(f, env, p, u.text) in CreatedFiles(f, env, order, u, transform)
  {
    if order != [] {
      var n := |order| - 1;
      var front := order[..n];
      CreatedCoversWritten(f, env, u, front, transform);
      assert forall p :: p in order ==> p in front || p == order[n];
    }
  }

  /** The store result is nil iff every preset's branch succeeded, and otherwise the first error reported. */
  lemma StoreResultIsFirstError(f: Backend, env: FsEnv, u: Url, order: seq<string>,
                                transform: Transformer)
    requires IsEnumeration(order, f.presets.Keys)
    ensures var outs := WriteOutcomes(f, env, order, u, transform);
      && (FirstFailure(outs) == Pass <==> forall i :: 0 <= i < |outs| ==> outs[i] == Pass)
      && (FirstFailure(outs) != Pass ==> Failures(outs) != [] && FirstFailure(outs) == Fail(Failures(outs)[0]))
  {
    var outs := WriteOutcomes(f, env, order, u, transform);
    FirstFailureIsFirst(outs);
    FailuresEmpty(outs);
  }

  /**
   * The file a store branch creates is the one Serve stats for that preset:
   * after it, a cache miss for the preset probes it, even when the copy into
   * it failed and it holds a partial derivative; a successful branch's file
   * is also among those fully written.
   */
  lemma {:induction false} StoredFileIsServedFile(f: Backend, env: FsEnv, u: Url, order: seq<string>,
                                                  transform: Transformer, p: string,
                                                  entries: map<CacheKey, string>)
    requires forall q :: q in order ==> q in f.presets
    requires p in order
    requires FileCreated(f, env, p, u, transform)
    requires LookupIn(entries, FsKey(p, u)) == ""
    ensures Serve(f, env, Some(u), Some(p), entries).probe.Some?
    ensures Serve(f, env, Some(u), Some(p), entries).probe.value in CreatedFiles(f, env, order, u, transform)
    ensures WriteBranch(f, env, p, u, transform).Pass? ==>
      Serve(f, env, Some(u), Some(p), entries).probe.value in WrittenFiles(f, env, order, u, transform)
  {
    var n := |order| - 1;
    if order[n] != p {
      assert p in order[..n] by {
        var i :| 0 <= i < |order| && order[i] == p;
        assert order[..n][i] == p;
      }
      StoredFileIsServedFile(f, env, u, order[..n], transform, p, entries);
    }
  }

  // ---------------------------------------------------------------------------
  // Deletion

  /** One Delete branch: os.Remove on the preset's file, its error wrapped. */
  function RemoveBranch(f: Backend, env: FsEnv, preset: string, u: Url): Outcome
  {
    var path := EncodeFilename(f, env, preset, u.text);
    match env.remove(path)
    case Fail(m) => Fail("failed to remove path " + path + ": " + m)
    case Pass => Pass
  }

  function RemoveOutcomes(f: Backend, env: FsEnv, order: seq<string>, u: Url): (outs: seq<Outcome>)
    ensures |outs| == |order|
  {
    if order == [] then []
    else RemoveOutcomes(f, env, order[..|order| - 1], u) + [RemoveBranch(f, env, order[|order| - 1], u)]
  }

  /** The keys Delete clears: those of the presets whose file was removed. */
  function RemovedKeys(f: Backend, env: FsEnv, presets: set<string>, u: Url): set<CacheKey>
  {
    set p | p in presets && RemoveBranch(f, env, p, u).Pass? :: FsKey(p, u)
  }

  /** One more Delete branch: the first error so far wins over the new branch's. */
  lemma RemoveStep(f: Backend, env: FsEnv, order: seq<string>, i: nat, u: Url)
    requires i < |order|
    ensures var before := FirstFailure(RemoveOutcomes(f, env, order[..i], u));
      FirstFailure(RemoveOutcomes(f, env, order[..i + 1], u))
      == if before.Pass? then RemoveBranch(f, env, order[i], u) else before
  {
    assert order[..i + 1][..i] == order[..i];
  }

  lemma RemovedKeysStep(f: Backend, env: FsEnv, order: seq<string>, i: nat, u: Url, entries: map<CacheKey, string>)
    requires i < |order|
    ensures entries - RemovedKeys(f, env, Elements(order[..i + 1]), u)
         == (entries - RemovedKeys(f, env, Elements(order[..i]), u))
            - (if RemoveBranch(f, env, order[i], u).Pass? then {FsKey(order[i], u)} else {})
  {
    assert Elements(order[..i + 1]) == Elements(order[..i]) + {order[i]};
    assert RemovedKeys(f, env, Elements(order[..i + 1]), u)
        == RemovedKeys(f, env, Elements(order[..i]), u)
           + (if RemoveBranch(f, env, order[i], u).Pass? then {FsKey(order[i], u)} else {});
  }

  /**
   * Delete: os.Remove on every preset's file; a failed remove returns before
   * the cache, so only the presets whose file was removed lose their "fs"
   * cache entry. The result is errgroup's first error, wrapped.
   */
  method Delete(f: Backend, env: FsEnv, u: Url, order: seq<string>, cache: UrlCache)
    returns (err: Outcome)
    requires IsEnumeration(order, f.presets.Keys)
    modifies cache
    ensures err == match FirstFailure(RemoveOutcomes(f, env, order, u))
                   case Pass => Pass
                   case Fail(m) => Fail("deleting from file system: " + m)
    ensures cache.entries == old(cache.entries) - RemovedKeys(f, env, f.presets.Keys, u)
  {
    var first := Pass;
    for i := 0 to |order|
      invariant first == FirstFailure(RemoveOutcomes(f, env, order[..i], u))
      invariant cache.entries == old(cache.entries) - RemovedKeys(f, env, Elements(order[..i]), u)
    {
      RemoveStep(f, env, order, i, u);
      RemovedKeysStep(f, env, order, i, u, old(cache.entries));
      var preset := order[i];
      var path := EncodeFilename(f, env, preset, u.text);
      var branch := Pass;
      var removed := env.remove(path);
      if removed.Fail? {
        branch := Fail("failed to remove path " + path + ": " + removed.msg);
      } else {
        cache.Delete(FsKey(preset, u));
      }
      if first.Pass? {
        first := branch;
      }
    }
    assert order[..|order|] == order;
    assert Elements(order) == f.presets.Keys;
    match first {
      case Pass => err := Pass;
      case Fail(m) => err := Fail("deleting from file system: " + m);
    }
  }

  /**
   * The key Delete clears is the one Serve reads: after a successful remove
   * the next request for that preset misses the cache, while a preset whose
   * remove failed keeps its entry.
   */
  lemma DeleteClearsServeKeyOnlyOnRemove(f: Backend, env: FsEnv, u: Url, p: string,
                                          entries: map<CacheKey, string>)
    requires p in f.presets
    ensures var after := entries - RemovedKeys(f, env, f.presets.Keys, u);
      && (RemoveBranch(f, env, p, u).Pass? ==>
            Serve(f, env, Some(u), Some(p), after).probe == Some(EncodeFilename(f, env, p, u.text)))
      && (RemoveBranch(f, env, p, u).Fail? ==> LookupIn(after, FsKey(p, u)) == LookupIn(entries, FsKey(p, u)))
  {
    if RemoveBranch(f, env, p, u).Fail? {
      forall q | q in f.presets && RemoveBranch(f, env, q, u).Pass? ensures FsKey(q, u) != FsKey(p, u) {
        assert FsKey(q, u).parts[1] == q;
      }
    } else {
      assert FsKey(p, u) in RemovedKeys(f, env, f.presets.Keys, u);
    }
  }

  // ---------------------------------------------------------------------------
  // The storage reaper

  /** One entry filepath.Walk hands to its callback: the path, its modification time, and whether it came with an error. */
  datatype WalkEntry = WalkEntry(path: string, modTime: int, walkErr: bool)

  /** The walked entries older than `ttl` at time `now`, skipping those that came with an error. */
  function Expired(walk: seq<WalkEntry>, now: int, ttl: int): seq<string>
  {
    if walk == [] then []
    else
      var e := walk[|walk| - 1];
      Expired(walk[..|walk| - 1], now, ttl) + (if !e.walkErr && now - e.modTime > ttl then [e.path] else [])
  }

  /** A path is reaped iff some error-free entry for it is older than the TTL. */
  lemma {:induction false} ExpiredMembers(walk: seq<WalkEntry>, now: int, ttl: int)
    ensures |Expired(walk, now, ttl)| <= |walk|
    ensures forall path :: path in Expired(walk, now, ttl) <==>
      exists i :: 0 <= i < |walk| && !walk[i].walkErr && now - walk[i].modTime > ttl && walk[i].path == path
  {
    if walk != [] {
      var n := |walk| - 1;
      ExpiredMembers(walk[..n], now, ttl);
      forall path | (exists i :: 0 <= i < |walk| && !walk[i].walkErr && now - walk[i].modTime > ttl && walk[i].path == path)
        ensures path in Expired(walk, now, ttl)
      {
        var i :| 0 <= i < |walk| && !walk[i].walkErr && now - walk[i].modTime > ttl && walk[i].path == path;
        if i < n {
          assert walk[..n][i] == walk[i];
        }
      }
    }
  }

  /**
   * CleanStorageRoot at time `now`, over what the walk of the root yields:
   * nothing when the TTL is not positive, otherwise an os.Remove of every
   * error-free entry older than the TTL (its own failure ignored). The
   * returned error is always nil, so only the removals are returned.
   */
  method CleanStorageRoot(f: Backend, now: int, walk: seq<WalkEntry>) returns (removed: seq<string>)
    ensures f.imageTTL <= 0 ==> removed == []
    ensures f.imageTTL > 0 ==> removed == Expired(walk, now, f.imageTTL)
  {
    removed := [];
    if f.imageTTL <= 0 {
      return;
    }
    for i := 0 to |walk|
      invariant removed == Expired(walk[..i], now, f.imageTTL)
    {
      assert walk[..i + 1][..i] == walk[..i];
      var entry := walk[i];
      if entry.walkErr {
        continue;
      }
      if now - entry.modTime > f.imageTTL {
        removed := removed + [entry.path];
      }
    }
    assert walk[..|walk|] == walk;
  }
}
