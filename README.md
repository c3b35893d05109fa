# sharaq, modelled in Dafny

sharaq is an image-derivative proxy. A request names a source image URL and
a preset, such as a thumbnail size. The proxy answers with a stored
derivative, either a file in an S3 bucket or a file under a local storage
root. When the derivative is missing, it redirects to the original and
builds every preset's derivative in the background. A separate "guardian"
endpoint creates (PUT) and deletes (DELETE) all derivatives of one source
image on S3 eagerly. A dispatcher in front checks the requested URL against
a whitelist of regular expressions.

This project models the decision and bookkeeping logic of these components
and proves properties of it:

- `common.dfy` (module `Common`) holds what the components share:
  - the URL value and the cache key;
  - the URL cache, as a class whose `entries` map the methods update;
  - the HTTP writer actions a handler performs;
  - the per-preset fan-out: what each branch yields, the `"Err: %s\n"`
    report built from the errors, and errgroup's first error.
- `guardian.dfy` (module `SharaqGuardian`) models guardian.go:
  - the in-flight guard, as a `Guardian` class with a `processing` set;
  - the store, delete and view handlers, and the method switch.
- `aws.dfy` (module `Aws`) models the S3 backend: the `Serve` decision
  tree, `StoreTransformedContent` and `Delete`.
- `fs.dfy` (module `Fs`) models the filesystem backend: `NewBackend`,
  `EncodeFilename`, `Serve`, `StoreTransformedContent`, `Delete` and the
  `CleanStorageRoot` reaper.
- `dispatcher.dfy` (module `SharaqDispatcher`) models `NewDispatcher`,
  `HandleFetch` and `ServeHTTP`.

Modelling choices:

- Goroutines become sequential loops. A fan-out over the preset map takes
  an extra input, `order`: the order in which Go's map iteration visits the
  presets, or in which the goroutines report back. `IsEnumeration` requires
  it to list every preset exactly once and nothing else. Every property
  holds for every such order.
- The transformer is a function of the preset, the rule and the URL
  (`Transformer`). Each branch calls `t.Transform` on its own, so two
  presets with the same rule, such as wando-thumb and email-thumb, may get
  different answers.
- Calls to code outside the model are function-typed parameters. These are
  the transformer, S3 `PutReader`/`Del`, `http.Head`, the `os` and
  `filepath` calls, `util.HashedPath`, CRC-64 and `regexp`. The same holds
  for the results of `url.Parse`, `util.GetTargetURL` and
  `util.GetPresetFromRequest`, which arrive as `Option` values.
- `MakeCacheKey` is not part of this model. It is represented by the list
  of its parts (`CacheKey(parts)`), so two keys are equal exactly when
  their parts are.
- An HTTP response is the list of writer actions the handler performs:
  `http.Error`, `Header().Add`/`Set`, `WriteHeader`, `http.ServeFile` and
  the template render. The `Serve` decision trees return an outcome that
  also records the cache `Set` they request, the URL or file they probe
  (HEAD or `os.Stat`), and whether they start background materialization.

The guardian's handlers mark a URL as in flight with the comment "Don't
process the same url while somebody else is processing it"
(guardian.go:201 and guardian.go:240). The code does not do that:
`MarkProcessing` returns `true` unconditionally, so the model follows the
code.
`MarkTwiceAdmitsBoth` and the `HandleStore`/`HandleDelete` contracts show
that the "url is being processed" branch is never taken.

## Model

| member | source | states |
|---|---|---|
| SharaqGuardian.Guardian.MarkProcessing | guardian.go:81-90 | Always returns true; afterwards the URL's CRC-64 is in the in-flight set, and nothing else was added. |
| SharaqGuardian.Guardian.UnmarkProcessing | guardian.go:92-100 | Removes exactly the URL's hash from the in-flight set; every other key stays, and an absent key is a no-op. |
| SharaqGuardian.MarkTwiceAdmitsBoth | guardian.go:81-100 | Marking a URL that is already in flight is admitted as well: both calls return true. When the first run then unmarks, the URL is no longer in flight although the second run is still at work. |
| SharaqGuardian.MarkThenUnmarkRestores | guardian.go:81-100 | The key depends on the URL alone: mark then unmark of a URL not in flight leaves the in-flight set as it was. |
| SharaqGuardian.Guardian.TransformAllAndStore | guardian.go:102-135 | The errors collected are exactly those of the failing branches, one per failing preset. A PUT goes to "/" + preset + u.Path only for the presets whose transform succeeded. |
| SharaqGuardian.StoreErrorsBounded | guardian.go:107-128 | transformAllAndStore reports at most as many errors as there are presets. |
| Common.PutPathsMembers | guardian.go:113-122 | A PUT is sent to a preset's object key if and only if that preset's transform succeeded, and there are no more PUTs than branches. |
| Common.PutPathsDistinct | guardian.go:108-122 | When every preset is visited once, no object key receives two PUTs. |
| Common.StorePathInjective | aws/backend.go:122 | The object key is "/", then the preset, then u.Path, so under one source URL different presets never share a key. |
| Common.TransformAndPut | guardian.go:110-128 | One branch: a transform error is the branch's error; otherwise the PUT to "/" + preset + u.Path is made and its answer is the branch's. The branch succeeds iff both steps do, and a PUT is sent iff the transform succeeded. |
| SharaqGuardian.ViewImages | guardian.go:152-159 | The view links exactly the four presets, each to the ix.peatix.com bucket URL ending in "/" + preset + u.Path. |
| SharaqGuardian.HandleView | guardian.go:137-182 | An empty or unparsable url is a 500 "Bad url". Otherwise the content type is set and the per-preset URLs are rendered. |
| SharaqGuardian.Guardian.HandleStore | guardian.go:186-224 | An empty or unparsable url is a 500 "Bad url", with no PUT and the in-flight set untouched. Otherwise the reply is the report of the collected errors, and the in-flight mark is cleared afterwards. |
| SharaqGuardian.StoreResponseReportsFailures | guardian.go:212-221 | HandleStore answers 500 iff some preset's transform or PUT failed. The body is the "Err: ...\n" report with one error per failing preset, and it is never the "url is being processed" reply. |
| SharaqGuardian.Guardian.HandleDelete | guardian.go:227-285 | Bad urls are refused with the state untouched. Otherwise every preset's two-part cache key is cleared whatever Del answered, the reply is the report of the Del errors, and the mark is cleared. |
| SharaqGuardian.DeleteResponseReportsFailures | guardian.go:274-282 | HandleDelete answers 500 iff some Del failed, with one error per failing preset, and never the busy reply. |
| SharaqGuardian.NotBusy | guardian.go:202-206 | No error report, empty or not, is the "url is being processed" reply. |
| SharaqGuardian.Guardian.ServeHttp | guardian.go:68-79 | GET views, PUT stores, DELETE deletes, and any other method is a 400 "What, what, what?". Only DELETE touches the cache, and only PUT and DELETE touch the in-flight set. With a bad url both leave the state unchanged. Otherwise both clear the URL's mark, and DELETE clears every preset's two-part cache key. The PUTs sent are exactly PutPaths for a PUT with a good url, and none otherwise. |
| Common.FormatErrors | guardian.go:212-215 | Draining the error channel produces exactly one "Err: " + error + "\n" line per error, in order. |
| Common.ErrLinesShape | guardian.go:212-217 | The report is empty iff there are no errors; otherwise it starts with "Err: ". |
| Common.ErrLinesOneLineEach | guardian.go:212-215 | When no error text holds a newline, the report has exactly one line per error. |
| Common.FailuresCount | guardian.go:107-128 | Each failing branch contributes exactly one error and no other branch contributes any, so there are at most as many errors as branches. |
| Common.FailuresMembers | aws/backend.go:110-140 | An error is in the report iff some branch failed with it. |
| Common.FailuresEmpty | aws/backend.go:138-146 | No error is collected iff every branch succeeded. |
| Common.AggregateFailsIffErrors | aws/backend.go:142-146 | The aggregate is nil iff no error was collected; otherwise it is the prefix followed by the report. |
| Common.SchemesDisjoint | aws/backend.go:65 | A key without a scheme never equals a key with one, for any preset. |
| Aws.SpecificUrl | aws/backend.go:74 | The derivative URL is "http://" + bucket + ".s3.amazonaws.com" followed by the same "/" + preset + u.Path that store and delete use. |
| Aws.Serve | aws/backend.go:50-101 | Bad url and bad preset are refused with 500. A cache hit is a 301 to the cached URL, with no HEAD and no materialization. HEAD 200 caches the URL under the "s3" key and answers 301 to it. Any other status materializes and answers 302 to the original. A HEAD error answers 302 without materializing. |
| Aws.ConfirmedLocationIsServedFromCache | aws/backend.go:65-90 | Once HEAD 200 has cached a location, the next request is a 301 to that location with no HEAD, whatever HEAD would now answer. |
| Aws.StoreTransformedContent | aws/backend.go:103-147 | The result is "error while transforming: " plus one "Err: ...\n" line per failing branch, or nil. A PUT is sent only after a successful transform. The cache is not touched. |
| Aws.TransformAndPutAll | aws/backend.go:108-133 | The errors collected are exactly the failing branches' errors, and the PUT keys are exactly those of the presets whose transform succeeded. |
| Aws.StoreFailsIffSomeBranchFails | aws/backend.go:138-146 | The store result is nil iff every preset's transform and PUT succeeded, and there are never more errors than presets. |
| Aws.Delete | aws/backend.go:149-184 | As written: Del is called on every preset's object key. Every preset's two-part key is cleared whatever Del answered. The result aggregates the Del errors under "error while deleting: ". |
| Aws.DeleteLeavesServeEntry | aws/backend.go:65-71 | After the as-written Delete, a preset whose "s3" entry was cached is still a 301 to the deleted object. |
| Aws.DeleteIntended | aws/backend.go:149-184 | The same as Delete, but it clears the "s3" keys that Serve reads. |
| Aws.DeleteIntendedClearsServeEntry | aws/backend.go:65-77 | After DeleteIntended, every preset misses the cache and goes back to the HEAD probe. |
| Fs.EncodeFilenameDeterministic | fs/backend.go:45-49 | The file depends only on the storage root, the preset and the URL string: two backends with the same root agree on every file. |
| Fs.NewBackend | fs/backend.go:30-43 | Fails with "fs backend: 'Root' is required" iff Root is empty; otherwise it copies root, TTL and presets. |
| Fs.Serve | fs/backend.go:51-94 | As written. Bad url and bad preset are refused. A cache hit serves the cached file, with no stat and no materialization. Every miss stats EncodeFilename, materializes, and ends with a 302 to the original. A plain miss (stat fails) replies with exactly that 302. A stat hit also caches the path under the "fs" key and serves the file before that 302. |
| Fs.StatHitFallsThrough | fs/backend.go:73-93 | A file found on disk is served and then followed by a 302, and materialization runs again. The corrected ServeIntended does not materialize. |
| Fs.ServeIntended | fs/backend.go:73-78 | With the missing return: a stat hit caches and serves the file, and does nothing else. Every other case is as in Serve. |
| Fs.ServeIntendedProbesSameFile | fs/backend.go:66-78 | The correction changes neither the file probed nor the cache entry set, so the Serve lemmas about them carry over. |
| Fs.StatHitIsServedFromCache | fs/backend.go:66-77 | After a stat hit, the next request is served from the cached path, with no stat and no materialization. |
| Fs.WritePreset | fs/backend.go:106-137 | One branch succeeds iff the transform passes, the directory exists or is created, the open passes and the copy passes. Otherwise the first failing step's error is returned, wrapped as "failed to transform: ", "failed to create directory <dir>: ", "failed to open file <path>: " or "failed to write content to <path>: ". It also reports whether OpenFile created the file. |
| Fs.StoreTransformedContent | fs/backend.go:96-144 | The result is errgroup's: the first failing branch's error, or nil. It returns the files OpenFile created, which include those of branches whose copy then failed, and the files fully written by the successful branches. The cache is not touched. |
| Fs.CreatedFilesMembers | fs/backend.go:114-137 | A file is created iff some visited preset's transform succeeded, its directory existed or was made, and its OpenFile succeeded, and the file is that preset's EncodeFilename; at most one per branch. |
| Fs.WrittenFilesMembers | fs/backend.go:114-137 | A file is fully written iff some visited preset's branch succeeded, and the file is that preset's EncodeFilename; at most one per branch. |
| Fs.CreatedCoversWritten | fs/backend.go:128-136 | Every fully written file was created. A branch whose copy fails after a successful open reports an error but leaves its file among the created ones. |
| Fs.StoreResultIsFirstError | fs/backend.go:143 | The store result is nil iff every branch succeeded; otherwise it is the first error collected. |
| Common.FirstFailureIsFirst | fs/backend.go:143 | errgroup's result is nil when nothing failed, and otherwise the first error reported. |
| Fs.StoredFileIsServedFile | fs/backend.go:118 | The file a store branch creates is the one Serve stats on a cache miss for that preset, even when the copy into it failed. A successful branch's file is also among those fully written. |
| Fs.Delete | fs/backend.go:146-167 | os.Remove is called on every preset's file. A preset's "fs" key is cleared only when its remove succeeded. The result is "deleting from file system: " plus the first error, or nil. |
| Fs.DeleteClearsServeKeyOnlyOnRemove | fs/backend.go:155-161 | After Delete, a preset whose file was removed misses the cache in Serve. A preset whose remove failed keeps its entry. |
| Fs.CleanStorageRoot | fs/backend.go:169-186 | A TTL of zero or less removes nothing. Otherwise exactly the walked entries without a walk error and older than the TTL are removed, in walk order. |
| Fs.ExpiredMembers | fs/backend.go:174-183 | A path is removed iff some error-free walked entry for it is older than the TTL; there are never more removals than entries. |
| SharaqDispatcher.NewDispatcher | dispatcher.go:28-49 | Succeeds iff every pattern compiles, with entry i compiled from pattern i. Otherwise it fails with the error of the first pattern that does not compile. |
| SharaqDispatcher.HandleFetch | dispatcher.go:95-120 | An empty url is a 500 "Bad url". A url the whitelist does not admit is a 403. Otherwise the request is handed to the backend. A whitelist admits a url when it is empty or when some pattern matches. |
| SharaqDispatcher.ServeHttp | dispatcher.go:84-120 | GET goes to HandleFetch, and any other method is a 400 "What, what, what?". A GET without a url is a 500 "Bad url"; a url is delegated iff the whitelist allows it, and otherwise refused with a 403 "Specified url not allowed". |

## Left out

- Concurrency is not modelled: goroutines, `sync.WaitGroup`, `errgroup`, channels and the mutex around `processing`. Fan-outs run sequentially in an arbitrary order given as input.
- The data race on the shared `err` variable in the guardian's delete goroutines is not modelled. Each branch's `Del` result is used as its own.
- The `go f.CleanStorageRoot()` at the end of the filesystem `StoreTransformedContent` is not modelled. The reaper is modelled on its own.
- The time the background materialization in the two `Serve` functions runs is not modelled, and its result is only logged. `Serve` records only that it is started.
- Template parsing and rendering in `HandleView` are not modelled, and neither is the "Template error" branch, because the template is a constant. Only the per-preset URLs are kept.
- The bytes `http.ServeFile` sends are not modelled; it is an action naming the file.
- The `X-Peatix-Elapsed-Time` header, which formats floating-point seconds, is not modelled. Time appears only in the reaper, as integer `now`, modification time and TTL.
- The filesystem is not modelled as state. `os.Stat` is an oracle, so the model does not link a file created by a store branch to a later stat hit in `Serve`. `StoredFileIsServedFile` shows only that both use the same path.
- Logging is not modelled.
- `NewGuardian`, the S3 `NewBackend` and the `Run` methods are not modelled: they build clients and listeners.
- `sharaq_standalone.go` (process plumbing) and `interface.go` (type declarations only) are not part of this model.
- The URL cache, `MakeCacheKey`, CRC-64, `util.HashedPath`, `filepath.Join`/`Dir`, `regexp`, `url.Parse` and the transformer are not part of this model. They appear as abstract values or function parameters.
- Fs.Expired: the age `now - modTime` is an unbounded integer, whereas `time.Since` saturates at the largest `time.Duration`; the two differ only for a TTL at or near that maximum.
- Fs.CleanStorageRoot: returns the paths it removes instead of calling `os.Remove`, because the outcome of each remove is ignored by the source; the walk is its input.
- SharaqGuardian.Guardian.MarkProcessing: the hash is an abstract function into 64-bit values, so two URLs with the same CRC-64 share a mark, as in the source, but no particular collision is modelled.

## Findings

| source | as written | input that shows it | evidently intended | confidence | as-written member | corrected member |
|---|---|---|---|---|---|---|
| aws/backend.go:165 | `Delete` clears `MakeCacheKey(preset, u.String())`, but `Serve` reads and sets `MakeCacheKey("s3", preset, u.String())` (aws/backend.go:65). | A source URL whose "s3" entry for a preset is cached when Delete runs: the entry survives, and the next request gets a 301 to the deleted object. | Clear the "s3" key that Serve uses, so a request after the delete probes the bucket again. | not executed | Aws.Delete, Aws.DeleteLeavesServeEntry | Aws.DeleteIntended, Aws.DeleteIntendedClearsServeEntry |
| fs/backend.go:74-78 | The stat-hit branch sets the cache and serves the file, but has no `return`. | A cache miss whose EncodeFilename file exists: the file is served and every preset is materialized again. The `WriteHeader(302)` after it is a superfluous call that net/http ignores, so the client still gets the file. | Return after serving the file found on disk. | not executed | Fs.Serve, Fs.StatHitFallsThrough | Fs.ServeIntended |
