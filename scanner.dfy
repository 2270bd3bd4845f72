/**
  The directory scanner of the edge service. One scan walks the ready tree,
  keeps the video files whose size and modification time did not change
  since the previous scan, picks a reference among them, repairs every other
  one into the export tree, quarantines the failures and reports each
  failure to the cloud API. The scanner object remembers what it saw
  (`known`) between scans.

  The walk of the ready tree, the clock, and every outcome decided outside
  the program (what untrunc does with each file, whether the operating
  system refuses a move or a copy, whether an HTTP attempt succeeds) are
  parameters.
*/
module Scanner {
  import opened Common
  import opened Picking
  import opened FileSystems
  import opened UntruncRunner

  const VideoExtensions: set<string> := {".mp4", ".mov", ".mkv", ".avi", ".m4v"}

  /** `_is_candidate`: an existing file with a video suffix that is neither hidden nor a temp file. */
  predicate IsCandidate(entries: map<Path, FileMeta>, p: Path): (ok: bool)
    ensures ok ==> p in entries && Lower(Suffix(Name(p))) in VideoExtensions
    ensures ok ==> |Name(p)| > 0 && Name(p)[0] != '.' && Name(p)[0] != '~'
    ensures (&& p in entries
             && Lower(Suffix(Name(p))) in VideoExtensions
             && |Name(p)| > 0 && Name(p)[0] != '.' && Name(p)[0] != '~') ==> ok
  {
    && p in entries
    && Lower(Suffix(Name(p))) in VideoExtensions
    && !StartsWith(Name(p), ".")
    && !StartsWith(Name(p), "~")
  }

  /** What the scanner remembers of a file: its size and mtime when last seen changed. */
  datatype FileState = FileState(size: nat, mtime: int, firstSeen: int)

  datatype Observation = Observation(stable: bool, known: map<Path, FileState>)

  /**
    What `_is_stable` answers and what `_known` becomes. A file is stable
    when it is old enough and the scanner already recorded exactly its
    current size and mtime; a new or changed file is recorded instead.
  */
  function Observe(known: map<Path, FileState>, entries: map<Path, FileMeta>, p: Path, now: int, minAge: int): (o: Observation)
    ensures o.stable ==> p in entries && now - entries[p].mtime >= minAge
    ensures o.stable ==> p in known && known[p].size == entries[p].size && known[p].mtime == entries[p].mtime
    ensures o.stable ==> o.known == known
    ensures p in entries && now - entries[p].mtime >= minAge && !o.stable ==>
      o.known == known[p := FileState(entries[p].size, entries[p].mtime, now)]
    // A missing or too recent file changes nothing
    ensures !(p in entries && now - entries[p].mtime >= minAge) ==> !o.stable && o.known == known
    // An old enough file recorded with its current size and mtime is stable
    ensures (&& p in entries && now - entries[p].mtime >= minAge && p in known
             && known[p].size == entries[p].size && known[p].mtime == entries[p].mtime) ==> o.stable
    ensures forall q :: q != p ==> (q in o.known <==> q in known) && (q in o.known ==> o.known[q] == known[q])
  {
    if p !in entries then Observation(false, known)
    else
      var meta := entries[p];
      if now - meta.mtime < minAge then Observation(false, known)
      else if p !in known then Observation(false, known[p := FileState(meta.size, meta.mtime, now)])
      else if known[p].size != meta.size || known[p].mtime != meta.mtime then
        Observation(false, known[p := FileState(meta.size, meta.mtime, now)])
      else Observation(true, known)
  }

  /**
    A file that stays unchanged and old enough is reported stable on the
    second look at the latest, and never on the first.
  */
  lemma StableOnSecondLook(known: map<Path, FileState>, entries: map<Path, FileMeta>, p: Path, now1: int, now2: int, minAge: int)
    requires p in entries && now1 - entries[p].mtime >= minAge && now1 <= now2
    ensures p !in known ==> !Observe(known, entries, p, now1, minAge).stable
    ensures Observe(Observe(known, entries, p, now1, minAge).known, entries, p, now2, minAge).stable
  {
  }

  datatype Selection = Selection(candidates: seq<Path>, known: map<Path, FileState>)

  /** The candidate loop of `scan_once` over the walked paths, in walk order. */
  function SelectStable(walk: seq<Path>, known: map<Path, FileState>, entries: map<Path, FileMeta>, now: int, minAge: int): (s: Selection)
    ensures forall p :: p in s.candidates ==> p in walk && IsCandidate(entries, p)
    ensures forall q :: q !in walk ==> (q in s.known <==> q in known) && (q in s.known ==> s.known[q] == known[q])
    decreases |walk|
  {
    if walk == [] then Selection([], known)
    else
      var prev := SelectStable(walk[..|walk| - 1], known, entries, now, minAge);
      var p := walk[|walk| - 1];
      if !IsCandidate(entries, p) then prev
      else
        var o := Observe(prev.known, entries, p, now, minAge);
        Selection(if o.stable then prev.candidates + [p] else prev.candidates, o.known)
  }

  predicate Distinct<T(==)>(xs: seq<T>) {
    forall i, j | 0 <= i < j < |xs| :: xs[i] != xs[j]
  }

  /**
    When the walk visits each path once, the candidates of a scan are
    distinct, and each one was recorded by an earlier scan with exactly its
    current size and mtime: a file seen for the first time is never repaired.
  */
  lemma {:induction false} CandidatesWereSeenBefore(
    walk: seq<Path>, known: map<Path, FileState>, entries: map<Path, FileMeta>, now: int, minAge: int)
    requires Distinct(walk)
    ensures var s := SelectStable(walk, known, entries, now, minAge);
      && Distinct(s.candidates)
      && forall p :: p in s.candidates ==>
           p in known && known[p].size == entries[p].size && known[p].mtime == entries[p].mtime
           && now - entries[p].mtime >= minAge
    decreases |walk|
  {
    if walk != [] {
      var init := walk[..|walk| - 1];
      var p := walk[|walk| - 1];
      assert Distinct(init);
      assert p !in init;
      CandidatesWereSeenBefore(init, known, entries, now, minAge);
    }
  }

  /** A candidate with what `stat` reports for it. */
  datatype Stat = Stat(path: Path, meta: FileMeta)

  function Stats(candidates: seq<Path>, entries: map<Path, FileMeta>): (stats: seq<Stat>)
    requires forall p | p in candidates :: p in entries
    ensures |stats| == |candidates|
    ensures forall i :: 0 <= i < |candidates| ==> stats[i] == Stat(candidates[i], entries[candidates[i]])
  {
    seq(|candidates|, i requires 0 <= i < |candidates| => Stat(candidates[i], entries[candidates[i]]))
  }

  /** The key of the `smallest` strategy. */
  predicate SmallerOrSame(a: Stat, b: Stat) {
    a.meta.size <= b.meta.size
  }

  /** The key of the `newest` strategy (`reverse=True` keeps ties in list order). */
  predicate NewerOrSame(a: Stat, b: Stat) {
    a.meta.mtime >= b.meta.mtime
  }

  /**
    `_select_reference_file`: nothing for fewer than two candidates; else
    the earliest newest file under `newest` and the earliest smallest file
    under any other strategy.
  */
  function SelectReferenceFile(candidates: seq<Path>, entries: map<Path, FileMeta>, strategy: string): (r: Option<Path>)
    requires forall p | p in candidates :: p in entries
    ensures r.None? <==> |candidates| < 2
    ensures r.Some? ==> r.value in candidates
    ensures r.Some? && strategy == "newest" ==>
      exists b: nat :: IsFirstBest(Stats(candidates, entries), NewerOrSame, b) && r.value == candidates[b]
    ensures r.Some? && strategy != "newest" ==>
      exists b: nat :: IsFirstBest(Stats(candidates, entries), SmallerOrSame, b) && r.value == candidates[b]
  {
    if |candidates| < 2 then None
    else
      var stats := Stats(candidates, entries);
      if strategy == "smallest" then Some(candidates[FirstBest(stats, SmallerOrSame)])
      else if strategy == "newest" then Some(candidates[FirstBest(stats, NewerOrSame)])
      else Some(candidates[FirstBest(stats, SmallerOrSame)])
  }

  /** `[f for f in candidates if f != reference]` */
  function Without(xs: seq<Path>, x: Path): (r: seq<Path>)
    ensures forall p :: p in r <==> p in xs && p != x
    ensures |r| <= |xs|
  {
    if xs == [] then []
    else
      var rest := Without(xs[..|xs| - 1], x);
      var last := xs[|xs| - 1];
      assert xs == xs[..|xs| - 1] + [last];
      if last != x then rest + [last] else rest
  }

  lemma {:induction false} WithoutAbsent(xs: seq<Path>, x: Path)
    requires x !in xs
    ensures Without(xs, x) == xs
  {
    if xs != [] {
      WithoutAbsent(xs[..|xs| - 1], x);
      assert xs == xs[..|xs| - 1] + [xs[|xs| - 1]];
    }
  }

  /** Candidates are distinct, so leaving out the reference leaves the others, once each. */
  lemma {:induction false} WithoutDistinct(xs: seq<Path>, x: Path)
    requires Distinct(xs)
    ensures Distinct(Without(xs, x))
    ensures x in xs ==> |Without(xs, x)| == |xs| - 1
  {
    if xs != [] {
      var init := xs[..|xs| - 1];
      var last := xs[|xs| - 1];
      assert xs == init + [last];
      assert Distinct(init);
      assert last !in init;
      WithoutDistinct(init, x);
      if last == x {
        WithoutAbsent(init, x);
      } else if x in xs {
        assert x in init;
      }
    }
  }


  /** Where the scanner's three directories are, and its settings. */
  datatype ScanConfig = ScanConfig(
    readyRoot: Path,
    exportRoot: Path,
    quarantineRoot: Path,
    minFileAgeSeconds: int,
    untruncTimeoutSeconds: int,
    referenceStrategy: string,
    awsRepairApiBaseUrl: Option<string>,
    awsApiKey: Option<string>,
    awsFallbackRetries: int)

  /** The three trees do not nest in one another. */
  predicate SeparateTrees(cfg: ScanConfig) {
    Disjoint(cfg.readyRoot, cfg.exportRoot) && Disjoint(cfg.readyRoot, cfg.quarantineRoot) && Disjoint(cfg.exportRoot, cfg.quarantineRoot)
  }

  /** `export_root / src.relative_to(ready_root)` */
  function ExportOf(cfg: ScanConfig, src: Path): Path
    requires IsUnder(src, cfg.readyRoot)
  {
    cfg.exportRoot + RelativePath(src, cfg.readyRoot)
  }

  /** `quarantine_root / src.relative_to(ready_root)` */
  function QuarantineOf(cfg: ScanConfig, src: Path): Path
    requires IsUnder(src, cfg.readyRoot)
  {
    cfg.quarantineRoot + RelativePath(src, cfg.readyRoot)
  }

  /**
    Repairing `b` never touches the export path of another ready file `a`:
    it only changes `b`, its export and quarantine paths, and `b`'s `_fixed`
    sibling in the ready tree.
  */
  lemma ExportPathsApart(cfg: ScanConfig, a: Path, b: Path)
    requires SeparateTrees(cfg) && IsUnder(a, cfg.readyRoot) && IsUnder(b, cfg.readyRoot) && a != b
    ensures ExportOf(cfg, a) != b
    ensures ExportOf(cfg, a) != ExportOf(cfg, b)
    ensures ExportOf(cfg, a) != FixedPath(b)
    ensures ExportOf(cfg, a) != QuarantineOf(cfg, b)
  {
    RebaseUnder(a, cfg.readyRoot, cfg.exportRoot);
    RebaseUnder(b, cfg.readyRoot, cfg.quarantineRoot);
    DisjointTreesDiffer(ExportOf(cfg, a), b, cfg.exportRoot, cfg.readyRoot);
    RebaseInjective(a, b, cfg.readyRoot, cfg.exportRoot);
    FixedPathUnder(b, cfg.readyRoot);
    DisjointTreesDiffer(ExportOf(cfg, a), FixedPath(b), cfg.exportRoot, cfg.readyRoot);
    DisjointTreesDiffer(ExportOf(cfg, a), QuarantineOf(cfg, b), cfg.exportRoot, cfg.quarantineRoot);
  }

  /** The JSON POST of one fallback attempt. */
  datatype FallbackPost = FallbackPost(url: string, apiKeyHeader: Option<string>, edgeQuarantinePath: string, source: string)

  /** The request `_invoke_aws_fallback` sends for a file at `rel` below the quarantine. */
  function FallbackRequest(cfg: ScanConfig, rel: Path): (post: FallbackPost)
    requires Truthy(cfg.awsRepairApiBaseUrl)
  {
    FallbackPost(
      RStrip(cfg.awsRepairApiBaseUrl.value, '/') + "/submit-batch",
      if Truthy(cfg.awsApiKey) then cfg.awsApiKey else None,
      Join(rel, "/"),
      "edge-fallback")
  }

  /**
    However many slashes end the configured base URL, the request goes to
    exactly one `/submit-batch` below it, and the key header is sent exactly
    when a key is configured.
  */
  lemma FallbackRequestShape(cfg: ScanConfig, rel: Path)
    requires Truthy(cfg.awsRepairApiBaseUrl)
    ensures var post := FallbackRequest(cfg, rel);
      var base := post.url[..|post.url| - |"/submit-batch"|];
      && EndsWith(post.url, "/submit-batch")
      && StartsWith(cfg.awsRepairApiBaseUrl.value, base)
      && (base == [] || base[|base| - 1] != '/')
      && (forall i :: |base| <= i < |cfg.awsRepairApiBaseUrl.value| ==> cfg.awsRepairApiBaseUrl.value[i] == '/')
      && (post.apiKeyHeader.Some? <==> Truthy(cfg.awsApiKey))
  {
    var post := FallbackRequest(cfg, rel);
    var stripped := RStrip(cfg.awsRepairApiBaseUrl.value, '/');
    assert post.url[..|post.url| - |"/submit-batch"|] == stripped;
  }

  /**
    What one fallback call does: nothing without a base URL; else up to
    `retries` identical POSTs, stopping at the first that succeeds, with a
    back-off of `2 ** k` seconds after each failed attempt but the last.
  */
  ghost predicate FallbackOutcome(
    cfg: ScanConfig, rel: Path, retries: int, attemptOk: (Path, nat) -> bool,
    ok: bool, posts: seq<FallbackPost>, waits: seq<nat>)
  {
    && (!Truthy(cfg.awsRepairApiBaseUrl) ==> !ok && posts == [] && waits == [])
    && (Truthy(cfg.awsRepairApiBaseUrl) ==>
          && (forall k :: 0 <= k < |posts| ==> posts[k] == FallbackRequest(cfg, rel))
          && (ok <==> exists k :: 0 <= k < retries && attemptOk(rel, k))
          && (ok ==> |posts| >= 1 && attemptOk(rel, |posts| - 1))
          && (forall k :: 0 <= k < |posts| - 1 ==> !attemptOk(rel, k))
          && (!ok ==> |posts| == Max(retries, 0))
          && |waits| == (if ok then |posts| - 1 else Max(retries - 1, 0)))
    && (forall k :: 0 <= k < |waits| ==> waits[k] == Pow2(k))
  }

  /** With a base URL and at least one retry allowed, the first attempt is always made. */
  lemma FallbackAttemptsAtLeastOnce(
    cfg: ScanConfig, rel: Path, retries: int, attemptOk: (Path, nat) -> bool,
    ok: bool, posts: seq<FallbackPost>, waits: seq<nat>)
    requires FallbackOutcome(cfg, rel, retries, attemptOk, ok, posts, waits)
    requires Truthy(cfg.awsRepairApiBaseUrl) && retries > 0
    ensures |posts| >= 1 && posts[0] == FallbackRequest(cfg, rel)
    ensures |posts| <= retries
  {
    if ok {
      var k :| 0 <= k < retries && attemptOk(rel, k);
      assert |posts| - 1 <= k;
    }
  }

  function Pow2(n: nat): (r: nat)
    ensures r >= 1
  {
    if n == 0 then 1 else 2 * Pow2(n - 1)
  }

  /** The outcome of each step of a scan decided outside the program. */
  datatype Effects = Effects(
    onPath: Option<string>,
    tool: Path -> ToolRun,
    quarantineRefused: Path -> bool,
    fallbackAttemptOk: (Path, nat) -> bool,
    referenceCopyRefused: bool)

  /** One call of the fallback: its answer, the POSTs it made and the back-off waits between them. */
  datatype FallbackCall = FallbackCall(ok: bool, posts: seq<FallbackPost>, waits: seq<nat>)

  /**
    What one worker did with its file: repaired it, or failed and called the
    fallback, with the file's metadata as moved into quarantine when the move
    took place.
  */
  datatype WorkerOutcome =
    | Repaired
    | Failed(quarantined: Option<FileMeta>, call: FallbackCall)

  /** The worker took its file out of the ready tree, and so out of `_known`. */
  predicate Forgets(o: WorkerOutcome) {
    o.Repaired? || o.quarantined.Some?
  }

  predicate AllUnder(files: seq<Path>, root: Path) {
    forall i :: 0 <= i < |files| ==> IsUnder(files[i], root)
  }

  /** The paths one worker may change: its file, the file's export and quarantine paths, and its `_fixed` sibling. */
  function TouchedBy(cfg: ScanConfig, src: Path): set<Path>
    requires IsUnder(src, cfg.readyRoot)
  {
    {src, ExportOf(cfg, src), FixedPath(src), QuarantineOf(cfg, src)}
  }

  /** The paths the workers for `files` may change, and no others. */
  function Touched(cfg: ScanConfig, files: seq<Path>): set<Path>
    requires AllUnder(files, cfg.readyRoot)
  {
    if files == [] then {}
    else Touched(cfg, files[..|files| - 1]) + TouchedBy(cfg, files[|files| - 1])
  }

  lemma TouchedAppend(cfg: ScanConfig, files: seq<Path>, src: Path)
    requires AllUnder(files, cfg.readyRoot) && IsUnder(src, cfg.readyRoot)
    ensures AllUnder(files + [src], cfg.readyRoot)
    ensures Touched(cfg, files + [src]) == Touched(cfg, files) + TouchedBy(cfg, src)
  {
    assert (files + [src])[..|files|] == files;
  }

  /** The files whose workers took them out of the ready tree and `_known`. */
  function Forgotten(files: seq<Path>, outcomes: seq<WorkerOutcome>): set<Path>
    requires |outcomes| == |files|
  {
    if files == [] then {}
    else
      var n := |files| - 1;
      Forgotten(files[..n], outcomes[..n]) + if Forgets(outcomes[n]) then {files[n]} else {}
  }

  lemma ForgottenAppend(files: seq<Path>, outcomes: seq<WorkerOutcome>, src: Path, o: WorkerOutcome)
    requires |outcomes| == |files|
    ensures Forgotten(files + [src], outcomes + [o]) == Forgotten(files, outcomes) + (if Forgets(o) then {src} else {})
  {
    assert (files + [src])[..|files|] == files && (outcomes + [o])[..|files|] == outcomes;
  }

  /**
    With distinct files, `_known` loses a file of the batch exactly when its
    worker took it out of the ready tree (a file left in place keeps its
    record), and loses no path outside the batch.
  */
  lemma {:induction false} ForgottenExactly(files: seq<Path>, outcomes: seq<WorkerOutcome>)
    requires |outcomes| == |files| && Distinct(files)
    ensures forall i :: 0 <= i < |files| ==> (files[i] in Forgotten(files, outcomes) <==> Forgets(outcomes[i]))
    ensures forall p :: p in Forgotten(files, outcomes) ==> p in files
  {
    if files != [] {
      var n := |files| - 1;
      var init, initOutcomes := files[..n], outcomes[..n];
      assert Distinct(init);
      ForgottenExactly(init, initOutcomes);
      forall i | 0 <= i < |files| ensures files[i] in Forgotten(files, outcomes) <==> Forgets(outcomes[i]) {
        if i < n {
          assert init[i] == files[i] && initOutcomes[i] == outcomes[i];
          assert files[i] != files[n];
        }
      }
    }
  }

  /** The `_fixed` siblings of the files of a batch. */
  function FixedSiblings(files: seq<Path>): set<Path> {
    if files == [] then {} else FixedSiblings(files[..|files| - 1]) + {FixedPath(files[|files| - 1])}
  }

  /** No file of the batch is the `_fixed` sibling of a file of the batch. */
  predicate NoFixedSiblings(files: seq<Path>) {
    forall k :: 0 <= k < |files| ==> files[k] !in FixedSiblings(files)
  }

  lemma FixedSiblingsAppend(files: seq<Path>, src: Path)
    ensures FixedSiblings(files + [src]) == FixedSiblings(files) + {FixedPath(src)}
  {
    assert (files + [src])[..|files|] == files;
  }

  /** A batch without `_fixed` siblings stays so without its last file. */
  lemma NoFixedSiblingsPrefix(done: seq<Path>, src: Path)
    requires NoFixedSiblings(done + [src])
    ensures NoFixedSiblings(done)
    ensures src !in FixedSiblings(done) && src != FixedPath(src)
    ensures forall k :: 0 <= k < |done| ==> done[k] != FixedPath(src)
  {
    var files := done + [src];
    FixedSiblingsAppend(done, src);
    forall k | 0 <= k < |done| ensures done[k] !in FixedSiblings(done) && done[k] != FixedPath(src) {
      assert files[k] == done[k];
    }
    assert files[|done|] == src;
  }

  /**
    What a worker did to its own file, seen from `start`: a repaired or
    quarantined file was there and is gone; the quarantine move happens
    exactly when the file was there and the move is not refused, and moves
    the file's metadata; a file left in place keeps its metadata.
  */
  ghost predicate SourceSettled(fx: Effects, src: Path, o: WorkerOutcome,
                                start: map<Path, FileMeta>, entries: map<Path, FileMeta>) {
    && (Forgets(o) ==> src in start && src !in entries)
    && (o.Failed? ==> (o.quarantined.Some? <==> src in start && !fx.quarantineRefused(src)))
    && (o.Failed? && o.quarantined.Some? ==> o.quarantined.value == start[src])
    && (o.Failed? && o.quarantined.None? ==>
          (src in entries <==> src in start) && (src in start ==> entries[src] == start[src]))
  }

  ghost predicate SourcesSettled(fx: Effects, files: seq<Path>, outcomes: seq<WorkerOutcome>,
                                 start: map<Path, FileMeta>, entries: map<Path, FileMeta>) {
    && |outcomes| == |files|
    && forall i :: 0 <= i < |files| ==> SourceSettled(fx, files[i], outcomes[i], start, entries)
  }

  /**
    What stays of a worker's result in the other trees: a repaired file's
    export of at least 1 KiB; for a failure, its fallback call and, when the
    move took place, the quarantined file.
  */
  ghost predicate WorkerDone(cfg: ScanConfig, fx: Effects, src: Path, o: WorkerOutcome, entries: map<Path, FileMeta>)
    requires IsUnder(src, cfg.readyRoot)
  {
    && (o.Repaired? ==> ExportOf(cfg, src) in entries && entries[ExportOf(cfg, src)].size >= MinOutputBytes)
    && (o.Failed? ==>
          FallbackOutcome(cfg, RelativePath(src, cfg.readyRoot), cfg.awsFallbackRetries, fx.fallbackAttemptOk,
            o.call.ok, o.call.posts, o.call.waits))
    && (o.Failed? && o.quarantined.Some? ==>
          QuarantineOf(cfg, src) in entries && entries[QuarantineOf(cfg, src)] == o.quarantined.value)
  }

  /** One worker's turn, from the files `before` it to the files `after` it. */
  ghost predicate TurnOutcome(cfg: ScanConfig, fx: Effects, src: Path, o: WorkerOutcome,
                              before: map<Path, FileMeta>, after: map<Path, FileMeta>) {
    && IsUnder(src, cfg.readyRoot)
    && AgreeOutside(before, after, TouchedBy(cfg, src))
    && SourceSettled(fx, src, o, before, after)
    && WorkerDone(cfg, fx, src, o, after)
  }

  /** `outcomes[i]` is what the worker for `files[i]` left behind. */
  ghost predicate WorkersOutcome(
    cfg: ScanConfig, fx: Effects, files: seq<Path>, outcomes: seq<WorkerOutcome>, entries: map<Path, FileMeta>)
  {
    && |outcomes| == |files|
    && AllUnder(files, cfg.readyRoot)
    && forall i :: 0 <= i < |files| ==> WorkerDone(cfg, fx, files[i], outcomes[i], entries)
  }

  /**
    The results of the workers for `files`, and `_known` after them: the
    record `startKnown` they began with, less the files they took out of the
    ready tree.
  */
  ghost predicate WorkersResult(
    cfg: ScanConfig, fx: Effects, files: seq<Path>, outcomes: seq<WorkerOutcome>,
    startKnown: map<Path, FileState>, entries: map<Path, FileMeta>, known: map<Path, FileState>)
  {
    && WorkersOutcome(cfg, fx, files, outcomes, entries)
    && known == startKnown - Forgotten(files, outcomes)
  }

  /**
    The files after the workers for `files`, from the files `start` they
    began with: only the paths the workers may change have changed, and,
    when no file is another's `_fixed` sibling, each file is settled as its
    worker left it.
  */
  ghost predicate WorkersFrame(
    cfg: ScanConfig, fx: Effects, files: seq<Path>, outcomes: seq<WorkerOutcome>,
    start: map<Path, FileMeta>, entries: map<Path, FileMeta>)
  {
    && AllUnder(files, cfg.readyRoot)
    && AgreeOutside(start, entries, Touched(cfg, files))
    && (NoFixedSiblings(files) ==> SourcesSettled(fx, files, outcomes, start, entries))
  }

  /**
    A quarantine path is never a path another ready file's worker changes:
    that file, its export or quarantine path, or its `_fixed` sibling.
  */
  lemma QuarantinePathsApart(cfg: ScanConfig, a: Path, b: Path)
    requires SeparateTrees(cfg) && IsUnder(a, cfg.readyRoot) && IsUnder(b, cfg.readyRoot) && a != b
    ensures QuarantineOf(cfg, a) !in TouchedBy(cfg, b)
  {
    RebaseUnder(a, cfg.readyRoot, cfg.quarantineRoot);
    RebaseUnder(b, cfg.readyRoot, cfg.exportRoot);
    DisjointTreesDiffer(QuarantineOf(cfg, a), b, cfg.quarantineRoot, cfg.readyRoot);
    RebaseInjective(a, b, cfg.readyRoot, cfg.quarantineRoot);
    FixedPathUnder(b, cfg.readyRoot);
    DisjointTreesDiffer(QuarantineOf(cfg, a), FixedPath(b), cfg.quarantineRoot, cfg.readyRoot);
    DisjointTreesDiffer(ExportOf(cfg, b), QuarantineOf(cfg, a), cfg.exportRoot, cfg.quarantineRoot);
  }

  /** A ready file is not among the paths another worker changes, unless it is that worker's `_fixed` sibling. */
  lemma ReadyFileApart(cfg: ScanConfig, d: Path, src: Path)
    requires SeparateTrees(cfg) && IsUnder(d, cfg.readyRoot) && IsUnder(src, cfg.readyRoot)
    requires d != src && FixedPath(src) != d
    ensures d !in TouchedBy(cfg, src)
  {
    RebaseUnder(src, cfg.readyRoot, cfg.exportRoot);
    RebaseUnder(src, cfg.readyRoot, cfg.quarantineRoot);
    DisjointTreesDiffer(d, ExportOf(cfg, src), cfg.readyRoot, cfg.exportRoot);
    DisjointTreesDiffer(d, QuarantineOf(cfg, src), cfg.readyRoot, cfg.quarantineRoot);
    var fixed, exported, quarantined := FixedPath(src), ExportOf(cfg, src), QuarantineOf(cfg, src);
    assert d != src && d != exported && d != fixed && d != quarantined;
  }

  /** A ready file no worker of `files` is for, and no `_fixed` sibling of theirs, is untouched by them. */
  lemma {:induction false} UntouchedByWorkers(cfg: ScanConfig, files: seq<Path>, src: Path)
    requires SeparateTrees(cfg) && AllUnder(files, cfg.readyRoot) && IsUnder(src, cfg.readyRoot)
    requires src !in files && src !in FixedSiblings(files)
    ensures src !in Touched(cfg, files)
  {
    if files != [] {
      var init, last := files[..|files| - 1], files[|files| - 1];
      assert forall i :: 0 <= i < |init| ==> init[i] == files[i];
      UntouchedByWorkers(cfg, init, src);
      ReadyFileApart(cfg, src, last);
    }
  }

  /** The workers for other ready files never touch a ready file's export path. */
  lemma {:induction false} ExportUntouchedByWorkers(cfg: ScanConfig, files: seq<Path>, src: Path)
    requires SeparateTrees(cfg) && AllUnder(files, cfg.readyRoot) && IsUnder(src, cfg.readyRoot)
    requires src !in files
    ensures ExportOf(cfg, src) !in Touched(cfg, files)
  {
    if files != [] {
      var init, last := files[..|files| - 1], files[|files| - 1];
      assert forall i :: 0 <= i < |init| ==> init[i] == files[i];
      ExportUntouchedByWorkers(cfg, init, src);
      ExportNotTouchedBy(cfg, src, last);
    }
  }

  lemma ExportNotTouchedBy(cfg: ScanConfig, a: Path, b: Path)
    requires SeparateTrees(cfg) && IsUnder(a, cfg.readyRoot) && IsUnder(b, cfg.readyRoot) && a != b
    ensures ExportOf(cfg, a) !in TouchedBy(cfg, b)
  {
    ExportPathsApart(cfg, a, b);
    var exported, fixed, exportedB, quarantined := ExportOf(cfg, a), FixedPath(b), ExportOf(cfg, b), QuarantineOf(cfg, b);
    assert exported != b && exported != exportedB && exported != fixed && exported != quarantined;
    assert TouchedBy(cfg, b) == {b, exportedB, fixed, quarantined};
  }

  /** A worker keeps what an earlier worker left in the other trees. */
  lemma WorkerDoneSurvives(
    cfg: ScanConfig, fx: Effects, d: Path, o: WorkerOutcome, src: Path,
    before: map<Path, FileMeta>, after: map<Path, FileMeta>)
    requires SeparateTrees(cfg) && IsUnder(d, cfg.readyRoot) && IsUnder(src, cfg.readyRoot) && d != src
    requires WorkerDone(cfg, fx, d, o, before)
    requires AgreeOutside(before, after, TouchedBy(cfg, src))
    ensures WorkerDone(cfg, fx, d, o, after)
  {
    ExportPathsApart(cfg, d, src);
    QuarantinePathsApart(cfg, d, src);
  }

  /**
    Repairing one more file keeps the results of the files already done:
    the worker only touches paths their exports and quarantine copies avoid.
  */
  lemma {:induction false} OutcomeSurvivesRepair(
    cfg: ScanConfig, fx: Effects, done: seq<Path>, outcomes: seq<WorkerOutcome>, src: Path,
    before: map<Path, FileMeta>, after: map<Path, FileMeta>)
    requires SeparateTrees(cfg) && IsUnder(src, cfg.readyRoot) && src !in done
    requires WorkersOutcome(cfg, fx, done, outcomes, before)
    requires AgreeOutside(before, after, TouchedBy(cfg, src))
    ensures WorkersOutcome(cfg, fx, done, outcomes, after)
  {
    forall j | 0 <= j < |done| ensures WorkerDone(cfg, fx, done[j], outcomes[j], after) {
      WorkerDoneSurvives(cfg, fx, done[j], outcomes[j], src, before, after);
    }
  }

  /** The outcome of one more worker joins those of the workers before it. */
  lemma {:induction false} OutcomeAppend(
    cfg: ScanConfig, fx: Effects, done: seq<Path>, outcomes: seq<WorkerOutcome>, src: Path,
    o: WorkerOutcome, entries: map<Path, FileMeta>)
    requires WorkersOutcome(cfg, fx, done, outcomes, entries) && IsUnder(src, cfg.readyRoot)
    requires WorkerDone(cfg, fx, src, o, entries)
    ensures WorkersOutcome(cfg, fx, done + [src], outcomes + [o], entries)
  {
    var files, all := done + [src], outcomes + [o];
    forall i | 0 <= i < |files| ensures IsUnder(files[i], cfg.readyRoot) {
      if i < |done| { assert files[i] == done[i]; }
    }
    forall i | 0 <= i < |files| ensures WorkerDone(cfg, fx, files[i], all[i], entries) {
      if i < |done| { assert files[i] == done[i] && all[i] == outcomes[i]; }
    }
  }

  /**
    When no file is another's `_fixed` sibling, one more worker leaves the
    earlier files as they were and settles its own file as seen from the
    start of the batch.
  */
  lemma {:induction false} SettledAppend(
    cfg: ScanConfig, fx: Effects, done: seq<Path>, outcomes: seq<WorkerOutcome>, src: Path, o: WorkerOutcome,
    start: map<Path, FileMeta>, before: map<Path, FileMeta>, after: map<Path, FileMeta>)
    requires SeparateTrees(cfg) && AllUnder(done, cfg.readyRoot) && src !in done
    requires NoFixedSiblings(done + [src])
    requires SourcesSettled(fx, done, outcomes, start, before)
    requires AgreeOutside(start, before, Touched(cfg, done))
    requires TurnOutcome(cfg, fx, src, o, before, after)
    ensures SourcesSettled(fx, done + [src], outcomes + [o], start, after)
  {
    NoFixedSiblingsPrefix(done, src);
    forall k | 0 <= k < |done| ensures SourceSettled(fx, done[k], outcomes[k], start, after) {
      ReadyFileApart(cfg, done[k], src);
    }
    UntouchedByWorkers(cfg, done, src);
    var files, all := done + [src], outcomes + [o];
    forall i | 0 <= i < |files| ensures SourceSettled(fx, files[i], all[i], start, after) {
      if i < |done| { assert files[i] == done[i] && all[i] == outcomes[i]; }
    }
  }

  /** Before any worker: no outcome, nothing forgotten, nothing changed. */
  lemma WorkersBegin(
    cfg: ScanConfig, fx: Effects, files: seq<Path>, entries: map<Path, FileMeta>, known: map<Path, FileState>)
    requires AllUnder(files, cfg.readyRoot)
    ensures WorkersResult(cfg, fx, files[..0], [], known, entries, known)
    ensures WorkersFrame(cfg, fx, files[..0], [], entries, entries)
  {
    assert files[..0] == [];
  }

  /**
    The worker's `run_untrunc(src, dst, reference)` (line 191): the default
    timeout, the output at the file's place in the export tree. On success
    the source was there and the output is at least 1 KiB; whatever the
    outcome, only the output and the source's `_fixed` sibling changed.
  */
  method RunWorkerUntrunc(
    fs: FileSystem, cfg: ScanConfig, reference: Path, src: Path, onPath: Option<string>, tool: ToolRun, now: int)
    returns (err: Option<RepairError>)
    requires IsUnder(src, cfg.readyRoot)
    modifies fs
    ensures err.None? ==> src in old(fs.entries)
    ensures err.None? ==> ExportOf(cfg, src) in fs.entries && fs.entries[ExportOf(cfg, src)].size >= MinOutputBytes
    ensures AgreeOutside(old(fs.entries), fs.entries, {ExportOf(cfg, src), FixedPath(src)})
  {
    var cmd;
    err, cmd := RunUntrunc(fs, src, ExportOf(cfg, src), reference, None, cfg.untruncTimeoutSeconds, onPath, tool, now);
  }

  /** A worker's outcome counted in the `repaired` or the `failed` tally (lines 205, 229). */
  method Tally(outcomes: seq<WorkerOutcome>, outcome: WorkerOutcome, repaired: nat, failed: nat)
    returns (repaired': nat, failed': nat)
    requires repaired == CountRepaired(outcomes) && failed == |outcomes| - repaired
    ensures repaired' == CountRepaired(outcomes + [outcome])
    ensures failed' == |outcomes + [outcome]| - repaired'
  {
    CountRepairedAppend(outcomes, outcome);
    if outcome.Repaired? {
      repaired', failed' := repaired + 1, failed;
    } else {
      repaired', failed' := repaired, failed + 1;
    }
  }

  /** The workers for every prefix of `files`, read at the whole of it. */
  lemma WorkersFinished(
    cfg: ScanConfig, fx: Effects, files: seq<Path>, outcomes: seq<WorkerOutcome>,
    start: map<Path, FileMeta>, startKnown: map<Path, FileState>,
    entries: map<Path, FileMeta>, known: map<Path, FileState>)
    requires WorkersResult(cfg, fx, files[..|files|], outcomes, startKnown, entries, known)
    requires WorkersFrame(cfg, fx, files[..|files|], outcomes, start, entries)
    ensures WorkersOutcome(cfg, fx, files, outcomes, entries)
    ensures known == startKnown - Forgotten(files, outcomes)
    ensures AgreeOutside(start, entries, Touched(cfg, files))
    ensures NoFixedSiblings(files) ==> SourcesSettled(fx, files, outcomes, start, entries)
  {
    assert files[..|files|] == files;
  }

  /** One more worker's turn extends the results of the workers before it. */
  lemma ResultAppend(
    cfg: ScanConfig, fx: Effects, done: seq<Path>, outcomes: seq<WorkerOutcome>, src: Path, o: WorkerOutcome,
    startKnown: map<Path, FileState>, before: map<Path, FileMeta>, after: map<Path, FileMeta>,
    knownBefore: map<Path, FileState>, knownAfter: map<Path, FileState>)
    requires SeparateTrees(cfg) && src !in done
    requires WorkersResult(cfg, fx, done, outcomes, startKnown, before, knownBefore)
    requires TurnOutcome(cfg, fx, src, o, before, after)
    requires knownAfter == if Forgets(o) then knownBefore - {src} else knownBefore
    ensures WorkersResult(cfg, fx, done + [src], outcomes + [o], startKnown, after, knownAfter)
  {
    OutcomeStep(cfg, fx, done, outcomes, src, o, before, after);
    ForgottenAppend(done, outcomes, src, o);
  }

  /** One more worker's turn extends the frame of the workers before it. */
  lemma FrameAppend(
    cfg: ScanConfig, fx: Effects, done: seq<Path>, outcomes: seq<WorkerOutcome>, src: Path, o: WorkerOutcome,
    start: map<Path, FileMeta>, before: map<Path, FileMeta>, after: map<Path, FileMeta>)
    requires SeparateTrees(cfg) && src !in done && |outcomes| == |done|
    requires WorkersFrame(cfg, fx, done, outcomes, start, before)
    requires TurnOutcome(cfg, fx, src, o, before, after)
    ensures WorkersFrame(cfg, fx, done + [src], outcomes + [o], start, after)
  {
    FrameStep(cfg, done, src, start, before, after);
    SettledStep(cfg, fx, done, outcomes, src, o, start, before, after);
  }

  lemma OutcomeStep(
    cfg: ScanConfig, fx: Effects, done: seq<Path>, outcomes: seq<WorkerOutcome>, src: Path, o: WorkerOutcome,
    before: map<Path, FileMeta>, after: map<Path, FileMeta>)
    requires SeparateTrees(cfg) && src !in done
    requires WorkersOutcome(cfg, fx, done, outcomes, before)
    requires TurnOutcome(cfg, fx, src, o, before, after)
    ensures WorkersOutcome(cfg, fx, done + [src], outcomes + [o], after)
  {
    OutcomeSurvivesRepair(cfg, fx, done, outcomes, src, before, after);
    OutcomeAppend(cfg, fx, done, outcomes, src, o, after);
  }

  lemma FrameStep(
    cfg: ScanConfig, done: seq<Path>, src: Path,
    start: map<Path, FileMeta>, before: map<Path, FileMeta>, after: map<Path, FileMeta>)
    requires AllUnder(done, cfg.readyRoot) && IsUnder(src, cfg.readyRoot)
    requires AgreeOutside(start, before, Touched(cfg, done))
    requires AgreeOutside(before, after, TouchedBy(cfg, src))
    ensures AllUnder(done + [src], cfg.readyRoot)
    ensures AgreeOutside(start, after, Touched(cfg, done + [src]))
  {
    TouchedAppend(cfg, done, src);
    AgreeOutsideTrans(start, before, after, Touched(cfg, done), TouchedBy(cfg, src), Touched(cfg, done + [src]));
  }

  lemma SettledStep(
    cfg: ScanConfig, fx: Effects, done: seq<Path>, outcomes: seq<WorkerOutcome>, src: Path, o: WorkerOutcome,
    start: map<Path, FileMeta>, before: map<Path, FileMeta>, after: map<Path, FileMeta>)
    requires SeparateTrees(cfg) && AllUnder(done, cfg.readyRoot) && src !in done
    requires NoFixedSiblings(done) ==> SourcesSettled(fx, done, outcomes, start, before)
    requires AgreeOutside(start, before, Touched(cfg, done))
    requires TurnOutcome(cfg, fx, src, o, before, after)
    ensures NoFixedSiblings(done + [src]) ==> SourcesSettled(fx, done + [src], outcomes + [o], start, after)
  {
    if NoFixedSiblings(done + [src]) {
      NoFixedSiblingsPrefix(done, src);
      SettledAppend(cfg, fx, done, outcomes, src, o, start, before, after);
    }
  }

  /** The copy of the reference into an empty export path keeps every worker's result. */
  lemma ReferenceCopyKeeps(
    cfg: ScanConfig, fx: Effects, files: seq<Path>, outcomes: seq<WorkerOutcome>, dst: Path,
    start: map<Path, FileMeta>, before: map<Path, FileMeta>, after: map<Path, FileMeta>)
    requires SeparateTrees(cfg) && IsUnder(dst, cfg.exportRoot)
    requires dst !in before || after == before
    requires AgreeOutside(before, after, {dst})
    requires WorkersOutcome(cfg, fx, files, outcomes, before)
    requires NoFixedSiblings(files) ==> SourcesSettled(fx, files, outcomes, start, before)
    ensures WorkersOutcome(cfg, fx, files, outcomes, after)
    ensures NoFixedSiblings(files) ==> SourcesSettled(fx, files, outcomes, start, after)
  {
    forall i | 0 <= i < |files| ensures WorkerDone(cfg, fx, files[i], outcomes[i], after) {
      WorkerDoneKept(cfg, fx, files[i], outcomes[i], dst, before, after);
    }
    if NoFixedSiblings(files) {
      forall i | 0 <= i < |files| ensures SourceSettled(fx, files[i], outcomes[i], start, after) {
        DisjointTreesDiffer(files[i], dst, cfg.readyRoot, cfg.exportRoot);
        SourceSettledKept(fx, files[i], outcomes[i], dst, start, before, after);
      }
    }
  }

  /** A change confined to a path that held nothing keeps a worker's result. */
  lemma WorkerDoneKept(
    cfg: ScanConfig, fx: Effects, src: Path, o: WorkerOutcome, dst: Path,
    before: map<Path, FileMeta>, after: map<Path, FileMeta>)
    requires IsUnder(src, cfg.readyRoot)
    requires dst !in before || after == before
    requires AgreeOutside(before, after, {dst})
    requires WorkerDone(cfg, fx, src, o, before)
    ensures WorkerDone(cfg, fx, src, o, after)
  {
  }

  /** A change away from a file keeps what its worker did to it. */
  lemma SourceSettledKept(
    fx: Effects, src: Path, o: WorkerOutcome, dst: Path,
    start: map<Path, FileMeta>, before: map<Path, FileMeta>, after: map<Path, FileMeta>)
    requires src != dst
    requires AgreeOutside(before, after, {dst})
    requires SourceSettled(fx, src, o, start, before)
    ensures SourceSettled(fx, src, o, start, after)
  {
  }

  /** How many workers repaired their file. */
  function CountRepaired(outcomes: seq<WorkerOutcome>): (n: nat)
    ensures n <= |outcomes|
  {
    if outcomes == [] then 0
    else CountRepaired(outcomes[..|outcomes| - 1]) + (if outcomes[|outcomes| - 1].Repaired? then 1 else 0)
  }

  lemma CountRepairedAppend(outcomes: seq<WorkerOutcome>, o: WorkerOutcome)
    ensures CountRepaired(outcomes + [o]) == CountRepaired(outcomes) + (if o.Repaired? then 1 else 0)
  {
    assert (outcomes + [o])[..|outcomes|] == outcomes;
  }

  datatype ScanResult = ScanResult(
    scanned: nat,
    repaired: nat,
    failed: nat,
    reference: Option<Path>,
    skippedNoReference: bool)

  class DirectoryScanner {
    var known: map<Path, FileState>
    var currentReference: Option<Path>

    constructor ()
      ensures known == map[] && currentReference == None
    {
      known := map[];
      currentReference := None;
    }

    /** `_is_stable` */
    method IsStable(fs: FileSystem, p: Path, now: int, minAge: int) returns (stable: bool)
      modifies this
      ensures Observation(stable, known) == Observe(old(known), fs.entries, p, now, minAge)
      ensures currentReference == old(currentReference)
    {
      if p !in fs.entries {
        return false;
      }
      var meta := fs.entries[p];
      if now - meta.mtime < minAge {
        return false;
      }
      var current := FileState(meta.size, meta.mtime, now);
      if p !in known {
        known := known[p := current];
        return false;
      }
      var prev := known[p];
      if prev.size != current.size || prev.mtime != current.mtime {
        known := known[p := current];
        return false;
      }
      return true;
    }

    /**
      `_invoke_aws_fallback`: nothing when no base URL is configured; else up
      to `max_retries` POSTs until one succeeds, with a back-off of `2 ** k`
      seconds (plus up to one second of jitter, not modelled) after each
      failed attempt but the last. `maxRetries` None means the configured
      count; `attemptOk(rel, k)` is whether attempt `k` got a 2xx answer.
    */
    method InvokeAwsFallback(cfg: ScanConfig, rel: Path, maxRetries: Option<int>, attemptOk: (Path, nat) -> bool)
      returns (ok: bool, posts: seq<FallbackPost>, waits: seq<nat>)
      ensures FallbackOutcome(cfg, rel, if maxRetries.Some? then maxRetries.value else cfg.awsFallbackRetries, attemptOk, ok, posts, waits)
    {
      posts := [];
      waits := [];
      if !Truthy(cfg.awsRepairApiBaseUrl) {
        return false, posts, waits;
      }
      var retries := if maxRetries.Some? then maxRetries.value else cfg.awsFallbackRetries;
      var request := FallbackRequest(cfg, rel);
      var attempt := 0;
      while attempt < retries
        invariant 0 <= attempt <= Max(retries, 0)
        invariant |posts| == attempt
        invariant forall k :: 0 <= k < |posts| ==> posts[k] == request
        invariant forall k :: 0 <= k < attempt ==> !attemptOk(rel, k)
        invariant |waits| == if attempt == retries && attempt > 0 then attempt - 1 else attempt
        invariant forall k :: 0 <= k < |waits| ==> waits[k] == Pow2(k)
        decreases retries - attempt
      {
        posts := posts + [request];
        if attemptOk(rel, attempt) {
          return true, posts, waits;
        }
        if attempt < retries - 1 {
          waits := waits + [Pow2(attempt)];
        }
        attempt := attempt + 1;
      }
      return false, posts, waits;
    }

    /**
      The worker of `scan_once` for one file: repair into the export tree and
      delete the source, or move the source to the quarantine tree and call
      the fallback. Only the source, its export and quarantine paths and its
      `_fixed` sibling can change, and `_known` loses the source exactly when
      the source left the ready tree.
    */
    method RepairFile(fs: FileSystem, cfg: ScanConfig, reference: Path, src: Path, fx: Effects, now: int)
      returns (outcome: WorkerOutcome)
      requires SeparateTrees(cfg) && IsUnder(src, cfg.readyRoot)
      modifies this, fs
      ensures currentReference == old(currentReference)
      ensures TurnOutcome(cfg, fx, src, outcome, old(fs.entries), fs.entries)
      ensures known == if Forgets(outcome) then old(known) - {src} else old(known)
    {
      ghost var before := fs.entries;
      var repaired := TryRepair(fs, cfg, reference, src, fx.onPath, fx.tool(src), now);
      if repaired {
        return Repaired;
      }
      ghost var tried := fs.entries;
      assert src !in {ExportOf(cfg, src), FixedPath(src)} by {
        RebaseUnder(src, cfg.readyRoot, cfg.exportRoot);
        DisjointTreesDiffer(src, ExportOf(cfg, src), cfg.readyRoot, cfg.exportRoot);
        FixedPathIsSibling(src);
      }
      var quarantined, call := QuarantineAndReport(fs, cfg, src, fx);
      AgreeOutsideTrans(before, tried, fs.entries, {ExportOf(cfg, src), FixedPath(src)},
        {src, QuarantineOf(cfg, src)}, TouchedBy(cfg, src));
      outcome := Failed(quarantined, call);
    }

    /**
      The `try` block of the worker (lines 186-206): untrunc writes the
      repaired file at the same place in the export tree; when that succeeds
      the source is deleted and forgotten. A failed run leaves the source and
      `_known` alone.
    */
    method TryRepair(fs: FileSystem, cfg: ScanConfig, reference: Path, src: Path, onPath: Option<string>, tool: ToolRun, now: int)
      returns (repaired: bool)
      requires SeparateTrees(cfg) && IsUnder(src, cfg.readyRoot)
      modifies this, fs
      ensures currentReference == old(currentReference)
      ensures repaired ==>
        && AgreeOutside(old(fs.entries), fs.entries, {src, ExportOf(cfg, src), FixedPath(src)})
        && ExportOf(cfg, src) in fs.entries && fs.entries[ExportOf(cfg, src)].size >= MinOutputBytes
        && src in old(fs.entries) && src !in fs.entries
        && known == old(known) - {src}
      ensures !repaired ==>
        && AgreeOutside(old(fs.entries), fs.entries, {ExportOf(cfg, src), FixedPath(src)})
        && known == old(known)
    {
      var dst := ExportOf(cfg, src);
      RebaseUnder(src, cfg.readyRoot, cfg.exportRoot);
      DisjointTreesDiffer(src, dst, cfg.readyRoot, cfg.exportRoot);
      FixedPathIsSibling(src);
      ghost var before := fs.entries;

      var err := RunWorkerUntrunc(fs, cfg, reference, src, onPath, tool, now);
      if err.Some? {
        return false;
      }
      ghost var ran := fs.entries;
      // The existence and size checks that follow in the worker hold here.
      assert dst in ran && ran[dst].size >= MinOutputBytes;
      fs.Unlink(src);
      known := known - {src};
      assert fs.entries == ran - {src};
      AgreeOutsideTrans(before, ran, fs.entries, {dst, FixedPath(src)}, {src}, {src, dst, FixedPath(src)});
      repaired := true;
    }

    /**
      The `except UntruncRepairError` branch of the worker (lines 207-223):
      the source moves to the same place in the quarantine tree unless the
      move is refused, then the AWS fallback is invoked. `quarantined` is
      the metadata moved, if the move took place.
    */
    method QuarantineAndReport(fs: FileSystem, cfg: ScanConfig, src: Path, fx: Effects)
      returns (quarantined: Option<FileMeta>, call: FallbackCall)
      requires SeparateTrees(cfg) && IsUnder(src, cfg.readyRoot)
      modifies this, fs
      ensures currentReference == old(currentReference)
      ensures AgreeOutside(old(fs.entries), fs.entries, {src, QuarantineOf(cfg, src)})
      ensures quarantined.Some? <==> src in old(fs.entries) && !fx.quarantineRefused(src)
      ensures quarantined.Some? ==>
        && quarantined.value == old(fs.entries)[src]
        && QuarantineOf(cfg, src) in fs.entries && fs.entries[QuarantineOf(cfg, src)] == quarantined.value
        && src !in fs.entries
        && known == old(known) - {src}
      ensures quarantined.None? ==> known == old(known) && fs.entries == old(fs.entries)
      ensures FallbackOutcome(cfg, RelativePath(src, cfg.readyRoot), cfg.awsFallbackRetries, fx.fallbackAttemptOk,
        call.ok, call.posts, call.waits)
    {
      var rel := RelativePath(src, cfg.readyRoot);
      var qdst := cfg.quarantineRoot + rel;
      RebaseUnder(src, cfg.readyRoot, cfg.quarantineRoot);
      DisjointTreesDiffer(src, qdst, cfg.readyRoot, cfg.quarantineRoot);
      quarantined := None;
      if src in fs.entries {
        quarantined := Some(fs.entries[src]);
      }
      var moved := fs.Rename(src, qdst, fx.quarantineRefused(src));
      if moved {
        known := known - {src};
      } else {
        quarantined := None;
      }
      var ok, posts, waits := InvokeAwsFallback(cfg, rel, None, fx.fallbackAttemptOk);
      call := FallbackCall(ok, posts, waits);
    }

    /**
      The worker for `files[i]` (lines 184-229), after the workers for the
      files before it, from the files `start` and the record `startKnown` the
      batch began with.
    */
    method RepairNext(
      fs: FileSystem, cfg: ScanConfig, reference: Path, files: seq<Path>, i: nat, outcomes: seq<WorkerOutcome>,
      fx: Effects, now: int, ghost start: map<Path, FileMeta>, ghost startKnown: map<Path, FileState>)
      returns (outcome: WorkerOutcome)
      requires SeparateTrees(cfg) && Distinct(files) && AllUnder(files, cfg.readyRoot) && i < |files|
      requires WorkersResult(cfg, fx, files[..i], outcomes, startKnown, fs.entries, known)
      requires WorkersFrame(cfg, fx, files[..i], outcomes, start, fs.entries)
      modifies this, fs
      ensures currentReference == old(currentReference)
      ensures WorkersResult(cfg, fx, files[..i + 1], outcomes + [outcome], startKnown, fs.entries, known)
      ensures WorkersFrame(cfg, fx, files[..i + 1], outcomes + [outcome], start, fs.entries)
    {
      var src := files[i];
      assert src !in files[..i];
      ghost var before, knownBefore := fs.entries, known;
      outcome := RepairFile(fs, cfg, reference, src, fx, now);
      PrefixGrows(files, i);
      ResultAppend(cfg, fx, files[..i], outcomes, src, outcome, startKnown, before, fs.entries, knownBefore, known);
      FrameAppend(cfg, fx, files[..i], outcomes, src, outcome, start, before, fs.entries);
    }

    /** The candidate loop of `scan_once` (lines 146-152). */
    method CollectCandidates(fs: FileSystem, walk: seq<Path>, now: int, minAge: int) returns (candidates: seq<Path>)
      modifies this
      ensures SelectStable(walk, old(known), fs.entries, now, minAge) == Selection(candidates, known)
      ensures currentReference == old(currentReference)
    {
      candidates := [];
      for k := 0 to |walk|
        invariant SelectStable(walk[..k], old(known), fs.entries, now, minAge) == Selection(candidates, known)
        invariant currentReference == old(currentReference)
      {
        var path := walk[k];
        assert walk[..k + 1][..k] == walk[..k];
        if !IsCandidate(fs.entries, path) {
          continue;
        }
        var stable := IsStable(fs, path, now, minAge);
        if !stable {
          continue;
        }
        candidates := candidates + [path];
      }
      assert walk[..|walk|] == walk;
    }

    /**
      The workers of `scan_once` (lines 180-231), one after another in list
      order. At the end each file's result stands, `_known` has lost exactly
      the files taken out of the ready tree, and nothing outside the paths
      the workers may change has changed.
    */
    method RepairAll(fs: FileSystem, cfg: ScanConfig, reference: Path, files: seq<Path>, fx: Effects, now: int)
      returns (repaired: nat, failed: nat, outcomes: seq<WorkerOutcome>)
      requires SeparateTrees(cfg) && Distinct(files) && AllUnder(files, cfg.readyRoot)
      modifies this, fs
      ensures currentReference == old(currentReference)
      ensures repaired == CountRepaired(outcomes) && failed == |files| - repaired
      ensures WorkersOutcome(cfg, fx, files, outcomes, fs.entries)
      ensures known == old(known) - Forgotten(files, outcomes)
      ensures AgreeOutside(old(fs.entries), fs.entries, Touched(cfg, files))
      ensures NoFixedSiblings(files) ==> SourcesSettled(fx, files, outcomes, old(fs.entries), fs.entries)
    {
      repaired := 0;
      failed := 0;
      outcomes := [];
      WorkersBegin(cfg, fx, files, fs.entries, known);
      for i := 0 to |files|
        invariant repaired == CountRepaired(outcomes) && failed == |outcomes| - repaired
        invariant currentReference == old(currentReference)
        invariant WorkersResult(cfg, fx, files[..i], outcomes, old(known), fs.entries, known)
        invariant WorkersFrame(cfg, fx, files[..i], outcomes, old(fs.entries), fs.entries)
      {
        var outcome := RepairNext(fs, cfg, reference, files, i, outcomes, fx, now, old(fs.entries), old(known));
        repaired, failed := Tally(outcomes, outcome, repaired, failed);
        outcomes := outcomes + [outcome];
      }
      WorkersFinished(cfg, fx, files, outcomes, old(fs.entries), old(known), fs.entries, known);
    }

    /**
      The second half of `scan_once` (lines 180-244): the workers, then the
      copy of the reference into the export tree when nothing is there yet.
    */
    method RepairAndExport(fs: FileSystem, cfg: ScanConfig, reference: Path, files: seq<Path>, fx: Effects, now: int)
      returns (repaired: nat, failed: nat, outcomes: seq<WorkerOutcome>)
      requires SeparateTrees(cfg) && Distinct(files) && IsUnder(reference, cfg.readyRoot)
      requires AllUnder(files, cfg.readyRoot) && reference !in files
      modifies this, fs
      ensures currentReference == old(currentReference)
      ensures repaired == CountRepaired(outcomes) && failed == |files| - repaired
      ensures WorkersOutcome(cfg, fx, files, outcomes, fs.entries)
      ensures known == old(known) - Forgotten(files, outcomes)
      ensures AgreeOutside(old(fs.entries), fs.entries, Touched(cfg, files) + {ExportOf(cfg, reference)})
      ensures NoFixedSiblings(files) ==> SourcesSettled(fx, files, outcomes, old(fs.entries), fs.entries)
      // The reference's export path: kept when it existed, else the copy unless refused
      ensures ExportOf(cfg, reference) in old(fs.entries) ==>
        ExportOf(cfg, reference) in fs.entries && fs.entries[ExportOf(cfg, reference)] == old(fs.entries)[ExportOf(cfg, reference)]
      ensures ExportOf(cfg, reference) !in old(fs.entries) && reference in fs.entries && !fx.referenceCopyRefused ==>
        ExportOf(cfg, reference) in fs.entries && fs.entries[ExportOf(cfg, reference)] == fs.entries[reference]
      ensures ExportOf(cfg, reference) !in old(fs.entries) && (fx.referenceCopyRefused || reference !in fs.entries) ==>
        ExportOf(cfg, reference) !in fs.entries
    {
      repaired, failed, outcomes := RepairAll(fs, cfg, reference, files, fx, now);
      ghost var worked := fs.entries;
      ExportUntouchedByWorkers(cfg, files, reference);

      var refDst := ExportOf(cfg, reference);
      assert refDst in worked <==> refDst in old(fs.entries);
      assert refDst in worked ==> worked[refDst] == old(fs.entries)[refDst];
      RebaseUnder(reference, cfg.readyRoot, cfg.exportRoot);
      if refDst !in fs.entries {
        DisjointTreesDiffer(reference, refDst, cfg.readyRoot, cfg.exportRoot);
        var copied := fs.Copy(reference, refDst, fx.referenceCopyRefused);
      }
      assert AgreeOutside(worked, fs.entries, {refDst});
      AgreeOutsideTrans(old(fs.entries), worked, fs.entries, Touched(cfg, files), {refDst}, Touched(cfg, files) + {refDst});
      ReferenceCopyKeeps(cfg, fx, files, outcomes, refDst, old(fs.entries), worked, fs.entries);
    }

    /**
      Lines 145-176 of `scan_once`: the stable candidates, the reference
      chosen among them, and the files to repair (every other candidate).
    */
    method SelectBatch(fs: FileSystem, cfg: ScanConfig, walk: seq<Path>, now: int)
      returns (candidates: seq<Path>, reference: Option<Path>, files: seq<Path>)
      requires forall p | p in walk :: IsUnder(p, cfg.readyRoot)
      requires Distinct(walk)
      modifies this
      ensures var sel := SelectStable(walk, old(known), fs.entries, now, cfg.minFileAgeSeconds);
        candidates == sel.candidates && known == sel.known
      ensures forall p | p in candidates :: p in fs.entries
      ensures reference == SelectReferenceFile(candidates, fs.entries, cfg.referenceStrategy)
      ensures currentReference == if reference.Some? then reference else old(currentReference)
      ensures reference.None? ==> files == []
      ensures reference.Some? ==>
        && files == Without(candidates, reference.value)
        && |files| == |candidates| - 1
        && reference.value !in files && IsUnder(reference.value, cfg.readyRoot)
        && Distinct(files)
        && forall i :: 0 <= i < |files| ==> IsUnder(files[i], cfg.readyRoot)
    {
      CandidatesWereSeenBefore(walk, known, fs.entries, now, cfg.minFileAgeSeconds);
      candidates := CollectCandidates(fs, walk, now, cfg.minFileAgeSeconds);
      files := [];
      reference := SelectReferenceFile(candidates, fs.entries, cfg.referenceStrategy);
      if reference.None? {
        return;
      }
      currentReference := reference;
      files := Without(candidates, reference.value);
      WithoutDistinct(candidates, reference.value);
      forall i | 0 <= i < |files| ensures IsUnder(files[i], cfg.readyRoot) {
        assert files[i] in candidates;
      }
    }

    /**
      `scan_once`. `walk` is what `ready_root.rglob("*")` yields, `now` the
      clock, `fx` the outside outcomes. `files` are the files to repair and
      `outcomes[i]` is what the worker for `files[i]` did.
    */
    method ScanOnce(fs: FileSystem, cfg: ScanConfig, walk: seq<Path>, now: int, fx: Effects)
      returns (result: ScanResult, files: seq<Path>, outcomes: seq<WorkerOutcome>)
      requires SeparateTrees(cfg)
      requires forall p | p in walk :: IsUnder(p, cfg.readyRoot)
      requires Distinct(walk)
      modifies this, fs
      // Which files take part, and which one is the reference
      ensures var sel := SelectStable(walk, old(known), old(fs.entries), now, cfg.minFileAgeSeconds);
        && result.scanned == |sel.candidates|
        && (|sel.candidates| < 2 ==>
              && result == ScanResult(|sel.candidates|, 0, 0, None, |sel.candidates| == 1)
              && fs.entries == old(fs.entries) && known == sel.known
              && currentReference == old(currentReference) && files == [])
        && (|sel.candidates| >= 2 ==>
              && result.reference == SelectReferenceFile(sel.candidates, old(fs.entries), cfg.referenceStrategy)
              && currentReference == result.reference
              && !result.skippedNoReference
              && files == Without(sel.candidates, result.reference.value)
              && |files| == |sel.candidates| - 1)
      // What the workers did
      ensures result.repaired == CountRepaired(outcomes) && result.failed == |files| - result.repaired
      ensures result.reference.Some? ==> result.reference.value !in files && IsUnder(result.reference.value, cfg.readyRoot)
      ensures WorkersOutcome(cfg, fx, files, outcomes, fs.entries)
      ensures NoFixedSiblings(files) ==> SourcesSettled(fx, files, outcomes, old(fs.entries), fs.entries)
      // `_known` after the scan: the scan's records, less the files taken out of the ready tree
      ensures known == SelectStable(walk, old(known), old(fs.entries), now, cfg.minFileAgeSeconds).known - Forgotten(files, outcomes)
      // Only the workers' paths and the reference's export path change
      ensures AgreeOutside(old(fs.entries), fs.entries,
        Touched(cfg, files) + if result.reference.Some? then {ExportOf(cfg, result.reference.value)} else {})
      // The reference's export path: kept when it existed, else the copy unless refused
      ensures result.reference.Some? && ExportOf(cfg, result.reference.value) in old(fs.entries) ==>
        && ExportOf(cfg, result.reference.value) in fs.entries
        && fs.entries[ExportOf(cfg, result.reference.value)] == old(fs.entries)[ExportOf(cfg, result.reference.value)]
      ensures (&& result.reference.Some? && ExportOf(cfg, result.reference.value) !in old(fs.entries)
               && result.reference.value in fs.entries && !fx.referenceCopyRefused) ==>
        && ExportOf(cfg, result.reference.value) in fs.entries
        && fs.entries[ExportOf(cfg, result.reference.value)] == fs.entries[result.reference.value]
      ensures (&& result.reference.Some? && ExportOf(cfg, result.reference.value) !in old(fs.entries)
               && (fx.referenceCopyRefused || result.reference.value !in fs.entries)) ==>
        ExportOf(cfg, result.reference.value) !in fs.entries
    {
      var candidates, reference;
      candidates, reference, files := SelectBatch(fs, cfg, walk, now);
      outcomes := [];
      if |candidates| == 0 {
        return ScanResult(0, 0, 0, None, false), files, outcomes;
      }
      if reference.None? {
        return ScanResult(|candidates|, 0, 0, None, true), files, outcomes;
      }
      // `files_to_repair` is one file shorter than at least two distinct
      // candidates, so the `if not files_to_repair` return is never taken.

      var repaired, failed;
      repaired, failed, outcomes := RepairAndExport(fs, cfg, reference.value, files, fx, now);

      result := ScanResult(|candidates|, repaired, failed, reference, false);
    }
  }
}
