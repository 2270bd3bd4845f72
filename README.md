# Untrunc repair service — a verified Dafny model of its decision core

The service repairs truncated camera videos with the `untrunc` tool, using a
known-good clip from the same camera as the *reference*. It has two halves,
and this project models the logic of both:

* **The batch-submission Lambda** (`BatchLambda`, `batch_lambda.dfy`).
  `POST /submit-batch` checks the request and lists the video objects under
  an S3 prefix. It picks a reference clip by an explicit key, or else by the
  `smallest` or `newest` rule. It sizes an AWS Batch (Fargate) job from the
  batch total and the largest file, snaps vCPU and memory to a valid Fargate
  pair, and submits the job. `GET /health` needs no key. Every other route
  needs an API key whose SHA-256 matches the configured hash.
* **The edge scanner** (`Scanner`, `scanner.dfy`). It walks the *ready*
  tree and keeps the video files that are unchanged since the previous scan.
  It picks a reference among them and repairs every other file into the
  *export* tree at the same relative path. A file that fails is moved into
  the *quarantine* tree and reported to the cloud API, with retries and
  exponential back-off. The scanner object remembers what it saw between
  scans.
* **The untrunc runner** (`UntruncRunner`, `untrunc_runner.dfy`). It locates
  the binary and builds the exec-style argument vector. It runs the tool and
  accepts the result only when an output of at least 1 KiB exists at the
  requested path, or at `<stem>_fixed<suffix>`, which it then moves into
  place.

Supporting modules:

* `Common` (`common.dfy`): Option, Python-style string helpers (`lower`,
  `strip`, `in`, `s[:n]`).
* `Picking` (`picking.dfy`): the head of Python's stable `sorted`, used by
  both reference selectors.
* `FileSystems` (`filesystem.dfy`): paths as component sequences, the
  pathlib accessors (`name`, `stem`, `suffix`, `relative_to`), and the
  `FileSystem` class whose `entries` map is what `stat` reports.

What lies outside the program becomes a parameter of the operation that
uses it:

* the S3 listing, the Batch submission and SHA-256;
* the uuid, the clock and the walk of the ready tree;
* what untrunc does on each run (timeout, exit code, which files it writes);
* whether the operating system refuses a move or a copy;
* whether each HTTP attempt of the fallback succeeds.

Code that changes state step by step is modelled imperatively:

* the scanner is a class;
* `calculate_resources`, `validate_fargate_resources`, `find_untrunc_binary`
  and the fallback retry loop are loops with invariants;
* `run_untrunc` mutates a `FileSystem`.

Each of these methods is proved against a specification function or
predicate, and the lemmas state what the source promises about that
specification.

The scanner's workers run concurrently in the source. Here they run one
after another in list order. The model proves that each worker touches only
its own source, export path, quarantine path and `_fixed` sibling
(`FileSystems.AgreeOutside`). Another ready file's worker never touches a
file's export or quarantine path (`Scanner.ExportPathsApart`,
`Scanner.QuarantinePathsApart`). So at the end of a scan each repaired file
still has its export, and each quarantined file its quarantine copy. `_known`
has lost exactly the files whose own worker deleted or quarantined them, and no path outside the
workers' paths and the reference's export path has changed. What a worker did
to its own source survives the other workers only when no file of the batch
is another's `<stem>_fixed<suffix>` sibling. Such a sibling can be taken by
the other file's run as its output (see `UntruncRunner.ReferenceTakenForOutput`).

The request checks of the Lambda follow the source as written, with Python's
`$`, so the handler lets a bucket or prefix ending in a newline through to
the S3 listing (`BatchLambda.HandlerAcceptsTrailingNewline`). The anchored
check is modelled beside it (see "## Findings").

## Model

| member | source | states |
|---|---|---|
| BatchLambda.IsVideoFileByLastFour | batch-pipeline/lambda/lambda_function.py:104-107 | a key is a video key iff its last four characters, lower-cased, are one of the five extensions |
| BatchLambda.TrailingNewlineAccepted | batch-pipeline/lambda/lambda_function.py:93-101 | as written, `validate_s3_path` accepts a bucket or a key ending in a newline, because Python's `$` matches before a final newline; the corrected check rejects both |
| BatchLambda.ValidS3PathCharacters | batch-pipeline/lambda/lambda_function.py:93-101 | a path the corrected check accepts contains only the characters the two patterns list (so no newline), and the as-written check accepts it too |
| BatchLambda.VideoFilesOf | batch-pipeline/lambda/lambda_function.py:110-132 | the listing filter keeps exactly the video objects of the listing, and only objects from the listing |
| BatchLambda.SelectReferenceFile | batch-pipeline/lambda/lambda_function.py:135-176 | a listed explicit key wins verbatim, and an unlisted one falls through to the strategy; None iff the list is empty; otherwise a listed key. `newest` gives the earliest file with the greatest ISO timestamp; every other strategy gives the earliest smallest file |
| BatchLambda.WithoutMembers | batch-pipeline/lambda/lambda_function.py:349 | the files to repair are exactly the listed files under a key other than the reference |
| BatchLambda.WithoutUnlisted | batch-pipeline/lambda/lambda_function.py:349 | filtering out a key that is not listed leaves the list unchanged |
| BatchLambda.WithoutListedKey | batch-pipeline/lambda/lambda_function.py:349 | with unique S3 keys, leaving out the reference leaves exactly one file fewer |
| BatchLambda.LargestWithinTotal | batch-pipeline/lambda/lambda_function.py:353-355 | the largest file to repair never exceeds their total size |
| BatchLambda.PlanResources | batch-pipeline/lambda/lambda_function.py:194-222 | vCPU is a tier value; memory is at most 122880 and at least the tier memory and twice the largest file, capped; storage is between 30 and 200 and at least three times the largest file plus 10, capped |
| BatchLambda.CalculateResources | batch-pipeline/lambda/lambda_function.py:179-222 | the tier loop with its `break`, then the floors and caps, yields exactly the planned allocation |
| BatchLambda.TierAllocationMonotone | batch-pipeline/lambda/lambda_function.py:54-61 | later tiers, and the values used beyond the last tier, never offer less vCPU, memory or storage |
| BatchLambda.PlanMonotoneInTotal | batch-pipeline/lambda/lambda_function.py:197-216 | for a fixed largest file, vCPU, memory and storage never decrease as the batch total grows |
| BatchLambda.PlanMonotoneInLargest | batch-pipeline/lambda/lambda_function.py:206-216 | for a fixed total, vCPU stays the same and memory and storage never decrease as the largest file grows |
| BatchLambda.Range | batch-pipeline/lambda/lambda_function.py:70-72 | `list(range(lo, hi, step))` for a positive step: ceil((hi - lo) / step) elements, or none when lo >= hi. The i-th element is lo + i * step and below hi, successive elements differ by step, and one more step after the last would reach hi |
| BatchLambda.MemoryOptionsShape | batch-pipeline/lambda/lambda_function.py:65-73 | every valid vCPU has a non-empty, strictly increasing list of memory options |
| BatchLambda.SnapUpIsLeastUpperOption | batch-pipeline/lambda/lambda_function.py:233-248 | on a sorted option list the `for … break / else` pick is the least option at least the request; when no option reaches the request, it is the largest option |
| BatchLambda.PickAtLeast | batch-pipeline/lambda/lambda_function.py:233-248 | the loop returns exactly that pick, which is one of the options |
| BatchLambda.ValidateFargateResources | batch-pipeline/lambda/lambda_function.py:225-256 | the vCPU is the least valid vCPU at least the request (16 when there is none); the memory is the pick from that vCPU's own list, so it is always a member of it; the vCPU text is "0.25", "0.5" or the integer |
| BatchLambda.SnapCanUndoMemoryFloor | batch-pipeline/lambda/lambda_function.py:194-256 | a batch of 4.5 GiB whose largest file is 4.5 GiB is planned at 1 vCPU with the 2x memory floor of 9216 MiB. The snap to a valid pair keeps 1 vCPU and submits 8192 MiB, below that floor |
| BatchLambda.OverrideOr | batch-pipeline/lambda/lambda_function.py:364-366 | a truthy override wins; an absent or zero override falls back to the automatic value |
| BatchLambda.RequestedVcpu | batch-pipeline/lambda/lambda_function.py:364-369 | the vCPU asked of Batch is always a valid Fargate vCPU |
| BatchLambda.RequestedStorage | batch-pipeline/lambda/lambda_function.py:366-372 | the storage asked of Batch never exceeds 200 GiB |
| BatchLambda.ApiKeyAccepted | batch-pipeline/lambda/lambda_function.py:76-90 | with no configured hash every request passes. Otherwise a missing `x-api-key` header, an empty one, or one whose SHA-256 hex digest differs from the configured hash is refused, and a non-empty key that hashes to it is accepted |
| BatchLambda.RequestError | batch-pipeline/lambda/lambda_function.py:302-315 | the first failing check in source order, and no other error: a missing input prefix iff the stripped prefix is empty; an invalid input path iff the prefix is present and the as-written `$` check refuses the input bucket and prefix; an invalid output path iff both pass and the check refuses the output bucket with the output prefix, `"x"` standing in for an empty one |
| BatchLambda.RequestErrorNoneMeansSafe | batch-pipeline/lambda/lambda_function.py:302-315 | a request that passes the three checks, made as written with Python's `$`, has a non-empty input prefix without `..`. The input bucket, the input prefix, the output bucket and any output prefix each match their pattern once one final newline is dropped |
| BatchLambda.HandlerAcceptsTrailingNewline | batch-pipeline/lambda/lambda_function.py:302-315 | with a default output bucket `out-bucket`, a request for input bucket `abc\n` and prefix `cam1` passes all three checks and reaches the listing, although the anchored check refuses that bucket |
| BatchLambda.ChooseReference | batch-pipeline/lambda/lambda_function.py:338-350 | the reference is the selected key, listed and non-empty, so the `not reference_key` branch never fires; the files to repair never include the reference, and with unique keys there is one fewer |
| BatchLambda.SizeJob | batch-pipeline/lambda/lambda_function.py:352-372 | the sizes come from the files to repair and the reference; automatic sizing covers them all; overrides replace it; vCPU and memory form a valid Fargate pair; storage is capped |
| BatchLambda.PrepareJob | batch-pipeline/lambda/lambda_function.py:338-412 | the job request carries the selected reference, every other listed key in listing order, and a valid vCPU/memory pair. The output prefix defaults to the input prefix, and ephemeral storage is set iff storage exceeds 20 GiB |
| BatchLambda.HandleSubmitBatch | batch-pipeline/lambda/lambda_function.py:280-447 | the response and the job sent are those of the checks in the source's order. Bad JSON, a missing prefix, a bad input path and a bad output path give 400 with that error; a listing error gives 500; zero or one video file gives 400. Otherwise the request sent is the one built from the listing; a Batch error gives 500, and success gives 202 with a summary whose every field comes from the request, the listing, the reference or the resources sent. `auto_scaled` holds iff no override is truthy |
| BatchLambda.SubmitOutcomeFacts | batch-pipeline/lambda/lambda_function.py:280-447 | the handler answers 202, 400 or 500. A job reaches Batch only when the body parsed, the three checks passed, the listing succeeded and it found at least two video files. A 202 reports storage of at most 200 GiB, above 20 GiB exactly when ephemeral storage was requested, and a file count equal to the number of files listed |
| BatchLambda.LambdaHandler | batch-pipeline/lambda/lambda_function.py:450-472 | health needs no key; every other route without an accepted key gets 401. With a key, submit-batch gets exactly the answer of HandleSubmitBatch and anything else gets 404. Only submit-batch ever reaches Batch |
| Common.StripShape | batch-pipeline/lambda/lambda_function.py:291-293 | `strip("/")` removes slashes only, and only at the ends: the result is a contiguous piece of the input, surrounded by slashes alone, that neither starts nor ends with a slash |
| Picking.FirstBest | edge-service/app/scanner.py:111-128 | the head of a stable sort is the earliest element at least as good as every element |
| Picking.FirstBestUnique | edge-service/app/scanner.py:113-114 | that element is unique |
| FileSystems.FixedPathIsSibling | edge-service/app/untrunc_runner.py:166 | the `<stem>_fixed<suffix>` path is in the input's directory and is never the input itself |
| FileSystems.FileSystem.Rename | edge-service/app/untrunc_runner.py:169 | a move succeeds iff the source exists and the system does not refuse it; the destination then holds the source's file and the source is gone, and otherwise nothing changes |
| FileSystems.FileSystem.Copy | edge-service/app/scanner.py:241 | a copy keeps the source and gives the destination its size and mtime |
| UntruncRunner.FindUntruncBinary | edge-service/app/untrunc_runner.py:35-53 | the loop over the common locations returns exactly the binary BinaryLookup describes |
| UntruncRunner.FirstInstalled | edge-service/app/untrunc_runner.py:47-49 | nothing iff no common location from the given one on exists; otherwise the first that exists, in list order |
| UntruncRunner.BinaryLookup | edge-service/app/untrunc_runner.py:35-53 | the `which` hit when there is one. Otherwise a binary exists iff one of `/usr/local/bin`, `/usr/bin`, `/app/bin` has it, and then it is the first of them that does |
| UntruncRunner.UntruncCommand | edge-service/app/untrunc_runner.py:100-107 | exactly `[bin, -n, -s, -dst, output, reference, input]`, with the reference before the corrupted input |
| UntruncRunner.Collected | edge-service/app/untrunc_runner.py:164-169 | when the output exists, nothing moves; otherwise an existing `_fixed` file becomes the output |
| UntruncRunner.RunLaunched | edge-service/app/untrunc_runner.py:127-181 | a timeout or a non-zero exit (with at most 200 characters of stderr) raises with no output checks; with no output at either path it raises; an output under 1 KiB is deleted and raises; on success the output exists with at least 1 KiB; only the output and the `_fixed` path change |
| UntruncRunner.RunUntrunc | edge-service/app/untrunc_runner.py:56-181 | a missing input raises first and a missing reference next, both with no change and no command. With both present, a command is launched iff BinaryLookup finds a binary, and it is the argument vector above for that binary. A launched run has the outcome of RunLaunched; only the output and the `_fixed` path change |
| UntruncRunner.InputSurvives | edge-service/app/untrunc_runner.py:164-178 | a run never deletes, moves or changes the corrupted input unless the input is itself the output path |
| UntruncRunner.ReferenceTakenForOutput | edge-service/app/untrunc_runner.py:164-169 | when the reference is the input's own `_fixed` sibling and the tool exits cleanly without writing, the run succeeds by moving the reference into the output path: the reference is gone |
| Scanner.IsCandidate | edge-service/app/scanner.py:49-58 | a candidate is an existing file whose lower-cased last suffix is one of `.mp4 .mov .mkv .avi .m4v` and whose name is non-empty and starts with neither `.` nor `~`; every such file is a candidate |
| Scanner.Observe | edge-service/app/scanner.py:60-94 | stable only for an existing, old-enough file whose recorded size and mtime match, and always then; a stable answer changes no record. A first sighting or a change of an old-enough file is recorded; a missing or young file leaves the record unchanged; no other path's record changes |
| Scanner.StableOnSecondLook | edge-service/app/scanner.py:80-94 | a file is never stable on its first sighting, and an unchanged old-enough file is stable on the next look |
| Scanner.SelectStable | edge-service/app/scanner.py:145-152 | every candidate comes from the walk and is a candidate video file; records of paths outside the walk are untouched |
| Scanner.CandidatesWereSeenBefore | edge-service/app/scanner.py:145-152 | for a walk without repeats, the candidates are distinct. Each was recorded by an earlier scan with exactly its current size and mtime, and is old enough |
| Scanner.SelectReferenceFile | edge-service/app/scanner.py:96-128 | None iff there are fewer than two candidates; otherwise a candidate: under `newest` the earliest newest file, under any other strategy the earliest smallest file |
| Scanner.Without | edge-service/app/scanner.py:174 | the files to repair are exactly the candidates other than the reference |
| Scanner.WithoutDistinct | edge-service/app/scanner.py:174 | distinct candidates leave distinct files to repair, exactly one fewer when the reference is among them |
| Scanner.ExportPathsApart | edge-service/app/scanner.py:186-219 | with separate trees, another ready file's export path is never this file, its export or quarantine path, or its `_fixed` sibling |
| Scanner.QuarantinePathsApart | edge-service/app/scanner.py:218-223 | with separate trees, a file's quarantine path is never another ready file, that file's export or quarantine path, or its `_fixed` sibling |
| Scanner.ReadyFileApart | edge-service/app/scanner.py:186-219 | a ready file is never among the paths another file's worker changes, unless it is that file's `_fixed` sibling |
| Scanner.UntouchedByWorkers | edge-service/app/scanner.py:184-231 | a ready file outside the batch that is no `_fixed` sibling of a batch file is left alone by all the workers |
| Scanner.ForgottenExactly | edge-service/app/scanner.py:203-223 | with distinct files, `_known` loses a batch file exactly when its worker deleted or quarantined it, and loses no path outside the batch |
| Scanner.WorkerDoneSurvives | edge-service/app/scanner.py:184-231 | another file's worker keeps a worker's export, quarantine copy and fallback outcome |
| Scanner.FallbackRequestShape | edge-service/app/scanner.py:272-281 | the URL is the base with every trailing `/` removed plus exactly one `/submit-batch`; the key header is sent iff a key is configured |
| Scanner.FallbackAttemptsAtLeastOnce | edge-service/app/scanner.py:288-301 | with a base URL and a positive retry count, the first attempt is always made, and at most the retry count are made |
| Scanner.OutcomeSurvivesRepair | edge-service/app/scanner.py:184-231 | a later worker never undoes an earlier worker's repaired export, quarantine copy or fallback outcome |
| Scanner.OutcomeAppend | edge-service/app/scanner.py:184-231 | one more worker's outcome joins the outcomes of those before it |
| Scanner.SettledAppend | edge-service/app/scanner.py:184-231 | when no file of the batch is another's `_fixed` sibling, one more worker leaves the earlier files as their workers left them, and its own file deleted, moved to quarantine with its metadata, or in place unchanged |
| Scanner.ResultAppend | edge-service/app/scanner.py:184-231 | one more worker extends the outcomes, and `_known` loses its file exactly when that worker deleted or quarantined it |
| Scanner.FrameAppend | edge-service/app/scanner.py:184-231 | one more worker extends the set of paths the batch may have changed by its own four paths, and keeps the earlier files settled |
| Scanner.ReferenceCopyKeeps | edge-service/app/scanner.py:232-243 | the copy of the reference to an empty export path keeps every worker's result and every file's settled state |
| Scanner.ExportUntouchedByWorkers | edge-service/app/scanner.py:184-231 | the workers for other ready files never touch a ready file's export path |
| Scanner.RunWorkerUntrunc | edge-service/app/scanner.py:186-191 | the worker's run into the export path with the configured timeout: on success the source was there and the export holds at least 1 KiB; only the export path and the source's `_fixed` sibling change |
| Scanner.Tally | edge-service/app/scanner.py:204-229 | each outcome is counted once: `repaired` counts the repairs and `failed` the rest |
| Scanner.DirectoryScanner.constructor | edge-service/app/scanner.py:44-47 | a new scanner knows no file and has no current reference |
| Scanner.DirectoryScanner.IsStable | edge-service/app/scanner.py:60-94 | the answer and the new `_known` are exactly those of Observe |
| Scanner.DirectoryScanner.InvokeAwsFallback | edge-service/app/scanner.py:252-333 | with no base URL: false and no request. Otherwise the same request up to `max_retries` times, stopping at the first success; true iff some attempt within the count succeeds; a `2 ** k` wait after each failed attempt except the last |
| Scanner.DirectoryScanner.TryRepair | edge-service/app/scanner.py:186-206 | success leaves an export of at least 1 KiB, deletes the source (which was there) and forgets it, changing only the source, its export and its `_fixed` sibling. A failure changes only the export and the `_fixed` sibling and leaves `_known` alone |
| Scanner.DirectoryScanner.QuarantineAndReport | edge-service/app/scanner.py:212-229 | unless refused, the source moves to the same relative path in quarantine and is forgotten only then; the fallback is invoked for the relative path either way |
| Scanner.DirectoryScanner.RepairFile | edge-service/app/scanner.py:184-229 | a worker either repairs, leaving an export of at least 1 KiB and no source, or quarantines when the move is not refused and calls the fallback with its outcome. It changes only the source, its export and quarantine paths and its `_fixed` sibling. `_known` loses the source exactly when the worker deleted or quarantined it |
| Scanner.DirectoryScanner.RepairNext | edge-service/app/scanner.py:184-229 | the worker for the next file keeps the outcomes and frame of the workers before it and adds its own |
| Scanner.DirectoryScanner.CollectCandidates | edge-service/app/scanner.py:146-152 | the candidate loop computes exactly SelectStable's candidates and `_known` |
| Scanner.DirectoryScanner.RepairAll | edge-service/app/scanner.py:180-231 | `repaired` counts the repairs and `repaired + failed` is the number of files. Each repaired file has its export of at least 1 KiB at the end; each failed file has its fallback outcome and any quarantine copy. `_known` is the old record less exactly the files whose own worker deleted or quarantined them, and only the workers' paths changed; with no `_fixed` siblings in the batch, each source is deleted, quarantined or unchanged as its outcome says |
| Scanner.DirectoryScanner.RepairAndExport | edge-service/app/scanner.py:180-244 | the workers' outcomes as in RepairAll, kept by the reference copy, which happens unless refused; only the workers' paths and the reference's export path changed |
| Scanner.DirectoryScanner.SelectBatch | edge-service/app/scanner.py:145-176 | the stable candidates, the reference selected among them (recorded as current), and the other candidates as distinct files to repair, never including the reference |
| Scanner.DirectoryScanner.ScanOnce | edge-service/app/scanner.py:130-250 | with no candidates, or a single one (skipped for no reference), the scan returns early and changes no file. Otherwise the reference is the selected candidate and is never repaired, `repaired + failed` is the number of other candidates, and every worker's outcome holds at the end. `_known` is the scan's record less exactly the files whose own worker deleted or quarantined them. Only the workers' paths and the reference's export path change. An existing export of the reference is kept as it was; otherwise the export gets the reference's size and mtime unless the copy is refused or the reference is gone, and stays absent then |

## Left out

- S3 pagination, `batch.submit_job`, the `httpx` client and SHA-256 are function parameters; their exceptions are a `ListingFailed` listing, a None job id and a failed attempt.
- The JSON parse and `json.dumps` of the body are not modelled: the body arrives parsed (None when it is not valid JSON), and responses are values, not JSON text. The uuid arrives as its hex digits. A body that is valid JSON but not an object, or whose `input_prefix` or `output_prefix` is `null` or a number, makes the source raise an unhandled `AttributeError` (lines 290-293). A string given for `vcpu`, `memory_mb` or `storage_gb` makes it raise an unhandled `TypeError` in the comparisons of `validate_fargate_resources` or in `min(storage, 200)` (lines 364-372). The typed body of the model, whose overrides are `Option<int>`, cannot express either request.
- `calculate_resources` works in floating-point GiB; the model uses integer bytes and floor division, so float rounding at the tier limits is not captured.
- The Fargate vCPU keys 0.25 and 0.5 are integer quarter-vCPU units in the model (a `vcpu` override is given in quarters too). The MB figures of the 202 body are reported in bytes, without rounding.
- `\w` in the key pattern and `str.lower()` are ASCII-only in the model.
- The scanner's workers run sequentially in list order; the semaphore and `asyncio.gather` concurrency are not modelled.
- `run_forever`, `stop`, the back-off sleeps' random jitter and every log call are not modelled; the back-off waits are returned as values.
- `mkdir` never changes the model (directories are implicit). OS errors other than a refused quarantine move or reference copy are not modelled. `stat` is never refused on an existing file.
- The subprocess internals (`create_subprocess_exec`, `wait_for`, `kill`) and untrunc's repair algorithm are replaced by a `ToolRun` value: timeout flag, exit code, stderr, and the sizes it writes at `-dst` and at the `_fixed` path.
- edge-service/app/main.py and edge-service/app/config.py are not part of this model: the settings are the fields of `ScanConfig` and `LambdaConfig`.
- Scanner.DirectoryScanner.ScanOnce: requires the ready, export and quarantine trees not to nest, and the walk to visit each path under the ready root once, as `rglob` does.
- The worker's own existence and size checks after `run_untrunc` (scanner.py lines 194-200) cannot fail, because RunUntrunc's postcondition already guarantees them. The scan's `if not files_to_repair` return (line 176) cannot be taken either. Both are left out as dead branches.
- BatchLambda.Range: holds for a positive step only, the only kind the table uses.
- Scanner.Observe: `stat().st_mtime`, `time.time()` and `min_file_age_seconds` are floats in seconds; the model takes them as integers in one common unit. With whole seconds, a rewrite of the same size within the same second keeps the mtime, so such a change goes unnoticed.
- Scanner.DirectoryScanner.ScanOnce: the source reads the clock anew in each `_is_stable` call; the model uses one `now` for the whole walk.
- Scanner.DirectoryScanner.RepairAll: what a worker did to its own source is stated only for batches in which no file is another's `<stem>_fixed<suffix>` sibling. The other file's run may take such a sibling as its output, so nothing is claimed about it then. Such a sibling has then left the ready tree, yet `_known` keeps it: its own worker finds no input, its quarantine move fails, and `_known` loses only the files their own worker deleted or quarantined.

## Findings

| source | as written | input that shows it | evidently intended | confidence | as-written member | corrected member |
|---|---|---|---|---|---|---|
| batch-pipeline/lambda/lambda_function.py:93-101 | the patterns end in `$`, which in Python's `re` also matches just before a final newline, so `validate_s3_path` accepts a bucket or prefix ending in `\n` | bucket `"abc\n"` with key `"cam1"`, or bucket `"abc"` with key `"cam1\n"` | the pattern must match the whole string (`\Z` or `fullmatch`), so only the listed characters pass | not executed | BatchLambda.TrailingNewlineAccepted | BatchLambda.ValidS3PathCharacters |

The handler keeps the check as written, so that its answers are the
source's; `BatchLambda.HandlerAcceptsTrailingNewline` shows the request the
row describes passing all three checks.

Two other behaviours are proved, but not listed as defects, because the
source gives no evidently intended alternative.
`BatchLambda.SnapCanUndoMemoryFloor` shows that the snap to a valid Fargate
pair keeps the planned vCPU and can submit less memory than the 2x floor.
`UntruncRunner.ReferenceTakenForOutput` shows that a reference which is the
input's own `_fixed` sibling is taken as the tool's output.
