/**
  The batch-submission Lambda: it recognises video keys, validates S3 paths,
  picks the reference clip, sizes the AWS Batch (Fargate) job from the batch
  size and the largest file, and turns one HTTP request into one response.
  S3, AWS Batch, SHA-256 and the JSON parse of the body are parameters.
*/
module BatchLambda {
  import opened Common
  import opened Picking

  const GiB: nat := 1073741824  // 1024 ** 3
  const MiBPerHalfGiB: nat := 524288  // 2 ** 19: bytes per MiB of a "2 x size" memory floor

  // ---------------------------------------------------------------------
  // Recognising video keys
  // ---------------------------------------------------------------------

  const VideoExtensions: seq<string> := [".mp4", ".mov", ".mkv", ".avi", ".m4v"]

  /** `is_video_file`: the lower-cased key ends with one of the extensions. */
  predicate IsVideoFile(key: string) {
    exists ext | ext in VideoExtensions :: EndsWith(Lower(key), ext)
  }

  /**
    Every extension has four characters, so a key is a video key exactly when
    its last four characters, lower-cased, are one of them.
  */
  lemma IsVideoFileByLastFour(key: string)
    ensures IsVideoFile(key) <==> |key| >= 4 && Lower(key[|key| - 4..]) in VideoExtensions
  {
    if |key| >= 4 {
      LowerSuffix(key, |key| - 4);
    }
    forall ext | ext in VideoExtensions ensures |ext| == 4 { }
  }

  // ---------------------------------------------------------------------
  // S3 path syntax
  // ---------------------------------------------------------------------

  predicate IsLowerAlnum(c: char) {
    'a' <= c <= 'z' || '0' <= c <= '9'
  }

  /** `[a-z0-9.\-]` */
  predicate IsBucketChar(c: char) {
    IsLowerAlnum(c) || c == '.' || c == '-'
  }

  /** `[\w\-./]`, with `\w` read as ASCII. */
  predicate IsKeyChar(c: char) {
    'a' <= c <= 'z' || 'A' <= c <= 'Z' || '0' <= c <= '9' || c == '_' || c == '-' || c == '.' || c == '/'
  }

  /** The whole of `b` is `[a-z0-9][a-z0-9.\-]{1,61}[a-z0-9]`. */
  predicate BucketSyntax(b: string) {
    && 3 <= |b| <= 63
    && IsLowerAlnum(b[0]) && IsLowerAlnum(b[|b| - 1])
    && forall i :: 0 < i < |b| - 1 ==> IsBucketChar(b[i])
  }

  /** The whole of `k` is `[\w\-./]+`. */
  predicate KeySyntax(k: string) {
    |k| >= 1 && forall i :: 0 <= i < |k| ==> IsKeyChar(k[i])
  }

  /**
    What `re.match` with a pattern `^...$` accepts: Python's `$` matches at the
    end of the string AND just before a final newline.
  */
  predicate MatchesUpToFinalNewline(s: string, whole: string -> bool) {
    whole(s) || (|s| > 0 && s[|s| - 1] == '\n' && whole(s[..|s| - 1]))
  }

  /** `validate_s3_path` as written, with Python's `$`. */
  predicate ValidS3PathAsWritten(bucket: string, key: string) {
    && bucket != "" && MatchesUpToFinalNewline(bucket, BucketSyntax)
    && (key == "" || MatchesUpToFinalNewline(key, KeySyntax))
    && !Contains(key, "..")
  }

  /** `validate_s3_path` with the patterns anchored at the very end of the string. */
  predicate ValidS3Path(bucket: string, key: string) {
    && bucket != "" && BucketSyntax(bucket)
    && (key == "" || KeySyntax(key))
    && !Contains(key, "..")
  }

  /** As written, a bucket or key with a trailing newline passes the check. */
  lemma TrailingNewlineAccepted()
    ensures ValidS3PathAsWritten("abc\n", "cam1")
    ensures ValidS3PathAsWritten("abc", "cam1\n")
    ensures !ValidS3Path("abc\n", "cam1") && !ValidS3Path("abc", "cam1\n")
  {
    assert BucketSyntax("abc\n"[..3]);
    assert KeySyntax("cam1\n"[..4]);
    assert !IsLowerAlnum("abc\n"[3]);
    assert !IsKeyChar("cam1\n"[4]);
    MissingFirstCharNotContained("cam1", "..");
    MissingFirstCharNotContained("cam1\n", "..");
  }

  /**
    The corrected check only lets through the characters the patterns list,
    and it accepts a subset of what the as-written check accepts.
  */
  lemma ValidS3PathCharacters(bucket: string, key: string)
    requires ValidS3Path(bucket, key)
    ensures forall i :: 0 <= i < |bucket| ==> IsBucketChar(bucket[i]) && bucket[i] != '\n'
    ensures forall i :: 0 <= i < |key| ==> IsKeyChar(key[i]) && key[i] != '\n'
    ensures ValidS3PathAsWritten(bucket, key)
  {
  }

  // ---------------------------------------------------------------------
  // Listing (the S3 paginator is a parameter; this is its filter)
  // ---------------------------------------------------------------------

  /** One listed object: `Key`, `Size` and `LastModified.isoformat()`. */
  datatype StoredObject = StoredObject(key: string, size: nat, lastModified: string)

  datatype Listing = ListingFailed | Listed(objects: seq<StoredObject>)

  /** `list_video_files`: the video objects of a listing, in listing order. */
  function VideoFilesOf(objects: seq<StoredObject>): (files: seq<StoredObject>)
    ensures |files| <= |objects|
    ensures forall i :: 0 <= i < |files| ==> IsVideoFile(files[i].key) && files[i] in objects
    ensures forall o :: o in objects && IsVideoFile(o.key) ==> o in files
  {
    if objects == [] then []
    else
      var rest := VideoFilesOf(objects[..|objects| - 1]);
      var last := objects[|objects| - 1];
      assert objects == objects[..|objects| - 1] + [last];
      if IsVideoFile(last.key) then rest + [last] else rest
  }

  predicate KeyListed(files: seq<StoredObject>, key: string) {
    exists i | 0 <= i < |files| :: files[i].key == key
  }

  predicate DistinctKeys(files: seq<StoredObject>) {
    forall i, j | 0 <= i < j < |files| :: files[i].key != files[j].key
  }

  /** The keys of a file list, in order (`[f["key"] for f in files]`). */
  function KeysOf(files: seq<StoredObject>): (keys: seq<string>)
    ensures |keys| == |files|
    ensures forall i :: 0 <= i < |files| ==> keys[i] == files[i].key
  {
    seq(|files|, i requires 0 <= i < |files| => files[i].key)
  }

  /** `[f for f in files if f["key"] != key]` */
  function Without(files: seq<StoredObject>, key: string): (r: seq<StoredObject>)
    ensures |r| <= |files|
    ensures forall i :: 0 <= i < |r| ==> r[i].key != key
  {
    if files == [] then []
    else
      var rest := Without(files[..|files| - 1], key);
      var last := files[|files| - 1];
      assert files == files[..|files| - 1] + [last];
      if last.key != key then rest + [last] else rest
  }

  /** The filter keeps exactly the files under other keys. */
  lemma {:induction false} WithoutMembers(files: seq<StoredObject>, key: string)
    ensures forall o :: o in Without(files, key) <==> o in files && o.key != key
  {
    if files != [] {
      var init := files[..|files| - 1];
      var last := files[|files| - 1];
      WithoutMembers(init, key);
      assert files == init + [last];
    }
  }

  lemma {:induction false} WithoutUnlisted(files: seq<StoredObject>, key: string)
    requires !KeyListed(files, key)
    ensures Without(files, key) == files
  {
    if files != [] {
      var init := files[..|files| - 1];
      var last := files[|files| - 1];
      assert !KeyListed(init, key) && last.key != key by {
        forall i | 0 <= i < |init| ensures init[i].key != key {
          assert init[i] == files[i];
        }
      }
      WithoutUnlisted(init, key);
      assert files == init + [last];
    }
  }

  /** S3 keys are unique, so dropping the reference leaves exactly one file fewer. */
  lemma {:induction false} WithoutListedKey(files: seq<StoredObject>, key: string)
    requires DistinctKeys(files) && KeyListed(files, key)
    ensures |Without(files, key)| == |files| - 1
  {
    var init := files[..|files| - 1];
    var last := files[|files| - 1];
    assert DistinctKeys(init) by {
      forall i, j | 0 <= i < j < |init| ensures init[i].key != init[j].key {
        assert init[i] == files[i] && init[j] == files[j];
      }
    }
    if last.key == key {
      assert !KeyListed(init, key) by {
        forall i | 0 <= i < |init| ensures init[i].key != key {
          assert init[i] == files[i];
        }
      }
      WithoutUnlisted(init, key);
    } else {
      var k :| 0 <= k < |files| && files[k].key == key;
      assert k < |init| && init[k] == files[k];
      WithoutListedKey(init, key);
    }
  }

  /** Index of the first file at or after `from` with the given key. */
  function FirstIndexOfKey(files: seq<StoredObject>, key: string, from: nat): (i: nat)
    requires from <= |files|
    requires exists k | from <= k < |files| :: files[k].key == key
    ensures from <= i < |files| && files[i].key == key
    ensures forall j :: from <= j < i ==> files[j].key != key
    decreases |files| - from
  {
    if files[from].key == key then from else FirstIndexOfKey(files, key, from + 1)
  }

  /** `next(f["size"] for f in files if f["key"] == key)` */
  function SizeOfKey(files: seq<StoredObject>, key: string): nat
    requires KeyListed(files, key)
  {
    files[FirstIndexOfKey(files, key, 0)].size
  }

  /** `sum(f["size"] for f in files)`: at least the size of every file. */
  function TotalSize(files: seq<StoredObject>): (total: nat)
    ensures forall i :: 0 <= i < |files| ==> files[i].size <= total
    ensures files == [] ==> total == 0
  {
    if files == [] then 0
    else TotalSize(files[..|files| - 1]) + files[|files| - 1].size
  }

  /** `max(f["size"] for f in files) if files else 0` */
  function LargestSize(files: seq<StoredObject>): (m: nat)
    ensures forall i :: 0 <= i < |files| ==> files[i].size <= m
    ensures files == [] ==> m == 0
    ensures files != [] ==> exists i :: 0 <= i < |files| && files[i].size == m
  {
    if files == [] then 0
    else
      var m := LargestSize(files[..|files| - 1]);
      var last := files[|files| - 1].size;
      if last >= m then last else m
  }

  /** The largest file never exceeds the batch total. */
  lemma LargestWithinTotal(files: seq<StoredObject>)
    ensures LargestSize(files) <= TotalSize(files)
  {
  }

  // ---------------------------------------------------------------------
  // Reference selection
  // ---------------------------------------------------------------------

  /** Python's `<=` on strings: lexicographic by code point, a prefix first. */
  predicate LexLe(a: string, b: string)
    decreases |a|
  {
    a == [] || (b != [] && (a[0] < b[0] || (a[0] == b[0] && LexLe(a[1..], b[1..]))))
  }

  lemma {:induction false} LexLeTotal(a: string, b: string)
    ensures LexLe(a, b) || LexLe(b, a)
    decreases |a|
  {
    if a != [] && b != [] && a[0] == b[0] {
      LexLeTotal(a[1..], b[1..]);
    }
  }

  lemma {:induction false} LexLeTransitive(a: string, b: string, c: string)
    requires LexLe(a, b) && LexLe(b, c)
    ensures LexLe(a, c)
    decreases |a|
  {
    if a != [] && a[0] == b[0] && b[0] == c[0] {
      LexLeTransitive(a[1..], b[1..], c[1..]);
    }
  }

  /** The sort key of the `smallest` strategy. */
  predicate SmallerOrSame(a: StoredObject, b: StoredObject) {
    a.size <= b.size
  }

  /** The sort key of the `newest` strategy: ISO timestamps compared as strings. */
  predicate NewerOrSame(a: StoredObject, b: StoredObject) {
    LexLe(b.lastModified, a.lastModified)
  }

  lemma NewerOrSameIsPreorder(files: seq<StoredObject>)
    ensures TotalPreorderOn(files, NewerOrSame)
  {
    forall i, j | 0 <= i < |files| && 0 <= j < |files|
      ensures NewerOrSame(files[i], files[j]) || NewerOrSame(files[j], files[i])
    {
      LexLeTotal(files[i].lastModified, files[j].lastModified);
    }
    forall i, j, k | 0 <= i < |files| && 0 <= j < |files| && 0 <= k < |files|
      ensures NewerOrSame(files[i], files[j]) && NewerOrSame(files[j], files[k]) ==> NewerOrSame(files[i], files[k])
    {
      if NewerOrSame(files[i], files[j]) && NewerOrSame(files[j], files[k]) {
        LexLeTransitive(files[k].lastModified, files[j].lastModified, files[i].lastModified);
      }
    }
  }

  /**
    `select_reference_file`. An explicit reference that is listed wins; one
    that is not listed is ignored. Otherwise `newest` takes the earliest file
    with the greatest timestamp and every other strategy the earliest file of
    least size (the head of Python's stable sort).
  */
  function SelectReferenceFile(files: seq<StoredObject>, strategy: string, explicitRef: Option<string>): (r: Option<string>)
    ensures Truthy(explicitRef) && KeyListed(files, explicitRef.value) ==> r == explicitRef
    ensures r.None? <==> files == []
    ensures r.Some? ==> KeyListed(files, r.value)
    ensures !(Truthy(explicitRef) && KeyListed(files, explicitRef.value)) && files != [] && strategy == "newest" ==>
      exists b: nat :: IsFirstBest(files, NewerOrSame, b) && r == Some(files[b].key)
    ensures !(Truthy(explicitRef) && KeyListed(files, explicitRef.value)) && files != [] && strategy != "newest" ==>
      exists b: nat :: IsFirstBest(files, SmallerOrSame, b) && r == Some(files[b].key)
  {
    if Truthy(explicitRef) && KeyListed(files, explicitRef.value) then explicitRef
    else if files == [] then None
    else if strategy == "smallest" then
      Some(files[FirstBest(files, SmallerOrSame)].key)
    else if strategy == "newest" then
      NewerOrSameIsPreorder(files);
      Some(files[FirstBest(files, NewerOrSame)].key)
    else
      Some(files[FirstBest(files, SmallerOrSame)].key)
  }

  // ---------------------------------------------------------------------
  // Resource planning
  // ---------------------------------------------------------------------

  datatype Allocation = Allocation(vcpu: nat, memoryMiB: int, storageGiB: int)

  datatype Tier = Tier(maxTotalGiB: nat, allocation: Allocation)

  const ResourceTiers: seq<Tier> := [
    Tier(5, Allocation(1, 2048, 30)),
    Tier(20, Allocation(2, 4096, 60)),
    Tier(50, Allocation(4, 8192, 120)),
    Tier(100, Allocation(4, 16384, 175)),
    Tier(200, Allocation(8, 30720, 200))
  ]

  /** The values used when the batch is larger than every tier. */
  const BeyondLastTier: Allocation := Allocation(8, 30720, 200)

  const MaxMemoryMiB: int := 122880
  const MaxStorageGiB: int := 200

  /** Index of the first tier at or after `from` whose limit holds `totalBytes`. */
  function FirstFittingTier(totalBytes: nat, from: nat): (i: nat)
    requires from <= |ResourceTiers|
    ensures from <= i <= |ResourceTiers|
    ensures i < |ResourceTiers| ==> totalBytes <= ResourceTiers[i].maxTotalGiB * GiB
    ensures forall j :: from <= j < i ==> totalBytes > ResourceTiers[j].maxTotalGiB * GiB
    decreases |ResourceTiers| - from
  {
    if from == |ResourceTiers| then from
    else if totalBytes <= ResourceTiers[from].maxTotalGiB * GiB then from
    else FirstFittingTier(totalBytes, from + 1)
  }

  function TierAllocation(i: nat): Allocation {
    if i < |ResourceTiers| then ResourceTiers[i].allocation else BeyondLastTier
  }

  /** `int(largest_gb * 2 * 1024)`: twice the largest file, in MiB. */
  function MemoryFloorMiB(largestBytes: nat): nat {
    largestBytes / MiBPerHalfGiB
  }

  /** `int(largest_gb * 3) + 10`: three times the largest file plus 10, in GiB. */
  function StorageFloorGiB(largestBytes: nat): nat {
    3 * largestBytes / GiB + 10
  }

  /** What `calculate_resources` returns. */
  function PlanResources(totalBytes: nat, largestBytes: nat): (a: Allocation)
    ensures a.vcpu in {1, 2, 4, 8}
    ensures a.memoryMiB <= MaxMemoryMiB && 30 <= a.storageGiB <= MaxStorageGiB
    ensures a.memoryMiB >= TierAllocation(FirstFittingTier(totalBytes, 0)).memoryMiB
    ensures a.memoryMiB >= Min(MemoryFloorMiB(largestBytes), MaxMemoryMiB)
    ensures a.storageGiB >= Min(StorageFloorGiB(largestBytes), MaxStorageGiB)
  {
    var tier := TierAllocation(FirstFittingTier(totalBytes, 0));
    Allocation(
      tier.vcpu,
      Min(Max(tier.memoryMiB, MemoryFloorMiB(largestBytes)), MaxMemoryMiB),
      Min(Max(tier.storageGiB, StorageFloorGiB(largestBytes)), MaxStorageGiB))
  }

  /** `calculate_resources`: the tier loop with its `break`, then floors, then caps. */
  method CalculateResources(totalBytes: nat, largestBytes: nat) returns (a: Allocation)
    ensures a == PlanResources(totalBytes, largestBytes)
  {
    var tier := BeyondLastTier;
    for i := 0 to |ResourceTiers|
      invariant forall j :: 0 <= j < i ==> totalBytes > ResourceTiers[j].maxTotalGiB * GiB
      invariant tier == BeyondLastTier
    {
      if totalBytes <= ResourceTiers[i].maxTotalGiB * GiB {
        tier := ResourceTiers[i].allocation;
        assert FirstFittingTier(totalBytes, 0) == i;
        break;
      }
    }
    var memory := Max(tier.memoryMiB, MemoryFloorMiB(largestBytes));
    var storage := Max(tier.storageGiB, StorageFloorGiB(largestBytes));
    memory := Min(memory, MaxMemoryMiB);
    storage := Min(storage, MaxStorageGiB);
    a := Allocation(tier.vcpu, memory, storage);
  }

  /** A larger batch never lands in an earlier tier. */
  lemma {:induction false} FirstFittingTierMonotone(t1: nat, t2: nat, from: nat)
    requires t1 <= t2 && from <= |ResourceTiers|
    ensures FirstFittingTier(t1, from) <= FirstFittingTier(t2, from)
    decreases |ResourceTiers| - from
  {
    if from < |ResourceTiers| && t1 > ResourceTiers[from].maxTotalGiB * GiB {
      FirstFittingTierMonotone(t1, t2, from + 1);
    }
  }

  /** Later tiers never offer less of anything. */
  lemma TierAllocationMonotone(i: nat, j: nat)
    requires i <= j
    ensures TierAllocation(i).vcpu <= TierAllocation(j).vcpu
    ensures TierAllocation(i).memoryMiB <= TierAllocation(j).memoryMiB
    ensures TierAllocation(i).storageGiB <= TierAllocation(j).storageGiB
  {
  }

  /** For a fixed largest file, every resource is non-decreasing in the batch total. */
  lemma PlanMonotoneInTotal(t1: nat, t2: nat, largestBytes: nat)
    requires t1 <= t2
    ensures PlanResources(t1, largestBytes).vcpu <= PlanResources(t2, largestBytes).vcpu
    ensures PlanResources(t1, largestBytes).memoryMiB <= PlanResources(t2, largestBytes).memoryMiB
    ensures PlanResources(t1, largestBytes).storageGiB <= PlanResources(t2, largestBytes).storageGiB
  {
    FirstFittingTierMonotone(t1, t2, 0);
    TierAllocationMonotone(FirstFittingTier(t1, 0), FirstFittingTier(t2, 0));
  }

  /** For a fixed total, memory and storage are non-decreasing in the largest file. */
  lemma PlanMonotoneInLargest(totalBytes: nat, l1: nat, l2: nat)
    requires l1 <= l2
    ensures PlanResources(totalBytes, l1).vcpu == PlanResources(totalBytes, l2).vcpu
    ensures PlanResources(totalBytes, l1).memoryMiB <= PlanResources(totalBytes, l2).memoryMiB
    ensures PlanResources(totalBytes, l1).storageGiB <= PlanResources(totalBytes, l2).storageGiB
  {
    assert l1 / MiBPerHalfGiB <= l2 / MiBPerHalfGiB;
    assert 3 * l1 / GiB <= 3 * l2 / GiB;
  }

  // ---------------------------------------------------------------------
  // Fargate vCPU / memory combinations
  // ---------------------------------------------------------------------

  /** `sorted(FARGATE_VALID_COMBOS.keys())`, in quarter-vCPU units (0.25 is 1). */
  const FargateVcpuQuarters: seq<int> := [1, 2, 4, 8, 16, 32, 64]

  /** Python's `list(range(lo, hi, step))` for a positive step. */
  function Range(lo: int, hi: int, step: nat): (r: seq<int>)
    requires step > 0
    ensures |r| == if lo < hi then (hi - lo + step - 1) / step else 0
    ensures forall i :: 0 <= i < |r| ==> r[i] == lo + i * step && r[i] < hi
    ensures forall i :: 0 <= i < |r| - 1 ==> r[i + 1] == r[i] + step
    ensures lo < hi ==> |r| > 0 && r[|r| - 1] + step >= hi
  {
    var n := if lo < hi then (hi - lo + step - 1) / step else 0;
    RangeCount(lo, hi, step);
    StepsBelow(lo, hi, step, n);
    Steps(lo, n, step)
  }

  /** `n` values from `lo`, `step` apart. */
  function Steps(lo: int, n: nat, step: nat): (r: seq<int>)
    ensures |r| == n
    ensures forall i :: 0 <= i < n ==> r[i] == lo + i * step
    ensures forall i :: 0 <= i < n - 1 ==> r[i + 1] == r[i] + step
  {
    var r := seq(n, i => lo + i * step);
    assert forall i :: 0 <= i < n - 1 ==> r[i + 1] == r[i] + step by {
      forall i | 0 <= i < n - 1 ensures r[i + 1] == r[i] + step {
        assert (i + 1) * step == i * step + step;
      }
    }
    r
  }

  /** Every one of `n` steps stays below `hi` when the last one does. */
  lemma StepsBelow(lo: int, hi: int, step: nat, n: nat)
    requires n == 0 || lo + (n - 1) * step < hi
    ensures forall i :: 0 <= i < n ==> Steps(lo, n, step)[i] < hi
  {
    forall i | 0 <= i < n ensures Steps(lo, n, step)[i] < hi {
      MulMonotone(i, n - 1, step);
    }
  }

  /** `ceil((hi - lo) / step)` steps of `step` reach `hi` from `lo`, one fewer do not. */
  lemma RangeCount(lo: int, hi: int, step: nat)
    requires step > 0
    ensures var n := if lo < hi then (hi - lo + step - 1) / step else 0;
      lo < hi ==> n >= 1 && lo + (n - 1) * step < hi && lo + (n - 1) * step + step >= hi
  {
    if lo < hi {
      var d := hi - lo;
      var n := (d + step - 1) / step;
      var m := (d + step - 1) % step;
      assert n * step + m == d + step - 1 && 0 <= m < step;
      assert (n - 1) * step == n * step - step;
    }
  }

  lemma MulMonotone(a: int, b: int, c: nat)
    requires a <= b
    ensures a * c <= b * c
  {
  }


  /** `FARGATE_VALID_COMBOS[v]` for `v` given in quarter-vCPU units. */
  function MemoryOptions(vcpuQuarters: int): (options: seq<int>)
    ensures vcpuQuarters in FargateVcpuQuarters ==> |options| > 0
  {
    if vcpuQuarters == 1 then [512, 1024, 2048]
    else if vcpuQuarters == 2 then [1024, 2048, 3072, 4096]
    else if vcpuQuarters == 4 then [2048, 3072, 4096, 5120, 6144, 7168, 8192]
    else if vcpuQuarters == 8 then
      [4096, 5120, 6144, 7168, 8192, 9216, 10240, 11264, 12288, 13312, 14336, 15360, 16384]
    else if vcpuQuarters == 16 then Range(8192, 30721, 1024)
    else if vcpuQuarters == 32 then Range(16384, 61441, 4096)
    else if vcpuQuarters == 64 then Range(32768, 122881, 8192)
    else []
  }

  predicate StrictlyIncreasing(xs: seq<int>) {
    forall i, j | 0 <= i < j < |xs| :: xs[i] < xs[j]
  }

  lemma {:induction false} IncreasingBetween(xs: seq<int>, i: nat, j: nat)
    requires forall k | 0 <= k < |xs| - 1 :: xs[k] < xs[k + 1]
    requires i < j < |xs|
    ensures xs[i] < xs[j]
    decreases j - i
  {
    if i + 1 < j {
      IncreasingBetween(xs, i, j - 1);
    }
  }

  lemma AdjacentIncreasing(xs: seq<int>)
    requires forall k | 0 <= k < |xs| - 1 :: xs[k] < xs[k + 1]
    ensures StrictlyIncreasing(xs)
  {
    forall i, j | 0 <= i < j < |xs| ensures xs[i] < xs[j] {
      IncreasingBetween(xs, i, j);
    }
  }

  lemma RangeIncreasing(lo: int, hi: int, step: nat)
    requires step > 0
    ensures StrictlyIncreasing(Range(lo, hi, step))
  {
    AdjacentIncreasing(Range(lo, hi, step));
  }

  lemma ListedOptionsIncreasing(xs: seq<int>)
    requires xs in [MemoryOptions(1), MemoryOptions(2), MemoryOptions(4), MemoryOptions(8)]
    ensures |xs| > 0 && StrictlyIncreasing(xs)
  {
    assert forall k | 0 <= k < |xs| - 1 :: xs[k] < xs[k + 1];
    AdjacentIncreasing(xs);
  }

  /** Each list of options is non-empty and strictly increasing. */
  lemma MemoryOptionsShape(q: int)
    requires q in FargateVcpuQuarters
    ensures |MemoryOptions(q)| > 0 && StrictlyIncreasing(MemoryOptions(q))
  {
    if q == 16 {
      RangeIncreasing(8192, 30721, 1024);
    } else if q == 32 {
      RangeIncreasing(16384, 61441, 4096);
    } else if q == 64 {
      RangeIncreasing(32768, 122881, 8192);
    } else {
      ListedOptionsIncreasing(MemoryOptions(q));
    }
  }

  /** Index of the first element of `xs` at or after `from` that is at least `x`. */
  function FirstAtLeast(xs: seq<int>, x: int, from: nat): (r: Option<nat>)
    requires from <= |xs|
    ensures r.Some? ==> from <= r.value < |xs| && xs[r.value] >= x
    ensures r.Some? ==> forall j :: from <= j < r.value ==> xs[j] < x
    ensures r.None? ==> forall j :: from <= j < |xs| ==> xs[j] < x
    decreases |xs| - from
  {
    if from == |xs| then None
    else if xs[from] >= x then Some(from)
    else FirstAtLeast(xs, x, from + 1)
  }

  /** The `for ... break / else` pick: the first option at least `x`, else the last option. */
  function SnapUp(xs: seq<int>, x: int): int
    requires |xs| > 0
  {
    match FirstAtLeast(xs, x, 0)
    case Some(i) => xs[i]
    case None => xs[|xs| - 1]
  }

  /**
    On a sorted list of options the pick is the least option that is at least
    `x`; when there is none it is the largest option, which is then below `x`.
  */
  lemma SnapUpIsLeastUpperOption(xs: seq<int>, x: int)
    requires |xs| > 0 && StrictlyIncreasing(xs)
    ensures SnapUp(xs, x) in xs
    ensures (exists i :: 0 <= i < |xs| && xs[i] >= x) ==>
      SnapUp(xs, x) >= x && forall i :: 0 <= i < |xs| && xs[i] >= x ==> SnapUp(xs, x) <= xs[i]
    ensures (forall i :: 0 <= i < |xs| ==> xs[i] < x) ==>
      SnapUp(xs, x) < x && forall i :: 0 <= i < |xs| ==> xs[i] <= SnapUp(xs, x)
  {
    match FirstAtLeast(xs, x, 0)
    case Some(k) =>
      forall i | 0 <= i < |xs| && xs[i] >= x ensures xs[k] <= xs[i] {
        assert k <= i;
      }
    case None =>
  }

  function DigitChar(d: nat): char
    requires d < 10
  {
    "0123456789"[d]
  }

  /** `str(n)` for a natural number. */
  function NatToString(n: nat): string
    decreases n
  {
    if n < 10 then [DigitChar(n)] else NatToString(n / 10) + [DigitChar(n % 10)]
  }

  /** The vCPU string Batch is given: `str(0.25)`, `str(0.5)`, else `str(int(v))`. */
  function VcpuText(vcpuQuarters: int): string {
    if vcpuQuarters == 1 then "0.25"
    else if vcpuQuarters == 2 then "0.5"
    else if vcpuQuarters >= 4 then NatToString(vcpuQuarters / 4)
    else ""
  }

  /**
    The `for option in options: if option >= x: pick; break / else: pick the
    last` loop that `validate_fargate_resources` runs for the vCPU and then
    for the memory.
  */
  method PickAtLeast(options: seq<int>, x: int) returns (picked: int)
    requires |options| > 0
    ensures picked == SnapUp(options, x) && picked in options
  {
    picked := x;
    var broke := false;
    for i := 0 to |options|
      invariant forall j :: 0 <= j < i ==> options[j] < x
      invariant !broke
    {
      if options[i] >= x {
        picked := options[i];
        assert FirstAtLeast(options, x, 0) == Some(i);
        broke := true;
        break;
      }
    }
    if !broke {
      picked := options[|options| - 1];
    }
  }

  /**
    `validate_fargate_resources`: the least valid vCPU at least the request
    (16 when none is), then the least memory option of that vCPU at least
    the request (its largest option when none is).
  */
  method ValidateFargateResources(vcpuQuarters: int, memoryMiB: int)
    returns (selectedVcpu: int, vcpuText: string, selectedMemory: int)
    ensures selectedVcpu in FargateVcpuQuarters
    ensures selectedMemory in MemoryOptions(selectedVcpu)
    ensures selectedVcpu == SnapUp(FargateVcpuQuarters, vcpuQuarters)
    ensures selectedMemory == SnapUp(MemoryOptions(selectedVcpu), memoryMiB)
    ensures vcpuText == VcpuText(selectedVcpu)
  {
    selectedVcpu := PickAtLeast(FargateVcpuQuarters, vcpuQuarters);
    selectedMemory := PickAtLeast(MemoryOptions(selectedVcpu), memoryMiB);

    if selectedVcpu < 4 {
      vcpuText := if selectedVcpu == 1 then "0.25" else "0.5";
    } else {
      vcpuText := NatToString(selectedVcpu / 4);
    }
  }

  // ---------------------------------------------------------------------
  // Authentication
  // ---------------------------------------------------------------------

  /**
    `validate_api_key`: with no hash configured every request passes;
    otherwise the `x-api-key` header must be present, non-empty, and hash to
    the configured value. The hash function is a parameter.
  */
  predicate ApiKeyAccepted(configuredHash: string, headers: map<string, string>, sha256Hex: string -> string): (ok: bool)
    ensures configuredHash == "" ==> ok
    ensures configuredHash != "" && "x-api-key" !in headers ==> !ok
    ensures configuredHash != "" && "x-api-key" in headers && headers["x-api-key"] == "" ==> !ok
    ensures configuredHash != "" && "x-api-key" in headers && sha256Hex(headers["x-api-key"]) != configuredHash ==> !ok
    ensures "x-api-key" in headers && headers["x-api-key"] != "" && sha256Hex(headers["x-api-key"]) == configuredHash ==> ok
  {
    configuredHash == ""
    || ("x-api-key" in headers && headers["x-api-key"] != "" && sha256Hex(headers["x-api-key"]) == configuredHash)
  }

  // ---------------------------------------------------------------------
  // POST /submit-batch
  // ---------------------------------------------------------------------

  /**
    The parsed JSON body. Absent string fields read as "" (`input_prefix`,
    `output_prefix`) or "smallest" (`reference_strategy`); the others are
    optional. `vcpu` is given in quarter-vCPU units.
  */
  datatype SubmitBody = SubmitBody(
    inputBucket: Option<string>,
    inputPrefix: string,
    outputBucket: Option<string>,
    outputPrefix: string,
    referenceStrategy: string,
    referenceKey: Option<string>,
    vcpuQuarters: Option<int>,
    memoryMiB: Option<int>,
    storageGiB: Option<int>)

  /** The Lambda's environment. */
  datatype LambdaConfig = LambdaConfig(
    defaultInputBucket: string,
    defaultOutputBucket: string,
    jobQueue: string,
    jobDefinition: string,
    apiKeyHash: string)

  /** The `submit_job` request: job name, container environment and resources. */
  datatype JobSubmission = JobSubmission(
    jobName: string,
    jobQueue: string,
    jobDefinition: string,
    inputBucket: string,
    inputPrefix: string,
    outputBucket: string,
    outputPrefix: string,
    referenceKey: string,
    filesToRepair: seq<string>,
    vcpuText: string,
    memoryMiB: int,
    ephemeralStorageGiB: Option<int>)

  /** The 202 body, with sizes in bytes rather than rounded megabytes. */
  datatype JobSummary = JobSummary(
    jobId: string,
    batchJobId: string,
    inputBucket: string,
    inputPrefix: string,
    outputBucket: string,
    outputPrefix: string,
    referenceKey: string,
    referenceSizeBytes: nat,
    referenceStrategy: string,
    filesToRepair: seq<string>,
    fileCount: nat,
    totalSizeBytes: nat,
    largestFileBytes: nat,
    vcpuText: string,
    memoryMiB: int,
    storageGiB: int,
    autoScaled: bool)

  datatype ErrorKind =
    | InvalidJson
    | MissingInputPrefix
    | InvalidInputPath
    | InvalidOutputPath
    | ListingFailedAt(bucket: string, prefix: string)
    | NoVideoFiles
    | TooFewVideoFiles(found: nat)
    | SubmitFailed
    | Unauthorized
    | NotFound

  datatype Body =
    | ErrorBody(error: ErrorKind)
    | HealthBody(defaultInputBucket: string, defaultOutputBucket: string)
    | Submitted(summary: JobSummary)

  datatype Response = Response(status: int, body: Body)

  /** Python truthiness of an optional number: present and non-zero. */
  predicate Overridden(o: Option<int>) {
    o.Some? && o.value != 0
  }

  /** `override or default` */
  function OverrideOr(o: Option<int>, default: int): (r: int)
    ensures Overridden(o) ==> r == o.value
    ensures !Overridden(o) ==> r == default
  {
    if Overridden(o) then o.value else default
  }

  function InputBucketOf(cfg: LambdaConfig, b: SubmitBody): string {
    if Truthy(b.inputBucket) then b.inputBucket.value else cfg.defaultInputBucket
  }

  function OutputBucketOf(cfg: LambdaConfig, b: SubmitBody): string {
    if Truthy(b.outputBucket) then b.outputBucket.value else cfg.defaultOutputBucket
  }

  function InputPrefixOf(b: SubmitBody): string {
    Strip(b.inputPrefix, '/')
  }

  function OutputPrefixOf(b: SubmitBody): string {
    Strip(b.outputPrefix, '/')
  }

  /** `f"untrunc-{uuid.uuid4().hex[:12]}"`, the uuid's hex digits being a parameter. */
  function JobName(uuidHex: string): string {
    "untrunc-" + Take(uuidHex, 12)
  }

  /**
    The three request checks of lines 303-315, in order, with
    `validate_s3_path` as written (Python's `$`).
  */
  function RequestError(cfg: LambdaConfig, b: SubmitBody): (r: Option<ErrorKind>)
    ensures r.None? || r == Some(MissingInputPrefix) || r == Some(InvalidInputPath) || r == Some(InvalidOutputPath)
    ensures r == Some(MissingInputPrefix) <==> InputPrefixOf(b) == ""
    ensures r == Some(InvalidInputPath) <==>
      InputPrefixOf(b) != "" && !ValidS3PathAsWritten(InputBucketOf(cfg, b), InputPrefixOf(b))
    ensures r == Some(InvalidOutputPath) <==>
      (&& InputPrefixOf(b) != ""
       && ValidS3PathAsWritten(InputBucketOf(cfg, b), InputPrefixOf(b))
       && !ValidS3PathAsWritten(OutputBucketOf(cfg, b), if OutputPrefixOf(b) == "" then "x" else OutputPrefixOf(b)))
  {
    var prefix := InputPrefixOf(b);
    var outPrefix := OutputPrefixOf(b);
    if prefix == "" then Some(MissingInputPrefix)
    else if !ValidS3PathAsWritten(InputBucketOf(cfg, b), prefix) then Some(InvalidInputPath)
    else if !ValidS3PathAsWritten(OutputBucketOf(cfg, b), if outPrefix == "" then "x" else outPrefix) then Some(InvalidOutputPath)
    else None
  }

  /** `s` without one final newline, if it has one. */
  function DropFinalNewline(s: string): (r: string)
    ensures |s| > 0 && s[|s| - 1] == '\n' ==> s == r + "\n"
    ensures !(|s| > 0 && s[|s| - 1] == '\n') ==> r == s
  {
    if |s| > 0 && s[|s| - 1] == '\n' then s[..|s| - 1] else s
  }

  /** What `re.match` with `$` lets through: the pattern's syntax, up to one final newline. */
  lemma MatchedUpToNewline(s: string, isBucket: bool)
    requires isBucket ==> MatchesUpToFinalNewline(s, BucketSyntax)
    requires !isBucket ==> MatchesUpToFinalNewline(s, KeySyntax)
    ensures isBucket ==> BucketSyntax(DropFinalNewline(s))
    ensures !isBucket ==> KeySyntax(DropFinalNewline(s))
  {
    if |s| > 0 && s[|s| - 1] == '\n' {
      assert !BucketSyntax(s) && !KeySyntax(s) by {
        assert !IsLowerAlnum(s[|s| - 1]) && !IsKeyChar(s[|s| - 1]);
      }
    }
  }

  /**
    A request that passes the three checks names a non-empty input prefix
    without `..`; the input bucket, the input prefix, the output bucket and
    any output prefix follow their patterns once one final newline is
    dropped (the newline itself passes, as the source's `$` allows).
  */
  lemma RequestErrorNoneMeansSafe(cfg: LambdaConfig, b: SubmitBody)
    requires RequestError(cfg, b).None?
    ensures InputPrefixOf(b) != "" && !Contains(InputPrefixOf(b), "..")
    ensures BucketSyntax(DropFinalNewline(InputBucketOf(cfg, b)))
    ensures KeySyntax(DropFinalNewline(InputPrefixOf(b)))
    ensures BucketSyntax(DropFinalNewline(OutputBucketOf(cfg, b)))
    ensures OutputPrefixOf(b) == "" || KeySyntax(DropFinalNewline(OutputPrefixOf(b)))
  {
    MatchedUpToNewline(InputBucketOf(cfg, b), true);
    MatchedUpToNewline(InputPrefixOf(b), false);
    MatchedUpToNewline(OutputBucketOf(cfg, b), true);
    if OutputPrefixOf(b) != "" {
      MatchedUpToNewline(OutputPrefixOf(b), false);
    }
  }

  /** A configuration and a request whose bucket ends in a newline. */
  const NewlineConfig := LambdaConfig("in-bucket", "out-bucket", "queue", "definition", "")
  const NewlineBody := SubmitBody(Some("abc\n"), "cam1", None, "", "smallest", None, None, None, None)

  /** The fields the handler reads from that request. */
  lemma NewlineRequestFields()
    ensures InputPrefixOf(NewlineBody) == "cam1" && OutputPrefixOf(NewlineBody) == ""
    ensures InputBucketOf(NewlineConfig, NewlineBody) == "abc\n"
    ensures OutputBucketOf(NewlineConfig, NewlineBody) == "out-bucket"
  {
    assert LStrip("cam1", '/') == "cam1";
    assert RStrip("cam1", '/') == "cam1";
  }

  /** The configured output bucket passes the check the handler makes on it. */
  lemma OutputBucketPasses()
    ensures ValidS3PathAsWritten("out-bucket", "x")
  {
    assert BucketSyntax("out-bucket");
    assert KeySyntax("x");
    MissingFirstCharNotContained("x", "..");
  }

  /**
    The handler's checks let a bucket with a trailing newline through to the
    S3 listing, although the anchored check would refuse it.
  */
  lemma HandlerAcceptsTrailingNewline()
    ensures RequestError(NewlineConfig, NewlineBody).None?
    ensures InputBucketOf(NewlineConfig, NewlineBody) == "abc\n"
    ensures !ValidS3Path(InputBucketOf(NewlineConfig, NewlineBody), InputPrefixOf(NewlineBody))
  {
    NewlineRequestFields();
    OutputBucketPasses();
    TrailingNewlineAccepted();
  }

  /** A video key is at least as long as its extension, so it is never empty. */
  lemma VideoKeyNotEmpty(key: string)
    requires IsVideoFile(key)
    ensures |key| >= 4
  {
    IsVideoFileByLastFour(key);
  }

  /** The automatic sizing of a batch: the reference plus every file to repair. */
  function AutoPlan(videos: seq<StoredObject>, referenceKey: string): Allocation
    requires KeyListed(videos, referenceKey)
  {
    var repair := Without(videos, referenceKey);
    var referenceSize := SizeOfKey(videos, referenceKey);
    PlanResources(TotalSize(repair) + referenceSize, Max(LargestSize(repair), referenceSize))
  }

  /** The storage requested: the override or the automatic value, capped at 200 GiB. */
  function RequestedStorage(b: SubmitBody, plan: Allocation): (storage: int)
    ensures storage <= MaxStorageGiB
  {
    Min(OverrideOr(b.storageGiB, plan.storageGiB), MaxStorageGiB)
  }

  /** The Fargate vCPU the job asks for, in quarter units. */
  function RequestedVcpu(b: SubmitBody, plan: Allocation): (vcpu: int)
    ensures vcpu in FargateVcpuQuarters
  {
    SnapUp(FargateVcpuQuarters, OverrideOr(b.vcpuQuarters, 4 * plan.vcpu))
  }

  /**
    What the handler hands to Batch for a listing with at least two video
    files: the selected reference, every other listed file, and a valid
    Fargate vCPU/memory pair derived from the sizes or the overrides.
  */
  ghost predicate SubmissionFor(cfg: LambdaConfig, b: SubmitBody, videos: seq<StoredObject>, uuidHex: string, s: JobSubmission) {
    && |videos| >= 2
    && Some(s.referenceKey) == SelectReferenceFile(videos, b.referenceStrategy, b.referenceKey)
    && KeyListed(videos, s.referenceKey)
    && s.filesToRepair == KeysOf(Without(videos, s.referenceKey))
    && s.referenceKey !in s.filesToRepair
    && (DistinctKeys(videos) ==> |s.filesToRepair| == |videos| - 1)
    && s.jobName == JobName(uuidHex) && s.jobQueue == cfg.jobQueue && s.jobDefinition == cfg.jobDefinition
    && s.inputBucket == InputBucketOf(cfg, b) && s.inputPrefix == InputPrefixOf(b)
    && s.outputBucket == OutputBucketOf(cfg, b)
    && s.outputPrefix == (if OutputPrefixOf(b) == "" then InputPrefixOf(b) else OutputPrefixOf(b))
    && var plan := AutoPlan(videos, s.referenceKey);
    && var vcpu := RequestedVcpu(b, plan);
    && vcpu in FargateVcpuQuarters
    && s.vcpuText == VcpuText(vcpu)
    && s.memoryMiB == SnapUp(MemoryOptions(vcpu), OverrideOr(b.memoryMiB, plan.memoryMiB))
    && s.memoryMiB in MemoryOptions(vcpu)
    && var storage := RequestedStorage(b, plan);
    && (s.ephemeralStorageGiB.Some? <==> storage > 20)
    && (s.ephemeralStorageGiB.Some? ==> s.ephemeralStorageGiB.value == storage)
  }

  /**
    Lines 334-348 of `handle_submit_batch`: the reference and the files to
    repair. The `if not reference_key` check cannot fire: the list is not
    empty and every listed key ends with a video extension.
  */
  method ChooseReference(b: SubmitBody, videoFiles: seq<StoredObject>)
    returns (referenceKey: string, filesToRepair: seq<StoredObject>)
    requires |videoFiles| >= 2
    requires forall i :: 0 <= i < |videoFiles| ==> IsVideoFile(videoFiles[i].key)
    ensures Some(referenceKey) == SelectReferenceFile(videoFiles, b.referenceStrategy, b.referenceKey)
    ensures KeyListed(videoFiles, referenceKey) && referenceKey != ""
    ensures filesToRepair == Without(videoFiles, referenceKey)
    ensures referenceKey !in KeysOf(filesToRepair)
    ensures DistinctKeys(videoFiles) ==> |filesToRepair| == |videoFiles| - 1
  {
    var reference := SelectReferenceFile(videoFiles, b.referenceStrategy, b.referenceKey);
    referenceKey := reference.value;
    assert referenceKey != "" by {
      var i :| 0 <= i < |videoFiles| && videoFiles[i].key == referenceKey;
      VideoKeyNotEmpty(videoFiles[i].key);
    }

    filesToRepair := Without(videoFiles, referenceKey);
    var repairKeys := KeysOf(filesToRepair);
    assert referenceKey !in repairKeys by {
      forall i | 0 <= i < |repairKeys| ensures repairKeys[i] != referenceKey {
        assert repairKeys[i] == filesToRepair[i].key;
      }
    }
    if DistinctKeys(videoFiles) {
      WithoutListedKey(videoFiles, referenceKey);
    }
  }

  /**
    Lines 350-378 of `handle_submit_batch`: the sizes, the automatic
    allocation, the overrides, and the snap to a valid Fargate pair.
  */
  method SizeJob(b: SubmitBody, videoFiles: seq<StoredObject>, referenceKey: string)
    returns (selectedVcpu: int, vcpuText: string, memory: int, storage: int,
             referenceSize: nat, totalSize: nat, largestFileSize: nat)
    requires KeyListed(videoFiles, referenceKey)
    ensures referenceSize == SizeOfKey(videoFiles, referenceKey)
    ensures totalSize == TotalSize(Without(videoFiles, referenceKey))
    ensures largestFileSize == LargestSize(Without(videoFiles, referenceKey))
    ensures selectedVcpu == RequestedVcpu(b, AutoPlan(videoFiles, referenceKey))
    ensures vcpuText == VcpuText(selectedVcpu)
    ensures memory == SnapUp(MemoryOptions(selectedVcpu), OverrideOr(b.memoryMiB, AutoPlan(videoFiles, referenceKey).memoryMiB))
    ensures memory in MemoryOptions(selectedVcpu)
    ensures storage == RequestedStorage(b, AutoPlan(videoFiles, referenceKey))
  {
    var filesToRepair := Without(videoFiles, referenceKey);
    totalSize := TotalSize(filesToRepair);
    referenceSize := SizeOfKey(videoFiles, referenceKey);
    largestFileSize := LargestSize(filesToRepair);

    var auto := CalculateResources(totalSize + referenceSize, Max(largestFileSize, referenceSize));

    var vcpu := OverrideOr(b.vcpuQuarters, 4 * auto.vcpu);
    var requestedMemory := OverrideOr(b.memoryMiB, auto.memoryMiB);
    storage := OverrideOr(b.storageGiB, auto.storageGiB);

    selectedVcpu, vcpuText, memory := ValidateFargateResources(vcpu, requestedMemory);

    storage := Min(storage, MaxStorageGiB);
  }

  /**
    Lines 334-412 of `handle_submit_batch`: reference, files to repair,
    sizes, resources and the Batch request, for a listing that passed the
    count checks.
  */
  method PrepareJob(cfg: LambdaConfig, b: SubmitBody, videoFiles: seq<StoredObject>, uuidHex: string)
    returns (submission: JobSubmission, referenceSize: nat, totalSize: nat, largestFileSize: nat, storage: int)
    requires |videoFiles| >= 2
    requires forall i :: 0 <= i < |videoFiles| ==> IsVideoFile(videoFiles[i].key)
    ensures SubmissionFor(cfg, b, videoFiles, uuidHex, submission)
    ensures Some(submission.referenceKey) == SelectReferenceFile(videoFiles, b.referenceStrategy, b.referenceKey)
    ensures submission.filesToRepair == KeysOf(Without(videoFiles, submission.referenceKey))
    ensures referenceSize == SizeOfKey(videoFiles, submission.referenceKey)
    ensures totalSize == TotalSize(Without(videoFiles, submission.referenceKey))
    ensures largestFileSize == LargestSize(Without(videoFiles, submission.referenceKey))
    ensures storage == RequestedStorage(b, AutoPlan(videoFiles, submission.referenceKey))
  {
    var referenceKey, filesToRepair := ChooseReference(b, videoFiles);
    var selectedVcpu, vcpuText, memory;
    selectedVcpu, vcpuText, memory, storage, referenceSize, totalSize, largestFileSize :=
      SizeJob(b, videoFiles, referenceKey);

    var inputPrefix := InputPrefixOf(b);
    var outputPrefix := OutputPrefixOf(b);
    if outputPrefix == "" {
      outputPrefix := inputPrefix;
    }

    submission := JobSubmission(
      JobName(uuidHex), cfg.jobQueue, cfg.jobDefinition,
      InputBucketOf(cfg, b), inputPrefix, OutputBucketOf(cfg, b), outputPrefix,
      referenceKey, KeysOf(filesToRepair), vcpuText, memory, None);
    if storage > 20 {
      submission := submission.(ephemeralStorageGiB := Some(storage));
    }
  }

  /**
    The 202 body of lines 426-446 for submission `s` and Batch job id
    `batchJobId`: the paths of the request, the reference and its size, the
    strategy asked for, the files, their total and largest size, and the
    resources sent.
  */
  ghost predicate SummaryFor(cfg: LambdaConfig, b: SubmitBody, videos: seq<StoredObject>,
                             s: JobSubmission, batchJobId: string, sum: JobSummary) {
    && KeyListed(videos, s.referenceKey)
    && sum.jobId == s.jobName && sum.batchJobId == batchJobId
    && sum.inputBucket == InputBucketOf(cfg, b) && sum.inputPrefix == InputPrefixOf(b)
    && sum.outputBucket == OutputBucketOf(cfg, b) && sum.outputPrefix == s.outputPrefix
    && sum.referenceKey == s.referenceKey
    && sum.referenceSizeBytes == SizeOfKey(videos, s.referenceKey)
    && sum.referenceStrategy == b.referenceStrategy
    && sum.filesToRepair == s.filesToRepair && sum.fileCount == |s.filesToRepair|
    && sum.totalSizeBytes == TotalSize(Without(videos, s.referenceKey))
    && sum.largestFileBytes == LargestSize(Without(videos, s.referenceKey))
    && sum.vcpuText == s.vcpuText && sum.memoryMiB == s.memoryMiB
    && sum.storageGiB == RequestedStorage(b, AutoPlan(videos, s.referenceKey))
    && sum.autoScaled == !(Overridden(b.vcpuQuarters) || Overridden(b.memoryMiB) || Overridden(b.storageGiB))
  }

  /**
    What `handle_submit_batch` answers, check by check in the order it makes
    them: the JSON parse, the request checks, the listing, the number of
    video files, then the Batch submission and its 202 summary. `sent` is
    the request handed to Batch, if one was.
  */
  ghost predicate SubmitOutcome(
    cfg: LambdaConfig, body: Option<SubmitBody>, listObjects: (string, string) -> Listing,
    uuidHex: string, submitJob: JobSubmission -> Option<string>, resp: Response, sent: Option<JobSubmission>)
  {
    if body.None? then resp == Response(400, ErrorBody(InvalidJson)) && sent.None?
    else
      var b := body.value;
      var err := RequestError(cfg, b);
      if err.Some? then resp == Response(400, ErrorBody(err.value)) && sent.None?
      else
        var bucket := InputBucketOf(cfg, b);
        var prefix := InputPrefixOf(b);
        match listObjects(bucket, prefix)
        case ListingFailed =>
          resp == Response(500, ErrorBody(ListingFailedAt(bucket, prefix))) && sent.None?
        case Listed(objects) =>
          var videos := VideoFilesOf(objects);
          if |videos| == 0 then resp == Response(400, ErrorBody(NoVideoFiles)) && sent.None?
          else if |videos| == 1 then resp == Response(400, ErrorBody(TooFewVideoFiles(1))) && sent.None?
          else
            && sent.Some?
            && SubmissionFor(cfg, b, videos, uuidHex, sent.value)
            && match submitJob(sent.value)
               case None => resp == Response(500, ErrorBody(SubmitFailed))
               case Some(batchJobId) =>
                 && resp.status == 202 && resp.body.Submitted?
                 && SummaryFor(cfg, b, videos, sent.value, batchJobId, resp.body.summary)
  }

  /**
    Only a request that passed every check reaches Batch; the handler
    answers 202, 400 or 500; a 202 reports a storage within the Fargate
    maximum and above the default exactly when it asked Batch for it.
  */
  lemma SubmitOutcomeFacts(
    cfg: LambdaConfig, body: Option<SubmitBody>, listObjects: (string, string) -> Listing,
    uuidHex: string, submitJob: JobSubmission -> Option<string>, resp: Response, sent: Option<JobSubmission>)
    requires SubmitOutcome(cfg, body, listObjects, uuidHex, submitJob, resp, sent)
    ensures resp.status in {202, 400, 500}
    ensures sent.Some? ==>
      && body.Some? && RequestError(cfg, body.value).None?
      && listObjects(InputBucketOf(cfg, body.value), InputPrefixOf(body.value)).Listed?
      && |VideoFilesOf(listObjects(InputBucketOf(cfg, body.value), InputPrefixOf(body.value)).objects)| >= 2
    ensures resp.status == 202 ==>
      && sent.Some? && submitJob(sent.value).Some? && resp.body.Submitted?
      && resp.body.summary.storageGiB <= MaxStorageGiB
      && (resp.body.summary.storageGiB > 20 <==> sent.value.ephemeralStorageGiB.Some?)
      && resp.body.summary.fileCount == |resp.body.summary.filesToRepair|
  {
  }

  /**
    `handle_submit_batch`. `body` is None when the body is not valid JSON;
    `listObjects` is the S3 listing (ListingFailed when it raises), `uuidHex`
    the fresh uuid and `submitJob` AWS Batch (None when it raises). `sent` is
    the job request handed to Batch, if one was.
  */
  method HandleSubmitBatch(
    cfg: LambdaConfig, body: Option<SubmitBody>, listObjects: (string, string) -> Listing,
    uuidHex: string, submitJob: JobSubmission -> Option<string>)
    returns (resp: Response, sent: Option<JobSubmission>)
    ensures SubmitOutcome(cfg, body, listObjects, uuidHex, submitJob, resp, sent)
  {
    sent := None;
    if body.None? {
      resp := Response(400, ErrorBody(InvalidJson));
      return;
    }
    var b := body.value;

    var inputBucket := InputBucketOf(cfg, b);
    var inputPrefix := InputPrefixOf(b);
    var outputBucket := OutputBucketOf(cfg, b);

    // The prefix and path checks, in order (RequestError).
    var requestError := RequestError(cfg, b);
    if requestError.Some? {
      resp := Response(400, ErrorBody(requestError.value));
      return;
    }

    var listing := listObjects(inputBucket, inputPrefix);
    if listing.ListingFailed? {
      resp := Response(500, ErrorBody(ListingFailedAt(inputBucket, inputPrefix)));
      return;
    }
    var videoFiles := VideoFilesOf(listing.objects);
    if |videoFiles| == 0 {
      resp := Response(400, ErrorBody(NoVideoFiles));
      return;
    }
    if |videoFiles| < 2 {
      resp := Response(400, ErrorBody(TooFewVideoFiles(|videoFiles|)));
      return;
    }

    var submission, referenceSize, totalSize, largestFileSize, storage := PrepareJob(cfg, b, videoFiles, uuidHex);
    sent := Some(submission);

    var batchJobId := submitJob(submission);
    if batchJobId.None? {
      resp := Response(500, ErrorBody(SubmitFailed));
      return;
    }

    var summary := JobSummary(
      submission.jobName, batchJobId.value, inputBucket, inputPrefix, outputBucket, submission.outputPrefix,
      submission.referenceKey, referenceSize, b.referenceStrategy, submission.filesToRepair,
      |submission.filesToRepair|, totalSize, largestFileSize, submission.vcpuText, submission.memoryMiB, storage,
      !(Overridden(b.vcpuQuarters) || Overridden(b.memoryMiB) || Overridden(b.storageGiB)));
    resp := Response(202, Submitted(summary));
  }

  /**
    The snap to a valid Fargate pair can undo the memory floor: a batch of
    4.5 GiB whose largest file is 4.5 GiB sits in the first tier (1 vCPU)
    with a floor of 9216 MiB, but one vCPU allows at most 8192 MiB, so the
    job is submitted with less than twice its largest file.
  */
  lemma SnapCanUndoMemoryFloor()
    ensures var largest := 4831838208;
      var plan := PlanResources(largest, largest);
      && plan.vcpu == 1 && plan.memoryMiB == MemoryFloorMiB(largest) == 9216
      && SnapUp(FargateVcpuQuarters, 4 * plan.vcpu) == 4
      && SnapUp(MemoryOptions(4), plan.memoryMiB) == 8192 < MemoryFloorMiB(largest)
  {
    var largest := 4831838208;
    assert FirstFittingTier(largest, 0) == 0;
    assert FirstAtLeast(FargateVcpuQuarters, 4, 0) == Some(2) by {
      assert FirstAtLeast(FargateVcpuQuarters, 4, 2) == Some(2);
    }
    assert FirstAtLeast(MemoryOptions(4), 9216, 0).None?;
  }

  // ---------------------------------------------------------------------
  // Routing
  // ---------------------------------------------------------------------

  /** The parts of the API Gateway event the handler reads. */
  datatype Event = Event(
    routeKey: string,
    httpMethod: string,
    path: string,
    headers: map<string, string>,
    body: Option<SubmitBody>)

  predicate IsHealthRoute(e: Event) {
    e.routeKey == "GET /health" || (e.httpMethod == "GET" && Contains(e.path, "/health"))
  }

  predicate IsSubmitRoute(e: Event) {
    e.routeKey == "POST /submit-batch" || (e.httpMethod == "POST" && Contains(e.path, "/submit-batch"))
  }

  /**
    `lambda_handler`: health needs no key; every other route is refused with
    401 unless the key is accepted; then submit-batch, else 404.
  */
  method LambdaHandler(
    cfg: LambdaConfig, e: Event, sha256Hex: string -> string, listObjects: (string, string) -> Listing,
    uuidHex: string, submitJob: JobSubmission -> Option<string>)
    returns (resp: Response, sent: Option<JobSubmission>)
    ensures IsHealthRoute(e) ==>
      resp == Response(200, HealthBody(cfg.defaultInputBucket, cfg.defaultOutputBucket)) && sent.None?
    ensures !IsHealthRoute(e) && !ApiKeyAccepted(cfg.apiKeyHash, e.headers, sha256Hex) ==>
      resp == Response(401, ErrorBody(Unauthorized)) && sent.None?
    ensures !IsHealthRoute(e) && ApiKeyAccepted(cfg.apiKeyHash, e.headers, sha256Hex) && !IsSubmitRoute(e) ==>
      resp == Response(404, ErrorBody(NotFound)) && sent.None?
    ensures sent.Some? ==>
      !IsHealthRoute(e) && ApiKeyAccepted(cfg.apiKeyHash, e.headers, sha256Hex) && IsSubmitRoute(e) && e.body.Some?
    ensures !IsHealthRoute(e) && ApiKeyAccepted(cfg.apiKeyHash, e.headers, sha256Hex) && IsSubmitRoute(e) ==>
      SubmitOutcome(cfg, e.body, listObjects, uuidHex, submitJob, resp, sent)
    ensures resp.status in {200, 202, 400, 401, 404, 500}
  {
    if IsHealthRoute(e) {
      resp := Response(200, HealthBody(cfg.defaultInputBucket, cfg.defaultOutputBucket));
      sent := None;
      return;
    }
    if !ApiKeyAccepted(cfg.apiKeyHash, e.headers, sha256Hex) {
      resp := Response(401, ErrorBody(Unauthorized));
      sent := None;
      return;
    }
    if IsSubmitRoute(e) {
      resp, sent := HandleSubmitBatch(cfg, e.body, listObjects, uuidHex, submitJob);
      SubmitOutcomeFacts(cfg, e.body, listObjects, uuidHex, submitJob, resp, sent);
      return;
    }
    resp := Response(404, ErrorBody(NotFound));
    sent := None;
  }
}
