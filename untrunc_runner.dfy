/**
  The untrunc runner of the edge service: it locates the untrunc binary,
  builds its exec-style command line, runs it against a FileSystem, and
  accepts the result only when an output file of at least 1 KiB exists at
  the requested place. What the tool does while it runs is a parameter
  (ToolRun): whether it timed out, its exit code and stderr, and which of the
  two output files it wrote.
*/
module UntruncRunner {
  import opened Common
  import opened FileSystems

  /** Every way `run_untrunc` raises `UntruncRepairError`. */
  datatype RepairError =
    | InputMissing(input: Path)
    | ReferenceMissing(reference: Path)
    | BinaryNotFound
    | TimedOut(seconds: int)
    | ExitedWithError(code: int, stderrHead: string)
    | NoOutput(output: Path, autoOutput: Path)
    | OutputTooSmall(size: nat)

  /**
    One run of the untrunc process: whether it outlived the timeout, its exit
    code, its stripped stderr, and the sizes of the files it wrote at the
    `-dst` path and at the `<stem>_fixed<suffix>` path, if it wrote them.
  */
  datatype ToolRun = ToolRun(
    timedOut: bool,
    exitCode: int,
    stderr: string,
    dstWrite: Option<nat>,
    fixedWrite: Option<nat>)

  /** Outputs smaller than this are treated as a failed repair. */
  const MinOutputBytes: nat := 1024

  /** Characters of stderr kept in the error message. */
  const StderrHeadChars: nat := 200

  const CommonBinaryPaths: seq<Path> := [
    ["usr", "local", "bin", "untrunc"],
    ["usr", "bin", "untrunc"],
    ["app", "bin", "untrunc"]
  ]

  /** The first of the common locations at or after `from` that exists. */
  function FirstInstalled(entries: map<Path, FileMeta>, from: nat): (r: Option<string>)
    requires from <= |CommonBinaryPaths|
    ensures r.None? ==> forall j :: from <= j < |CommonBinaryPaths| ==> CommonBinaryPaths[j] !in entries
    ensures r.Some? ==>
      exists i :: from <= i < |CommonBinaryPaths| && CommonBinaryPaths[i] in entries
        && r.value == PathString(CommonBinaryPaths[i])
        && forall j :: from <= j < i ==> CommonBinaryPaths[j] !in entries
    decreases |CommonBinaryPaths| - from
  {
    if from == |CommonBinaryPaths| then None
    else if CommonBinaryPaths[from] in entries then Some(PathString(CommonBinaryPaths[from]))
    else FirstInstalled(entries, from + 1)
  }

  /**
    Which binary `find_untrunc_binary` reports: what `shutil.which` found
    (`onPath`) when it found something, else the first of the common
    locations that exists, else none.
  */
  function BinaryLookup(entries: map<Path, FileMeta>, onPath: Option<string>): (binary: Option<string>)
    ensures Truthy(onPath) ==> binary == onPath
    ensures !Truthy(onPath) ==>
      (binary.Some? <==> exists i :: 0 <= i < |CommonBinaryPaths| && CommonBinaryPaths[i] in entries)
    ensures !Truthy(onPath) && binary.Some? ==>
      exists i :: 0 <= i < |CommonBinaryPaths| && CommonBinaryPaths[i] in entries
        && binary.value == PathString(CommonBinaryPaths[i])
        && forall j :: 0 <= j < i ==> CommonBinaryPaths[j] !in entries
  {
    if Truthy(onPath) then onPath else FirstInstalled(entries, 0)
  }

  /** `find_untrunc_binary`: the `which` answer, else a loop over the common locations. */
  method FindUntruncBinary(fs: FileSystem, onPath: Option<string>) returns (binary: Option<string>)
    ensures binary == BinaryLookup(fs.entries, onPath)
  {
    if Truthy(onPath) {
      return onPath;
    }
    for i := 0 to |CommonBinaryPaths|
      invariant FirstInstalled(fs.entries, i) == FirstInstalled(fs.entries, 0)
    {
      if CommonBinaryPaths[i] in fs.entries {
        return Some(PathString(CommonBinaryPaths[i]));
      }
    }
    return None;
  }

  /**
    The argument vector: flags first, then the reference, then the corrupted
    input; every path travels as one argument, so no shell ever parses it.
  */
  function UntruncCommand(binary: string, output: Path, reference: Path, input: Path): (cmd: seq<string>)
    ensures |cmd| == 7 && cmd[0] == binary
    ensures cmd[1..4] == ["-n", "-s", "-dst"]
    ensures cmd[4] == PathString(output) && cmd[5] == PathString(reference) && cmd[6] == PathString(input)
  {
    [binary, "-n", "-s", "-dst", PathString(output), PathString(reference), PathString(input)]
  }

  /** The files after the tool's own writes, at `-dst` and then at the `_fixed` path. */
  function AfterTool(entries: map<Path, FileMeta>, input: Path, output: Path, tool: ToolRun, now: int): (r: map<Path, FileMeta>)
    ensures AgreeOutside(entries, r, {output, FixedPath(input)})
    ensures tool.dstWrite.None? && tool.fixedWrite.None? ==> r == entries
  {
    var afterDst := if tool.dstWrite.Some? then entries[output := FileMeta(tool.dstWrite.value, now)] else entries;
    if tool.fixedWrite.Some? then afterDst[FixedPath(input) := FileMeta(tool.fixedWrite.value, now)] else afterDst
  }

  /** The files after line 164-169: the `_fixed` file is moved to the output when only it exists. */
  function Collected(entries: map<Path, FileMeta>, input: Path, output: Path): (r: map<Path, FileMeta>)
    ensures output in entries ==> r == entries
    ensures output !in entries && FixedPath(input) in entries ==>
      output in r && r[output] == entries[FixedPath(input)] && FixedPath(input) !in r
    ensures output in entries || FixedPath(input) in entries ==> output in r
  {
    if output !in entries && FixedPath(input) in entries
    then (entries - {FixedPath(input)})[output := entries[FixedPath(input)]]
    else entries
  }

  /**
    The files and the error once the tool has been launched (lines 127-181):
    its writes stay whatever happens; a timeout, a non-zero exit, or no
    output at either place is an error; an output that exists (after moving
    the `_fixed` file into place) is kept when it has at least 1 KiB and
    removed otherwise.
  */
  ghost predicate LaunchOutcome(
    before: map<Path, FileMeta>, after: map<Path, FileMeta>, input: Path, output: Path,
    seconds: int, tool: ToolRun, now: int, err: Option<RepairError>)
  {
    var written := AfterTool(before, input, output, tool, now);
    var collected := Collected(written, input, output);
    && (tool.timedOut ==> err == Some(TimedOut(seconds)) && after == written)
    && (!tool.timedOut && tool.exitCode != 0 ==>
          err == Some(ExitedWithError(tool.exitCode, Take(tool.stderr, StderrHeadChars))) && after == written)
    && (!tool.timedOut && tool.exitCode == 0 && output !in written && FixedPath(input) !in written ==>
          err == Some(NoOutput(output, FixedPath(input))) && after == written)
    && (!tool.timedOut && tool.exitCode == 0 && output in collected ==>
          (collected[output].size < MinOutputBytes ==>
             err == Some(OutputTooSmall(collected[output].size)) && after == collected - {output})
          && (collected[output].size >= MinOutputBytes ==> err.None? && after == collected))
  }

  /**
    `run_untrunc`. `timeout` None means `defaultTimeout` (the configured
    value); `onPath` is what `shutil.which` finds; `now` stamps the files the
    tool writes. `cmd` is the command launched, if one was.
  */
  method RunUntrunc(
    fs: FileSystem, input: Path, output: Path, reference: Path,
    timeout: Option<int>, defaultTimeout: int, onPath: Option<string>, tool: ToolRun, now: int)
    returns (err: Option<RepairError>, cmd: Option<seq<string>>)
    modifies fs
    // The checks before launch
    ensures input !in old(fs.entries) ==>
      err == Some(InputMissing(input)) && cmd.None? && fs.entries == old(fs.entries)
    ensures input in old(fs.entries) && reference !in old(fs.entries) ==>
      err == Some(ReferenceMissing(reference)) && cmd.None? && fs.entries == old(fs.entries)
    ensures cmd.None? ==> err.Some? && fs.entries == old(fs.entries)
    ensures cmd.Some? ==> input in old(fs.entries) && reference in old(fs.entries)
    ensures input in old(fs.entries) && reference in old(fs.entries) && cmd.None? ==> err == Some(BinaryNotFound)
    // After launch
    ensures input in old(fs.entries) && reference in old(fs.entries) ==>
      (cmd.Some? <==> BinaryLookup(old(fs.entries), onPath).Some?)
    ensures cmd.Some? ==>
      && BinaryLookup(old(fs.entries), onPath).Some?
      && cmd.value == UntruncCommand(BinaryLookup(old(fs.entries), onPath).value, output, reference, input)
      && LaunchOutcome(old(fs.entries), fs.entries, input, output, if timeout.Some? then timeout.value else defaultTimeout, tool, now, err)
    // What a caller may rely on
    ensures err.None? ==> output in fs.entries && fs.entries[output].size >= MinOutputBytes
    ensures err.None? ==> cmd.Some? && !tool.timedOut && tool.exitCode == 0
    ensures err.Some? && err.value.OutputTooSmall? ==> output !in fs.entries
    ensures AgreeOutside(old(fs.entries), fs.entries, {output, FixedPath(input)})
  {
    cmd := None;
    var seconds := if timeout.Some? then timeout.value else defaultTimeout;

    if input !in fs.entries {
      return Some(InputMissing(input)), None;
    }
    if reference !in fs.entries {
      return Some(ReferenceMissing(reference)), None;
    }

    var binary := FindUntruncBinary(fs, onPath);
    if binary.None? {
      return Some(BinaryNotFound), None;
    }
    cmd := Some(UntruncCommand(binary.value, output, reference, input));

    err := RunLaunched(fs, input, output, seconds, tool, now);
  }

  /**
    Lines 127-181 of `run_untrunc`, once the command is launched: the tool's
    writes, then the timeout, exit-code and output checks.
  */
  method RunLaunched(fs: FileSystem, input: Path, output: Path, seconds: int, tool: ToolRun, now: int)
    returns (err: Option<RepairError>)
    modifies fs
    ensures LaunchOutcome(old(fs.entries), fs.entries, input, output, seconds, tool, now, err)
    ensures err.None? ==> output in fs.entries && fs.entries[output].size >= MinOutputBytes
    ensures err.None? ==> !tool.timedOut && tool.exitCode == 0
    ensures err.Some? && err.value.OutputTooSmall? ==> output !in fs.entries
    ensures AgreeOutside(old(fs.entries), fs.entries, {output, FixedPath(input)})
  {
    // The process runs; whatever it writes stays, whatever happens next.
    if tool.dstWrite.Some? {
      fs.Write(output, tool.dstWrite.value, now);
    }
    if tool.fixedWrite.Some? {
      fs.Write(FixedPath(input), tool.fixedWrite.value, now);
    }
    assert fs.entries == AfterTool(old(fs.entries), input, output, tool, now);

    if tool.timedOut {
      return Some(TimedOut(seconds));
    }
    if tool.exitCode != 0 {
      return Some(ExitedWithError(tool.exitCode, Take(tool.stderr, StderrHeadChars)));
    }

    if output !in fs.entries {
      var autoOutput := FixedPath(input);
      if autoOutput in fs.entries {
        var moved := fs.Rename(autoOutput, output, false);
      } else {
        return Some(NoOutput(output, autoOutput));
      }
    }

    var outputSize := fs.entries[output].size;
    if outputSize < MinOutputBytes {
      fs.Unlink(output);
      return Some(OutputTooSmall(outputSize));
    }
    err := None;
  }

  /**
    The corrupted input survives a run whenever it is not itself the output
    path: the tool's fallback name is never the input's own name.
  */
  lemma InputSurvives(before: map<Path, FileMeta>, after: map<Path, FileMeta>, input: Path, output: Path)
    requires input in before && input != output
    requires AgreeOutside(before, after, {output, FixedPath(input)})
    ensures input in after && after[input] == before[input]
  {
    FixedPathIsSibling(input);
  }

  /**
    When the reference is the input's own `_fixed` sibling and the tool exits
    cleanly without writing anything, the output check of lines 164-169
    takes the reference for the tool's output and moves it into place: the
    reference leaves its folder and the run counts as a repair.
  */
  lemma ReferenceTakenForOutput(
    before: map<Path, FileMeta>, after: map<Path, FileMeta>, input: Path, output: Path, reference: Path,
    seconds: int, tool: ToolRun, now: int, err: Option<RepairError>)
    requires reference == FixedPath(input) && reference in before && before[reference].size >= MinOutputBytes
    requires output !in before && output != reference
    requires tool == ToolRun(false, 0, "", None, None)
    requires LaunchOutcome(before, after, input, output, seconds, tool, now, err)
    ensures err.None?
    ensures reference !in after && output in after && after[output] == before[reference]
  {
  }
}
