/** The module state of the driver and its entry points: the bridge flag,
    whether the scratch ramdisk exists, the parameter cache, the memoised
    r14 size, and the log of everything performed on files, tools and the
    device. The file contents the driver reads are parameters. */
module KernelNanoBench {
  import opened Wrappers
  import opened Effects
  import opened PyStr
  import opened Params
  import opened Assemble
  import opened Payload
  import opened Report
  import opened Adb
  import opened R14

  /** The shell command that creates and mounts the scratch ramdisk. */
  const MountCommand := "mkdir -p /tmp/ramdisk; sudo mount -t tmpfs -o size=100M none /tmp/ramdisk/"

  /** The shell command that lazily unmounts it. */
  const UnmountCommand := "umount -l /tmp/ramdisk/"

  /** A command run with `shell=True`, that is by `/bin/sh -c`: the whole
      text is one argument, which the shell splits. */
  function ShellCommand(command: string): (e: IoEvent)
    ensures e.Run? && |e.argv| == 3 && e.argv[2] == command
  {
    Run(["/bin/sh", "-c", command])
  }

  const ResetFile := "/sys/nb/reset"
  const ResultProcFile := "/proc/nanoBench"

  class NanoBench {
    /** `USING_ADB`: run on an Android device through the debug bridge. */
    var usingAdb: bool
    var ramdiskCreated: bool
    /** `paramDict`: the last value passed for each option. */
    var paramDict: map<Param, Value>
    /** The `r14Size` attribute `getR14Size` memoises into. */
    var r14Size: Option<int>
    /** Every action performed so far, oldest first. */
    var log: seq<IoEvent>

    predicate Valid()
      reads this
    {
      && WellTyped(paramDict)
      && (r14Size.Some? ==> r14Size.value % MiB == 0)
    }

    /** The state right after the module is loaded. */
    constructor ()
      ensures Valid()
      ensures !usingAdb && !ramdiskCreated && paramDict == map[] && r14Size == None && log == []
    {
      usingAdb := false;
      ramdiskCreated := false;
      paramDict := map[];
      r14Size := None;
      log := [];
    }

    // ---------------------------------------------------------- file helpers

    method WriteFile(fileName: string, content: string)
      modifies this
      ensures usingAdb == old(usingAdb) && ramdiskCreated == old(ramdiskCreated)
      ensures paramDict == old(paramDict) && r14Size == old(r14Size)
      ensures log == old(log) + [Write(fileName, content)]
    {
      log := log + [Write(fileName, content)];
    }

    method ReadFile(fileName: string)
      modifies this
      ensures usingAdb == old(usingAdb) && ramdiskCreated == old(ramdiskCreated)
      ensures paramDict == old(paramDict) && r14Size == old(r14Size)
      ensures log == old(log) + [Read(fileName)]
    {
      log := log + [Read(fileName)];
    }

    /** Runs a tool; a tool that fails ends the program, which the model
        leaves out. */
    method Execute(argv: seq<string>)
      modifies this
      ensures usingAdb == old(usingAdb) && ramdiskCreated == old(ramdiskCreated)
      ensures paramDict == old(paramDict) && r14Size == old(r14Size)
      ensures log == old(log) + [Run(argv)]
    {
      log := log + [Run(argv)];
    }

    method CreateRamdisk()
      modifies this
      ensures ramdiskCreated
      ensures usingAdb == old(usingAdb) && paramDict == old(paramDict) && r14Size == old(r14Size)
      ensures log == old(log) + [ShellCommand(MountCommand)]
    {
      log := log + [ShellCommand(MountCommand)];
      ramdiskCreated := true;
    }

    /** The exit hook: unmount the ramdisk if this process created it. */
    method DeleteRamdisk()
      modifies this
      ensures usingAdb == old(usingAdb) && ramdiskCreated == old(ramdiskCreated)
      ensures paramDict == old(paramDict) && r14Size == old(r14Size)
      ensures log == old(log) + if ramdiskCreated then [ShellCommand(UnmountCommand)] else []
    {
      if ramdiskCreated {
        log := log + [ShellCommand(UnmountCommand)];
      }
    }

    // ---------------------------------------------------------- parameters

    /** The blocks still to run, `todo`, take the cache and the log to
        where the whole call must leave them. */
    ghost predicate OnTrack(todo: seq<Update>, goal: Outcome, log0: seq<IoEvent>)
      reads this
    {
      var rest := ApplyAll(paramDict, todo, usingAdb);
      rest.cache == goal.cache && log0 + goal.writes == log + rest.writes
    }

    /** The blocks `from` to `k - 1` of `us` have run, in order, from the
        cache `cache0` and the log `log1`. */
    ghost predicate Ran(us: seq<Update>, from: nat, k: nat, cache0: map<Param, Value>, log1: seq<IoEvent>)
      requires from <= k <= |us|
      reads this
    {
      var done := ApplyAll(cache0, us[from..k], usingAdb);
      paramDict == done.cache && log == log1 + done.writes
    }

    /** The block of a configuration text: stage a changed text in
        `staging` and hand the kernel that path, or else the caller's own
        `file`. Block `k` of `us`. */
    method SetBlob(p: Param, value: Option<Value>, file: Option<string>, staging: string,
                   ghost us: seq<Update>, ghost k: nat, ghost goal: Outcome, ghost log0: seq<IoEvent>,
                   ghost from: nat, ghost cache0: map<Param, Value>, ghost log1: seq<IoEvent>)
      requires k < |us| && us[k] == Blob(p, value, file, staging) && OnTrack(us[k..], goal, log0)
      requires from <= k && Ran(us, from, k, cache0, log1)
      modifies this
      ensures OnTrack(us[k + 1..], goal, log0)
      ensures Ran(us, from, k + 1, cache0, log1)
      ensures usingAdb == old(usingAdb) && ramdiskCreated == old(ramdiskCreated) && r14Size == old(r14Size)
      ensures paramDict == Apply(old(paramDict), us[k], usingAdb).cache
      ensures log == old(log) + Apply(old(paramDict), us[k], usingAdb).writes
    {
      ghost var before, logBefore := paramDict, log;
      var target := file;
      if value.Some? {
        if Lookup(paramDict, p) != value {
          target := Some(staging);
          WriteFile(staging, Render(value.value));
          paramDict := paramDict[p := value.value];
        }
      }
      if target.Some? && !usingAdb {
        WriteFile(SysFile(p), target.value);
      }
      Advance(before, logBefore, us, k, goal, log0);
      Extend(before, logBefore, us, from, k, cache0, log1);
    }

    /** The block of a plain option: write a changed value to its control
        file and cache it. Block `k` of `us`. */
    method SetScalar(p: Param, value: Option<Value>,
                     ghost us: seq<Update>, ghost k: nat, ghost goal: Outcome, ghost log0: seq<IoEvent>,
                     ghost from: nat, ghost cache0: map<Param, Value>, ghost log1: seq<IoEvent>)
      requires k < |us| && us[k] == Scalar(p, value) && OnTrack(us[k..], goal, log0)
      requires from <= k && Ran(us, from, k, cache0, log1)
      modifies this
      ensures OnTrack(us[k + 1..], goal, log0)
      ensures Ran(us, from, k + 1, cache0, log1)
      ensures usingAdb == old(usingAdb) && ramdiskCreated == old(ramdiskCreated) && r14Size == old(r14Size)
      ensures paramDict == Apply(old(paramDict), us[k], usingAdb).cache
      ensures log == old(log) + Apply(old(paramDict), us[k], usingAdb).writes
    {
      ghost var before, logBefore := paramDict, log;
      if value.Some? {
        if Lookup(paramDict, p) != value {
          if !usingAdb {
            WriteFile(SysFile(p), Render(value.value));
          }
          paramDict := paramDict[p := value.value];
        }
      }
      Advance(before, logBefore, us, k, goal, log0);
      Extend(before, logBefore, us, from, k, cache0, log1);
    }

    /** Block `k` has run from `cache0` and `log1`: the remaining blocks are
        the ones after it. */
    lemma Advance(cache0: map<Param, Value>, log1: seq<IoEvent>, us: seq<Update>, k: nat, goal: Outcome, log0: seq<IoEvent>)
      requires k < |us|
      requires var rest := ApplyAll(cache0, us[k..], usingAdb);
        rest.cache == goal.cache && log0 + goal.writes == log1 + rest.writes
      requires paramDict == Apply(cache0, us[k], usingAdb).cache
      requires log == log1 + Apply(cache0, us[k], usingAdb).writes
      ensures OnTrack(us[k + 1..], goal, log0)
    {
      var first := Apply(cache0, us[k], usingAdb);
      assert us[k..][0] == us[k];
      assert us[k..][1..] == us[k + 1..];
      var rest := ApplyAll(first.cache, us[k + 1..], usingAdb);
      assert ApplyAll(cache0, us[k..], usingAdb) == Outcome(rest.cache, first.writes + rest.writes);
      Regroup(log1, first.writes, rest.writes, []);
    }

    /** Block `k` has run from `before` and `logBefore`, which the blocks
        `from` to `k - 1` left: the blocks `from` to `k` have run. */
    lemma Extend(before: map<Param, Value>, logBefore: seq<IoEvent>, us: seq<Update>, from: nat, k: nat,
                 cache0: map<Param, Value>, log1: seq<IoEvent>)
      requires from <= k < |us|
      requires var done := ApplyAll(cache0, us[from..k], usingAdb);
        before == done.cache && logBefore == log1 + done.writes
      requires paramDict == Apply(before, us[k], usingAdb).cache
      requires log == logBefore + Apply(before, us[k], usingAdb).writes
      ensures Ran(us, from, k + 1, cache0, log1)
    {
      ApplyAllExtend(cache0, us, from, k, usingAdb);
      var done, step := ApplyAll(cache0, us[from..k], usingAdb), Apply(before, us[k], usingAdb);
      Regroup(log1, done.writes, step.writes, []);
    }

    /** `setNanoBenchParameters(**a)`: record the bridge flag, create the
        ramdisk if needed, then run the thirteen option blocks in order. */
    method SetNanoBenchParameters(a: SetArgs)
      requires Valid()
      modifies this
      ensures Valid()
      ensures usingAdb == a.usingAdb && ramdiskCreated && r14Size == old(r14Size)
      ensures paramDict == SetOutcome(old(paramDict), a).cache
      ensures log == old(log) + (if old(ramdiskCreated) then [] else [ShellCommand(MountCommand)])
                    + SetOutcome(old(paramDict), a).writes
    {
      usingAdb := a.usingAdb;
      if !ramdiskCreated {
        CreateRamdisk();
      } else {
        assert log == old(log) + [];
      }
      SetBlocks(a);
      SetKeepsWellTyped(old(paramDict), a);
    }

    /** The thirteen option blocks in order: the cache and the log end where
        the fold over the blocks takes them. */
    method SetBlocks(a: SetArgs)
      requires usingAdb == a.usingAdb
      modifies this
      ensures usingAdb == old(usingAdb) && ramdiskCreated == old(ramdiskCreated) && r14Size == old(r14Size)
      ensures var goal := ApplyAll(old(paramDict), Updates(a), usingAdb);
        paramDict == goal.cache && log == old(log) + goal.writes
    {
      ghost var us := Updates(a);
      ghost var goal := ApplyAll(paramDict, us, usingAdb);
      ghost var log0 := log;
      assert us[0..] == us;
      SetConfigs(a, us, goal, log0);
      SetCounts(a, us, goal, log0);
      SetWarmUps(a, us, goal, log0);
      SetModes(a, us, goal, log0);
      assert us[13..] == [];
    }

    // ---------------------------------------------------------- device bridge

    static lemma AppendFour<X>(s: seq<X>, a: X, b: X, c: X, d: X)
      ensures s + [a] + [b] + [c] + [d] == s + [a, b, c, d]
    {
    }

    static lemma Regroup<X>(s: seq<X>, a: seq<X>, b: seq<X>, c: seq<X>)
      ensures s + a + b == s + (a + b)
      ensures s + a + b + c == s + (a + b + c)
    {
    }

    method AdbPush(local: string, remote: string)
      modifies this
      ensures usingAdb == old(usingAdb) && ramdiskCreated == old(ramdiskCreated)
      ensures paramDict == old(paramDict) && r14Size == old(r14Size)
      ensures log == old(log) + [Push(local, remote)]
    {
      log := log + [Push(local, remote)];
    }

    method AdbPull(remote: string, local: string)
      modifies this
      ensures usingAdb == old(usingAdb) && ramdiskCreated == old(ramdiskCreated)
      ensures paramDict == old(paramDict) && r14Size == old(r14Size)
      ensures log == old(log) + [Pull(remote, local)]
    {
      log := log + [Pull(remote, local)];
    }

    /** `adbExec(cmd)`: `subprocess` starts `adb shell` only when every item
        of `cmd` is a string; otherwise it raises a `TypeError`, which the
        handler for a failed command does not catch, and nothing runs. */
    method AdbExec(cmd: seq<Value>) returns (err: Option<Error>)
      modifies this
      ensures usingAdb == old(usingAdb) && ramdiskCreated == old(ramdiskCreated)
      ensures paramDict == old(paramDict) && r14Size == old(r14Size)
      ensures err.None? <==> AllStr(cmd)
      ensures err.Some? ==> err.value == ArgvTypeError && log == old(log)
      ensures err.None? ==> log == old(log) + [Shell(Argv(cmd).value)]
    {
      var argv := Argv(cmd);
      if argv.None? {
        return Some(ArgvTypeError);
      }
      log := log + [Shell(argv.value)];
      return None;
    }

    /** `paramDict[key]` for one option the command line reads, with the
        problems of the options before it already ruled out: the lookup
        fails exactly when the option is the first with a problem. */
    method ReadOption(p: Param, ghost rest: seq<Param>) returns (v: Result<Value, Error>)
      requires FirstProblem(paramDict, QueryParams) == FirstProblem(paramDict, [p] + rest)
      ensures v.Err? <==> p !in paramDict
      ensures v.Ok? ==> v.value == paramDict[p]
      ensures v.Err? ==> FirstProblem(paramDict, QueryParams) == Some(v.error)
      ensures v.Ok? && p != AggregateFunction ==> FirstProblem(paramDict, QueryParams) == FirstProblem(paramDict, rest)
    {
      FirstProblemCons(paramDict, p, rest);
      if p !in paramDict {
        return Err(KeyError(Key(p)));
      }
      return Ok(paramDict[p]);
    }

    /** `adbRunNanoBench()`: push the payload, the configuration and the
        benchmark binary, build the command line from the cache, run it on
        the device, pull the result file, clean the device directory and
        return the result file's text, `resultText`. The cached integers and
        booleans go onto the command line as they are, so with a cache
        `setNanoBenchParameters` filled the run raises a `TypeError` after
        the pushes (`Adb.TypedSessionFails`). */
    method AdbRunNanoBench(resultText: string) returns (result: Result<string, Error>)
      modifies this
      ensures usingAdb == old(usingAdb) && ramdiskCreated == old(ramdiskCreated)
      ensures paramDict == old(paramDict) && r14Size == old(r14Size)
      ensures log == old(log) + AdbSession(paramDict).events
      ensures result == if AdbSession(paramDict).error.Some? then Err(AdbSession(paramDict).error.value) else Ok(resultText)
    {
      ghost var log0 := log;
      PushPayload();
      if Config !in paramDict {
        return Err(KeyError(Key(Config)));
      }
      PushConfig();
      var query := Header;
      var built := BuildQuery(query);
      if built.Err? {
        Regroup(log0, PayloadPushes, ConfigPushes, []);
        return Err(built.error);
      }
      query := built.value;
      result := FetchResult(query, resultText);
      if result.Err? {
        Regroup(log0, PayloadPushes, ConfigPushes, []);
      } else {
        Regroup(log0, PayloadPushes, ConfigPushes, FetchEvents(Argv(query).value));
      }
    }

    /** The three payload binaries, whether or not they were produced. */
    method PushPayload()
      modifies this
      ensures usingAdb == old(usingAdb) && ramdiskCreated == old(ramdiskCreated)
      ensures paramDict == old(paramDict) && r14Size == old(r14Size)
      ensures log == old(log) + PayloadPushes
    {
      AdbPush(Ramdisk + "code.bin", RemoteDir);
      AdbPush(Ramdisk + "init.bin", RemoteDir);
      AdbPush(Ramdisk + "one_time_init.bin", RemoteDir);
    }

    /** The configuration, which is never `None` once cached, and the
        benchmark binary. */
    method PushConfig()
      requires Config in paramDict
      modifies this
      ensures usingAdb == old(usingAdb) && ramdiskCreated == old(ramdiskCreated)
      ensures paramDict == old(paramDict) && r14Size == old(r14Size)
      ensures log == old(log) + ConfigPushes
    {
      AdbPush(Ramdisk + "config", RemoteDir);
      AdbPush(Aarch64BinPath + "nb", RemoteDir);
    }

    /** Run the command line on the device, pull its result file, clean up
        and read the result; a command line holding anything but strings
        stops at the run. */
    method FetchResult(query: seq<Value>, resultText: string) returns (result: Result<string, Error>)
      modifies this
      ensures usingAdb == old(usingAdb) && ramdiskCreated == old(ramdiskCreated)
      ensures paramDict == old(paramDict) && r14Size == old(r14Size)
      ensures Argv(query).None? ==> result == Err(ArgvTypeError) && log == old(log)
      ensures Argv(query).Some? ==> result == Ok(resultText) && log == old(log) + FetchEvents(Argv(query).value)
    {
      ghost var log1 := log;
      var err := AdbExec(query);
      if err.Some? {
        return Err(err.value);
      }
      AdbPull(RemoteDir + "adbres", Ramdisk);
      CleanupArgv();
      var cleaned := AdbExec(CleanupCommand);
      ReadFile(ResultFile);
      AppendFour(log1, Shell(Argv(query).value), Pull(RemoteDir + "adbres", Ramdisk), Cleanup, Read(ResultFile));
      return Ok(resultText);
    }

    /** The command line, or the exception its first bad option raises. */
    method BuildQuery(header: seq<Value>) returns (result: Result<seq<Value>, Error>)
      requires header == Header
      ensures result == AdbQuery(paramDict)
    {
      var counts := AddCounts(header);
      if counts.Err? {
        return Err(counts.error);
      }
      var query := AddModes(counts.value);
      if query.Err? {
        return Err(query.error);
      }
      NoProblemReady(paramDict);
      CommandLineInSteps(paramDict);
      return Ok(query.value);
    }

    /** The six counts, each flag followed by its cached value. */
    method AddCounts(header: seq<Value>) returns (result: Result<seq<Value>, Error>)
      ensures result.Err? ==> FirstProblem(paramDict, QueryParams) == Some(result.error)
      ensures result.Ok? ==> FirstProblem(paramDict, QueryParams) == FirstProblem(paramDict, ModeParams)
      ensures result.Ok? ==>
        && NMeasurements in paramDict && UnrollCount in paramDict && LoopCount in paramDict
        && WarmUpCount in paramDict && InitialWarmUpCount in paramDict && AlignmentOffset in paramDict
        && result.value == header
          + [Str(Flag(NMeasurements)), paramDict[NMeasurements]]
          + [Str(Flag(UnrollCount)), paramDict[UnrollCount]]
          + [Str(Flag(LoopCount)), paramDict[LoopCount]]
          + [Str(Flag(WarmUpCount)), paramDict[WarmUpCount]]
          + [Str(Flag(InitialWarmUpCount)), paramDict[InitialWarmUpCount]]
          + [Str(Flag(AlignmentOffset)), paramDict[AlignmentOffset]]
    {
      var query := header;
      ghost var t5 := [AlignmentOffset] + ModeParams;
      ghost var t4 := [InitialWarmUpCount] + t5;
      ghost var t3 := [WarmUpCount] + t4;
      ghost var t2 := [LoopCount] + t3;
      ghost var t1 := [UnrollCount] + t2;
      assert [NMeasurements] + t1 == QueryParams;
      var v := ReadOption(NMeasurements, t1);
      if v.Err? { return Err(v.error); }
      query := query + [Str(Flag(NMeasurements)), v.value];
      v := ReadOption(UnrollCount, t2);
      if v.Err? { return Err(v.error); }
      query := query + [Str(Flag(UnrollCount)), v.value];
      v := ReadOption(LoopCount, t3);
      if v.Err? { return Err(v.error); }
      query := query + [Str(Flag(LoopCount)), v.value];
      v := ReadOption(WarmUpCount, t4);
      if v.Err? { return Err(v.error); }
      query := query + [Str(Flag(WarmUpCount)), v.value];
      v := ReadOption(InitialWarmUpCount, t5);
      if v.Err? { return Err(v.error); }
      query := query + [Str(Flag(InitialWarmUpCount)), v.value];
      v := ReadOption(AlignmentOffset, ModeParams);
      if v.Err? { return Err(v.error); }
      query := query + [Str(Flag(AlignmentOffset)), v.value];
      return Ok(query);
    }

    /** The aggregate function as a flag of its own, the two mode flags,
        the core pinned to 0 and the verbosity flag. */
    method AddModes(counts: seq<Value>) returns (result: Result<seq<Value>, Error>)
      requires FirstProblem(paramDict, QueryParams) == FirstProblem(paramDict, ModeParams)
      ensures result.Err? ==> FirstProblem(paramDict, QueryParams) == Some(result.error)
      ensures result.Ok? ==> FirstProblem(paramDict, QueryParams).None?
      ensures result.Ok? ==>
        && AggregateFunction in paramDict && paramDict[AggregateFunction].Str?
        && BasicMode in paramDict && NoMem in paramDict && Verbose in paramDict
        && result.value == counts
          + [Str("-" + paramDict[AggregateFunction].s)]
          + [Str(Flag(BasicMode)), paramDict[BasicMode]]
          + [Str(Flag(NoMem)), paramDict[NoMem]]
          + [Str("-cpu"), Str("0")]
          + [Str(Flag(Verbose)), paramDict[Verbose]]
    {
      var query := counts;
      ghost var t9 := [Verbose];
      ghost var t8 := [NoMem] + t9;
      ghost var t7 := [BasicMode] + t8;
      assert [AggregateFunction] + t7 == ModeParams;
      var v := ReadOption(AggregateFunction, t7);
      FirstProblemCons(paramDict, AggregateFunction, t7);
      if v.Err? { return Err(v.error); }
      if !v.value.Str? {
        return Err(TypeError("+"));
      }
      query := query + [Str("-" + v.value.s)];
      v := ReadOption(BasicMode, t8);
      if v.Err? { return Err(v.error); }
      query := query + [Str(Flag(BasicMode)), v.value];
      v := ReadOption(NoMem, t9);
      if v.Err? { return Err(v.error); }
      query := query + [Str(Flag(NoMem)), v.value];
      query := query + [Str("-cpu"), Str("0")];
      assert [Verbose] + [] == t9;
      v := ReadOption(Verbose, []);
      if v.Err? { return Err(v.error); }
      query := query + [Str(Flag(Verbose)), v.value];
      return Ok(query);
    }

    // ---------------------------------------------------------- parameters (blocks)

    /** The blocks of the two configuration texts. */
    method SetConfigs(a: SetArgs, ghost us: seq<Update>, ghost goal: Outcome, ghost log0: seq<IoEvent>)
      requires us == Updates(a) && OnTrack(us[0..], goal, log0)
      modifies this
      ensures OnTrack(us[2..], goal, log0)
      ensures usingAdb == old(usingAdb) && ramdiskCreated == old(ramdiskCreated) && r14Size == old(r14Size)
      ensures var block := ApplyAll(old(paramDict), us[..2], usingAdb);
        paramDict == block.cache && log == old(log) + block.writes
    {
      ghost var cache0, log1 := paramDict, log;
      UpdatesInOrder(a);
      assert us[0..0] == [];
      SetBlob(Config, StrArg(a.config), a.configFile, ConfigStaging, us, 0, goal, log0, 0, cache0, log1);
      SetBlob(MsrConfig, StrArg(a.msrConfig), a.msrConfigFile, MsrConfigStaging, us, 1, goal, log0, 0, cache0, log1);
      assert us[..2] == us[0..2];
    }

    /** The blocks of the measurement, unroll and loop counts. */
    method SetCounts(a: SetArgs, ghost us: seq<Update>, ghost goal: Outcome, ghost log0: seq<IoEvent>)
      requires us == Updates(a) && OnTrack(us[2..], goal, log0)
      modifies this
      ensures OnTrack(us[5..], goal, log0)
      ensures usingAdb == old(usingAdb) && ramdiskCreated == old(ramdiskCreated) && r14Size == old(r14Size)
      ensures var block := ApplyAll(old(paramDict), us[2..5], usingAdb);
        paramDict == block.cache && log == old(log) + block.writes
    {
      ghost var cache0, log1 := paramDict, log;
      UpdatesInOrder(a);
      assert us[2..2] == [];
      SetScalar(NMeasurements, IntArg(a.nMeasurements), us, 2, goal, log0, 2, cache0, log1);
      SetScalar(UnrollCount, IntArg(a.unrollCount), us, 3, goal, log0, 2, cache0, log1);
      SetScalar(LoopCount, IntArg(a.loopCount), us, 4, goal, log0, 2, cache0, log1);
    }

    /** The blocks of the two warm-up counts and the two offsets. */
    method SetWarmUps(a: SetArgs, ghost us: seq<Update>, ghost goal: Outcome, ghost log0: seq<IoEvent>)
      requires us == Updates(a) && OnTrack(us[5..], goal, log0)
      modifies this
      ensures OnTrack(us[9..], goal, log0)
      ensures usingAdb == old(usingAdb) && ramdiskCreated == old(ramdiskCreated) && r14Size == old(r14Size)
      ensures var block := ApplyAll(old(paramDict), us[5..9], usingAdb);
        paramDict == block.cache && log == old(log) + block.writes
    {
      ghost var cache0, log1 := paramDict, log;
      UpdatesInOrder(a);
      assert us[5..5] == [];
      SetScalar(WarmUpCount, IntArg(a.warmUpCount), us, 5, goal, log0, 5, cache0, log1);
      SetScalar(InitialWarmUpCount, IntArg(a.initialWarmUpCount), us, 6, goal, log0, 5, cache0, log1);
      SetScalar(AlignmentOffset, IntArg(a.alignmentOffset), us, 7, goal, log0, 5, cache0, log1);
      SetScalar(CodeOffset, IntArg(a.codeOffset), us, 8, goal, log0, 5, cache0, log1);
    }

    /** The blocks of the aggregate function and the three flags. */
    method SetModes(a: SetArgs, ghost us: seq<Update>, ghost goal: Outcome, ghost log0: seq<IoEvent>)
      requires us == Updates(a) && OnTrack(us[9..], goal, log0)
      modifies this
      ensures OnTrack(us[13..], goal, log0)
      ensures usingAdb == old(usingAdb) && ramdiskCreated == old(ramdiskCreated) && r14Size == old(r14Size)
      ensures var block := ApplyAll(old(paramDict), us[9..13], usingAdb);
        paramDict == block.cache && log == old(log) + block.writes
    {
      ghost var cache0, log1 := paramDict, log;
      UpdatesInOrder(a);
      assert us[9..9] == [];
      SetScalar(AggregateFunction, StrArg(a.aggregateFunction), us, 9, goal, log0, 9, cache0, log1);
      SetScalar(BasicMode, BoolArg(a.basicMode), us, 10, goal, log0, 9, cache0, log1);
      SetScalar(NoMem, BoolArg(a.noMem), us, 11, goal, log0, 9, cache0, log1);
      SetScalar(Verbose, BoolArg(a.verbose), us, 12, goal, log0, 9, cache0, log1);
    }

    /** The thirteen blocks as `setNanoBenchParameters` writes them out. */
    lemma UpdatesInOrder(a: SetArgs)
      ensures var us := Updates(a);
        && us[0] == Blob(Config, StrArg(a.config), a.configFile, ConfigStaging)
        && us[1] == Blob(MsrConfig, StrArg(a.msrConfig), a.msrConfigFile, MsrConfigStaging)
        && us[2] == Scalar(NMeasurements, IntArg(a.nMeasurements))
        && us[3] == Scalar(UnrollCount, IntArg(a.unrollCount))
        && us[4] == Scalar(LoopCount, IntArg(a.loopCount))
        && us[5] == Scalar(WarmUpCount, IntArg(a.warmUpCount))
        && us[6] == Scalar(InitialWarmUpCount, IntArg(a.initialWarmUpCount))
        && us[7] == Scalar(AlignmentOffset, IntArg(a.alignmentOffset))
        && us[8] == Scalar(CodeOffset, IntArg(a.codeOffset))
        && us[9] == Scalar(AggregateFunction, StrArg(a.aggregateFunction))
        && us[10] == Scalar(BasicMode, BoolArg(a.basicMode))
        && us[11] == Scalar(NoMem, BoolArg(a.noMem))
        && us[12] == Scalar(Verbose, BoolArg(a.verbose))
    {
      var us := Updates(a);
      var ss := ScalarUpdates(a);
      assert us[2..] == ss;
    }

    /** `resetNanoBench`: let the kernel reset its settings (outside bridge
        mode) and forget every cached option. */
    method ResetNanoBench()
      requires Valid()
      modifies this
      ensures Valid()
      ensures usingAdb == old(usingAdb) && ramdiskCreated == old(ramdiskCreated) && r14Size == old(r14Size)
      ensures paramDict == map[]
      ensures log == old(log) + if usingAdb then [] else [Read(ResetFile)]
    {
      if !usingAdb {
        ReadFile(ResetFile);
      }
      paramDict := map[];
    }

    // ---------------------------------------------------------- r14 size

    /** `getR14Size()`: the r14 buffer size in bytes, read from its control
        file, whose text is `fileText`, on the first call that succeeds and
        memoised from then on. A failed read memoises nothing. */
    method GetR14Size(fileText: string) returns (r: Result<int, Error>)
      requires Valid()
      modifies this
      ensures Valid()
      ensures usingAdb == old(usingAdb) && ramdiskCreated == old(ramdiskCreated) && paramDict == old(paramDict)
      ensures old(r14Size).Some? ==> r == Ok(old(r14Size).value) && r14Size == old(r14Size) && log == old(log)
      ensures old(r14Size).None? ==>
        && r == R14Size(fileText)
        && r14Size == (if r.Ok? then Some(r.value) else None)
        && log == old(log) + [Read(R14File)]
    {
      if r14Size.None? {
        r := ReadR14Size(fileText);
        if r.Ok? {
          Memoise(r.value);
        }
      } else {
        r := Ok(r14Size.value);
      }
    }

    /** Memoising a size read from the control file. */
    method Memoise(size: int)
      requires Valid() && size % MiB == 0
      modifies this
      ensures Valid()
      ensures usingAdb == old(usingAdb) && ramdiskCreated == old(ramdiskCreated) && paramDict == old(paramDict)
      ensures r14Size == Some(size) && log == old(log)
    {
      r14Size := Some(size);
    }

    /** The read of a first `getR14Size` call: open the control file, take
        its first line and the third word of that line as a number of MiB. */
    method ReadR14Size(fileText: string) returns (r: Result<int, Error>)
      modifies this
      ensures usingAdb == old(usingAdb) && ramdiskCreated == old(ramdiskCreated) && paramDict == old(paramDict)
      ensures r14Size == old(r14Size)
      ensures r == R14Size(fileText) && log == old(log) + [Read(R14File)]
    {
      ReadFile(R14File);
      var line := ReadLine(fileText);
      var words := Words(line);
      if |words| < 3 {
        return Err(IndexError);
      }
      var mb := ParseInt(words[2]);
      if mb.None? {
        return Err(ValueError(words[2]));
      }
      return Ok(mb.value * MiB);
    }

    // ---------------------------------------------------------- payload

    /** `assemble(code, objFile)`: wrap the snippet for the target, write
        it to the scratch assembler file and assemble that into `objFile`. */
    method Assemble(code: string, objFile: string)
      modifies this
      ensures usingAdb == old(usingAdb) && ramdiskCreated == old(ramdiskCreated)
      ensures paramDict == old(paramDict) && r14Size == old(r14Size)
      ensures log == old(log) + AssembleEvents(code, objFile, usingAdb)
    {
      if !usingAdb {
        var text := ".intel_syntax noprefix;" + code + ";1:;.att_syntax prefix\n";
        WriteFile(AsmFile, text);
        Execute(["as", AsmFile, "-o", objFile]);
      } else {
        var text := ".arch armv8-a\n" + code + ";1:;\n";
        WriteFile(AsmFile, text);
        Execute(["aarch64-linux-android-as", AsmFile, "-o", objFile]);
      }
    }

    /** `objcopy(sourceFile, targetFile)`: extract the raw binary. */
    method Objcopy(sourceFile: string, targetFile: string)
      modifies this
      ensures usingAdb == old(usingAdb) && ramdiskCreated == old(ramdiskCreated)
      ensures paramDict == old(paramDict) && r14Size == old(r14Size)
      ensures log == old(log) + [ObjcopyEvent(sourceFile, targetFile, usingAdb)]
    {
      if !usingAdb {
        Execute(["objcopy", sourceFile, "-O", "binary", targetFile]);
      } else {
        Execute(["aarch64-linux-android-objcopy", sourceFile, "-O", "binary", targetFile]);
      }
    }

    /** The three branches of one payload slot in `runNanoBench`: assemble
        a source, extract an object file, or hand over a binary file. */
    method LoadSlot(s: Slot, args: SlotArgs) returns (err: Option<Error>)
      modifies this
      ensures usingAdb == old(usingAdb) && ramdiskCreated == old(ramdiskCreated)
      ensures paramDict == old(paramDict) && r14Size == old(r14Size)
      ensures Stage(log, err) == Then(Stage(old(log), None), SlotEvents(s, args, usingAdb))
    {
      if args.source != "" || args.objFile.Some? {
        LoadObject(s, args);
      } else if args.binFile.Some? {
        err := LoadBinary(s, args.binFile.value);
        return;
      }
      return None;
    }

    /** The source and object-file branches of a payload slot: a source is
        assembled into the slot's object file, which then replaces the
        caller's; the object file is extracted into the slot's binary, whose
        path goes to the kernel outside bridge mode. */
    method LoadObject(s: Slot, args: SlotArgs)
      requires args.source != "" || args.objFile.Some?
      modifies this
      ensures usingAdb == old(usingAdb) && ramdiskCreated == old(ramdiskCreated)
      ensures paramDict == old(paramDict) && r14Size == old(r14Size)
      ensures log == old(log) + ObjectEvents(s, args, usingAdb)
    {
      ghost var log0 := log;
      ghost var asm := if args.source != "" then AssembleEvents(args.source, ObjPath(s), usingAdb) else [];
      var objFile := args.objFile;
      if args.source != "" {
        objFile := Some(ObjPath(s));
        Assemble(args.source, ObjPath(s));
      }
      Objcopy(objFile.value, BinPath(s));
      if !usingAdb {
        WriteFile(SlotSysFile(s), BinPath(s));
      }
      Regroup(log0, asm, [ObjcopyEvent(objFile.value, BinPath(s), usingAdb)],
        if usingAdb then [] else [Write(SlotSysFile(s), BinPath(s))]);
    }

    /** The binary-file branch of a payload slot: hand the path `bin` to the
        kernel, or in bridge mode write it into the slot's scratch file. */
    method LoadBinary(s: Slot, bin: string) returns (err: Option<Error>)
      modifies this
      ensures usingAdb == old(usingAdb) && ramdiskCreated == old(ramdiskCreated)
      ensures paramDict == old(paramDict) && r14Size == old(r14Size)
      ensures Stage(log, err) == Then(Stage(old(log), None), BinaryEvents(s, bin, usingAdb))
    {
      if !usingAdb {
        WriteFile(SlotSysFile(s), bin);
      } else {
        match s {
          case Code => WriteFile(Ramdisk + "code.bin", bin);
          case Init => WriteFile("tmp/ramdisk/init.bin", bin);
          case OneTimeInit => return Some(TypeError("writeFile"));
        }
      }
      return None;
    }

    /** One slot loaded after the actions `base` and the stage so far:
        the log grows exactly as the stage does. */
    method LoadSlotAfter(s: Slot, args: SlotArgs, ghost base: seq<IoEvent>, ghost stage: Stage) returns (err: Option<Error>)
      requires stage.error.None? && log == base + stage.events
      modifies this
      ensures usingAdb == old(usingAdb) && ramdiskCreated == old(ramdiskCreated)
      ensures paramDict == old(paramDict) && r14Size == old(r14Size)
      ensures var next := Then(stage, SlotEvents(s, args, usingAdb));
        log == base + next.events && err == next.error
    {
      ThenAfter(base, stage, SlotEvents(s, args, usingAdb));
      err := LoadSlot(s, args);
    }

    // ---------------------------------------------------------- run

    /** The slot stage of `runNanoBench`: clear the kernel's payloads
        (outside bridge mode), then load the code, init and one-time-init
        slots, stopping at the first exception. */
    method LoadSlots(req: RunArgs) returns (err: Option<Error>)
      modifies this
      ensures usingAdb == old(usingAdb) && ramdiskCreated == old(ramdiskCreated)
      ensures paramDict == old(paramDict) && r14Size == old(r14Size)
      ensures log == old(log) + SlotStage(req, usingAdb).events
      ensures err == SlotStage(req, usingAdb).error
    {
      ghost var base := log;
      if !usingAdb {
        ReadFile(ClearFile);
      }
      ghost var stage := Stage(if usingAdb then [] else [Read(ClearFile)], None);
      SlotStageSteps(req, usingAdb);
      err := LoadSlotAfter(Code, req.code, base, stage);
      stage := Then(stage, SlotEvents(Code, req.code, usingAdb));
      if err.Some? {
        return;
      }
      err := LoadSlotAfter(Init, req.init, base, stage);
      stage := Then(stage, SlotEvents(Init, req.init, usingAdb));
      if err.Some? {
        return;
      }
      err := LoadSlotAfter(OneTimeInit, req.oneTimeInit, base, stage);
    }

    /** `runNanoBench(**req)`: create the ramdisk if needed, run the slot
        stage, then read the kernel's result file, whose text is
        `procText`, and parse it into counters. In bridge mode the call
        into the device bridge passes the cache as an argument the bridge
        does not take, so it raises a `TypeError` before anything runs. */
    method RunNanoBench<F>(req: RunArgs, procText: string, parseFloat: string -> Option<F>)
      returns (result: Result<OrderedDict<F>, Error>)
      modifies this
      ensures usingAdb == old(usingAdb) && ramdiskCreated
      ensures paramDict == old(paramDict) && r14Size == old(r14Size)
      ensures var stage := SlotStage(req, usingAdb);
        var start := old(log) + (if old(ramdiskCreated) then [] else [ShellCommand(MountCommand)]) + stage.events;
        && (stage.error.Some? ==> result == Err(stage.error.value) && log == start)
        && (stage.error.None? && usingAdb ==> result == Err(TypeError("adbRunNanoBench")) && log == start)
        && (stage.error.None? && !usingAdb ==>
              result == Parse(Split(procText, '\n'), parseFloat) && log == start + [Read(ResultProcFile)])
    {
      ghost var mounted := log + (if ramdiskCreated then [] else [ShellCommand(MountCommand)]);
      if !ramdiskCreated {
        CreateRamdisk();
      }
      assert log == mounted;
      var err := LoadSlots(req);
      if err.Some? {
        return Err(err.value);
      }
      if usingAdb {
        return Err(TypeError("adbRunNanoBench"));
      }
      ReadFile(ResultProcFile);
      var output := Split(procText, '\n');
      result := ParseCounters(output, parseFloat);
    }
  }
}
