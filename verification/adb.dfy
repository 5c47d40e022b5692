/** `adbRunNanoBench`: the files pushed to the device, the command line
    run there and the clean-up, all read from the parameter cache. */
module Adb {
  import opened Wrappers
  import opened Effects
  import opened Params
  import opened Payload

  /** The cached options the command line reads, in the order it reads them. */
  const QueryParams: seq<Param> :=
    [ NMeasurements, UnrollCount, LoopCount, WarmUpCount, InitialWarmUpCount,
      AlignmentOffset, AggregateFunction, BasicMode, NoMem, Verbose ]

  /** The options after the six counts, from the aggregate function on. */
  const ModeParams: seq<Param> := QueryParams[6..]

  /** The flag that precedes an option's value on the command line; the
      aggregate function is the flag itself, and the remaining options are
      not passed. */
  function Flag(p: Param): string {
    match p
    case NMeasurements => "-n_measurements"
    case UnrollCount => "-unroll_count"
    case LoopCount => "-loop_count"
    case WarmUpCount => "-warm_up_count"
    case InitialWarmUpCount => "-initial_warm_up_count"
    case AlignmentOffset => "-alignment_offset"
    case BasicMode => "-basic_mode"
    case NoMem => "-no_mem"
    case Verbose => "-verbose"
    case _ => "-"
  }

  /** Why reading an option for the command line fails: it is not cached
      (`KeyError`), or it is the aggregate function and not a string, so
      prefixing it with '-' fails (`TypeError`). */
  function Problem(cache: map<Param, Value>, p: Param): Option<Error> {
    if p !in cache then Some(KeyError(Key(p)))
    else if p == AggregateFunction && !cache[p].Str? then Some(TypeError("+"))
    else None
  }

  /** The problem of the first option in `ps` that has one. */
  function FirstProblem(cache: map<Param, Value>, ps: seq<Param>): (r: Option<Error>)
    ensures r.Some? ==> r.value.KeyError? || r.value == TypeError("+")
    decreases |ps|
  {
    if ps == [] then None
    else if Problem(cache, ps[0]).Some? then Problem(cache, ps[0])
    else FirstProblem(cache, ps[1..])
  }

  /** Every option the command line reads is cached, with a string as the
      aggregate function. */
  predicate Ready(cache: map<Param, Value>) {
    && NMeasurements in cache && UnrollCount in cache && LoopCount in cache
    && WarmUpCount in cache && InitialWarmUpCount in cache && AlignmentOffset in cache
    && AggregateFunction in cache && cache[AggregateFunction].Str?
    && BasicMode in cache && NoMem in cache && Verbose in cache
  }

  /** The start of the command line: the benchmark binary and the payload,
      configuration and output paths on the device. The one-time init
      binary is named without the device directory. */
  const Header: seq<Value> :=
    [ Str(RemoteDir + "nb"),
      Str("-code"), Str(RemoteDir + "code.bin"),
      Str("-code_init"), Str(RemoteDir + "init.bin"),
      Str("-code_one_time_init"), Str("one_time_init.bin"),
      Str("-config"), Str(RemoteDir + "config"),
      Str("-output"), Str(RemoteDir + "adbres") ]

  /** The command line of a ready cache: 32 tokens, the header first and
      the core pinned to 0 just before the verbosity flag. The cached values
      go in as they are: an integer stays an integer and a boolean stays a
      boolean, whether it is true or false. */
  function CommandLine(cache: map<Param, Value>): (q: seq<Value>)
    requires Ready(cache)
    ensures |q| == 32 && q[..11] == Header
    ensures q[28] == Str("-cpu") && q[29] == Str("0")
  {
    var q := Header + Options(cache);
    assert q[..11] == Header;
    q
  }

  /** The flags and cached values after the header. */
  function Options(cache: map<Param, Value>): seq<Value>
    requires Ready(cache)
  {
    CountOptions(cache) + ModeOptions(cache)
  }

  /** The five counts, each flag followed by its cached value. */
  function CountOptions(cache: map<Param, Value>): seq<Value>
    requires Ready(cache)
  {
    [ Str(Flag(NMeasurements)), cache[NMeasurements],
      Str(Flag(UnrollCount)), cache[UnrollCount],
      Str(Flag(LoopCount)), cache[LoopCount],
      Str(Flag(WarmUpCount)), cache[WarmUpCount],
      Str(Flag(InitialWarmUpCount)), cache[InitialWarmUpCount] ]
  }

  /** The alignment offset, the aggregate function as a flag of its own,
      the modes, the fixed core and the verbosity. */
  function ModeOptions(cache: map<Param, Value>): seq<Value>
    requires Ready(cache)
  {
    [ Str(Flag(AlignmentOffset)), cache[AlignmentOffset],
      Str("-" + cache[AggregateFunction].s),
      Str(Flag(BasicMode)), cache[BasicMode],
      Str(Flag(NoMem)), cache[NoMem],
      Str("-cpu"), Str("0"),
      Str(Flag(Verbose)), cache[Verbose] ]
  }

  /** The command line as `adbRunNanoBench` grows it, one flag and its
      value at a time. */
  lemma CommandLineInSteps(cache: map<Param, Value>)
    requires Ready(cache)
    ensures CommandLine(cache) ==
      Header
      + [Str(Flag(NMeasurements)), cache[NMeasurements]]
      + [Str(Flag(UnrollCount)), cache[UnrollCount]]
      + [Str(Flag(LoopCount)), cache[LoopCount]]
      + [Str(Flag(WarmUpCount)), cache[WarmUpCount]]
      + [Str(Flag(InitialWarmUpCount)), cache[InitialWarmUpCount]]
      + [Str(Flag(AlignmentOffset)), cache[AlignmentOffset]]
      + [Str("-" + cache[AggregateFunction].s)]
      + [Str(Flag(BasicMode)), cache[BasicMode]]
      + [Str(Flag(NoMem)), cache[NoMem]]
      + [Str("-cpu"), Str("0")]
      + [Str(Flag(Verbose)), cache[Verbose]]
  {
  }

  lemma {:induction false} NoProblemAll(cache: map<Param, Value>, ps: seq<Param>)
    ensures FirstProblem(cache, ps).None? <==> forall k :: 0 <= k < |ps| ==> Problem(cache, ps[k]).None?
    decreases |ps|
  {
    if ps != [] {
      NoProblemAll(cache, ps[1..]);
      assert forall k :: 0 < k < |ps| ==> ps[k] == ps[1..][k - 1];
    }
  }

  lemma NoProblemReady(cache: map<Param, Value>)
    ensures FirstProblem(cache, QueryParams).None? <==> Ready(cache)
  {
    NoProblemAll(cache, QueryParams);
    if Ready(cache) {
      ReadyNoProblem(cache);
    } else {
      MissingProblem(cache);
    }
  }

  lemma QueryParamsValue()
    ensures var qp := QueryParams;
      && |qp| == 10
      && qp[0] == NMeasurements && qp[1] == UnrollCount && qp[2] == LoopCount
      && qp[3] == WarmUpCount && qp[4] == InitialWarmUpCount && qp[5] == AlignmentOffset
      && qp[6] == AggregateFunction && qp[7] == BasicMode && qp[8] == NoMem && qp[9] == Verbose
  {
  }

  lemma ReadyNoProblem(cache: map<Param, Value>)
    requires Ready(cache)
    ensures forall k :: 0 <= k < |QueryParams| ==> Problem(cache, QueryParams[k]).None?
  {
    var qp := QueryParams;
    QueryParamsValue();
    forall k | 0 <= k < |qp|
      ensures Problem(cache, qp[k]).None?
    {
      assert k < 5 || k == 5 || k == 6 || k > 6;
    }
  }

  lemma MissingProblem(cache: map<Param, Value>)
    requires !Ready(cache)
    ensures exists k :: 0 <= k < |QueryParams| && Problem(cache, QueryParams[k]).Some?
  {
    var qp := QueryParams;
    QueryParamsValue();
    if forall k :: 0 <= k < |qp| ==> Problem(cache, qp[k]).None? {
      assert Problem(cache, qp[0]).None? && Problem(cache, qp[1]).None? && Problem(cache, qp[2]).None?;
      assert Problem(cache, qp[3]).None? && Problem(cache, qp[4]).None? && Problem(cache, qp[5]).None?;
      assert Problem(cache, qp[6]).None? && Problem(cache, qp[7]).None? && Problem(cache, qp[8]).None?;
      assert Problem(cache, qp[9]).None?;
    }
  }

  /** The command line `adbRunNanoBench` builds, or the exception raised
      while building it. */
  function AdbQuery(cache: map<Param, Value>): (r: Result<seq<Value>, Error>)
    ensures r.Ok? ==> |r.value| == 32 && r.value[..11] == Header
    ensures r.Err? ==> r.error.KeyError? || r.error == TypeError("+")
  {
    match FirstProblem(cache, QueryParams)
    case Some(e) => Err(e)
    case None => NoProblemReady(cache); Ok(CommandLine(cache))
  }

  /** The binaries pushed before anything else. */
  const PayloadPushes: seq<IoEvent> :=
    [ Push(Ramdisk + "code.bin", RemoteDir),
      Push(Ramdisk + "init.bin", RemoteDir),
      Push(Ramdisk + "one_time_init.bin", RemoteDir) ]

  /** Everything pushed once the configuration is known to be cached:
      the payload, the configuration and the benchmark binary. */
  const SessionPushes: seq<IoEvent> := PayloadPushes + ConfigPushes

  /** The configuration and the benchmark binary. */
  const ConfigPushes: seq<IoEvent> := [Push(Ramdisk + "config", RemoteDir), Push(Aarch64BinPath + "nb", RemoteDir)]

  const ResultFile := Ramdisk + "adbres"

  /** Removal of everything in the device directory. */
  const CleanupCommand: seq<Value> := [Str("rm"), Str("-r"), Str(RemoteDir + "*")]

  const Cleanup: IoEvent := Shell(["rm", "-r", RemoteDir + "*"])

  /** Running a command line on the device, fetching its result file,
      cleaning up and reading the result. */
  function FetchEvents(argv: seq<string>): seq<IoEvent> {
    [Shell(argv), Pull(RemoteDir + "adbres", Ramdisk), Cleanup, Read(ResultFile)]
  }

  /** The actions of `adbRunNanoBench`, and the exception that stops it:
      the payload pushes, the configuration (whose lookup raises a `KeyError`
      when it was never set) and the benchmark binary, then the run, the
      pull of the result file, the clean-up and the read of the result.
      The run itself never starts when the command line holds a cached
      integer or boolean: `subprocess` rejects the argument list. */
  function AdbSession(cache: map<Param, Value>): (st: Stage)
    ensures PayloadPushes <= st.events
    ensures st.error.Some? ==> st.events == PayloadPushes || st.events == SessionPushes
    ensures st.error.None? ==> |st.events| == 9
  {
    if Config !in cache then Stage(PayloadPushes, Some(KeyError(Key(Config))))
    else
      match AdbQuery(cache)
      case Err(e) => Stage(SessionPushes, Some(e))
      case Ok(q) =>
        match Argv(q)
        case None => Stage(SessionPushes, Some(ArgvTypeError))
        case Some(argv) => Stage(SessionPushes + FetchEvents(argv), None)
  }

  /** Every cached value placed on the command line as it is, that is all
      of them but the aggregate function, is a string. */
  predicate ValuesAreStr(cache: map<Param, Value>)
    requires Ready(cache)
  {
    && cache[NMeasurements].Str? && cache[UnrollCount].Str? && cache[LoopCount].Str?
    && cache[WarmUpCount].Str? && cache[InitialWarmUpCount].Str? && cache[AlignmentOffset].Str?
    && cache[BasicMode].Str? && cache[NoMem].Str? && cache[Verbose].Str?
  }

  // ------------------------------------------------------------ reference definitions

  /** Where an option's flag sits on the command line; its value follows it. */
  function FlagIndex(p: Param): int {
    match p
    case NMeasurements => 11
    case UnrollCount => 13
    case LoopCount => 15
    case WarmUpCount => 17
    case InitialWarmUpCount => 19
    case AlignmentOffset => 21
    case AggregateFunction => 23
    case BasicMode => 24
    case NoMem => 26
    case Verbose => 30
    case _ => 0
  }

  // ------------------------------------------------------------ lemmas

  lemma FirstProblemCons(cache: map<Param, Value>, p: Param, ps: seq<Param>)
    ensures FirstProblem(cache, [p] + ps) ==
      if Problem(cache, p).Some? then Problem(cache, p) else FirstProblem(cache, ps)
  {
    assert ([p] + ps)[1..] == ps;
  }

  /** The command line is built exactly when every option it reads is
      cached and the aggregate function is a string. */
  lemma QueryOkIff(cache: map<Param, Value>)
    ensures AdbQuery(cache).Ok? <==> Ready(cache)
    ensures Ready(cache) ==> AdbQuery(cache) == Ok(CommandLine(cache))
  {
    NoProblemReady(cache);
  }

  /** A failed build reports the problem of the first option, in reading
      order, that has one: the first uncached key, or the aggregate
      function that is not a string. */
  lemma {:induction false} FirstProblemIsFirst(cache: map<Param, Value>, ps: seq<Param>)
    requires FirstProblem(cache, ps).Some?
    ensures exists i :: (0 <= i < |ps| && Problem(cache, ps[i]) == FirstProblem(cache, ps)
                         && forall j :: 0 <= j < i ==> Problem(cache, ps[j]).None?)
    decreases |ps|
  {
    if Problem(cache, ps[0]).None? {
      FirstProblemIsFirst(cache, ps[1..]);
      var i :| (0 <= i < |ps[1..]| && Problem(cache, ps[1..][i]) == FirstProblem(cache, ps[1..])
                && forall j :: 0 <= j < i ==> Problem(cache, ps[1..][j]).None?);
      assert Problem(cache, ps[i + 1]) == FirstProblem(cache, ps);
      assert forall j :: 0 <= j < i + 1 ==> Problem(cache, ps[j]).None? by {
        forall j | 0 <= j < i + 1 ensures Problem(cache, ps[j]).None? {
          if j > 0 { assert ps[j] == ps[1..][j - 1]; }
        }
      }
    } else {
      assert Problem(cache, ps[0]) == FirstProblem(cache, ps);
    }
  }

  /** Where a flag sits on the command line and the cached value right
      after it, for every option passed as a flag and its value. */
  lemma QueryFlag(cache: map<Param, Value>, p: Param)
    requires Ready(cache)
    requires p != Config && p != MsrConfig && p != CodeOffset && p != AggregateFunction
    ensures var q := CommandLine(cache);
      |q| == 32 && q[FlagIndex(p)] == Str(Flag(p)) && q[FlagIndex(p) + 1] == cache[p]
  {
    if p == NMeasurements || p == UnrollCount || p == LoopCount || p == WarmUpCount || p == InitialWarmUpCount {
      OptionAtFront(cache, p);
    } else {
      OptionAtBack(cache, p);
    }
    CommandLineAt(cache, FlagIndex(p) - 11);
    CommandLineAt(cache, FlagIndex(p) - 10);
  }

  /** The options of the first five counts, each flag followed by its value. */
  lemma OptionAtFront(cache: map<Param, Value>, p: Param)
    requires Ready(cache)
    requires p == NMeasurements || p == UnrollCount || p == LoopCount || p == WarmUpCount || p == InitialWarmUpCount
    ensures 11 <= FlagIndex(p) < 21
    ensures var o := Options(cache);
      o[FlagIndex(p) - 11] == Str(Flag(p)) && o[FlagIndex(p) - 10] == cache[p]
  {
    var o, c := Options(cache), CountOptions(cache);
    assert |c| == 10;
    match p {
      case NMeasurements => assert o[0] == c[0] == Str(Flag(p)) && o[1] == c[1] == cache[p];
      case UnrollCount => assert o[2] == c[2] == Str(Flag(p)) && o[3] == c[3] == cache[p];
      case LoopCount => assert o[4] == c[4] == Str(Flag(p)) && o[5] == c[5] == cache[p];
      case WarmUpCount => assert o[6] == c[6] == Str(Flag(p)) && o[7] == c[7] == cache[p];
      case InitialWarmUpCount => assert o[8] == c[8] == Str(Flag(p)) && o[9] == c[9] == cache[p];
    }
  }

  /** The options after the first five counts, each flag followed by its value. */
  lemma OptionAtBack(cache: map<Param, Value>, p: Param)
    requires Ready(cache)
    requires p == AlignmentOffset || p == BasicMode || p == NoMem || p == Verbose
    ensures 21 <= FlagIndex(p) < 31
    ensures var o := Options(cache);
      o[FlagIndex(p) - 11] == Str(Flag(p)) && o[FlagIndex(p) - 10] == cache[p]
  {
    var o, m := Options(cache), ModeOptions(cache);
    assert |CountOptions(cache)| == 10;
    match p {
      case AlignmentOffset => assert o[10] == m[0] == Str(Flag(p)) && o[11] == m[1] == cache[p];
      case BasicMode => assert o[13] == m[3] == Str(Flag(p)) && o[14] == m[4] == cache[p];
      case NoMem => assert o[15] == m[5] == Str(Flag(p)) && o[16] == m[6] == cache[p];
      case Verbose => assert o[19] == m[9] == Str(Flag(p)) && o[20] == m[10] == cache[p];
    }
  }

  /** After the eleven header entries the command line holds the options. */
  lemma CommandLineAt(cache: map<Param, Value>, j: int)
    requires Ready(cache) && 0 <= j < 21
    ensures |Options(cache)| == 21 && |CommandLine(cache)| == 32
    ensures CommandLine(cache)[11 + j] == Options(cache)[j]
  {
  }

  lemma QueryAggregate(cache: map<Param, Value>)
    requires Ready(cache)
    ensures var q := CommandLine(cache);
      |q| == 32 && q[FlagIndex(AggregateFunction)] == Str("-" + cache[AggregateFunction].s)
  {
  }

  /** The clean-up command holds only strings, so it always starts. */
  lemma CleanupArgv()
    ensures Argv(CleanupCommand) == Some(["rm", "-r", RemoteDir + "*"])
  {
    assert AllStr(CleanupCommand);
    var r := Argv(CleanupCommand).value;
    assert |r| == 3 && r[0] == "rm" && r[1] == "-r" && r[2] == RemoteDir + "*";
    assert r == ["rm", "-r", RemoteDir + "*"];
  }

  /** The command line holds only strings exactly when every cached value
      placed on it as it is, is a string. */
  lemma CommandLineArgv(cache: map<Param, Value>)
    requires Ready(cache)
    ensures AllStr(CommandLine(cache)) <==> ValuesAreStr(cache)
  {
    var c, m := CountOptions(cache), ModeOptions(cache);
    AllStrAppend(Header, c + m);
    AllStrAppend(c, m);
    assert AllStr(Header);
    if ValuesAreStr(cache) {
      assert AllStr(c) by {
        forall k | 0 <= k < |c| ensures c[k].Str? {
          assert k % 2 == 0 || k == 1 || k == 3 || k == 5 || k == 7 || k == 9;
        }
      }
      assert AllStr(m) by {
        forall k | 0 <= k < |m| ensures m[k].Str? {
          assert k == 1 || k == 4 || k == 6 || k == 10 || (k != 1 && k != 4 && k != 6 && k != 10);
        }
      }
    }
    if AllStr(c) && AllStr(m) {
      assert c[1].Str? && c[3].Str? && c[5].Str? && c[7].Str? && c[9].Str?;
      assert m[1].Str? && m[4].Str? && m[6].Str? && m[10].Str?;
    }
  }

  /** The run succeeds exactly when the configuration was set, the command
      line can be built and every cached value on it is a string; without a
      configuration it stops after the three payload pushes, and a cached
      integer or boolean on the command line stops it after all five
      pushes, before anything runs on the device. */
  lemma SessionFailsIff(cache: map<Param, Value>)
    ensures AdbSession(cache).error.None? <==> (Config in cache && Ready(cache) && ValuesAreStr(cache))
    ensures Config !in cache ==> AdbSession(cache) == Stage(PayloadPushes, Some(KeyError("config")))
    ensures Config in cache && Ready(cache) && !ValuesAreStr(cache) ==>
      AdbSession(cache) == Stage(SessionPushes, Some(ArgvTypeError))
  {
    QueryOkIff(cache);
    if Ready(cache) {
      CommandLineArgv(cache);
    }
  }

  /** With the options typed as `setNanoBenchParameters` caches them, the
      counts are integers, so the run never reaches the device: it stops
      at a lookup or at the argument list. */
  lemma TypedSessionFails(cache: map<Param, Value>)
    requires WellTyped(cache)
    ensures AdbSession(cache).error.Some?
    ensures Config in cache && Ready(cache) ==> AdbSession(cache) == Stage(SessionPushes, Some(ArgvTypeError))
  {
    SessionFailsIff(cache);
    if Ready(cache) {
      assert HasKind(NMeasurements, cache[NMeasurements]);
    }
  }

  /** The device paths at the start of the command line. */
  lemma QueryPaths(cache: map<Param, Value>)
    requires Ready(cache)
    ensures var q := CommandLine(cache);
      && q[0] == Str(RemoteDir + "nb")
      && q[2] == Str(RemoteDir + "code.bin") && q[4] == Str(RemoteDir + "init.bin")
      && q[6] == Str("one_time_init.bin") && q[8] == Str(RemoteDir + "config")
      && q[10] == Str(RemoteDir + "adbres")
  {
    var q := CommandLine(cache);
    assert q[..11] == Header;
  }

  /** When the run does reach the device, every file the command line
      names there was pushed into the device directory before the run; the
      result is then pulled, the device cleaned and the result read. The
      one-time init binary is pushed into the device directory too, but
      the command line names it without that directory. */
  lemma SessionOrder(cache: map<Param, Value>)
    requires AdbSession(cache).error.None?
    ensures var ev := AdbSession(cache).events;
      && |ev| == 9 && ev[5].Shell? && |ev[5].cmd| == 32
      && ev[0] == Push(Ramdisk + "code.bin", RemoteDir) && ev[5].cmd[2] == RemoteDir + "code.bin"
      && ev[1] == Push(Ramdisk + "init.bin", RemoteDir) && ev[5].cmd[4] == RemoteDir + "init.bin"
      && ev[2] == Push(Ramdisk + "one_time_init.bin", RemoteDir) && ev[5].cmd[6] == "one_time_init.bin"
      && ev[3] == Push(Ramdisk + "config", RemoteDir) && ev[5].cmd[8] == RemoteDir + "config"
      && ev[4] == Push(Aarch64BinPath + "nb", RemoteDir) && ev[5].cmd[0] == RemoteDir + "nb"
      && ev[5].cmd[10] == RemoteDir + "adbres" && ev[6] == Pull(RemoteDir + "adbres", Ramdisk)
      && ev[7] == Cleanup && ev[8] == Read(ResultFile)
  {
    SessionRuns(cache);
    var q := CommandLine(cache);
    var argv := Argv(q).value;
    QueryPaths(cache);
    assert argv[0] == q[0].s && argv[2] == q[2].s && argv[4] == q[4].s;
    assert argv[6] == q[6].s && argv[8] == q[8].s && argv[10] == q[10].s;
  }

  /** A run that reaches the device runs the strings of the command line. */
  lemma SessionRuns(cache: map<Param, Value>)
    requires AdbSession(cache).error.None?
    ensures Config in cache && Ready(cache) && AllStr(CommandLine(cache))
    ensures AdbSession(cache).events == SessionPushes + FetchEvents(Argv(CommandLine(cache)).value)
  {
    SessionFailsIff(cache);
    QueryOkIff(cache);
    CommandLineArgv(cache);
  }

  /** A call that passes the configuration and every option the command
      line reads leaves a cache from which the command line is built, but
      its counts are integers, so the run stops after the five pushes with
      the `TypeError` of the argument list. */
  lemma SetMakesReady(cache: map<Param, Value>, a: SetArgs)
    requires a.config.Some?
    requires a.nMeasurements.Some? && a.unrollCount.Some? && a.loopCount.Some?
    requires a.warmUpCount.Some? && a.initialWarmUpCount.Some? && a.alignmentOffset.Some?
    requires a.aggregateFunction.Some? && a.basicMode.Some? && a.noMem.Some? && a.verbose.Some?
    ensures var c := SetOutcome(cache, a).cache;
      && Config in c && Ready(c) && AdbQuery(c).Ok?
      && AdbSession(c) == Stage(SessionPushes, Some(ArgvTypeError))
  {
    var c := SetOutcome(cache, a).cache;
    SetCachesQuery(cache, a);
    SetCachesArg(cache, a, NMeasurements);
    QueryOkIff(c);
    SessionFailsIff(c);
  }

  lemma SetCachesQuery(cache: map<Param, Value>, a: SetArgs)
    requires a.config.Some?
    requires a.nMeasurements.Some? && a.unrollCount.Some? && a.loopCount.Some?
    requires a.warmUpCount.Some? && a.initialWarmUpCount.Some? && a.alignmentOffset.Some?
    requires a.aggregateFunction.Some? && a.basicMode.Some? && a.noMem.Some? && a.verbose.Some?
    ensures var c := SetOutcome(cache, a).cache;
      Config in c && Ready(c)
  {
    SetCachesCounts(cache, a);
    SetCachesModes(cache, a);
  }

  lemma SetCachesCounts(cache: map<Param, Value>, a: SetArgs)
    requires a.config.Some?
    requires a.nMeasurements.Some? && a.unrollCount.Some? && a.loopCount.Some?
    requires a.warmUpCount.Some? && a.initialWarmUpCount.Some?
    ensures var c := SetOutcome(cache, a).cache;
      && Config in c && NMeasurements in c && UnrollCount in c && LoopCount in c
      && WarmUpCount in c && InitialWarmUpCount in c
  {
    SetCachesArg(cache, a, Config);
    SetCachesArg(cache, a, NMeasurements);
    SetCachesArg(cache, a, UnrollCount);
    SetCachesArg(cache, a, LoopCount);
    SetCachesArg(cache, a, WarmUpCount);
    SetCachesArg(cache, a, InitialWarmUpCount);
  }

  lemma SetCachesModes(cache: map<Param, Value>, a: SetArgs)
    requires a.alignmentOffset.Some? && a.aggregateFunction.Some?
    requires a.basicMode.Some? && a.noMem.Some? && a.verbose.Some?
    ensures var c := SetOutcome(cache, a).cache;
      && AlignmentOffset in c && AggregateFunction in c && c[AggregateFunction].Str?
      && BasicMode in c && NoMem in c && Verbose in c
  {
    SetCachesArg(cache, a, AlignmentOffset);
    SetCachesArg(cache, a, AggregateFunction);
    SetCachesArg(cache, a, BasicMode);
    SetCachesArg(cache, a, NoMem);
    SetCachesArg(cache, a, Verbose);
  }

  lemma SetCachesArg(cache: map<Param, Value>, a: SetArgs, p: Param)
    requires ArgFor(a, p).Some?
    ensures p in SetOutcome(cache, a).cache && SetOutcome(cache, a).cache[p] == ArgFor(a, p).value
  {
    SetCachesPassedValues(cache, a, p);
  }

  /** After a reset the run stops at the configuration lookup. */
  lemma EmptyCacheStops()
    ensures AdbSession(map[]) == Stage(PayloadPushes, Some(KeyError("config")))
  {
    SessionFailsIff(map[]);
  }
}
