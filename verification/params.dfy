/** The parameter cache of `setNanoBenchParameters` and `resetNanoBench`:
    which options a call changes, which control files it writes and what
    the cache holds afterwards, as functions of the cache before the call. */
module Params {
  import opened Wrappers
  import opened Effects

  /** The options `setNanoBenchParameters` accepts and caches, in the order
      of its guarded blocks. */
  datatype Param =
    | Config | MsrConfig | NMeasurements | UnrollCount | LoopCount | WarmUpCount
    | InitialWarmUpCount | AlignmentOffset | CodeOffset | AggregateFunction
    | BasicMode | NoMem | Verbose

  /** The key under which the cache stores an option. */
  function Key(p: Param): string {
    match p
    case Config => "config"
    case MsrConfig => "msrConfig"
    case NMeasurements => "nMeasurements"
    case UnrollCount => "unrollCount"
    case LoopCount => "loopCount"
    case WarmUpCount => "warmUpCount"
    case InitialWarmUpCount => "initialWarmUpCount"
    case AlignmentOffset => "alignmentOffset"
    case CodeOffset => "codeOffset"
    case AggregateFunction => "aggregateFunction"
    case BasicMode => "basicMode"
    case NoMem => "noMem"
    case Verbose => "verbose"
  }

  /** The kernel control file an option is propagated to. */
  function SysFile(p: Param): string {
    match p
    case Config => "/sys/nb/config"
    case MsrConfig => "/sys/nb/msr_config"
    case NMeasurements => "/sys/nb/n_measurements"
    case UnrollCount => "/sys/nb/unroll_count"
    case LoopCount => "/sys/nb/loop_count"
    case WarmUpCount => "/sys/nb/warm_up"
    case InitialWarmUpCount => "/sys/nb/initial_warm_up"
    case AlignmentOffset => "/sys/nb/alignment_offset"
    case CodeOffset => "/sys/nb/code_offset"
    case AggregateFunction => "/sys/nb/agg"
    case BasicMode => "/sys/nb/basic_mode"
    case NoMem => "/sys/nb/no_mem"
    case Verbose => "/sys/nb/verbose"
  }

  /** Where each option's block sits in `setNanoBenchParameters`. */
  function Position(p: Param): (i: nat)
    ensures i < 13
  {
    match p
    case Config => 0
    case MsrConfig => 1
    case NMeasurements => 2
    case UnrollCount => 3
    case LoopCount => 4
    case WarmUpCount => 5
    case InitialWarmUpCount => 6
    case AlignmentOffset => 7
    case CodeOffset => 8
    case AggregateFunction => 9
    case BasicMode => 10
    case NoMem => 11
    case Verbose => 12
  }

  /** The configuration texts, which are staged in a scratch file whose
      path is what the kernel is given. */
  predicate IsBlob(p: Param) {
    p == Config || p == MsrConfig
  }

  /** The kind of value an option takes. */
  predicate HasKind(p: Param, v: Value) {
    match p
    case Config | MsrConfig | AggregateFunction => v.Str?
    case BasicMode | NoMem | Verbose => v.Bool?
    case _ => v.Int?
  }

  /** Every cached value has its option's kind. */
  predicate WellTyped(cache: map<Param, Value>) {
    forall p :: p in cache ==> HasKind(p, cache[p])
  }

  /** `paramDict.get(key, None)`. */
  function Lookup(cache: map<Param, Value>, p: Param): Option<Value> {
    if p in cache then Some(cache[p]) else None
  }

  /** The arguments of `setNanoBenchParameters`, with the same defaults:
      `None` everywhere except the two offsets, which default to 0. */
  datatype SetArgs = SetArgs(
    config: Option<string> := None,
    configFile: Option<string> := None,
    msrConfig: Option<string> := None,
    msrConfigFile: Option<string> := None,
    nMeasurements: Option<int> := None,
    unrollCount: Option<int> := None,
    loopCount: Option<int> := None,
    warmUpCount: Option<int> := None,
    initialWarmUpCount: Option<int> := None,
    alignmentOffset: Option<int> := Some(0),
    codeOffset: Option<int> := Some(0),
    aggregateFunction: Option<string> := None,
    basicMode: Option<bool> := None,
    noMem: Option<bool> := None,
    verbose: Option<bool> := None,
    usingAdb: bool := false)

  function IntArg(o: Option<int>): Option<Value> {
    if o.Some? then Some(Int(o.value)) else None
  }

  function BoolArg(o: Option<bool>): Option<Value> {
    if o.Some? then Some(Bool(o.value)) else None
  }

  function StrArg(o: Option<string>): Option<Value> {
    if o.Some? then Some(Str(o.value)) else None
  }

  /** The value a call passes for an option, `None` when it passes none. */
  function ArgFor(a: SetArgs, p: Param): (v: Option<Value>)
    ensures v.Some? ==> HasKind(p, v.value)
  {
    match p
    case Config => StrArg(a.config)
    case MsrConfig => StrArg(a.msrConfig)
    case NMeasurements => IntArg(a.nMeasurements)
    case UnrollCount => IntArg(a.unrollCount)
    case LoopCount => IntArg(a.loopCount)
    case WarmUpCount => IntArg(a.warmUpCount)
    case InitialWarmUpCount => IntArg(a.initialWarmUpCount)
    case AlignmentOffset => IntArg(a.alignmentOffset)
    case CodeOffset => IntArg(a.codeOffset)
    case AggregateFunction => StrArg(a.aggregateFunction)
    case BasicMode => BoolArg(a.basicMode)
    case NoMem => BoolArg(a.noMem)
    case Verbose => BoolArg(a.verbose)
  }

  const ConfigStaging := Ramdisk + "config"
  const MsrConfigStaging := Ramdisk + "msr_config"

  /** One guarded block of `setNanoBenchParameters`. A `Blob` block stages
      a configuration text in `staging` and hands the kernel a file path
      (`file`, the caller's path, unless the text changed); a `Scalar`
      block writes the value itself. */
  datatype Update =
    | Blob(param: Param, value: Option<Value>, file: Option<string>, staging: string)
    | Scalar(param: Param, value: Option<Value>)

  /** The blocks of one call, in source order. */
  function Updates(a: SetArgs): (us: seq<Update>)
    ensures |us| == 13
    ensures forall i :: 0 <= i < 13 ==> Position(us[i].param) == i && us[i].value == ArgFor(a, us[i].param)
  {
    [ Blob(Config, ArgFor(a, Config), a.configFile, ConfigStaging),
      Blob(MsrConfig, ArgFor(a, MsrConfig), a.msrConfigFile, MsrConfigStaging) ]
    + ScalarUpdates(a)
  }

  function ScalarUpdates(a: SetArgs): (us: seq<Update>)
    ensures |us| == 11 && forall i :: 0 <= i < 11 ==> us[i].Scalar?
  {
    [ Scalar(NMeasurements, ArgFor(a, NMeasurements)),
      Scalar(UnrollCount, ArgFor(a, UnrollCount)),
      Scalar(LoopCount, ArgFor(a, LoopCount)),
      Scalar(WarmUpCount, ArgFor(a, WarmUpCount)),
      Scalar(InitialWarmUpCount, ArgFor(a, InitialWarmUpCount)),
      Scalar(AlignmentOffset, ArgFor(a, AlignmentOffset)),
      Scalar(CodeOffset, ArgFor(a, CodeOffset)),
      Scalar(AggregateFunction, ArgFor(a, AggregateFunction)),
      Scalar(BasicMode, ArgFor(a, BasicMode)),
      Scalar(NoMem, ArgFor(a, NoMem)),
      Scalar(Verbose, ArgFor(a, Verbose)) ]
  }

  /** The cache and the file writes a block (or a whole call) leaves behind. */
  datatype Outcome = Outcome(cache: map<Param, Value>, writes: seq<IoEvent>)

  /** Whether a block finds a value that differs from the cached one. */
  predicate Changes(cache: map<Param, Value>, u: Update) {
    u.value.Some? && Lookup(cache, u.param) != u.value
  }

  /** One block run against the cache: the option it handles holds the
      passed value afterwards, or is untouched when none is passed, and no
      other option changes; in bridge mode a plain option writes nothing. */
  function Apply(cache: map<Param, Value>, u: Update, adb: bool): (o: Outcome)
    ensures o.cache == if u.value.Some? then cache[u.param := u.value.value] else cache
    ensures adb && u.Scalar? ==> o.writes == []
  {
    var changed := Changes(cache, u);
    assert u.value.Some? && !changed ==> cache[u.param := u.value.value] == cache;
    var cache' := if changed then cache[u.param := u.value.value] else cache;
    match u
    case Blob(p, v, file, staging) =>
      var target := if changed then Some(staging) else file;
      Outcome(cache',
        (if changed then [Write(staging, Render(v.value))] else [])
        + (if target.Some? && !adb then [Write(SysFile(p), target.value)] else []))
    case Scalar(p, v) =>
      Outcome(cache', if changed && !adb then [Write(SysFile(p), Render(v.value))] else [])
  }

  /** The blocks run in order, each against the cache the previous ones left. */
  function ApplyAll(cache: map<Param, Value>, us: seq<Update>, adb: bool): (r: Outcome)
    ensures cache.Keys <= r.cache.Keys
    ensures |r.writes| <= 2 * |us|
    decreases |us|
  {
    if us == [] then Outcome(cache, [])
    else
      var first := Apply(cache, us[0], adb);
      var rest := ApplyAll(first.cache, us[1..], adb);
      Outcome(rest.cache, first.writes + rest.writes)
  }

  /** No block of `us` passes a value for `p`. */
  predicate NotPassed(us: seq<Update>, p: Param) {
    forall i :: 0 <= i < |us| ==> us[i].param != p || us[i].value.None?
  }

  /** `setNanoBenchParameters(**a)` run against `cache`: the cache becomes
      the old one overridden by the passed values, and the writes are those
      each block makes against the cache on entry. */
  function SetOutcome(cache: map<Param, Value>, a: SetArgs): (r: Outcome)
    ensures r.cache == cache + Given(Updates(a))
    ensures r.writes == IndependentWrites(cache, Updates(a), a.usingAdb)
  {
    UpdatesDistinct(a);
    CacheAfterApplyAll(cache, Updates(a), a.usingAdb);
    WritesIndependent(cache, Updates(a), a.usingAdb);
    ApplyAll(cache, Updates(a), a.usingAdb)
  }

  // ------------------------------------------------------------ reference definitions

  predicate Distinct(us: seq<Update>) {
    forall i, j :: 0 <= i < j < |us| ==> us[i].param != us[j].param
  }

  /** The options a list of blocks passes a value for, with those values. */
  function Given(us: seq<Update>): map<Param, Value>
    decreases |us|
  {
    if us == [] then map[]
    else
      var g := Given(us[1..]);
      if us[0].value.Some? then g[us[0].param := us[0].value.value] else g
  }

  /** Each block's writes computed against the same starting cache. */
  function IndependentWrites(cache: map<Param, Value>, us: seq<Update>, adb: bool): seq<IoEvent>
    decreases |us|
  {
    if us == [] then [] else Apply(cache, us[0], adb).writes + IndependentWrites(cache, us[1..], adb)
  }

  /** What a block writes when nothing changes: a configuration path the
      caller gave explicitly. */
  function UnchangedWrites(us: seq<Update>, adb: bool): seq<IoEvent>
    decreases |us|
  {
    if us == [] then []
    else
      (if us[0].Blob? && us[0].file.Some? && !adb then [Write(SysFile(us[0].param), us[0].file.value)] else [])
      + UnchangedWrites(us[1..], adb)
  }

  // ------------------------------------------------------------ lemmas on one block

  /** What a block writes depends only on the cached value of its own option. */
  lemma ApplyWritesLocal(c1: map<Param, Value>, c2: map<Param, Value>, u: Update, adb: bool)
    requires Lookup(c1, u.param) == Lookup(c2, u.param)
    ensures Apply(c1, u, adb).writes == Apply(c2, u, adb).writes
  {
  }

  /** A block writes only its option's control file or its staging file. */
  lemma ApplyWritesPaths(cache: map<Param, Value>, u: Update, adb: bool, e: IoEvent)
    requires e in Apply(cache, u, adb).writes
    ensures e.Write? && (e.path == SysFile(u.param) || (u.Blob? && e.path == u.staging))
  {
  }

  // ------------------------------------------------------------ lemmas on a whole call

  /** The blocks after the first are distinct, and none handles its option. */
  lemma DistinctTail(us: seq<Update>)
    requires us != [] && Distinct(us)
    ensures Distinct(us[1..])
    ensures forall i :: 0 <= i < |us[1..]| ==> us[1..][i].param != us[0].param
  {
    forall i, j | 0 <= i < j < |us[1..]|
      ensures us[1..][i].param != us[1..][j].param
    {
      assert us[1..][i] == us[i + 1] && us[1..][j] == us[j + 1];
    }
    forall i | 0 <= i < |us[1..]|
      ensures us[1..][i].param != us[0].param
    {
      assert us[1..][i] == us[i + 1];
    }
  }

  lemma {:induction false} GivenAbsent(us: seq<Update>, p: Param)
    requires forall i :: 0 <= i < |us| ==> us[i].param != p
    ensures p !in Given(us)
    decreases |us|
  {
    if us != [] {
      GivenAbsent(us[1..], p);
    }
  }

  /** `Given` holds, for every block, the value it passes. */
  lemma {:induction false} GivenAt(us: seq<Update>, i: nat)
    requires Distinct(us) && i < |us|
    ensures Lookup(Given(us), us[i].param) == us[i].value
    decreases |us|
  {
    if i == 0 {
      if us[0].value.None? {
        GivenAbsent(us[1..], us[0].param);
      }
    } else {
      GivenAt(us[1..], i - 1);
    }
  }

  /** An option that no block passes a value for keeps its cached entry. */
  lemma {:induction false} ApplyAllFrame(cache: map<Param, Value>, us: seq<Update>, adb: bool, p: Param)
    requires p in cache && NotPassed(us, p)
    ensures p in ApplyAll(cache, us, adb).cache && ApplyAll(cache, us, adb).cache[p] == cache[p]
    decreases |us|
  {
    if us != [] {
      var c1 := Apply(cache, us[0], adb).cache;
      assert us[0].param != p || us[0].value.None?;
      assert NotPassed(us[1..], p) by {
        forall i | 0 <= i < |us[1..]| ensures us[1..][i].param != p || us[1..][i].value.None? {
          assert us[1..][i] == us[i + 1];
        }
      }
      ApplyAllFrame(c1, us[1..], adb, p);
    }
  }

  /** Running blocks in order one more block at a time: the blocks `i`
      to `k` inclusive are the blocks `i` to `k - 1` followed by block `k`,
      run against the cache they left. */
  lemma ApplyAllExtend(cache: map<Param, Value>, us: seq<Update>, i: nat, k: nat, adb: bool)
    requires i <= k < |us|
    ensures var pre := ApplyAll(cache, us[i..k], adb);
      var step := Apply(pre.cache, us[k], adb);
      ApplyAll(cache, us[i..k + 1], adb) == Outcome(step.cache, pre.writes + step.writes)
  {
    assert us[i..k + 1] == us[i..k] + [us[k]];
    ApplyAllSnoc(cache, us[i..k], us[k], adb);
  }

  /** The fold over `xs + [u]` is the fold over `xs` followed by `u`. */
  lemma {:induction false} ApplyAllSnoc(cache: map<Param, Value>, xs: seq<Update>, u: Update, adb: bool)
    ensures var pre := ApplyAll(cache, xs, adb);
      var step := Apply(pre.cache, u, adb);
      ApplyAll(cache, xs + [u], adb) == Outcome(step.cache, pre.writes + step.writes)
    decreases |xs|
  {
    if xs == [] {
      assert xs + [u] == [u];
      assert [u][1..] == [];
    } else {
      var first := Apply(cache, xs[0], adb);
      assert (xs + [u])[0] == xs[0];
      assert (xs + [u])[1..] == xs[1..] + [u];
      ApplyAllSnoc(first.cache, xs[1..], u, adb);
      var mid := ApplyAll(first.cache, xs[1..], adb);
      var step := Apply(mid.cache, u, adb);
      assert ApplyAll(cache, xs, adb) == Outcome(mid.cache, first.writes + mid.writes);
      Reassociate(first.writes, mid.writes, step.writes);
    }
  }

  lemma Reassociate<X>(a: seq<X>, b: seq<X>, c: seq<X>)
    ensures a + (b + c) == a + b + c
  {
  }

  /** Cache update: after a call, every option passed a value holds it and
      every other option keeps its previous entry or stays absent. */
  lemma {:induction false} CacheAfterApplyAll(cache: map<Param, Value>, us: seq<Update>, adb: bool)
    requires Distinct(us)
    ensures ApplyAll(cache, us, adb).cache == cache + Given(us)
    decreases |us|
  {
    if us != [] {
      var u, tail := us[0], us[1..];
      var c1 := Apply(cache, u, adb).cache;
      DistinctTail(us);
      CacheAfterApplyAll(c1, tail, adb);
      var g := Given(tail);
      GivenAbsent(tail, u.param);
      assert ApplyAll(cache, us, adb).cache == c1 + g;
      if u.value.Some? {
        UpdateThenMerge(cache, g, u.param, u.value.value);
      }
    }
  }

  /** Setting an option the later entries do not mention commutes with them. */
  lemma UpdateThenMerge(cache: map<Param, Value>, g: map<Param, Value>, p: Param, v: Value)
    requires p !in g
    ensures cache[p := v] + g == cache + g[p := v]
  {
  }

  lemma {:induction false} IndependentWritesAgree(c1: map<Param, Value>, c2: map<Param, Value>, us: seq<Update>, adb: bool)
    requires forall i :: 0 <= i < |us| ==> Lookup(c1, us[i].param) == Lookup(c2, us[i].param)
    ensures IndependentWrites(c1, us, adb) == IndependentWrites(c2, us, adb)
    decreases |us|
  {
    if us != [] {
      ApplyWritesLocal(c1, c2, us[0], adb);
      IndependentWritesAgree(c1, c2, us[1..], adb);
    }
  }

  /** Because the blocks handle distinct options, running them in order
      writes what each would write against the cache as it was on entry. */
  lemma {:induction false} WritesIndependent(cache: map<Param, Value>, us: seq<Update>, adb: bool)
    requires Distinct(us)
    ensures ApplyAll(cache, us, adb).writes == IndependentWrites(cache, us, adb)
    decreases |us|
  {
    if us != [] {
      var u := us[0];
      var c1 := Apply(cache, u, adb).cache;
      WritesIndependent(c1, us[1..], adb);
      IndependentWritesAgree(c1, cache, us[1..], adb);
    }
  }

  lemma {:induction false} InIndependentWrites(cache: map<Param, Value>, us: seq<Update>, adb: bool, e: IoEvent)
    ensures e in IndependentWrites(cache, us, adb) <==> exists i :: 0 <= i < |us| && e in Apply(cache, us[i], adb).writes
    decreases |us|
  {
    if us != [] {
      InIndependentWrites(cache, us[1..], adb, e);
      if e in Apply(cache, us[0], adb).writes {
      } else if exists i :: 0 <= i < |us| && e in Apply(cache, us[i], adb).writes {
        var i :| 0 <= i < |us| && e in Apply(cache, us[i], adb).writes;
        assert us[1..][i - 1] == us[i];
      }
    }
  }

  /** Repeating a call with identical arguments changes no option: the only
      writes are the configuration paths the caller passed explicitly. */
  lemma {:induction false} RepeatIsQuiet(cache: map<Param, Value>, us: seq<Update>, adb: bool)
    requires Distinct(us)
    requires forall k :: 0 <= k < |us| ==> Lookup(cache, us[k].param) == us[k].value || us[k].value.None?
    ensures ApplyAll(cache, us, adb) == Outcome(cache, UnchangedWrites(us, adb))
    decreases |us|
  {
    if us != [] {
      var u := us[0];
      assert !Changes(cache, u);
      assert Apply(cache, u, adb).cache == cache;
      assert Apply(cache, u, adb).writes
          == if u.Blob? && u.file.Some? && !adb then [Write(SysFile(u.param), u.file.value)] else [];
      RepeatIsQuiet(cache, us[1..], adb);
    }
  }

  // ------------------------------------------------------------ the call's own blocks

  lemma UpdatesDistinct(a: SetArgs)
    ensures Distinct(Updates(a))
  {
    var us := Updates(a);
    forall i, j | 0 <= i < j < |us| ensures us[i].param != us[j].param {
      assert Position(us[i].param) == i && Position(us[j].param) == j;
    }
  }

  /** Every option has exactly one block, at its position. */
  lemma UpdateOf(a: SetArgs, p: Param)
    ensures Updates(a)[Position(p)].param == p
    ensures Updates(a)[Position(p)].value == ArgFor(a, p)
    ensures Updates(a)[Position(p)].Blob? <==> IsBlob(p)
  {
  }

  lemma {:induction false} UnchangedWritesScalars(us: seq<Update>, adb: bool)
    requires forall k :: 0 <= k < |us| ==> us[k].Scalar?
    ensures UnchangedWrites(us, adb) == []
    decreases |us|
  {
    if us != [] {
      UnchangedWritesScalars(us[1..], adb);
    }
  }

  /** The cache after a call: exactly the passed values over the old cache. */
  lemma SetCachesPassedValues(cache: map<Param, Value>, a: SetArgs, p: Param)
    ensures Lookup(SetOutcome(cache, a).cache, p) == if ArgFor(a, p).Some? then ArgFor(a, p) else Lookup(cache, p)
  {
    var us := Updates(a);
    UpdatesDistinct(a);
    CacheAfterApplyAll(cache, us, a.usingAdb);
    UpdateOf(a, p);
    GivenAt(us, Position(p));
  }

  /** A call leaves a well-typed cache well-typed. */
  lemma SetKeepsWellTyped(cache: map<Param, Value>, a: SetArgs)
    requires WellTyped(cache)
    ensures WellTyped(SetOutcome(cache, a).cache)
  {
    forall p | p in SetOutcome(cache, a).cache
      ensures HasKind(p, SetOutcome(cache, a).cache[p])
    {
      SetCachesPassedValues(cache, a, p);
    }
  }

  /** The writes of a call that touch one option's control or staging file
      are exactly those of that option's block. */
  lemma WritesOfOption(cache: map<Param, Value>, a: SetArgs, p: Param, e: IoEvent)
    requires e.Write? && (e.path == SysFile(p) || (IsBlob(p) && e.path == Updates(a)[Position(p)].staging))
    ensures e in SetOutcome(cache, a).writes <==> e in Apply(cache, Updates(a)[Position(p)], a.usingAdb).writes
  {
    var us := Updates(a);
    UpdatesDistinct(a);
    WritesIndependent(cache, us, a.usingAdb);
    InIndependentWrites(cache, us, a.usingAdb, e);
    if e in SetOutcome(cache, a).writes {
      var i :| 0 <= i < |us| && e in Apply(cache, us[i], a.usingAdb).writes;
      WriterIsOwner(cache, a, i, p, e);
    }
  }

  /** Only an option's own block writes its control or staging file. */
  lemma WriterIsOwner(cache: map<Param, Value>, a: SetArgs, i: nat, p: Param, e: IoEvent)
    requires i < 13
    requires e.Write? && (e.path == SysFile(p) || (IsBlob(p) && e.path == Updates(a)[Position(p)].staging))
    requires e in Apply(cache, Updates(a)[i], a.usingAdb).writes
    ensures i == Position(p)
  {
    var us := Updates(a);
    ApplyWritesPaths(cache, us[i], a.usingAdb, e);
    SysFileInjective(us[i].param, p);
    StagingNotSysFile(a, i, p);
    StagingNotSysFile(a, Position(p), us[i].param);
    assert i < 2 ==> us[i].staging == if i == 0 then ConfigStaging else MsrConfigStaging;
  }

  lemma SysFileInjective(p: Param, q: Param)
    ensures SysFile(p) == SysFile(q) <==> p == q
  {
    if p != q {
      var s, t := SysFile(p), SysFile(q);
      assert s[8] != t[8] || |s| != |t| || s[9] != t[9] || s[10] != t[10] || s[12] != t[12] || s[13] != t[13];
    }
  }

  lemma StagingNotSysFile(a: SetArgs, i: nat, p: Param)
    requires i < 13
    ensures Updates(a)[i].Blob? ==> Updates(a)[i].staging != SysFile(p)
  {
    var u := Updates(a)[i];
    if u.Blob? {
      BlobAt(a, i);
      SysFileUnderSys(p);
      assert u.staging[1] == 't';
    }
  }

  /** Only the first two blocks stage a configuration. */
  lemma BlobAt(a: SetArgs, i: nat)
    requires i < 13 && Updates(a)[i].Blob?
    ensures i < 2 && Updates(a)[i].staging == if i == 0 then ConfigStaging else MsrConfigStaging
  {
    var us := Updates(a);
    assert forall k :: 2 <= k < 13 ==> us[k] == ScalarUpdates(a)[k - 2];
  }

  lemma SysFileUnderSys(p: Param)
    ensures |SysFile(p)| > 1 && SysFile(p)[1] == 's'
  {
  }

  /** Writes only on change: a control file of a plain option is written
      exactly when the call passes a value, the value differs from the
      cached one and the device bridge is not in use; the text is the
      value's rendering. */
  lemma ScalarWrittenIffChanged(cache: map<Param, Value>, a: SetArgs, p: Param, text: string)
    requires !IsBlob(p)
    ensures (Write(SysFile(p), text) in SetOutcome(cache, a).writes)
        <==> (ArgFor(a, p).Some? && Lookup(cache, p) != ArgFor(a, p) && !a.usingAdb
              && text == Render(ArgFor(a, p).value))
  {
    UpdateOf(a, p);
    WritesOfOption(cache, a, p, Write(SysFile(p), text));
  }

  /** A configuration text is staged exactly when it differs from the cached one. */
  lemma BlobStagedIffChanged(cache: map<Param, Value>, a: SetArgs, p: Param, text: string)
    requires IsBlob(p)
    ensures var staging := if p == Config then ConfigStaging else MsrConfigStaging;
      (Write(staging, text) in SetOutcome(cache, a).writes)
        <==> (ArgFor(a, p) == Some(Str(text)) && Lookup(cache, p) != ArgFor(a, p))
  {
    var staging := if p == Config then ConfigStaging else MsrConfigStaging;
    UpdateOf(a, p);
    WritesOfOption(cache, a, p, Write(staging, text));
    SysFileNotStaging(p, staging);
  }

  lemma SysFileNotStaging(p: Param, staging: string)
    requires staging == ConfigStaging || staging == MsrConfigStaging
    ensures SysFile(p) != staging
  {
    assert SysFile(p)[1] == 's' && staging[1] == 't';
  }

  /** The kernel is handed a configuration path only outside bridge mode:
      the staging file when the text changed, otherwise the caller's path
      if one was passed. */
  lemma BlobPathWritten(cache: map<Param, Value>, a: SetArgs, p: Param, path: string)
    requires IsBlob(p)
    ensures var u := Updates(a)[Position(p)];
      (Write(SysFile(p), path) in SetOutcome(cache, a).writes)
        <==> (!a.usingAdb && (if Changes(cache, u) then path == u.staging else u.file == Some(path)))
  {
    var u := Updates(a)[Position(p)];
    UpdateOf(a, p);
    WritesOfOption(cache, a, p, Write(SysFile(p), path));
    StagingNotSysFile(a, Position(p), p);
  }

  /** Repeating a call with the same arguments changes nothing: the cache
      stays as it is and the only writes are the configuration paths the
      caller passed explicitly, so no plain option is written again. */
  lemma SetTwice(cache: map<Param, Value>, a: SetArgs)
    ensures var once := SetOutcome(cache, a).cache;
      SetOutcome(once, a) == Outcome(once,
        (if a.configFile.Some? && !a.usingAdb then [Write(SysFile(Config), a.configFile.value)] else [])
        + (if a.msrConfigFile.Some? && !a.usingAdb then [Write(SysFile(MsrConfig), a.msrConfigFile.value)] else []))
  {
    var once := SetOutcome(cache, a).cache;
    var us := Updates(a);
    UpdatesDistinct(a);
    forall k | 0 <= k < |us|
      ensures Lookup(once, us[k].param) == us[k].value || us[k].value.None?
    {
      SetCachesPassedValues(cache, a, us[k].param);
    }
    RepeatIsQuiet(once, us, a.usingAdb);
    UnchangedWritesScalars(ScalarUpdates(a), a.usingAdb);
    assert us[2..] == ScalarUpdates(a);
  }

  /** After a reset every passed plain option counts as a change and is written. */
  lemma ResetForcesWrites(a: SetArgs, p: Param)
    requires !IsBlob(p) && ArgFor(a, p).Some? && !a.usingAdb
    ensures Write(SysFile(p), Render(ArgFor(a, p).value)) in SetOutcome(map[], a).writes
  {
    ScalarWrittenIffChanged(map[], a, p, Render(ArgFor(a, p).value));
  }
}
