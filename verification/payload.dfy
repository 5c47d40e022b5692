/** Payload slots of `runNanoBench`: for each of code, init and one-time
    init, which file the kernel is given and which actions produce it. */
module Payload {
  import opened Wrappers
  import opened Effects
  import opened Assemble

  datatype Slot = Code | Init | OneTimeInit

  function SlotName(s: Slot): string {
    match s
    case Code => "code"
    case Init => "init"
    case OneTimeInit => "one_time_init"
  }

  /** The object file a source snippet is assembled into. */
  function ObjPath(s: Slot): string { Ramdisk + SlotName(s) + ".o" }

  /** The raw binary extracted from an object file. */
  function BinPath(s: Slot): string { Ramdisk + SlotName(s) + ".bin" }

  /** The kernel control file that receives the slot's binary path. */
  function SlotSysFile(s: Slot): string { "/sys/nb/" + SlotName(s) }

  const ClearFile := "/sys/nb/clear"

  /** Where a ready binary's path is written in bridge mode: the code slot
      uses the scratch directory, the init slot the relative path
      `tmp/ramdisk/init.bin`, and the one-time-init slot calls `writeFile`
      with a single argument, which raises a `TypeError`. */
  function BridgeBinTarget(s: Slot): Option<string> {
    match s
    case Code => Some(Ramdisk + "code.bin")
    case Init => Some("tmp/ramdisk/init.bin")
    case OneTimeInit => None
  }

  /** The three ways to supply one slot: source text (empty when absent),
      an object file, a binary file. */
  datatype SlotArgs = SlotArgs(source: string := "", objFile: Option<string> := None, binFile: Option<string> := None)

  datatype RunArgs = RunArgs(code: SlotArgs := SlotArgs(), init: SlotArgs := SlotArgs(), oneTimeInit: SlotArgs := SlotArgs())

  /** The binary path the kernel is given for a slot, if any: source text
      beats an object file, which beats a binary file. */
  function SlotFile(s: Slot, args: SlotArgs): Option<string> {
    if args.source != "" || args.objFile.Some? then Some(BinPath(s)) else args.binFile
  }

  /** The actions of a slot given a source or an object file: assemble the
      source (if any) into the slot's object file, extract the binary, and
      outside bridge mode hand its path to the kernel. */
  function ObjectEvents(s: Slot, args: SlotArgs, adb: bool): seq<IoEvent>
    requires args.source != "" || args.objFile.Some?
  {
    var assembled := args.source != "";
    var obj := if assembled then ObjPath(s) else args.objFile.value;
    var asm := if assembled then AssembleEvents(args.source, ObjPath(s), adb) else [];
    asm + [ObjcopyEvent(obj, BinPath(s), adb)]
    + (if adb then [] else [Write(SlotSysFile(s), BinPath(s))])
  }

  /** The actions of a slot given only a binary file `bin`, or the
      exception that stops them. */
  function BinaryEvents(s: Slot, bin: string, adb: bool): Result<seq<IoEvent>, Error> {
    if !adb then Ok([Write(SlotSysFile(s), bin)])
    else if BridgeBinTarget(s).Some? then Ok([Write(BridgeBinTarget(s).value, bin)])
    else Err(TypeError("writeFile"))
  }

  /** The actions one slot's three branches perform, or the exception that
      stops them. */
  function SlotEvents(s: Slot, args: SlotArgs, adb: bool): (r: Result<seq<IoEvent>, Error>)
    ensures r.Err? ==> adb && s == OneTimeInit && r.error == TypeError("writeFile")
    ensures args.source == "" && args.objFile.None? && args.binFile.None? ==> r == Ok([])
  {
    if args.source != "" || args.objFile.Some? then Ok(ObjectEvents(s, args, adb))
    else if args.binFile.Some? then BinaryEvents(s, args.binFile.value, adb)
    else Ok([])
  }

  /** The actions of the slot stage of a run, and the exception that cut
      it short if one did. */
  datatype Stage = Stage(events: seq<IoEvent>, error: Option<Error>)

  /** One more step of a stage: nothing happens once the stage has failed;
      otherwise the step's actions are appended, or its exception ends the
      stage. */
  function Then(stage: Stage, step: Result<seq<IoEvent>, Error>): Stage {
    if stage.error.Some? then stage
    else
      match step
      case Err(e) => Stage(stage.events, Some(e))
      case Ok(events) => Stage(stage.events + events, None)
  }

  /** A step taken after earlier actions `base` appends to them what it
      would append to the stage alone. */
  lemma ThenAfter(base: seq<IoEvent>, stage: Stage, step: Result<seq<IoEvent>, Error>)
    requires stage.error.None?
    ensures Then(Stage(base + stage.events, None), step)
         == Stage(base + Then(stage, step).events, Then(stage, step).error)
  {
    if step.Ok? {
      assert base + stage.events + step.value == base + (stage.events + step.value);
    }
  }

  /** The payload slots of a run with their arguments, in the order they
      are loaded. */
  function Slots(req: RunArgs): seq<(Slot, SlotArgs)> {
    [(Code, req.code), (Init, req.init), (OneTimeInit, req.oneTimeInit)]
  }

  /** The slots loaded one after the other, starting from `stage`. */
  function StageOf(stage: Stage, slots: seq<(Slot, SlotArgs)>, adb: bool): (r: Stage)
    ensures stage.events <= r.events
    ensures r.error.Some? ==> r.error == stage.error || (adb && r.error == Some(TypeError("writeFile")))
    decreases |slots|
  {
    if slots == [] then stage
    else StageOf(Then(stage, SlotEvents(slots[0].0, slots[0].1, adb)), slots[1..], adb)
  }

  /** Clearing the kernel's previous payloads (outside bridge mode), then
      the code, init and one-time-init slots in that order. */
  function SlotStage(req: RunArgs, adb: bool): (st: Stage)
    ensures (if adb then [] else [Read(ClearFile)]) <= st.events
    ensures st.error.Some? ==> adb && st.error.value == TypeError("writeFile")
  {
    var clear := if adb then [] else [Read(ClearFile)];
    StageOf(Stage(clear, None), Slots(req), adb)
  }

  /** The stage of a whole run, one slot at a time. */
  lemma SlotStageSteps(req: RunArgs, adb: bool)
    ensures SlotStage(req, adb)
         == Then(Then(Then(Stage(if adb then [] else [Read(ClearFile)], None),
              SlotEvents(Code, req.code, adb)),
              SlotEvents(Init, req.init, adb)),
              SlotEvents(OneTimeInit, req.oneTimeInit, adb))
  {
    var slots := Slots(req);
    var s0 := Stage(if adb then [] else [Read(ClearFile)], None);
    var s1 := Then(s0, SlotEvents(Code, req.code, adb));
    var s2 := Then(s1, SlotEvents(Init, req.init, adb));
    var s3 := Then(s2, SlotEvents(OneTimeInit, req.oneTimeInit, adb));
    assert StageOf(s0, slots, adb) == StageOf(s1, slots[1..], adb);
    assert slots[1..] == [(Init, req.init), (OneTimeInit, req.oneTimeInit)];
    assert StageOf(s1, slots[1..], adb) == StageOf(s2, slots[2..], adb);
    assert slots[2..] == [(OneTimeInit, req.oneTimeInit)];
    assert StageOf(s2, slots[2..], adb) == StageOf(s3, [], adb);
  }

  lemma SlotSysFileNotRead(s: Slot)
    ensures SlotSysFile(s) != ClearFile
  {
    assert SlotSysFile(s)[8] != ClearFile[8] || SlotSysFile(s)[9] != ClearFile[9];
  }

  /** Slot precedence, outside bridge mode: the slot never fails; it writes
      its control file once, as its last action, with the path `SlotFile`
      chooses, and performs nothing at all when no payload is given. */
  lemma LocalSlotHandoff(s: Slot, args: SlotArgs)
    ensures SlotEvents(s, args, false).Ok?
    ensures var ev := SlotEvents(s, args, false).value;
      && (SlotFile(s, args).None? <==> ev == [])
      && (SlotFile(s, args).Some? ==>
            ev[|ev| - 1] == Write(SlotSysFile(s), SlotFile(s, args).value)
            && forall k :: 0 <= k < |ev| - 1 ==> !(ev[k].Write? && ev[k].path == SlotSysFile(s)))
  {
    var ev := SlotEvents(s, args, false).value;
    if args.source != "" {
      var asm := AssembleEvents(args.source, ObjPath(s), false);
      assert asm[0].path == "/tmp/ramdisk/asm.s";
      assert SlotSysFile(s)[1] == 's' && asm[0].path[1] == 't';
    }
  }

  /** A non-empty source wins over any object or binary file: it is
      assembled into the slot's object file, and that object file (not the
      caller's) is the one extracted into the slot's binary. */
  lemma SourceWins(s: Slot, args: SlotArgs, adb: bool)
    requires args.source != ""
    ensures SlotFile(s, args) == Some(BinPath(s))
    ensures SlotEvents(s, args, adb).Ok?
    ensures var ev := SlotEvents(s, args, adb).value;
      && ev[..2] == AssembleEvents(args.source, ObjPath(s), adb)
      && ev[2] == ObjcopyEvent(ObjPath(s), BinPath(s), adb)
      && UnwrapSource(ev[0].content, adb) == Some(args.source)
  {
    var asm := AssembleEvents(args.source, ObjPath(s), adb);
    var rest := [ObjcopyEvent(ObjPath(s), BinPath(s), adb)]
      + (if adb then [] else [Write(SlotSysFile(s), BinPath(s))]);
    assert ObjectEvents(s, args, adb) == asm + rest;
    assert (asm + rest)[..2] == asm;
  }

  /** Without a source, an object file wins over a binary file. */
  lemma ObjectBeatsBinary(s: Slot, args: SlotArgs, adb: bool)
    requires args.source == "" && args.objFile.Some?
    ensures SlotFile(s, args) == Some(BinPath(s))
    ensures SlotEvents(s, args, adb).Ok?
    ensures SlotEvents(s, args, adb).value[0] == ObjcopyEvent(args.objFile.value, BinPath(s), adb)
  {
  }

  /** In bridge mode a binary file's path is written as the contents of the
      slot's scratch file (a relative one for init), and for the one-time
      init slot the call fails. */
  lemma BridgeBinary(s: Slot, args: SlotArgs)
    requires args.source == "" && args.objFile.None? && args.binFile.Some?
    ensures SlotEvents(s, args, true) ==
      match s
      case Code => Ok([Write("/tmp/ramdisk/code.bin", args.binFile.value)])
      case Init => Ok([Write("tmp/ramdisk/init.bin", args.binFile.value)])
      case OneTimeInit => Err(TypeError("writeFile"))
  {
    assert Ramdisk + "code.bin" == "/tmp/ramdisk/code.bin";
  }

  /** Outside bridge mode the stage starts by reading the clear file, so it
      precedes every slot write, and it never fails. */
  lemma LocalStageClearsFirst(req: RunArgs)
    ensures SlotStage(req, false).error.None?
    ensures var ev := SlotStage(req, false).events;
      |ev| >= 1 && ev[0] == Read(ClearFile)
  {
    SlotStageSteps(req, false);
    LocalSlotHandoff(Code, req.code);
    LocalSlotHandoff(Init, req.init);
    LocalSlotHandoff(OneTimeInit, req.oneTimeInit);
  }

  /** The only way the stage fails: a binary file for the one-time-init
      slot in bridge mode. */
  lemma StageFailsOnlyThere(req: RunArgs, adb: bool)
    ensures SlotStage(req, adb).error.Some?
        <==> (adb && req.oneTimeInit.source == "" && req.oneTimeInit.objFile.None? && req.oneTimeInit.binFile.Some?)
  {
    SlotStageSteps(req, adb);
    if !adb {
      LocalStageClearsFirst(req);
    }
  }
}
