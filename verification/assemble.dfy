/** The string side of `assemble` and `objcopy`: the benchmark snippet is
    wrapped into a complete assembler file, which an external assembler
    turns into an object file and `objcopy` into a raw binary. */
module Assemble {
  import opened Wrappers
  import opened Effects

  const AsmFile := "/tmp/ramdisk/asm.s"

  /** Text placed before the snippet: Intel syntax locally, the ARMv8-A
      architecture directive for the device. */
  function Prologue(adb: bool): string {
    if adb then ".arch armv8-a\n" else ".intel_syntax noprefix;"
  }

  /** Text placed after the snippet: the local label `1:` and, locally, a
      switch back to AT&T syntax. */
  function Epilogue(adb: bool): string {
    if adb then ";1:;\n" else ";1:;.att_syntax prefix\n"
  }

  /** The assembler file written for a snippet. */
  function WrapSource(code: string, adb: bool): (text: string)
    ensures |text| == |Prologue(adb)| + |code| + |Epilogue(adb)|
  {
    Prologue(adb) + code + Epilogue(adb)
  }

  /** Recovers the snippet from an assembler file, if it has the shape
      `WrapSource` produces. */
  function UnwrapSource(text: string, adb: bool): Option<string> {
    var p, e := Prologue(adb), Epilogue(adb);
    if |text| >= |p| + |e| && text[..|p|] == p && text[|text| - |e|..] == e
    then Some(text[|p|..|text| - |e|])
    else None
  }

  /** The snippet survives wrapping verbatim: unwrapping gives it back. */
  lemma UnwrapWrap(code: string, adb: bool)
    ensures UnwrapSource(WrapSource(code, adb), adb) == Some(code)
  {
    var p, e, text := Prologue(adb), Epilogue(adb), WrapSource(code, adb);
    assert text[..|p|] == p;
    assert text[|text| - |e|..] == e;
    assert text[|p|..|text| - |e|] == code;
  }

  /** Different snippets give different assembler files. */
  lemma WrapInjective(c1: string, c2: string, adb: bool)
    requires WrapSource(c1, adb) == WrapSource(c2, adb)
    ensures c1 == c2
  {
    UnwrapWrap(c1, adb);
    UnwrapWrap(c2, adb);
  }

  function Assembler(adb: bool): string {
    if adb then "aarch64-linux-android-as" else "as"
  }

  function ObjcopyTool(adb: bool): string {
    if adb then "aarch64-linux-android-objcopy" else "objcopy"
  }

  /** `assemble(code, objFile)`: write the wrapped snippet to the scratch
      assembler file, then run the assembler from that file into `objFile`. */
  function AssembleEvents(code: string, objFile: string, adb: bool): (events: seq<IoEvent>)
    ensures |events| == 2
    ensures events[0].Write? && events[0].path == AsmFile
    ensures UnwrapSource(events[0].content, adb) == Some(code)
    ensures events[1].Run? && |events[1].argv| == 4 && events[1].argv[1..] == [AsmFile, "-o", objFile]
  {
    UnwrapWrap(code, adb);
    [Write(AsmFile, WrapSource(code, adb)), Run([Assembler(adb), AsmFile, "-o", objFile])]
  }

  /** `objcopy(sourceFile, targetFile)`: extract the raw binary of an object file. */
  function ObjcopyEvent(sourceFile: string, targetFile: string, adb: bool): IoEvent {
    Run([ObjcopyTool(adb), sourceFile, "-O", "binary", targetFile])
  }
}
