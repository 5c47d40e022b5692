/** Values, exceptions and the externally visible effects of the driver.
    File I/O, tool invocations and the device bridge are not performed:
    each one becomes an `IoEvent` appended to a log. */
module Effects {
  import opened Wrappers
  import opened PyStr

  const Ramdisk := "/tmp/ramdisk/"
  const RemoteDir := "/data/local/tmp/"
  const Aarch64BinPath := "../../user/libs/arm64-v8a/"

  /** A Python value held in the parameter cache or placed in a command line. */
  datatype Value = Int(i: int) | Bool(b: bool) | Str(s: string)

  /** The exceptions that end an operation of the driver. */
  datatype Error =
    | KeyError(key: string)        // a dictionary lookup of an absent key
    | TypeError(operation: string) // a call with the wrong number of arguments, '+' on a str and a
                                   // non-str, or a non-string item in a command's argument list
    | ValueError(text: string)     // `int(text)` or `float(text)` rejected its argument
    | IndexError                   // a list index past the end

  /** One externally visible action, in the order the driver performs it. */
  datatype IoEvent =
    | Write(path: string, content: string)   // writeFile(path, content)
    | Read(path: string)                     // open(path) followed by read()
    | Run(argv: seq<string>)                 // a local tool run by subprocess
    | Push(local: string, remote: string)    // adbPush(local, remote)
    | Pull(remote: string, local: string)    // adbPull(remote, local)
    | Shell(cmd: seq<string>)                // adbExec(cmd), i.e. `adb shell` followed by cmd

  /** The exception `subprocess` raises before starting a command whose
      argument list holds something other than a string. */
  const ArgvTypeError := TypeError("argv")

  predicate AllStr(cmd: seq<Value>) {
    forall k :: 0 <= k < |cmd| ==> cmd[k].Str?
  }

  /** The argument list `subprocess` accepts: the strings of `cmd`, or
      `None` when one of its items is an integer or a boolean. */
  function Argv(cmd: seq<Value>): (r: Option<seq<string>>)
    ensures r.Some? <==> AllStr(cmd)
    ensures r.Some? ==> |r.value| == |cmd| && forall k :: 0 <= k < |cmd| ==> r.value[k] == cmd[k].s
    decreases |cmd|
  {
    if cmd == [] then Some([])
    else if !cmd[0].Str? then None
    else
      match Argv(cmd[1..])
      case None => None
      case Some(rest) => Some([cmd[0].s] + rest)
  }

  /** An argument list holds only strings exactly when each of its parts does. */
  lemma AllStrAppend(a: seq<Value>, b: seq<Value>)
    ensures AllStr(a + b) <==> AllStr(a) && AllStr(b)
  {
    if AllStr(a) && AllStr(b) {
      forall k | 0 <= k < |a + b| ensures (a + b)[k].Str? {
        if k >= |a| { assert (a + b)[k] == b[k - |a|]; }
      }
    }
    if AllStr(a + b) {
      forall k | 0 <= k < |a| ensures a[k].Str? { assert (a + b)[k] == a[k]; }
      forall k | 0 <= k < |b| ensures b[k].Str? { assert (a + b)[|a| + k] == b[k]; }
    }
  }

  /** The text written to a control file for a cached value: `str(n)` for an
      integer, `str(int(b))` for a boolean, the string itself for a string. */
  function Render(v: Value): (text: string)
    ensures v.Int? ==> ParseInt(text) == Some(v.i)
    ensures v.Bool? ==> ParseInt(text) == Some(if v.b then 1 else 0) && |text| == 1
    ensures v.Str? ==> text == v.s
  {
    match v
    case Int(n) => ParseIntDecimal(n); IntToDecimal(n)
    case Bool(b) => if b then "1" else "0"
    case Str(s) => s
  }

  /** Two integers or two booleans are written as the same text only when
      they are the same value, so the kernel can tell every change apart. */
  lemma RenderInjective(v: Value, w: Value)
    requires (v.Int? && w.Int?) || (v.Bool? && w.Bool?) || (v.Str? && w.Str?)
    ensures Render(v) == Render(w) <==> v == w
  {
  }
}
