# nanoBench kernel driver in Dafny

This project models `kernelNanoBench.py`, the Python driver of nanoBench.
nanoBench runs a small assembler snippet under a kernel module and reports
the module's performance counters. The driver has four jobs, each modelled here:

- **Option cache** (`setNanoBenchParameters`, `resetNanoBench`). A
  module-level dictionary `paramDict` holds the last value passed for each
  option. A call propagates only the values that changed to the kernel's
  control files under `/sys/nb/`. A configuration text is first staged in
  the scratch ramdisk `/tmp/ramdisk/`, and the kernel is given its path.
- **Payload slots** (`runNanoBench`). The code, init and one-time init
  slots each take a source snippet (assembled and extracted), an object
  file (extracted) or a ready binary. A source beats an object file, and
  an object file beats a binary.
- **Counter report** (`runNanoBench`). The kernel's output is split into
  lines. Every line with a `:` gives a counter name and a value, and these
  are collected in an ordered dictionary.
- **Device bridge** (`adbRunNanoBench`). In bridge mode the payload, the
  configuration and the benchmark binary are pushed to an Android device.
  A command line is built from the cache and handed to `adb shell`. When
  it runs, the result file is pulled back and the device directory
  cleaned. The cached counts and modes go onto that command line as
  integers and booleans, which `subprocess` refuses. So with a cache filled by
  `setNanoBenchParameters` the run stops with a `TypeError` after the
  pushes and never reaches the device (`Adb.TypedSessionFails`).

The module globals (`USING_ADB`, `ramdiskCreated`, `paramDict`, the
memoised `getR14Size.r14Size`) are the fields of the class
`KernelNanoBench.NanoBench`. Its methods follow the source statement by
statement.

Every file write, file read, tool run and bridge action is appended to a
`log` field as an `IoEvent`. What a method does to the outside world is
therefore stated as the exact sequence of events it appends. The texts
the driver reads are method parameters: the r14 control file, the kernel
module's `/proc/nanoBench` output and the bridge's result file.

Each imperative method is proved against a pure specification function:
- `SetOutcome` is a fold over the thirteen guarded blocks.
- `SlotStage` is a fold over the three slots.
- `AdbSession` and `AdbQuery` describe the bridge run.
- `Parse` describes the report.
- `R14Size` describes the r14 read.

The lemmas then state what the source promises about those functions.

Modules, one per file:

| file | module | models |
|---|---|---|
| wrappers.dfy | `Wrappers` | `Option`, `Result` |
| pystr.dfy | `PyStr` | the `str` methods the driver relies on: `strip`, `split(sep)`, `split()`, `readline`, `int`, `str(int)` |
| effects.dfy | `Effects` | values, Python exceptions, `IoEvent`, the text written for a value |
| assemble.dfy | `Assemble` | the snippet wrapping of `assemble`, the assembler and `objcopy` invocations |
| params.dfy | `Params` | the blocks of `setNanoBenchParameters` as a fold over the cache |
| payload.dfy | `Payload` | slot precedence and the slot stage of `runNanoBench` |
| report.dfy | `Report` | the counter report and the loop that builds it |
| adb.dfy | `Adb` | pushes, command line and clean-up of `adbRunNanoBench` |
| r14.dfy | `R14` | `getR14Size` arithmetic |
| nanobench.dfy | `KernelNanoBench` | the class holding the module state and every entry point |

Behaviour of the code that a reader might not expect, and that the model
keeps:
- A false boolean is still placed on the device command line, with its
  value after `-basic_mode`, `-no_mem` or `-verbose` (`Adb.QueryFlag`).
- The device command line names all three payload binaries, whether or
  not a slot was given (`Adb.QueryPaths`).
- Giving two payload kinds for one slot is not an error. The source beats
  the object file and the object file beats the binary
  (`Payload.SourceWins`, `Payload.ObjectBeatsBinary`).
- A bridge run without a configuration first pushes the three payload
  binaries and only then raises `KeyError('config')`
  (`Adb.SessionFailsIff`, `Adb.EmptyCacheStops`).
- A counter line whose value is not a number raises the `ValueError` of
  `float` on the value text (`Report.ParseErrorNamesLine`).
- The device command line carries the ten options it reads
  (`Adb.QueryParams`), whether or not they changed in the last call
  (`Adb.QueryFlag`).
- In bridge mode `runNanoBench` calls `adbRunNanoBench(paramDict)`, but
  `adbRunNanoBench` takes no argument. The call therefore raises
  `TypeError` before the bridge does anything
  (`KernelNanoBench.NanoBench.RunNanoBench`). `AdbRunNanoBench` is still
  modelled as written, for a caller that invokes it directly.

## Model

| member | source | states |
|---|---|---|
| KernelNanoBench.NanoBench.constructor | kernelNanoBench.py:91-92 | the freshly loaded module (`USING_ADB` is false on line 6) is in local mode, with no ramdisk, an empty cache, nothing memoised and nothing done yet |
| KernelNanoBench.NanoBench.WriteFile | kernelNanoBench.py:14-16 | writing a file appends exactly that write and changes no other state |
| KernelNanoBench.NanoBench.ReadFile | kernelNanoBench.py:189 | opening and reading a file appends exactly that read |
| KernelNanoBench.NanoBench.Execute | kernelNanoBench.py:23 | a tool run appends exactly that run |
| KernelNanoBench.NanoBench.Assemble | kernelNanoBench.py:18-28 | the log gains the write of the wrapped snippet to `asm.s`, then the target's assembler from `asm.s` into `objFile` |
| KernelNanoBench.NanoBench.Objcopy | kernelNanoBench.py:35-40 | the log gains the target's `objcopy` from `sourceFile` to a raw binary `targetFile` |
| KernelNanoBench.ShellCommand | kernelNanoBench.py:291-301 | a `shell=True` command runs as `/bin/sh -c` with the whole command text as one argument, which the shell splits |
| KernelNanoBench.NanoBench.CreateRamdisk | kernelNanoBench.py:289-293 | the mount command runs through the shell and the ramdisk is marked created |
| KernelNanoBench.NanoBench.DeleteRamdisk | kernelNanoBench.py:298-301 | the lazy unmount runs exactly when this process created the ramdisk |
| KernelNanoBench.NanoBench.SetBlob | kernelNanoBench.py:104-118 | one configuration block moves the cache and the log exactly as the block's step of the fold does, and keeps the rest of the call on track |
| KernelNanoBench.NanoBench.SetScalar | kernelNanoBench.py:120-184 | one plain-option block moves the cache and the log exactly as the block's step of the fold does |
| KernelNanoBench.NanoBench.SetConfigs | kernelNanoBench.py:104-118 | the two configuration blocks leave the cache and the log exactly as the fold over those two blocks does, and the remaining eleven blocks still lead to the call's outcome |
| KernelNanoBench.NanoBench.SetCounts | kernelNanoBench.py:120-136 | the measurement, unroll and loop count blocks leave the cache and the log exactly as the fold over those three blocks does, and the remaining blocks still lead to the call's outcome |
| KernelNanoBench.NanoBench.SetWarmUps | kernelNanoBench.py:138-160 | the two warm-up and the two offset blocks leave the cache and the log exactly as the fold over those four blocks does, and the remaining blocks still lead to the call's outcome |
| KernelNanoBench.NanoBench.SetModes | kernelNanoBench.py:162-184 | the aggregate function and the three flag blocks leave the cache and the log exactly as the fold over those four blocks does; nothing remains, so cache and log are the call's outcome |
| KernelNanoBench.NanoBench.SetBlocks | kernelNanoBench.py:104-184 | the thirteen blocks in order leave the cache and the log exactly where the fold over all of them takes them |
| KernelNanoBench.NanoBench.SetNanoBenchParameters | kernelNanoBench.py:96-184 | records the bridge flag, mounts the ramdisk once, leaves the cache equal to `SetOutcome` of the old cache and appends exactly its writes; a well-typed cache stays well-typed |
| KernelNanoBench.NanoBench.ResetNanoBench | kernelNanoBench.py:187-190 | empties the cache and reads `/sys/nb/reset` only outside bridge mode |
| KernelNanoBench.NanoBench.GetR14Size | kernelNanoBench.py:55-61 | the first successful call reads the control file once and memoises `R14Size` of its text; later calls return the memoised size without any I/O; a failed read memoises nothing |
| KernelNanoBench.NanoBench.ReadR14Size | kernelNanoBench.py:56-59 | reads the control file once and returns `R14Size` of its text, exception included; nothing else changes |
| KernelNanoBench.NanoBench.Memoise | kernelNanoBench.py:60 | stores a size of whole MiB as the memoised r14 size, keeping the class invariant, and changes nothing else |
| KernelNanoBench.NanoBench.AdbPush | kernelNanoBench.py:64-66 | appends the push |
| KernelNanoBench.NanoBench.AdbPull | kernelNanoBench.py:72-74 | appends the pull |
| KernelNanoBench.NanoBench.AdbExec | kernelNanoBench.py:80-88 | runs `adb shell` with the command exactly when every item of the command is a string; otherwise raises the uncaught `TypeError` of `subprocess` and runs nothing |
| KernelNanoBench.NanoBench.ReadOption | kernelNanoBench.py:206-216 | `paramDict[key]` fails exactly when the key is absent, and then its `KeyError` is the first problem of the whole command line |
| KernelNanoBench.NanoBench.AddCounts | kernelNanoBench.py:206-211 | either raises the first problem of the command line, or appends the six counts, each flag followed by its cached value |
| KernelNanoBench.NanoBench.AddModes | kernelNanoBench.py:212-216 | either raises the first problem (an absent key, or `TypeError` for a non-string aggregate function), or appends the aggregate flag, the two mode flags, `-cpu 0` and the verbosity flag |
| KernelNanoBench.NanoBench.BuildQuery | kernelNanoBench.py:200-216 | the command line built step by step is `AdbQuery` of the cache, error included |
| KernelNanoBench.NanoBench.PushPayload | kernelNanoBench.py:194-196 | the three payload binaries are pushed in slot order |
| KernelNanoBench.NanoBench.PushConfig | kernelNanoBench.py:197-199 | the configuration and then the benchmark binary are pushed |
| KernelNanoBench.NanoBench.FetchResult | kernelNanoBench.py:217-221 | either stops with the `TypeError` of the argument list before anything runs, or runs the command line, pulls the result file, cleans the device directory, reads the result and returns its text |
| KernelNanoBench.NanoBench.AdbRunNanoBench | kernelNanoBench.py:193-221 | the log gains exactly `AdbSession(paramDict).events` and the result is that session's exception or the result file's text; the cache is untouched |
| KernelNanoBench.NanoBench.LoadObject | kernelNanoBench.py:232-238 | a source is assembled into the slot's object file, the object file is extracted to the slot's binary, and that path goes to the slot's control file outside bridge mode |
| KernelNanoBench.NanoBench.LoadBinary | kernelNanoBench.py:239-269 | a binary path goes to the slot's control file outside bridge mode; in bridge mode it goes to the code scratch file or the relative `tmp/ramdisk/init.bin`, and the one-time init slot raises `TypeError` |
| KernelNanoBench.NanoBench.LoadSlot | kernelNanoBench.py:232-243 | the log and the exception of one slot are exactly one `Then` step of `SlotEvents` |
| KernelNanoBench.NanoBench.LoadSlotAfter | kernelNanoBench.py:245-256 | a slot loaded after earlier actions extends the log exactly as the stage grows |
| KernelNanoBench.NanoBench.LoadSlots | kernelNanoBench.py:229-269 | the clear read and the three slots append exactly `SlotStage(req).events` and raise exactly `SlotStage(req).error` |
| KernelNanoBench.NanoBench.RunNanoBench | kernelNanoBench.py:225-286 | mounts once, runs the slot stage, then either stops with the stage's exception, or in bridge mode raises `TypeError`, or reads `/proc/nanoBench` once and returns `Parse` of its lines; the cache is untouched |
| Effects.Render | kernelNanoBench.py:123-183 | the text written for an integer reads back through `int` as that integer; a boolean is written as the one character `1` or `0`; a string verbatim |
| Effects.RenderInjective | kernelNanoBench.py:120-184 | two different integers, booleans or strings are never written as the same text |
| Effects.Argv | kernelNanoBench.py:82 | the argument list `subprocess` accepts: defined exactly when every item is a string, and then those strings in order |
| Effects.AllStrAppend | kernelNanoBench.py:82 | `['adb', 'shell'] + cmd` holds only strings exactly when both parts do |
| Assemble.WrapSource | kernelNanoBench.py:21-25 | the assembler file is exactly prologue, snippet and epilogue long |
| Assemble.UnwrapWrap | kernelNanoBench.py:21-25 | the snippet is recovered verbatim from the assembler file for either target |
| Assemble.WrapInjective | kernelNanoBench.py:21-25 | different snippets give different assembler files |
| Assemble.AssembleEvents | kernelNanoBench.py:18-28 | two actions: the write of `asm.s`, whose content unwraps back to the snippet, then the assembler from `asm.s` to `objFile` |
| PyStr.TrimStart | kernelNanoBench.py:282-283 | `lstrip`: the longest suffix not starting with whitespace, after whitespace only |
| PyStr.TrimEnd | kernelNanoBench.py:282-283 | `rstrip`: the longest prefix not ending with whitespace, before whitespace only |
| PyStr.Strip | kernelNanoBench.py:282-283 | `strip`: the text is the result padded with whitespace on both sides, and the result neither starts nor ends with whitespace |
| PyStr.StripPadded | kernelNanoBench.py:282-283 | stripping any whitespace padding recovers the text in between |
| PyStr.TrimStartPadded | kernelNanoBench.py:282-283 | leading whitespace is removed up to the first other character |
| PyStr.TrimEndPadded | kernelNanoBench.py:282-283 | trailing whitespace is removed back to the last other character |
| PyStr.Split | kernelNanoBench.py:281 | `split(sep)`: at least one piece, no piece holds the separator, and there are two or more pieces exactly when the text holds it |
| PyStr.SplitAt | kernelNanoBench.py:281-282 | the first piece is the text before the first separator |
| PyStr.SplitNoSep | kernelNanoBench.py:281 | a text without the separator is one piece |
| PyStr.JoinSplit | kernelNanoBench.py:281 | joining the pieces with the separator gives back the text |
| PyStr.SplitJoin | kernelNanoBench.py:281 | splitting a join of separator-free pieces gives back the pieces |
| PyStr.WordLength | kernelNanoBench.py:59 | the leading run without whitespace ends at whitespace or at the end |
| PyStr.Words | kernelNanoBench.py:59 | `split()`: every element is a non-empty run without whitespace |
| PyStr.WordsJoin | kernelNanoBench.py:59 | words joined by single spaces split back into the same words |
| PyStr.WordAtStart | kernelNanoBench.py:59 | a word at the start of the text, followed by whitespace or the end, is the first word |
| PyStr.ThirdWord | kernelNanoBench.py:59 | the third of three space-separated words is element 2 of `split()` |
| PyStr.TwoWords | kernelNanoBench.py:59 | two space-separated words followed by whitespace give exactly two elements |
| PyStr.AllSpaceNoWords | kernelNanoBench.py:59 | whitespace alone has no words |
| PyStr.ReadLine | kernelNanoBench.py:58 | `readline`: a prefix of the text that ends at its first newline, or the whole text when it has none |
| PyStr.ReadLineOf | kernelNanoBench.py:58 | the first line is read up to its newline whatever follows |
| PyStr.NatToDecimal | kernelNanoBench.py:123 | decimal digits without a leading zero |
| PyStr.IntToDecimal | kernelNanoBench.py:123-159 | `str(n)`: a minus sign exactly for a negative number, then decimal digits |
| PyStr.ParseInt | kernelNanoBench.py:59 | `int`: a token is accepted exactly when it is decimal digits after an optional sign, with at least one digit; a negative result needs a leading `-` |
| PyStr.ParseIntDecimal | kernelNanoBench.py:59 | `int(str(n)) == n` for every integer |
| PyStr.ParseNatural | kernelNanoBench.py:59 | the digits of a natural number read back as it |
| PyStr.ParseNegative | kernelNanoBench.py:59 | a minus sign before the digits of a natural number reads back as its negation |
| PyStr.DecimalIsWord | kernelNanoBench.py:59 | `str(n)` is a single word without `:` |
| R14.R14Size | kernelNanoBench.py:55-61 | the size is a whole number of MiB; the only failures are the `IndexError` of `[2]` and the `ValueError` of `int` on a word that is not an integer |
| R14.R14SizeOfLine | kernelNanoBench.py:57-60 | a first line whose third word is `str(mb)` gives `mb * 1024 * 1024`, whatever else the file holds |
| R14.R14SizeFirstLineOnly | kernelNanoBench.py:58 | only the first line of the file matters |
| R14.R14SizeShortLine | kernelNanoBench.py:59 | a first line of two words raises `IndexError` |
| R14.R14SizeBadNumber | kernelNanoBench.py:59 | a third word that is not an integer raises the `ValueError` of `int` on that word |
| Params.Position | kernelNanoBench.py:104-184 | each option's block has one of thirteen positions |
| Params.ArgFor | kernelNanoBench.py:96-98 | a passed value has its option's kind |
| Params.Updates | kernelNanoBench.py:104-184 | thirteen blocks, block `i` handling the option at position `i` with the value the call passes for it |
| Params.ScalarUpdates | kernelNanoBench.py:120-184 | the eleven blocks after the configurations are plain |
| Params.Apply | kernelNanoBench.py:104-184 | one block: its option holds the passed value afterwards, so passing the cached value is the same as setting it, or is untouched when none is passed; no other option changes; in bridge mode a plain block writes nothing |
| Params.ApplyAll | kernelNanoBench.py:104-184 | the blocks run in order never remove a cached option, and each block writes at most two files |
| Params.ApplyAllFrame | kernelNanoBench.py:104-184 | an option that no block passes a value for keeps its cached entry |
| Params.ApplyAllSnoc | kernelNanoBench.py:104-184 | one more block after a run of blocks starts from the cache they left and appends its writes to theirs |
| Params.ApplyAllExtend | kernelNanoBench.py:104-184 | the blocks `i` to `k` are the blocks `i` to `k - 1` followed by block `k` |
| Params.SetOutcome | kernelNanoBench.py:94-184 | a call leaves the old cache overridden by exactly the passed values, and writes what each block would write against the cache on entry |
| Params.ApplyWritesLocal | kernelNanoBench.py:104-184 | what a block writes depends only on its own option's cached value |
| Params.ApplyWritesPaths | kernelNanoBench.py:104-184 | a block writes only its option's control file or its staging file |
| Params.GivenAt | kernelNanoBench.py:104-184 | the reference map of passed values holds each block's value |
| Params.CacheAfterApplyAll | kernelNanoBench.py:104-184 | after the blocks the cache is the old cache overridden by exactly the passed values |
| Params.WritesIndependent | kernelNanoBench.py:104-184 | the blocks write what each would write against the cache on entry |
| Params.InIndependentWrites | kernelNanoBench.py:104-184 | an action is among those writes exactly when some block writes it |
| Params.RepeatIsQuiet | kernelNanoBench.py:94-184 | blocks whose values are already cached change nothing and write only the caller's configuration paths |
| Params.UpdatesDistinct | kernelNanoBench.py:104-184 | no option has two blocks |
| Params.UpdateOf | kernelNanoBench.py:104-184 | every option has its block at its position, carrying the passed value, a configuration block exactly for the two configurations |
| Params.SetCachesPassedValues | kernelNanoBench.py:120-184 | after a call an option passed a value holds it; any other keeps its entry or stays absent |
| Params.SetKeepsWellTyped | kernelNanoBench.py:96-184 | a call keeps every cached value of its option's kind |
| Params.WritesOfOption | kernelNanoBench.py:104-184 | a write to an option's control or staging file is in the call's writes exactly when that option's block makes it |
| Params.WriterIsOwner | kernelNanoBench.py:104-184 | only an option's own block writes its control or staging file |
| Params.SysFileInjective | kernelNanoBench.py:110-183 | different options have different control files |
| Params.StagingNotSysFile | kernelNanoBench.py:106-118 | a staging file is never a control file |
| Params.ScalarWrittenIffChanged | kernelNanoBench.py:120-184 | a plain option's control file is written exactly when a value is passed, differs from the cached one and the bridge is off, and the text is the value's rendering |
| Params.BlobStagedIffChanged | kernelNanoBench.py:104-116 | a configuration text is staged exactly when it is passed and differs from the cached one, whatever the bridge flag |
| Params.BlobPathWritten | kernelNanoBench.py:104-118 | outside bridge mode the kernel gets the staging path when the text changed, otherwise the caller's path if any; in bridge mode nothing |
| Params.SetTwice | kernelNanoBench.py:94-184 | repeating a call leaves the cache as it is and writes only the caller's configuration paths, so no plain option is written again |
| Params.ResetForcesWrites | kernelNanoBench.py:187-190 | after a reset every passed plain option is written |
| Payload.SlotEvents | kernelNanoBench.py:232-269 | a slot fails only in bridge mode, only for the one-time init slot, and then with `TypeError`; a slot given nothing does nothing |
| Payload.StageOf | kernelNanoBench.py:232-269 | loading slots only appends to the actions so far, and the only new exception is the bridge mode `TypeError` |
| Payload.SlotStage | kernelNanoBench.py:229-269 | outside bridge mode the clear read comes first; the only exception of the stage is `TypeError`, in bridge mode |
| Payload.ThenAfter | kernelNanoBench.py:232-269 | a step after earlier actions appends what it appends to the stage alone |
| Payload.SlotSysFileNotRead | kernelNanoBench.py:230-238 | the clear file is no slot's control file |
| Payload.LocalSlotHandoff | kernelNanoBench.py:232-267 | outside bridge mode a slot never fails; it writes its control file once, last, with the path `SlotFile` chooses, and does nothing when no payload is given |
| Payload.SourceWins | kernelNanoBench.py:232-236 | a non-empty source is assembled into the slot's object file, which is the one extracted, whatever object or binary file was also given |
| Payload.ObjectBeatsBinary | kernelNanoBench.py:235-239 | without a source an object file is extracted and a binary file is ignored |
| Payload.BridgeBinary | kernelNanoBench.py:239-269 | in bridge mode a binary path is written into `/tmp/ramdisk/code.bin`, into the relative `tmp/ramdisk/init.bin`, or raises `TypeError` for the one-time init slot |
| Payload.LocalStageClearsFirst | kernelNanoBench.py:229-230 | outside bridge mode the stage never fails and reads `/sys/nb/clear` before anything else |
| Payload.StageFailsOnlyThere | kernelNanoBench.py:265-269 | the stage fails exactly for a one-time init binary file in bridge mode |
| Report.Put | kernelNanoBench.py:284 | `d[k] = v`: a new key goes last, an existing key keeps its place, the value is replaced, and keys stay unique |
| Report.ParseLine | kernelNanoBench.py:280-284 | one line keeps the ordered dictionary well formed |
| Report.Parse | kernelNanoBench.py:278-285 | the report is a well-formed ordered dictionary |
| Report.ParseErrorSticks | kernelNanoBench.py:283 | once a value text is rejected the later lines do not matter |
| Report.ParseCounters | kernelNanoBench.py:278-286 | the `for` loop returns exactly `Parse` of the lines |
| Report.FirstSeenNoDuplicates | kernelNanoBench.py:284 | first appearances are unique and cover every name |
| Report.ParseKeys | kernelNanoBench.py:278-284 | the keys are the counter names in order of first appearance, each once |
| Report.ParseValues | kernelNanoBench.py:284 | a counter's value is the parse of the value text of its last line; a name never seen is absent |
| Report.ParseOkIff | kernelNanoBench.py:283 | the report exists exactly when every value text parses |
| Report.ParseErrorNamesLine | kernelNanoBench.py:283 | a failure is the `ValueError` of the first value text that does not parse |
| Report.ParseSkipsPlainLine | kernelNanoBench.py:280 | a line without `:` is ignored wherever it stands |
| Report.LineFields | kernelNanoBench.py:280-283 | a line has fields exactly when it holds `:`, and neither the name nor the value text holds `:` |
| Report.ParseLineRejects | kernelNanoBench.py:283 | a line fails only when its value text is rejected, and then with that text's `ValueError` |
| Report.LineFieldsOf | kernelNanoBench.py:281-283 | the name is the stripped text before the first `:` and the value text the stripped text up to the second |
| Adb.NoProblemAll | kernelNanoBench.py:206-216 | building fails exactly when some read option has a problem |
| Adb.NoProblemReady | kernelNanoBench.py:206-216 | no read option has a problem exactly when the cache is ready |
| Adb.QueryOkIff | kernelNanoBench.py:197-216 | the command line is built exactly when every read option is cached with a string aggregate function, and then it is `CommandLine` |
| Adb.FirstProblemIsFirst | kernelNanoBench.py:206-216 | a failure reports the first read option, in order, that has a problem |
| Adb.CommandLine | kernelNanoBench.py:200-216 | 32 tokens: the header first, and `-cpu 0` just before the verbosity flag |
| Adb.FirstProblem | kernelNanoBench.py:206-216 | a problem is the `KeyError` of an absent option or the `TypeError` of `'-' + aggregateFunction` |
| Adb.AdbQuery | kernelNanoBench.py:200-216 | a built command line has 32 tokens and starts with the header; a failure is a `KeyError` or the `TypeError` of the aggregate function |
| Adb.AdbSession | kernelNanoBench.py:193-221 | the three payload pushes always come first; a failed run has made exactly those, or those and the configuration and `nb` pushes; a run that reaches the device makes nine actions |
| Adb.QueryFlag | kernelNanoBench.py:206-216 | every flag sits at `FlagIndex`, followed by its cached value as is, whether it is an integer or a boolean, true or false |
| Adb.QueryAggregate | kernelNanoBench.py:212 | the aggregate function is the flag `-` plus its value, with no argument |
| Adb.QueryPaths | kernelNanoBench.py:200-205 | the device paths at the start, with the one-time init binary named without the device directory |
| Adb.SessionFailsIff | kernelNanoBench.py:193-217 | the run reaches the device exactly when the configuration is cached, the command line can be built and every cached value on it is a string; without a configuration it stops after the three payload pushes; with an integer or boolean on the command line it stops after all five pushes with `TypeError` |
| Adb.TypedSessionFails | kernelNanoBench.py:206-217 | with every cached value of its option's kind, the run never reaches the device; once the lookups succeed it stops after the five pushes with `TypeError` |
| Adb.CommandLineArgv | kernelNanoBench.py:200-216 | the command line holds only strings exactly when the nine options placed on it as they are hold strings |
| Adb.CleanupArgv | kernelNanoBench.py:219 | the clean-up command is all strings, so it always starts |
| Adb.SessionOrder | kernelNanoBench.py:193-221 | when the run reaches the device: nine actions, the three payload binaries, the configuration and `nb` pushed, then the command line naming them run (the one-time init binary without the device directory), then the pull, the clean-up and the read of the result |
| Adb.SetMakesReady | kernelNanoBench.py:104-217 | a call passing the configuration and every option the command line reads leaves a cache from which the command line is built, and the run then stops after the five pushes with the `TypeError` of the argument list |
| Adb.SetCachesArg | kernelNanoBench.py:120-184 | an option passed a value holds it after the call |
| Adb.EmptyCacheStops | kernelNanoBench.py:187-197 | after a reset the bridge run stops at the configuration lookup |

## Left out

- The tools run by `subprocess` (the assembler, `objcopy`, `cp`, `adb`) are recorded as log events. Their failure, the `exit(1)` and the re-raised `CalledProcessError` are not modelled: every tool succeeds.
- `filecopy` is never called by the driver and is not modelled.
- The stderr messages are not modelled.
- The `atexit` registration of `deleteRamdisk` is not modelled. `DeleteRamdisk` is the hook itself.
- `adbNanoBench.py` and the device-side `nb` binary are not part of this model.
- The PFC start and stop constants are unused by the modelled code and are not modelled.
- Python's `float` is a parameter `parseFloat` of the report functions. Its `None` stands for `ValueError`.
- The file contents the driver reads are parameters: the r14 control file, `/proc/nanoBench` and the bridge result file. The kernel's reaction to the control files is not modelled.
- Python's dynamic typing is not modelled. Each option takes values of one kind (string, integer or boolean), fixed by the argument's type. `True == 1` comparisons between kinds are therefore left out.
- `PyStr.IsSpace`: the whitespace `strip()` and `split()` remove is the ASCII set Python's `str.isspace` accepts: space, tab, line feed, vertical tab, form feed, carriage return and U+001C to U+001F. Non-ASCII whitespace such as U+0085 and U+00A0 is left out.
- `PyStr.ParseInt`: accepts an optional sign and decimal digits only. Python's `int` also accepts underscores between digits, surrounding whitespace and non-ASCII Unicode decimal digits such as U+0663; these are left out.
- `KernelNanoBench.NanoBench.WriteFile`: every write succeeds. Opening an unwritable path, such as the relative `tmp/ramdisk/init.bin` from an unexpected working directory, is not modelled.
- `KernelNanoBench.NanoBench.ReadFile`: every read succeeds. The `OSError` raised when the kernel module is not loaded, on opening `/sys/nb/reset`, `/sys/nb/clear` or `/proc/nanoBench`, is not modelled.
- `KernelNanoBench.NanoBench.CreateRamdisk`: a failing mount, which ends the program, is not modelled.
- `KernelNanoBench.NanoBench.RunNanoBench`: a tool failure inside the slot stage ends the program in the source and is not modelled. The only exceptions modelled are the ones the Python code itself raises.
