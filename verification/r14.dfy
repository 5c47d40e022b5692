/** `getR14Size`: the size of the kernel's r14 buffer, read from the first
    line of its control file, where the third whitespace-separated word is
    a number of MiB. */
module R14 {
  import opened Wrappers
  import opened Effects
  import opened PyStr

  const R14File := "/sys/nb/r14_size"

  /** 1024 * 1024 bytes. */
  const MiB := 1048576

  /** The size in bytes for the control file's text, or the exception that
      `int(line.split()[2])` raises: `IndexError` when the first line has
      fewer than three words, `ValueError` when the third is not an integer. */
  function R14Size(text: string): (r: Result<int, Error>)
    ensures r.Ok? ==> r.value % MiB == 0
    ensures r.Err? ==> r.error == IndexError || (r.error.ValueError? && ParseInt(r.error.text).None?)
  {
    var words := Words(ReadLine(text));
    if |words| < 3 then Err(IndexError)
    else
      match ParseInt(words[2])
      case None => Err(ValueError(words[2]))
      case Some(mb) => Ok(mb * MiB)
  }

  /** A first line whose third word is the decimal text of `mb` gives
      `mb` MiB, whatever else the line and the rest of the file hold. */
  lemma R14SizeOfLine(a: string, b: string, mb: int, more: string, rest: string)
    requires IsWord(a) && IsWord(b)
    requires more == [] || IsSpace(more[0])
    requires '\n' !in a && '\n' !in b && '\n' !in more
    ensures R14Size(a + " " + b + " " + IntToDecimal(mb) + more + "\n" + rest) == Ok(mb * MiB)
  {
    var d := IntToDecimal(mb);
    DecimalIsWord(mb);
    ParseIntDecimal(mb);
    ThirdWordOfFile(a, b, d, more, rest);
  }

  /** A first line whose third word is not an integer raises the
      `ValueError` of `int` on that word. */
  lemma R14SizeBadNumber(a: string, b: string, w: string, more: string, rest: string)
    requires IsWord(a) && IsWord(b) && IsWord(w) && ParseInt(w).None?
    requires more == [] || IsSpace(more[0])
    requires '\n' !in a && '\n' !in b && '\n' !in more
    ensures R14Size(a + " " + b + " " + w + more + "\n" + rest) == Err(ValueError(w))
  {
    ThirdWordOfFile(a, b, w, more, rest);
  }

  /** The third word of the first line of such a file. */
  lemma ThirdWordOfFile(a: string, b: string, w: string, more: string, rest: string)
    requires IsWord(a) && IsWord(b) && IsWord(w)
    requires more == [] || IsSpace(more[0])
    requires '\n' !in a && '\n' !in b && '\n' !in more
    ensures var ws := Words(ReadLine(a + " " + b + " " + w + more + "\n" + rest));
      |ws| >= 3 && ws[2] == w
  {
    var line := a + " " + b + " " + w + more;
    LineOfThree(a, b, w, more);
    ReadLineOf(line, rest);
    ThirdWord(a, b, w, more + "\n");
    var text := a + " " + b + " " + w + more + "\n" + rest;
    var ws := Words(ReadLine(text));
    assert ws == Words(a + ([' '] + (b + ([' '] + (w + (more + "\n"))))));
  }

  /** Only the first line of the file matters. */
  lemma R14SizeFirstLineOnly(line: string, rest1: string, rest2: string)
    requires '\n' !in line
    ensures R14Size(line + "\n" + rest1) == R14Size(line + "\n" + rest2)
  {
    ReadLineOf(line, rest1);
    ReadLineOf(line, rest2);
  }

  /** A first line with fewer than three words raises `IndexError`. */
  lemma R14SizeShortLine(a: string, b: string, rest: string)
    requires IsWord(a) && IsWord(b) && '\n' !in a && '\n' !in b
    ensures R14Size(a + " " + b + "\n" + rest) == Err(IndexError)
  {
    var line := a + " " + b;
    LineOfTwo(a, b);
    ReadLineOf(line, rest);
    TwoWords(a, b, "\n");
  }

  // ------------------------------------------------------------ text shapes

  lemma LineOfThree(a: string, b: string, d: string, more: string)
    requires '\n' !in a && '\n' !in b && IsWord(d) && '\n' !in more
    ensures '\n' !in a + " " + b + " " + d + more
    ensures a + " " + b + " " + d + more + "\n" == a + ([' '] + (b + ([' '] + (d + (more + "\n")))))
  {
    assert '\n' !in d by { assert forall i :: 0 <= i < |d| ==> !IsSpace(d[i]); }
  }

  lemma LineOfTwo(a: string, b: string)
    requires '\n' !in a && '\n' !in b
    ensures '\n' !in a + " " + b
    ensures a + " " + b + "\n" == a + ([' '] + (b + "\n"))
  {
  }
}
