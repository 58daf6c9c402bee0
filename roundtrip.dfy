/**
 * What the two programs are for: text enciphered by ShiftEncipher with a
 * shift and a choice of shifting numbers and punctuation comes back
 * unchanged from ShiftDecipher run with the same shift and choices, and the
 * other way round.
 */
module RoundTrip {
  import opened Modular
  import opened Alphabets
  import opened Tables
  import opened Substitution
  import Encipher
  import Decipher

  /** The digit shift generateCipherDict leaves: reduced when enabled, the initial 0 otherwise. */
  function DigitShift(k: int, on: bool): int
  {
    if on then ReducedShift(k, 10) else 0
  }

  /** The punctuation shift generateCipherDict leaves: reduced when enabled, the initial 0 otherwise. */
  function PunctShift(k: int, on: bool): int
  {
    if on then ReducedShift(k, 32) else 0
  }

  /** The dictionary ShiftEncipher builds for shift k. */
  function EncipherTable(k: int, numbers: bool, puncts: bool): map<char, char>
  {
    Table(Forward, ReducedShift(k, 26), DigitShift(k, numbers), PunctShift(k, puncts))
  }

  /** The dictionary ShiftDecipher builds for shift k. */
  function DecipherTable(k: int, numbers: bool, puncts: bool): map<char, char>
  {
    Table(Backward, ReducedShift(k, 26), DigitShift(k, numbers), PunctShift(k, puncts))
  }

  /** On every character, each dictionary undoes the other; characters outside the alphabets are keys of neither. */
  lemma TablesUndoEachOther(k: int, numbers: bool, puncts: bool, c: char)
    ensures UndoesAt(EncipherTable(k, numbers, puncts), DecipherTable(k, numbers, puncts), c)
    ensures UndoesAt(DecipherTable(k, numbers, puncts), EncipherTable(k, numbers, puncts), c)
  {
    var rl, rd, rp := ReducedShift(k, 26), DigitShift(k, numbers), PunctShift(k, puncts);
    if IsCipherSymbol(c) {
      TableInverse(rl, rd, rp, c);
    } else {
      TableKeys(Forward, rl, rd, rp);
      TableKeys(Backward, rl, rd, rp);
    }
  }

  /** Deciphering enciphered text gives the text back, and so does enciphering deciphered text. */
  lemma TextRoundTrip(k: int, numbers: bool, puncts: bool, lines: seq<string>)
    ensures MapText(DecipherTable(k, numbers, puncts), MapText(EncipherTable(k, numbers, puncts), lines)) == lines
    ensures MapText(EncipherTable(k, numbers, puncts), MapText(DecipherTable(k, numbers, puncts), lines)) == lines
  {
    var enc, dec := EncipherTable(k, numbers, puncts), DecipherTable(k, numbers, puncts);
    forall j | 0 <= j < |lines|
      ensures MapLine(dec, MapLine(enc, lines[j])) == lines[j]
      ensures MapLine(enc, MapLine(dec, lines[j])) == lines[j]
    {
      forall i | 0 <= i < |lines[j]|
        ensures UndoesAt(enc, dec, lines[j][i]) && UndoesAt(dec, enc, lines[j][i])
      {
        TablesUndoEachOther(k, numbers, puncts, lines[j][i]);
      }
      MapLineUndo(enc, dec, lines[j]);
      MapLineUndo(dec, enc, lines[j]);
    }
  }

  /** Characters outside the four alphabets (spaces, tabs, non-ASCII) are copied unchanged. */
  lemma OtherCharactersCopied(k: int, numbers: bool, puncts: bool, c: char)
    requires !IsCipherSymbol(c)
    ensures Substitute(EncipherTable(k, numbers, puncts), c) == c
    ensures Substitute(DecipherTable(k, numbers, puncts), c) == c
  {
    TableKeys(Forward, ReducedShift(k, 26), DigitShift(k, numbers), PunctShift(k, puncts));
    TableKeys(Backward, ReducedShift(k, 26), DigitShift(k, numbers), PunctShift(k, puncts));
  }

  /** Digits are only rotated when numbers are enabled, punctuation only when punctuation is. */
  lemma DisabledClassesCopied(k: int, numbers: bool, puncts: bool, c: char)
    requires (InClass(Digit, c) && !numbers) || (InClass(Punctuation, c) && !puncts)
    ensures Substitute(EncipherTable(k, numbers, puncts), c) == c
    ensures Substitute(DecipherTable(k, numbers, puncts), c) == c
  {
    var rl, rd, rp := ReducedShift(k, 26), DigitShift(k, numbers), PunctShift(k, puncts);
    var cl := if InClass(Digit, c) && !numbers then Digit else Punctuation;
    UnshiftedClassIdentity(Forward, rl, rd, rp, cl, c);
    UnshiftedClassIdentity(Backward, rl, rd, rp, cl, c);
  }

  /**
   * Shifts that differ by a multiple of 2080, the least common multiple of
   * 26, 10 and 32, give the same dictionaries.
   */
  lemma ShiftPeriod(k: int, j: int, numbers: bool, puncts: bool)
    ensures EncipherTable(k + 2080 * j, numbers, puncts) == EncipherTable(k, numbers, puncts)
    ensures DecipherTable(k + 2080 * j, numbers, puncts) == DecipherTable(k, numbers, puncts)
  {
    var k' := k + 2080 * j;
    assert k' == k + (80 * j) * 26 && k' == k + (208 * j) * 10 && k' == k + (65 * j) * 32;
    ReducedShiftPeriodic(k, 80 * j, 26);
    ReducedShiftPeriodic(k, 208 * j, 10);
    ReducedShiftPeriodic(k, 65 * j, 32);
    assert DigitShift(k', numbers) == DigitShift(k, numbers) && PunctShift(k', puncts) == PunctShift(k, puncts);
  }

  /** With only letters shifted, shifts that differ by a multiple of 26 give the same dictionaries. */
  lemma LetterShiftPeriod(k: int, j: int)
    ensures EncipherTable(k + 26 * j, false, false) == EncipherTable(k, false, false)
    ensures DecipherTable(k + 26 * j, false, false) == DecipherTable(k, false, false)
  {
    assert 26 * j == j * 26;
    ReducedShiftPeriodic(k, j, 26);
  }

  /** A shift of 0 leaves every line unchanged, whichever classes are enabled. */
  lemma ZeroShiftIdentity(numbers: bool, puncts: bool, lines: seq<string>)
    ensures MapText(EncipherTable(0, numbers, puncts), lines) == lines
    ensures MapText(DecipherTable(0, numbers, puncts), lines) == lines
  {
    var enc, dec := EncipherTable(0, numbers, puncts), DecipherTable(0, numbers, puncts);
    var rl, rd, rp := ReducedShift(0, 26), DigitShift(0, numbers), PunctShift(0, puncts);
    assert rl == 0 && rd == 0 && rp == 0;
    TableKeys(Forward, rl, rd, rp);
    TableKeys(Backward, rl, rd, rp);
    forall c | c in enc ensures enc[c] == c {
      UnshiftedClassIdentity(Forward, rl, rd, rp, ClassOf(c), c);
    }
    forall c | c in dec ensures dec[c] == c {
      UnshiftedClassIdentity(Backward, rl, rd, rp, ClassOf(c), c);
    }
    forall j | 0 <= j < |lines|
      ensures MapLine(enc, lines[j]) == lines[j] && MapLine(dec, lines[j]) == lines[j]
    {
      MapLineIdentity(enc, lines[j]);
      MapLineIdentity(dec, lines[j]);
    }
  }

  /** The default shift of 5: 'H' becomes 'M' and 'M' becomes 'H' again. */
  lemma DefaultShiftExample()
    ensures 'H' in EncipherTable(5, false, false) && EncipherTable(5, false, false)['H'] == 'M'
    ensures 'M' in DecipherTable(5, false, false) && DecipherTable(5, false, false)['M'] == 'H'
  {
    ModUnique(5, 26, 0, 5);
    ModUnique(12, 26, 0, 12);
    ForwardAt(5, 0, 0, UpperAlpha, 7);
    BackwardAt(5, 0, 0, UpperAlpha, 7);
  }

  /** A negative shift counts backwards: with -1, 'a' becomes 'z'. */
  lemma NegativeShiftExample()
    ensures 'a' in EncipherTable(-1, false, false) && EncipherTable(-1, false, false)['a'] == 'z'
  {
    ModUnique(-1, 26, -1, 25);
    ModUnique(25, 26, 0, 25);
    ForwardAt(25, 0, 0, LowerAlpha, 0);
  }

  /**
   * main of ShiftEncipher after a successful parse of "-i infile" with shift
   * k and the chosen options, on a file system where infile exists and the
   * output opens: a fresh CipherOptions takes the input name as -i stores
   * it, builds its dictionary and writes the enciphered lines to infile
   * plus ".ciph". An empty name never exists, so infile is not empty.
   */
  method EncipherLines(k: int, numbers: bool, puncts: bool, infile: string, lines: seq<string>)
      returns (path: string, written: seq<string>)
    requires |infile| > 0
    ensures path == infile + ".ciph"
    ensures written == MapText(EncipherTable(k, numbers, puncts), lines)
  {
    var enc := new Encipher.CipherOptions();
    enc.infilename := infile;
    enc.shiftAmount := k;
    enc.encNumbers := numbers;
    enc.encPuncts := puncts;
    enc.GenerateCipherDict();
    assert enc.cipherDict == Table(Forward, enc.effectiveShift, enc.numbersShift, enc.punctsShift);
    assert enc.effectiveShift == ReducedShift(k, 26);
    assert enc.numbersShift == DigitShift(k, numbers) && enc.punctsShift == PunctShift(k, puncts);
    assert enc.infilename == infile && enc.useDefaultOname;
    Encipher.DefaultNameKeepsInput(infile, enc.outfilename, true, lines);
    var res := enc.EncipherFileText(true, lines, true);
    path := res.value.path;
    assert path == Encipher.OutputName(infile, enc.outfilename, true);
    written := res.value.written;
  }

  /**
   * main of ShiftDecipher in the same way, after "-i infile -o outfile": a
   * fresh DecipherCtrlOpts takes both names as -i and -o store them (-o also
   * clears the default-name bit) and writes the deciphered lines to outfile.
   * Both names are not empty: an empty input name never exists and an empty
   * output name never opens.  An outfile equal to infile truncates the
   * input before it is read, and the output is then empty.
   */
  method DecipherLines(k: int, numbers: bool, puncts: bool, infile: string, outfile: string, lines: seq<string>)
      returns (path: string, written: seq<string>)
    requires |infile| > 0 && |outfile| > 0
    ensures path == outfile
    ensures written == MapText(DecipherTable(k, numbers, puncts), LinesRead(infile, outfile, lines))
  {
    var dec := new Decipher.DecipherCtrlOpts();
    dec.infilename := infile;
    dec.outfilename := outfile;
    dec.origShiftLen := k;
    dec.decipherFlags := dec.decipherFlags[Decipher.DEFAULT_ONAME_BIT := false]
                                          [Decipher.DIGITS_BIT := numbers][Decipher.PUNCTS_BIT := puncts];
    dec.GenerateCipherDict();
    assert dec.cipherDict == Table(Backward, dec.reducedShiftLen, dec.digitsShiftLen, dec.punctsShiftLen);
    assert dec.reducedShiftLen == ReducedShift(k, 26);
    assert dec.digitsShiftLen == DigitShift(k, numbers) && dec.punctsShiftLen == PunctShift(k, puncts);
    assert dec.infilename == infile && dec.outfilename == outfile && !dec.decipherFlags[Decipher.DEFAULT_ONAME_BIT];
    var res := dec.DecipherFileText(true, lines, true);
    assert res.Success? && dec.outfilename == outfile;
    path := dec.outfilename;
    written := res.value;
  }

  /**
   * Both programs one after the other with the same shift and options: the
   * decipherer reads the file the encipherer wrote and gives the original
   * lines back, unless it was told to write over that same file, which
   * truncates it before it is read.
   */
  method EncipherThenDecipher(k: int, numbers: bool, puncts: bool, plainFile: string, restoredFile: string,
                              lines: seq<string>)
      returns (cipherFile: string, restored: seq<string>)
    requires |plainFile| > 0 && |restoredFile| > 0
    ensures cipherFile == plainFile + ".ciph"
    ensures restoredFile != cipherFile ==> restored == lines
    ensures restoredFile == cipherFile ==> restored == []
  {
    var ciphered;
    cipherFile, ciphered := EncipherLines(k, numbers, puncts, plainFile, lines);
    var restoredPath;
    restoredPath, restored := DecipherLines(k, numbers, puncts, cipherFile, restoredFile, ciphered);
    TextRoundTrip(k, numbers, puncts, lines);
  }
}
