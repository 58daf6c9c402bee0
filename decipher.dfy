/**
 * ShiftDecipher: the controller object DecipherCtrlOpts and the four steps
 * main runs on it — parseCommandLine (with parseSingleCharOptions for
 * combined one-letter options), generateCipherDict and decipherFileText —
 * together with calcReducedShift.
 *
 * The flags live in a std::bitset<8>:
 *   bit 0  HELP or USAGE requested
 *   bit 1  default output name (input name + ".dec")
 *   bit 2  digits are shifted
 *   bit 3  punctuation is shifted
 *   bit 7  log information shown
 * and bits 4, 5, 6 are unused.  The initialiser 0b01000000 sets bit 6 only.
 */
module Decipher {
  import opened Modular
  import opened Alphabets
  import opened Rotation
  import opened Tables
  import opened Substitution
  import opened CppStd

  /** DECIPHER_PROG_CODES. */
  datatype ProgCode = CmdlnUserError | CmdlnOk | CmdlnHelpReq | CmdlnUsageReq

  const HELP_BIT := 0
  const DEFAULT_ONAME_BIT := 1
  const DIGITS_BIT := 2
  const PUNCTS_BIT := 3
  const LOG_BIT := 7

  /** decipher_flags as initialised: the unsigned literal 0b01000000. */
  const INITIAL_FLAGS: Bitset8 := BitsetOf(0x40)

  /** The initialiser sets the unused bit 6 and leaves the default-name bit 1 clear. */
  lemma InitialFlagBits()
    ensures INITIAL_FLAGS[6]
    ensures forall k :: 0 <= k < 8 && k != 6 ==> !INITIAL_FLAGS[k]
    ensures !INITIAL_FLAGS[DEFAULT_ONAME_BIT]
  {
    BitsetOfSixtyFour();
  }

  // ---------------------------------------------------------------------
  // parseSingleCharOptions
  // ---------------------------------------------------------------------

  /** The result code and the flags while a combined token is scanned. */
  datatype ScanState = ScanState(code: ProgCode, flags: Bitset8)

  /** The five letters the switch recognises. */
  predicate IsOptionChar(c: char)
  {
    c == 'a' || c == 'n' || c == 'p' || c == 'l' || c == 'h'
  }

  /** A letter that decides the result code: 'h', or one the switch does not know. */
  predicate Decisive(c: char)
  {
    c == 'h' || !IsOptionChar(c)
  }

  /** Flag k is one that letter c sets. */
  predicate Sets(c: char, k: int)
  {
    (k == DIGITS_BIT && (c == 'a' || c == 'n')) || (k == PUNCTS_BIT && (c == 'a' || c == 'p'))
    || (k == LOG_BIT && c == 'l') || (k == HELP_BIT && c == 'h')
  }

  /** The flags a letter can set, which an unknown letter clears. */
  predicate ScanBit(k: int)
  {
    k == HELP_BIT || k == DIGITS_BIT || k == PUNCTS_BIT || k == LOG_BIT
  }

  /** One pass of the switch over the character at the iterator. */
  function CharStep(st: ScanState, c: char): ScanState
  {
    match c
    case 'a' => st.(flags := st.flags[DIGITS_BIT := true][PUNCTS_BIT := true])
    case 'n' => st.(flags := st.flags[DIGITS_BIT := true])
    case 'p' => st.(flags := st.flags[PUNCTS_BIT := true])
    case 'l' => st.(flags := st.flags[LOG_BIT := true])
    case 'h' => ScanState(CmdlnHelpReq, st.flags[HELP_BIT := true])
    case _ =>
      ScanState(CmdlnUserError, st.flags[DIGITS_BIT := false][PUNCTS_BIT := false][LOG_BIT := false][HELP_BIT := false])
  }

  /** The switch applied to every character of s in turn. */
  function ScanFrom(st: ScanState, s: string): ScanState
    decreases |s|
  {
    if |s| == 0 then st else CharStep(ScanFrom(st, s[..|s| - 1]), s[|s| - 1])
  }

  /**
   * parseSingleCharOptions on its own terms: a token whose last '-' is not
   * at index 0 (including a token without any '-') is an error and changes
   * nothing; otherwise every character after the dash is scanned.
   */
  function SingleCharOptions(token: string, flags: Bitset8): ScanState
    requires |token| < NPOS
  {
    if FindLastOf(token, '-') > 0 then ScanState(CmdlnUserError, flags)
    else ScanFrom(ScanState(CmdlnOk, flags), token[1..])
  }

  /** Index of the last decisive letter of s, or -1 when there is none. */
  function LastDecisive(s: string): (r: int)
    ensures -1 <= r < |s|
    ensures r >= 0 ==> Decisive(s[r])
    ensures forall j :: r < j < |s| ==> !Decisive(s[j])
    decreases |s|
  {
    if |s| == 0 then -1
    else if Decisive(s[|s| - 1]) then |s| - 1
    else LastDecisive(s[..|s| - 1])
  }

  /**
   * The scan's result code is decided by the last decisive letter: HELP_REQ
   * for an 'h', USER_ERROR for an unknown letter, and the starting code when
   * there is none.
   */
  lemma {:induction false} ScanVerdict(st: ScanState, s: string)
    ensures ScanFrom(st, s).code ==
      (if LastDecisive(s) < 0 then st.code
       else if s[LastDecisive(s)] == 'h' then CmdlnHelpReq
       else CmdlnUserError)
    decreases |s|
  {
    if |s| > 0 {
      var p := s[..|s| - 1];
      ScanVerdict(st, p);
      if !Decisive(s[|s| - 1]) {
        assert LastDecisive(s) == LastDecisive(p);
        if LastDecisive(p) >= 0 {
          assert s[LastDecisive(p)] == p[LastDecisive(p)];
        }
      }
    }
  }

  /**
   * After the scan, a flag that letters set is on exactly when some letter
   * set it and no unknown letter follows it, or it was on already and there
   * is no unknown letter at all.
   */
  lemma {:induction false} ScanFlag(st: ScanState, s: string, k: int)
    requires ScanBit(k)
    ensures ScanFrom(st, s).flags[k] <==>
      (st.flags[k] && forall i :: 0 <= i < |s| ==> IsOptionChar(s[i]))
      || (exists j :: 0 <= j < |s| && Sets(s[j], k) && forall i :: j < i < |s| ==> IsOptionChar(s[i]))
    decreases |s|
  {
    if |s| > 0 {
      var n := |s| - 1;
      var p := s[..n];
      var c := s[n];
      ScanFlag(st, p, k);
      assert forall i :: 0 <= i < n ==> s[i] == p[i];
      if !IsOptionChar(c) {
        assert !ScanFrom(st, s).flags[k];
      } else if Sets(c, k) {
        assert ScanFrom(st, s).flags[k];
      } else {
        assert ScanFrom(st, s).flags[k] == ScanFrom(st, p).flags[k];
        if exists j :: 0 <= j < |s| && Sets(s[j], k) && forall i :: j < i < |s| ==> IsOptionChar(s[i]) {
          var j :| 0 <= j < |s| && Sets(s[j], k) && forall i :: j < i < |s| ==> IsOptionChar(s[i]);
          assert j < n && Sets(p[j], k) && forall i :: j < i < |p| ==> IsOptionChar(p[i]);
        }
        if exists j :: 0 <= j < |p| && Sets(p[j], k) && forall i :: j < i < |p| ==> IsOptionChar(p[i]) {
          var j :| 0 <= j < |p| && Sets(p[j], k) && forall i :: j < i < |p| ==> IsOptionChar(p[i]);
          assert Sets(s[j], k) && forall i :: j < i < |s| ==> IsOptionChar(s[i]);
        }
      }
    }
  }

  /** The scan never touches the default-name bit or the unused bits. */
  lemma {:induction false} ScanKeepsOtherBits(st: ScanState, s: string, k: int)
    requires 0 <= k < 8 && !ScanBit(k)
    ensures ScanFrom(st, s).flags[k] == st.flags[k]
    decreases |s|
  {
    if |s| > 0 {
      ScanKeepsOtherBits(st, s[..|s| - 1], k);
    }
  }

  /** A token whose last '-' is past index 0, or that has no '-', is an error and changes no flag. */
  lemma MisplacedDashRejected(token: string, flags: Bitset8)
    requires |token| < NPOS
    requires '-' !in token || exists j :: 0 < j < |token| && token[j] == '-'
    ensures SingleCharOptions(token, flags) == ScanState(CmdlnUserError, flags)
  {
    if '-' in token {
      var j :| 0 < j < |token| && token[j] == '-';
      assert FindLastOf(token, '-') >= j;
    }
  }

  /** A dash alone is accepted and changes nothing. */
  lemma LoneDash(flags: Bitset8)
    ensures SingleCharOptions("-", flags) == ScanState(CmdlnOk, flags)
  {
    assert "-"[1..] == [];
  }

  /** An 'h' after an unknown letter still asks for HELP: the scan does not stop at the error. */
  lemma HelpAfterUnknownLetter(flags: Bitset8)
    ensures SingleCharOptions("-xh", flags).code == CmdlnHelpReq
  {
    var s := "-xh"[1..];
    assert s == "xh";
    ScanVerdict(ScanState(CmdlnOk, flags), s);
    assert LastDecisive(s) == 1;
  }

  // ---------------------------------------------------------------------
  // parseCommandLine
  // ---------------------------------------------------------------------

  /** The fields of DecipherCtrlOpts that parseCommandLine writes. */
  datatype Settings = Settings(programName: string, infilename: string, outfilename: string,
                               origShiftLen: int, flags: Bitset8)

  /**
   * How parseCommandLine ends: it returns a code, or it throws, or it reads
   * the front of an empty deque (a value option given last), which the
   * program does not guard against.
   */
  datatype ParseResult = Parsed(code: ProgCode) | Raised(error: Exception) | EmptyFront

  /** What one pass of the loop body leaves: a final outcome, or the rest of the deque. */
  datatype Step = Stop(outcome: ParseResult, settings: Settings)
                | Continue(rest: seq<string>, settings: Settings, code: ProgCode)

  /** Which branch of the compare chain a token takes. */
  datatype Opt = IFile | OFile | ShiftAmount | ShiftNumbers | ShiftPuncts | ShiftAll | Help | ShowLog | Combined

  /** The compare chain of parseCommandLine: a token naming an option, or anything else. */
  function OptionOf(arg: string): Opt
  {
    if arg == "-i" || arg == "--ifile" then IFile
    else if arg == "-o" || arg == "--ofile" then OFile
    else if arg == "-s" || arg == "--shift-amount" then ShiftAmount
    else if arg == "--shift-numbers" then ShiftNumbers
    else if arg == "--shift-puncts" then ShiftPuncts
    else if arg == "--shift-all" then ShiftAll
    else if arg == "--help" then Help
    else if arg == "--show-log" then ShowLog
    else Combined
  }

  /** One pass of the option loop on the token at the front of the deque. */
  function ParseStep(deq: seq<string>, s: Settings, code: ProgCode): (r: Step)
    requires |deq| > 0 && TokensFit(deq)
    ensures r.Continue? ==> |r.rest| < |deq| && TokensFit(r.rest)
  {
    match OptionOf(deq[0])
    case IFile =>
      if |deq| < 2 then Stop(EmptyFront, s)
      else Continue(deq[2..], s.(infilename := deq[1]), code)
    case OFile =>
      if |deq| < 2 then Stop(EmptyFront, s)
      else Continue(deq[2..], s.(outfilename := deq[1], flags := s.flags[DEFAULT_ONAME_BIT := false]), code)
    case ShiftAmount =>
      if |deq| < 2 then Stop(EmptyFront, s)
      else
        (match StoI(deq[1])
         case Failure(e) => Stop(Raised(e), s)
         case Success(v) => Continue(deq[2..], s.(origShiftLen := v), code))
    case ShiftNumbers => Continue(deq[1..], s.(flags := s.flags[DIGITS_BIT := true]), code)
    case ShiftPuncts => Continue(deq[1..], s.(flags := s.flags[PUNCTS_BIT := true]), code)
    case ShiftAll => Continue(deq[1..], s.(flags := s.flags[DIGITS_BIT := true][PUNCTS_BIT := true]), code)
    case Help => Stop(Parsed(CmdlnHelpReq), s.(flags := s.flags[HELP_BIT := true]))
    case ShowLog => Continue(deq[1..], s.(flags := s.flags[LOG_BIT := true]), code)
    case Combined =>
      var st := SingleCharOptions(deq[0], s.flags);
      var s' := s.(flags := st.flags);
      if st.code == CmdlnUserError then Stop(Raised(InvalidArgument), s')
      else if st.code == CmdlnHelpReq || st.code == CmdlnUsageReq then Stop(Parsed(st.code), s')
      else Continue(deq[1..], s', st.code)
  }

  /** The option loop over the remaining deque; code is the current parse_results. */
  function ParseLoop(deq: seq<string>, s: Settings, code: ProgCode): (ParseResult, Settings)
    requires TokensFit(deq)
    decreases |deq|
  {
    if |deq| == 0 then (Parsed(code), s)
    else
      match ParseStep(deq, s, code)
      case Stop(outcome, s') => (outcome, s')
      case Continue(rest, s', code') => ParseLoop(rest, s', code')
  }

  /** parseCommandLine: the program name first, USAGE when nothing follows, then the option loop. */
  function ParseSpec(cmdln: seq<string>, s: Settings): (ParseResult, Settings)
    requires TokensFit(cmdln)
  {
    if |cmdln| == 0 then (EmptyFront, s)
    else
      var named := s.(programName := cmdln[0]);
      if |cmdln| == 1 then (Parsed(CmdlnUsageReq), named)
      else ParseLoop(cmdln[1..], named, CmdlnOk)
  }

  /** The settings of a freshly constructed DecipherCtrlOpts. */
  const DEFAULT_SETTINGS := Settings("", "", "", 5, INITIAL_FLAGS)

  /** A program name alone asks for USAGE. */
  lemma ProgramNameOnly(name: string, s: Settings)
    requires |name| < NPOS
    ensures ParseSpec([name], s) == (Parsed(CmdlnUsageReq), s.(programName := name))
  {
  }

  /** -i stores the next token as input name. */
  lemma IfileOption(name: string, rest: seq<string>, s: Settings, code: ProgCode)
    requires |name| < NPOS && TokensFit(rest)
    ensures TokensFit(["-i", name] + rest)
    ensures ParseLoop(["-i", name] + rest, s, code) == ParseLoop(rest, s.(infilename := name), code)
  {
    var deq := ["-i", name] + rest;
    assert deq[2..] == rest;
  }

  /** -o stores the next token as output name and clears the default-name bit. */
  lemma OfileOption(name: string, rest: seq<string>, s: Settings, code: ProgCode)
    requires |name| < NPOS && TokensFit(rest)
    ensures TokensFit(["-o", name] + rest)
    ensures ParseLoop(["-o", name] + rest, s, code)
         == ParseLoop(rest, s.(outfilename := name, flags := s.flags[DEFAULT_ONAME_BIT := false]), code)
  {
    var deq := ["-o", name] + rest;
    assert deq[2..] == rest;
  }

  /** A shift written in decimal is read back by -s as the same number. */
  lemma ShiftOption(v: int, rest: seq<string>, s: Settings, code: ProgCode)
    requires INT_MIN <= v <= INT_MAX && TokensFit(rest) && |ToDecimal(v)| < NPOS
    ensures TokensFit(["-s", ToDecimal(v)] + rest)
    ensures ParseLoop(["-s", ToDecimal(v)] + rest, s, code) == ParseLoop(rest, s.(origShiftLen := v), code)
  {
    var t := ToDecimal(v);
    var deq := ["-s", t] + rest;
    TokensFitAppend(["-s", t], rest);
    assert deq[2..] == rest;
    StoIToDecimal(v);
    ShiftStep(deq, s, code, v);
  }

  /** -s followed by a number stores it and goes on two tokens later. */
  lemma ShiftStep(deq: seq<string>, s: Settings, code: ProgCode, v: int)
    requires |deq| >= 2 && TokensFit(deq) && deq[0] == "-s" && StoI(deq[1]) == Success(v)
    ensures ParseLoop(deq, s, code) == ParseLoop(deq[2..], s.(origShiftLen := v), code)
  {
    assert OptionOf(deq[0]) == ShiftAmount;
    assert ParseStep(deq, s, code) == Continue(deq[2..], s.(origShiftLen := v), code);
  }

  /**
   * --shift-numbers, --shift-puncts, --shift-all and --show-log turn on
   * their bits (2, 3, both, 7) and go on with the next token.
   */
  lemma SwitchOptions(deq: seq<string>, s: Settings, code: ProgCode)
    requires |deq| > 0 && TokensFit(deq)
    ensures deq[0] == "--shift-numbers" ==>
      ParseLoop(deq, s, code) == ParseLoop(deq[1..], s.(flags := s.flags[DIGITS_BIT := true]), code)
    ensures deq[0] == "--shift-puncts" ==>
      ParseLoop(deq, s, code) == ParseLoop(deq[1..], s.(flags := s.flags[PUNCTS_BIT := true]), code)
    ensures deq[0] == "--shift-all" ==>
      ParseLoop(deq, s, code) == ParseLoop(deq[1..], s.(flags := s.flags[DIGITS_BIT := true][PUNCTS_BIT := true]), code)
    ensures deq[0] == "--show-log" ==>
      ParseLoop(deq, s, code) == ParseLoop(deq[1..], s.(flags := s.flags[LOG_BIT := true]), code)
  {
  }

  /** --help ends the loop: later tokens are not looked at, earlier tokens' effects stay. */
  lemma HelpStopsParse(rest: seq<string>, s: Settings, code: ProgCode)
    requires TokensFit(rest)
    ensures TokensFit(["--help"] + rest)
    ensures ParseLoop(["--help"] + rest, s, code) == (Parsed(CmdlnHelpReq), s.(flags := s.flags[HELP_BIT := true]))
  {
  }

  /** A combined token the scan rejects throws invalid_argument, with the scan's flag changes kept. */
  lemma UserErrorThrows(token: string, rest: seq<string>, s: Settings, code: ProgCode)
    requires |token| < NPOS && TokensFit(rest) && OptionOf(token) == Combined
    requires SingleCharOptions(token, s.flags).code == CmdlnUserError
    ensures TokensFit([token] + rest)
    ensures ParseLoop([token] + rest, s, code)
         == (Raised(InvalidArgument), s.(flags := SingleCharOptions(token, s.flags).flags))
  {
  }

  /** The combined-token scan never yields USAGE_REQ. */
  lemma ScanNeverUsage(token: string, flags: Bitset8)
    requires |token| < NPOS
    ensures SingleCharOptions(token, flags).code != CmdlnUsageReq
  {
    if FindLastOf(token, '-') <= 0 {
      ScanVerdict(ScanState(CmdlnOk, flags), token[1..]);
    }
  }

  /**
   * One pass of the loop stops only with HELP_REQ or with an exception of
   * stoi or of a rejected combined token; it goes on with the code it had,
   * or with CMDLN_OK after a combined token; it never sets the default-name
   * bit and leaves bits 4, 5 and 6 alone; it goes on with a suffix of the
   * deque, and the input name, output name and shift change only at their
   * own options; a pass that goes on never clears bits 2, 3 or 7.
   */
  predicate StepFacts(deq: seq<string>, s: Settings, code: ProgCode)
    requires |deq| > 0 && TokensFit(deq)
  {
    var r := ParseStep(deq, s, code);
    (r.Stop? && r.outcome.Parsed? ==> r.outcome.code == CmdlnHelpReq)
    && (r.Stop? && r.outcome.Raised? ==> r.outcome.error != FilesystemError)
    && (r.Continue? ==> r.code == code || r.code == CmdlnOk)
    && (r.settings.flags[DEFAULT_ONAME_BIT] ==> s.flags[DEFAULT_ONAME_BIT])
    && (forall k :: 4 <= k <= 6 ==> r.settings.flags[k] == s.flags[k])
    && (r.Continue? ==> r.rest == deq[|deq| - |r.rest|..])
    && (OptionOf(deq[0]) != IFile ==> r.settings.infilename == s.infilename)
    && (OptionOf(deq[0]) != OFile ==> r.settings.outfilename == s.outfilename)
    && (OptionOf(deq[0]) != ShiftAmount ==> r.settings.origShiftLen == s.origShiftLen)
    && (r.Continue? && s.flags[DIGITS_BIT] ==> r.settings.flags[DIGITS_BIT])
    && (r.Continue? && s.flags[PUNCTS_BIT] ==> r.settings.flags[PUNCTS_BIT])
    && (r.Continue? && s.flags[LOG_BIT] ==> r.settings.flags[LOG_BIT])
  }

  /** StepFacts for a token naming an option. */
  lemma NamedStepFacts(deq: seq<string>, s: Settings, code: ProgCode)
    requires |deq| > 0 && TokensFit(deq) && OptionOf(deq[0]) != Combined
    ensures StepFacts(deq, s, code)
  {
    match OptionOf(deq[0])
    case IFile =>
    case OFile =>
    case ShiftAmount =>
    case ShiftNumbers =>
    case ShiftPuncts =>
    case ShiftAll =>
    case Help =>
    case ShowLog =>
  }

  /** StepFacts for a combined token. */
  lemma CombinedStepFacts(deq: seq<string>, s: Settings, code: ProgCode)
    requires |deq| > 0 && TokensFit(deq) && OptionOf(deq[0]) == Combined
    ensures StepFacts(deq, s, code)
  {
    var arg := deq[0];
    var st := SingleCharOptions(arg, s.flags);
    ScanNeverUsage(arg, s.flags);
    if FindLastOf(arg, '-') <= 0 {
      forall k | k == DEFAULT_ONAME_BIT || 4 <= k <= 6
        ensures st.flags[k] == s.flags[k]
      {
        ScanKeepsOtherBits(ScanState(CmdlnOk, s.flags), arg[1..], k);
      }
      if st.code != CmdlnUserError && st.code != CmdlnHelpReq && st.code != CmdlnUsageReq {
        var t := arg[1..];
        ScanVerdict(ScanState(CmdlnOk, s.flags), t);
        assert forall i :: 0 <= i < |t| ==> IsOptionChar(t[i]);
        ScanFlag(ScanState(CmdlnOk, s.flags), t, DIGITS_BIT);
        ScanFlag(ScanState(CmdlnOk, s.flags), t, PUNCTS_BIT);
        ScanFlag(ScanState(CmdlnOk, s.flags), t, LOG_BIT);
      }
    }
    assert ParseStep(deq, s, code).settings.flags == st.flags;
  }

  lemma StepFactsHold(deq: seq<string>, s: Settings, code: ProgCode)
    requires |deq| > 0 && TokensFit(deq)
    ensures StepFacts(deq, s, code)
  {
    if OptionOf(deq[0]) == Combined {
      CombinedStepFacts(deq, s, code);
    } else {
      NamedStepFacts(deq, s, code);
    }
  }

  /**
   * Started from CMDLN_OK the option loop returns only CMDLN_OK or
   * CMDLN_HELP_REQ, and it throws only the exceptions of stoi and of a
   * rejected combined token.
   */
  lemma {:induction false} LoopVerdicts(deq: seq<string>, s: Settings)
    requires TokensFit(deq)
    ensures ParseLoop(deq, s, CmdlnOk).0.Parsed? ==>
      ParseLoop(deq, s, CmdlnOk).0.code == CmdlnOk || ParseLoop(deq, s, CmdlnOk).0.code == CmdlnHelpReq
    ensures ParseLoop(deq, s, CmdlnOk).0.Raised? ==> ParseLoop(deq, s, CmdlnOk).0.error != FilesystemError
    decreases |deq|
  {
    if |deq| > 0 {
      var r := ParseStep(deq, s, CmdlnOk);
      StepFactsHold(deq, s, CmdlnOk);
      if r.Continue? {
        LoopVerdicts(r.rest, r.settings);
      }
    }
  }

  /**
   * The option loop never sets the default-name bit (only -o touches it, and
   * clears it) and leaves the unused bits 4, 5 and 6 as they were.
   */
  lemma {:induction false} LoopKeepsBits(deq: seq<string>, s: Settings, code: ProgCode)
    requires TokensFit(deq)
    ensures ParseLoop(deq, s, code).1.flags[DEFAULT_ONAME_BIT] ==> s.flags[DEFAULT_ONAME_BIT]
    ensures forall k :: 4 <= k <= 6 ==> ParseLoop(deq, s, code).1.flags[k] == s.flags[k]
    decreases |deq|
  {
    if |deq| > 0 {
      var r := ParseStep(deq, s, code);
      StepFactsHold(deq, s, code);
      if r.Continue? {
        LoopKeepsBits(r.rest, r.settings, r.code);
      }
    }
  }

  /**
   * A parse that runs to the end of the deque and returns CMDLN_OK keeps
   * bits 2, 3 and 7 on once they are on.  (A combined token with an
   * unknown letter clears them, but it ends the parse with USER_ERROR or,
   * after a later 'h', with HELP_REQ.)
   */
  lemma {:induction false} LoopKeepsSwitches(deq: seq<string>, s: Settings, code: ProgCode)
    requires TokensFit(deq)
    ensures ParseLoop(deq, s, code).0 == Parsed(CmdlnOk) && s.flags[DIGITS_BIT] ==>
      ParseLoop(deq, s, code).1.flags[DIGITS_BIT]
    ensures ParseLoop(deq, s, code).0 == Parsed(CmdlnOk) && s.flags[PUNCTS_BIT] ==>
      ParseLoop(deq, s, code).1.flags[PUNCTS_BIT]
    ensures ParseLoop(deq, s, code).0 == Parsed(CmdlnOk) && s.flags[LOG_BIT] ==>
      ParseLoop(deq, s, code).1.flags[LOG_BIT]
    decreases |deq|
  {
    if |deq| > 0 {
      var r := ParseStep(deq, s, code);
      StepFactsHold(deq, s, code);
      if r.Continue? {
        LoopKeepsSwitches(r.rest, r.settings, r.code);
      }
    }
  }

  /**
   * --shift-numbers, --shift-puncts, --shift-all and --show-log leave their
   * bits on at the end of a parse that returns CMDLN_OK.
   */
  lemma SwitchStaysOn(deq: seq<string>, s: Settings, code: ProgCode)
    requires |deq| > 0 && TokensFit(deq)
    ensures (deq[0] == "--shift-numbers" || deq[0] == "--shift-all") && ParseLoop(deq, s, code).0 == Parsed(CmdlnOk) ==>
      ParseLoop(deq, s, code).1.flags[DIGITS_BIT]
    ensures (deq[0] == "--shift-puncts" || deq[0] == "--shift-all") && ParseLoop(deq, s, code).0 == Parsed(CmdlnOk) ==>
      ParseLoop(deq, s, code).1.flags[PUNCTS_BIT]
    ensures deq[0] == "--show-log" && ParseLoop(deq, s, code).0 == Parsed(CmdlnOk) ==>
      ParseLoop(deq, s, code).1.flags[LOG_BIT]
  {
    var r := ParseStep(deq, s, code);
    if r.Continue? {
      LoopKeepsSwitches(r.rest, r.settings, r.code);
    }
  }

  /** No token of the deque names option o. */
  predicate Avoids(deq: seq<string>, o: Opt)
  {
    forall k :: 0 <= k < |deq| ==> OptionOf(deq[k]) != o
  }

  /** A deque that avoids an option leaves suffixes that avoid it too. */
  lemma AvoidsSuffix(deq: seq<string>, n: nat, o: Opt)
    requires n <= |deq| && Avoids(deq, o)
    ensures Avoids(deq[n..], o)
  {
    assert forall k :: 0 <= k < |deq| - n ==> deq[n..][k] == deq[k + n];
  }

  /**
   * The input name, the output name and the shift change only at their own
   * options: the loop leaves each of them as it was when no token left in
   * the deque names its option.
   */
  lemma {:induction false} LoopKeepsFields(deq: seq<string>, s: Settings, code: ProgCode)
    requires TokensFit(deq)
    ensures Avoids(deq, IFile) ==> ParseLoop(deq, s, code).1.infilename == s.infilename
    ensures Avoids(deq, OFile) ==> ParseLoop(deq, s, code).1.outfilename == s.outfilename
    ensures Avoids(deq, ShiftAmount) ==> ParseLoop(deq, s, code).1.origShiftLen == s.origShiftLen
    decreases |deq|
  {
    if |deq| > 0 {
      var r := ParseStep(deq, s, code);
      StepFactsHold(deq, s, code);
      if r.Continue? {
        LoopKeepsFields(r.rest, r.settings, r.code);
        var n := |deq| - |r.rest|;
        if Avoids(deq, IFile) { AvoidsSuffix(deq, n, IFile); }
        if Avoids(deq, OFile) { AvoidsSuffix(deq, n, OFile); }
        if Avoids(deq, ShiftAmount) { AvoidsSuffix(deq, n, ShiftAmount); }
      }
    }
  }

  /** The last -i wins: with no later -i or --ifile, its name is the input name parsing leaves. */
  lemma LastIfileWins(name: string, rest: seq<string>, s: Settings, code: ProgCode)
    requires |name| < NPOS && TokensFit(rest)
    requires forall k :: 0 <= k < |rest| ==> OptionOf(rest[k]) != IFile
    ensures TokensFit(["-i", name] + rest)
    ensures ParseLoop(["-i", name] + rest, s, code).1.infilename == name
  {
    IfileOption(name, rest, s, code);
    LoopKeepsFields(rest, s.(infilename := name), code);
  }

  /** The last -o wins: with no later -o or --ofile, its name is the output name parsing leaves. */
  lemma LastOfileWins(name: string, rest: seq<string>, s: Settings, code: ProgCode)
    requires |name| < NPOS && TokensFit(rest)
    requires forall k :: 0 <= k < |rest| ==> OptionOf(rest[k]) != OFile
    ensures TokensFit(["-o", name] + rest)
    ensures ParseLoop(["-o", name] + rest, s, code).1.outfilename == name
  {
    OfileOption(name, rest, s, code);
    LoopKeepsFields(rest, s.(outfilename := name, flags := s.flags[DEFAULT_ONAME_BIT := false]), code);
  }

  /** The last -s wins: with no later -s or --shift-amount, its value is the shift parsing leaves. */
  lemma LastShiftWins(deq: seq<string>, s: Settings, code: ProgCode, v: int)
    requires |deq| >= 2 && TokensFit(deq) && deq[0] == "-s" && StoI(deq[1]) == Success(v)
    requires forall k :: 2 <= k < |deq| ==> OptionOf(deq[k]) != ShiftAmount
    ensures ParseLoop(deq, s, code).1.origShiftLen == v
  {
    ShiftStep(deq, s, code, v);
    var rest := deq[2..];
    assert forall k :: 0 <= k < |rest| ==> rest[k] == deq[k + 2];
    LoopKeepsFields(rest, s.(origShiftLen := v), code);
  }

  /**
   * Whatever the command line, parsing from the constructed defaults leaves
   * the default-name bit clear, so decipherFileText never appends ".dec".
   */
  lemma DefaultNameBitStaysClear(cmdln: seq<string>)
    requires TokensFit(cmdln)
    ensures !ParseSpec(cmdln, DEFAULT_SETTINGS).1.flags[DEFAULT_ONAME_BIT]
  {
    InitialFlagBits();
    if |cmdln| > 1 {
      assert TokensFit(cmdln[1..]);
      LoopKeepsBits(cmdln[1..], DEFAULT_SETTINGS.(programName := cmdln[0]), CmdlnOk);
    }
  }

  // ---------------------------------------------------------------------
  // generateCipherDict and decipherFileText
  // ---------------------------------------------------------------------

  /** The output path decipherFileText opens. */
  function OutputName(infilename: string, outfilename: string, flags: Bitset8): string
  {
    if flags[DEFAULT_ONAME_BIT] then infilename + ".dec" else outfilename
  }

  /**
   * Without -o or --ofile, parsing from the constructed defaults leaves an
   * empty output name, and decipherFileText opens its output under "".
   */
  lemma OutputNameWithoutOfile(cmdln: seq<string>)
    requires TokensFit(cmdln)
    requires forall k :: 1 <= k < |cmdln| ==> OptionOf(cmdln[k]) != OFile
    ensures OutputName(ParseSpec(cmdln, DEFAULT_SETTINGS).1.infilename, ParseSpec(cmdln, DEFAULT_SETTINGS).1.outfilename,
                       ParseSpec(cmdln, DEFAULT_SETTINGS).1.flags) == ""
  {
    DefaultNameBitStaysClear(cmdln);
    if |cmdln| > 1 {
      var rest := cmdln[1..];
      assert TokensFit(rest);
      assert forall k :: 0 <= k < |rest| ==> rest[k] == cmdln[k + 1];
      LoopKeepsFields(rest, DEFAULT_SETTINGS.(programName := cmdln[0]), CmdlnOk);
    }
  }

  /**
   * The ".dec" default name is never the input path, so with the
   * default-name bit set the output never truncates the input and every
   * line is read; a stored output name equal to the input path is read as
   * empty.
   */
  lemma DefaultNameKeepsInput(infilename: string, outfilename: string, flags: Bitset8, lines: seq<string>)
    ensures flags[DEFAULT_ONAME_BIT] ==> LinesRead(infilename, OutputName(infilename, outfilename, flags), lines) == lines
    ensures !flags[DEFAULT_ONAME_BIT] && outfilename == infilename ==>
      LinesRead(infilename, OutputName(infilename, outfilename, flags), lines) == []
  {
    if flags[DEFAULT_ONAME_BIT] {
      assert |OutputName(infilename, outfilename, flags)| == |infilename| + 4;
    }
  }

  class DecipherCtrlOpts {
    var programName: string
    var infilename: string
    var outfilename: string
    var origShiftLen: int
    var reducedShiftLen: int
    var digitsShiftLen: int
    var punctsShiftLen: int
    var cipherDict: map<char, char>
    var nbytesFile: nat
    var decipherFlags: Bitset8

    /** The member initialisers of the struct. */
    constructor ()
      ensures Snapshot() == DEFAULT_SETTINGS
      ensures reducedShiftLen == 5 && digitsShiftLen == 0 && punctsShiftLen == 0
      ensures cipherDict == map[] && nbytesFile == 0
    {
      programName := "";
      infilename := "";
      outfilename := "";
      origShiftLen := 5;
      reducedShiftLen := 5;
      digitsShiftLen := 0;
      punctsShiftLen := 0;
      cipherDict := map[];
      nbytesFile := 0;
      decipherFlags := INITIAL_FLAGS;
    }

    /** The fields that parsing writes, as a value. */
    function Snapshot(): Settings
      reads this
    {
      Settings(programName, infilename, outfilename, origShiftLen, decipherFlags)
    }

    /** parseSingleCharOptions: scans a combined token, setting and clearing flags as it goes. */
    method ParseSingleCharOptions(cmdlnSingles: string) returns (parseResults: ProgCode)
      requires |cmdlnSingles| < NPOS
      modifies this`decipherFlags
      ensures ScanState(parseResults, decipherFlags) == SingleCharOptions(cmdlnSingles, old(decipherFlags))
    {
      parseResults := CmdlnOk;
      if FindLastOf(cmdlnSingles, '-') > 0 {
        parseResults := CmdlnUserError;
      }
      if parseResults == CmdlnOk {
        var pos := 1;
        while pos < |cmdlnSingles|
          invariant 1 <= pos <= |cmdlnSingles|
          invariant ScanState(parseResults, decipherFlags)
                 == ScanFrom(ScanState(CmdlnOk, old(decipherFlags)), cmdlnSingles[1..pos])
        {
          assert cmdlnSingles[1..pos + 1][..pos - 1] == cmdlnSingles[1..pos];
          match cmdlnSingles[pos] {
            case 'a' =>
              decipherFlags := decipherFlags[DIGITS_BIT := true];
              decipherFlags := decipherFlags[PUNCTS_BIT := true];
            case 'n' =>
              decipherFlags := decipherFlags[DIGITS_BIT := true];
            case 'p' =>
              decipherFlags := decipherFlags[PUNCTS_BIT := true];
            case 'l' =>
              decipherFlags := decipherFlags[LOG_BIT := true];
            case 'h' =>
              decipherFlags := decipherFlags[HELP_BIT := true];
              parseResults := CmdlnHelpReq;
            case _ =>
              decipherFlags := decipherFlags[DIGITS_BIT := false];
              decipherFlags := decipherFlags[PUNCTS_BIT := false];
              decipherFlags := decipherFlags[LOG_BIT := false];
              decipherFlags := decipherFlags[HELP_BIT := false];
              parseResults := CmdlnUserError;
          }
          pos := pos + 1;
        }
        assert cmdlnSingles[1..pos] == cmdlnSingles[1..];
      }
    }

    /** parseCommandLine: pops the deque of tokens, writing the options it recognises. */
    method ParseCommandLine(usrCmdln: seq<string>) returns (res: ParseResult)
      requires TokensFit(usrCmdln)
      modifies this`programName, this`infilename, this`outfilename, this`origShiftLen, this`decipherFlags
      ensures (res, Snapshot()) == ParseSpec(usrCmdln, old(Snapshot()))
    {
      var deq := usrCmdln;
      if |deq| == 0 {
        return EmptyFront;
      }
      programName := deq[0];
      deq := deq[1..];
      if |deq| == 0 {
        return Parsed(CmdlnUsageReq);
      }
      var parseResults := CmdlnOk;
      ghost var target := ParseLoop(deq, Snapshot(), parseResults);
      while |deq| > 0
        invariant TokensFit(deq)
        invariant ParseLoop(deq, Snapshot(), parseResults) == target
        decreases |deq|
      {
        var currArg := deq[0];
        match OptionOf(currArg) {
          case IFile =>
            deq := deq[1..];
            if |deq| == 0 {
              return EmptyFront;
            }
            infilename := deq[0];
            deq := deq[1..];
          case OFile =>
            deq := deq[1..];
            if |deq| == 0 {
              return EmptyFront;
            }
            outfilename := deq[0];
            decipherFlags := decipherFlags[DEFAULT_ONAME_BIT := false];
            deq := deq[1..];
          case ShiftAmount =>
            deq := deq[1..];
            if |deq| == 0 {
              return EmptyFront;
            }
            var tmpIntStr := deq[0];
            match StoI(tmpIntStr) {
              case Failure(e) =>
                return Raised(e);
              case Success(v) =>
                origShiftLen := v;
                deq := deq[1..];
            }
          case ShiftNumbers =>
            decipherFlags := decipherFlags[DIGITS_BIT := true];
            deq := deq[1..];
          case ShiftPuncts =>
            decipherFlags := decipherFlags[PUNCTS_BIT := true];
            deq := deq[1..];
          case ShiftAll =>
            decipherFlags := decipherFlags[DIGITS_BIT := true];
            decipherFlags := decipherFlags[PUNCTS_BIT := true];
            deq := deq[1..];
          case Help =>
            decipherFlags := decipherFlags[HELP_BIT := true];
            parseResults := CmdlnHelpReq;
            deq := [];
          case ShowLog =>
            decipherFlags := decipherFlags[LOG_BIT := true];
            deq := deq[1..];
          case Combined =>
            parseResults := ParseSingleCharOptions(currArg);
            match parseResults {
              case CmdlnUserError =>
                return Raised(InvalidArgument);
              case CmdlnHelpReq =>
                deq := [];
              case CmdlnUsageReq =>
                deq := [];
              case CmdlnOk =>
                deq := deq[1..];
            }
        }
      }
      return Parsed(parseResults);
    }

    /**
     * generateCipherDict: reduces the shift for the letters, and for digits
     * and punctuation when their flag is set, then inserts rotated symbol to
     * original symbol for the four alphabets in turn.
     */
    method GenerateCipherDict()
      modifies this`reducedShiftLen, this`digitsShiftLen, this`punctsShiftLen, this`cipherDict
      ensures reducedShiftLen == ReducedShift(origShiftLen, 26)
      ensures digitsShiftLen == if decipherFlags[DIGITS_BIT] then ReducedShift(origShiftLen, 10) else old(digitsShiftLen)
      ensures punctsShiftLen == if decipherFlags[PUNCTS_BIT] then ReducedShift(origShiftLen, 32) else old(punctsShiftLen)
      ensures cipherDict == Inserted(old(cipherDict), Keys(Backward, reducedShiftLen, digitsShiftLen, punctsShiftLen),
                                                     Vals(Backward, reducedShiftLen, digitsShiftLen, punctsShiftLen))
    {
      AlphabetSizes();
      reducedShiftLen := CalcReducedShift(origShiftLen, 26);
      if decipherFlags[DIGITS_BIT] {
        digitsShiftLen := CalcReducedShift(origShiftLen, |Digits|);
      }
      if decipherFlags[PUNCTS_BIT] {
        punctsShiftLen := CalcReducedShift(origShiftLen, |Puncts|);
      }
      cipherDict := InsertAllPairs(cipherDict, Backward, reducedShiftLen, digitsShiftLen, punctsShiftLen);
    }

    /**
     * decipherFileText: fails when the input does not exist; names the
     * output (input name + ".dec" when the default-name bit is set); fails
     * when the output cannot be opened; otherwise writes every line
     * deciphered and counts its characters.  `inputExists` and
     * `outputOpens` are the file system's answers, `lines` the input file.
     */
    method DecipherFileText(inputExists: bool, lines: seq<string>, outputOpens: bool) returns (res: Result<seq<string>>)
      modifies this`outfilename, this`nbytesFile
      ensures outfilename == if inputExists then OutputName(infilename, old(outfilename), decipherFlags) else old(outfilename)
      ensures !inputExists || !outputOpens ==> res == Failure(FilesystemError) && nbytesFile == old(nbytesFile)
      ensures inputExists && outputOpens ==>
        res == Success(MapText(cipherDict, LinesRead(infilename, outfilename, lines)))
        && nbytesFile == old(nbytesFile) + TotalLength(LinesRead(infilename, outfilename, lines))
    {
      if !inputExists {
        return Failure(FilesystemError);
      }
      if decipherFlags[DEFAULT_ONAME_BIT] {
        var onameFull := infilename;
        onameFull := onameFull + ".dec";
        outfilename := onameFull;
      }
      if !outputOpens {
        return Failure(FilesystemError);
      }
      var input := LinesRead(infilename, outfilename, lines);
      var written: seq<string> := [];
      var numChrsRead := 0;
      var k := 0;
      while k < |input|
        modifies this`nbytesFile
        invariant 0 <= k <= |input|
        invariant written == MapText(cipherDict, input[..k])
        invariant numChrsRead == TotalLength(input[..k])
        invariant nbytesFile == old(nbytesFile) + numChrsRead
      {
        var outstr := TransformLine(cipherDict, input[k]);
        TextPrefixStep(cipherDict, input, k);
        written := written + [outstr];
        numChrsRead := numChrsRead + |input[k]|;
        nbytesFile := nbytesFile + |input[k]|;
        k := k + 1;
      }
      assert input[..k] == input;
      return Success(written);
    }
  }
}
