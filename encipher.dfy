/**
 * ShiftEncipher: the options object CipherOptions and the three steps main
 * runs on it — parseCommandLine (which scans combined one-letter options
 * inline), generateCipherDict and encipherFileText.  The shift reduction,
 * calculateEffectiveShift, is the same code as the decipherer's and is
 * Modular.CalcReducedShift.
 */
module Encipher {
  import opened Modular
  import opened Alphabets
  import opened Rotation
  import opened Tables
  import opened Substitution
  import opened CppStd

  /** How parseCommandLine ends: it returns 0 (go on) or 1 (USAGE or HELP shown), or it throws. */
  datatype ParseResult = Returned(code: int) | Raised(error: Exception)

  /** The fields of CipherOptions that parseCommandLine writes. */
  datatype Settings = Settings(programName: string, infilename: string, outfilename: string,
                               useDefaultOname: bool, shiftAmount: int,
                               encNumbers: bool, encPuncts: bool, displayLogInfo: bool)

  /** The member initialisers of CipherOptions. */
  const DEFAULT_SETTINGS := Settings("", "", "", true, 5, false, false, false)

  // ---------------------------------------------------------------------
  // combined single-character options
  // ---------------------------------------------------------------------

  /** valid_singlechr_opts: the letters a combined token may hold after its dash. */
  predicate IsOptionChar(c: char)
  {
    c == 'a' || c == 'l' || c == 'n' || c == 'p' || c == 'h'
  }

  /** Where the letter loop stands: no invalid letter seen yet, 'h' seen, and the options. */
  datatype ScanState = ScanState(valid: bool, help: bool, settings: Settings)

  /**
   * The letter loop over the rest t of a combined token: each known letter
   * sets its options ('h' asks for HELP but the loop goes on); the first
   * unknown letter clears the log, numbers and punctuation options and
   * ends the scan, since the program throws there.
   */
  function ScanChars(s: Settings, help: bool, t: string): ScanState
    decreases |t|
  {
    if |t| == 0 then ScanState(true, help, s)
    else
      match t[0]
      case 'a' => ScanChars(s.(encNumbers := true, encPuncts := true), help, t[1..])
      case 'n' => ScanChars(s.(encNumbers := true), help, t[1..])
      case 'p' => ScanChars(s.(encPuncts := true), help, t[1..])
      case 'l' => ScanChars(s.(displayLogInfo := true), help, t[1..])
      case 'h' => ScanChars(s, true, t[1..])
      case _ => ScanState(false, help, s.(displayLogInfo := false, encNumbers := false, encPuncts := false))
  }

  /** The scan succeeds exactly when every letter is a known one. */
  lemma {:induction false} ScanValid(s: Settings, help: bool, t: string)
    ensures ScanChars(s, help, t).valid <==> forall i :: 0 <= i < |t| ==> IsOptionChar(t[i])
    decreases |t|
  {
    if |t| > 0 {
      var u := t[1..];
      assert forall i :: 0 < i < |t| ==> t[i] == u[i - 1];
      match t[0]
      case 'a' => ScanValid(s.(encNumbers := true, encPuncts := true), help, u);
      case 'n' => ScanValid(s.(encNumbers := true), help, u);
      case 'p' => ScanValid(s.(encPuncts := true), help, u);
      case 'l' => ScanValid(s.(displayLogInfo := true), help, u);
      case 'h' => ScanValid(s, true, u);
      case _ =>
    }
  }

  /** The scan touches only the numbers, punctuation and log options. */
  lemma {:induction false} ScanKeepsOthers(s: Settings, help: bool, t: string)
    ensures ScanChars(s, help, t).settings.programName == s.programName
    ensures ScanChars(s, help, t).settings.infilename == s.infilename
    ensures ScanChars(s, help, t).settings.outfilename == s.outfilename
    ensures ScanChars(s, help, t).settings.useDefaultOname == s.useDefaultOname
    ensures ScanChars(s, help, t).settings.shiftAmount == s.shiftAmount
    decreases |t|
  {
    if |t| > 0 {
      var u := t[1..];
      match t[0]
      case 'a' => ScanKeepsOthers(s.(encNumbers := true, encPuncts := true), help, u);
      case 'n' => ScanKeepsOthers(s.(encNumbers := true), help, u);
      case 'p' => ScanKeepsOthers(s.(encPuncts := true), help, u);
      case 'l' => ScanKeepsOthers(s.(displayLogInfo := true), help, u);
      case 'h' => ScanKeepsOthers(s, true, u);
      case _ =>
    }
  }

  /**
   * A completed scan asks for HELP when an 'h' occurs, and turns on numbers
   * for an 'a' or 'n', punctuation for an 'a' or 'p' and the log for an
   * 'l', whatever the order of the letters.
   */
  lemma {:induction false} ScanCompleted(s: Settings, help: bool, t: string)
    requires ScanChars(s, help, t).valid
    ensures ScanChars(s, help, t).help == (help || 'h' in t)
    ensures ScanChars(s, help, t).settings.encNumbers == (s.encNumbers || 'a' in t || 'n' in t)
    ensures ScanChars(s, help, t).settings.encPuncts == (s.encPuncts || 'a' in t || 'p' in t)
    ensures ScanChars(s, help, t).settings.displayLogInfo == (s.displayLogInfo || 'l' in t)
    decreases |t|
  {
    if |t| > 0 {
      var u := t[1..];
      assert t == [t[0]] + u;
      match t[0]
      case 'a' => ScanCompleted(s.(encNumbers := true, encPuncts := true), help, u);
      case 'n' => ScanCompleted(s.(encNumbers := true), help, u);
      case 'p' => ScanCompleted(s.(encPuncts := true), help, u);
      case 'l' => ScanCompleted(s.(displayLogInfo := true), help, u);
      case 'h' => ScanCompleted(s, true, u);
    }
  }

  /** A failed scan leaves the numbers, punctuation and log options off. */
  lemma {:induction false} ScanFailed(s: Settings, help: bool, t: string)
    requires !ScanChars(s, help, t).valid
    ensures !ScanChars(s, help, t).settings.encNumbers
    ensures !ScanChars(s, help, t).settings.encPuncts
    ensures !ScanChars(s, help, t).settings.displayLogInfo
    decreases |t|
  {
    var u := t[1..];
    match t[0]
    case 'a' => ScanFailed(s.(encNumbers := true, encPuncts := true), help, u);
    case 'n' => ScanFailed(s.(encNumbers := true), help, u);
    case 'p' => ScanFailed(s.(encPuncts := true), help, u);
    case 'l' => ScanFailed(s.(displayLogInfo := true), help, u);
    case 'h' => ScanFailed(s, true, u);
    case _ =>
  }

  // ---------------------------------------------------------------------
  // parseCommandLine
  // ---------------------------------------------------------------------

  /** What one pass of the loop body leaves: a final outcome, or the index of the next token. */
  datatype Step = Stop(outcome: ParseResult, settings: Settings)
                | Continue(next: nat, settings: Settings)

  /** Which branch of the compare chain a token takes. */
  datatype Opt = IFile | OFile | ShiftAmount | ShiftNums | ShiftPuncts | ShiftAll | Help | ShowLog | Combined

  /** The compare chain of parseCommandLine: a token naming an option, or anything else. */
  function OptionOf(arg: string): Opt
  {
    if arg == "-i" || arg == "--ifile" then IFile
    else if arg == "-o" || arg == "--ofile" then OFile
    else if arg == "-s" || arg == "--shift-amount" then ShiftAmount
    else if arg == "--shift-nums" then ShiftNums
    else if arg == "--shift-puncts" then ShiftPuncts
    else if arg == "--shift-all" then ShiftAll
    else if arg == "--help" then Help
    else if arg == "--show-log" then ShowLog
    else Combined
  }

  /**
   * One pass of the option loop on token i.  An option that takes a value
   * reads token i + 1 with `at`, which throws out_of_range past the end.
   */
  function ParseStep(cmdln: seq<string>, i: nat, s: Settings): (r: Step)
    requires i < |cmdln| && TokensFit(cmdln)
    ensures r.Continue? ==> i < r.next
  {
    var arg := cmdln[i];
    match OptionOf(arg)
    case IFile =>
      if i + 1 == |cmdln| then Stop(Raised(OutOfRange), s)
      else Continue(i + 2, s.(infilename := cmdln[i + 1]))
    case OFile =>
      if i + 1 == |cmdln| then Stop(Raised(OutOfRange), s)
      else Continue(i + 2, s.(outfilename := cmdln[i + 1], useDefaultOname := false))
    case ShiftAmount =>
      if i + 1 == |cmdln| then Stop(Raised(OutOfRange), s)
      else
        (match StoI(cmdln[i + 1])
         case Failure(e) => Stop(Raised(e), s)
         case Success(v) => Continue(i + 2, s.(shiftAmount := v)))
    case ShiftNums => Continue(i + 1, s.(encNumbers := true))
    case ShiftPuncts => Continue(i + 1, s.(encPuncts := true))
    case ShiftAll => Continue(i + 1, s.(encNumbers := true, encPuncts := true))
    case Help => Stop(Returned(1), s)
    case ShowLog => Continue(i + 1, s.(displayLogInfo := true))
    case Combined =>
      if FindLastOf(arg, '-') > 0 then Stop(Raised(InvalidArgument), s)
      else
        var sc := ScanChars(s, false, arg[1..]);
        if !sc.valid then Stop(Raised(InvalidArgument), sc.settings)
        else if sc.help then Stop(Returned(1), sc.settings)
        else Continue(i + 1, sc.settings)
  }

  /** The option loop from token i on; it returns 0 when it runs off the end. */
  function ParseLoop(cmdln: seq<string>, i: nat, s: Settings): (ParseResult, Settings)
    requires TokensFit(cmdln)
    decreases |cmdln| - i
  {
    if i >= |cmdln| then (Returned(0), s)
    else
      match ParseStep(cmdln, i, s)
      case Stop(outcome, s') => (outcome, s')
      case Continue(next, s') => ParseLoop(cmdln, next, s')
  }

  /**
   * parseCommandLine: `at(0)` throws on an empty command line; the program
   * name is appended; a command line of the name alone returns 1 (USAGE);
   * otherwise the option loop runs from token 1.
   */
  function ParseSpec(cmdln: seq<string>, s: Settings): (ParseResult, Settings)
    requires TokensFit(cmdln)
  {
    if |cmdln| == 0 then (Raised(OutOfRange), s)
    else
      var named := s.(programName := s.programName + cmdln[0]);
      if |cmdln| == 1 then (Returned(1), named)
      else ParseLoop(cmdln, 1, named)
  }

  /** An empty command line throws out_of_range; a program name alone returns 1. */
  lemma ShortCommandLines(name: string, s: Settings)
    requires |name| < NPOS
    ensures ParseSpec([], s) == (Raised(OutOfRange), s)
    ensures ParseSpec([name], s) == (Returned(1), s.(programName := s.programName + name))
  {
  }

  /** An option whose value is missing throws out_of_range and changes nothing. */
  lemma MissingValueThrows(cmdln: seq<string>, s: Settings)
    requires |cmdln| >= 1 && TokensFit(cmdln)
    requires OptionOf(cmdln[|cmdln| - 1]) in {IFile, OFile, ShiftAmount}
    ensures ParseLoop(cmdln, |cmdln| - 1, s) == (Raised(OutOfRange), s)
  {
  }

  /** -o stores the next token as output name and turns the default name off. */
  lemma OfileOption(cmdln: seq<string>, i: nat, s: Settings)
    requires i + 1 < |cmdln| && TokensFit(cmdln) && cmdln[i] == "-o"
    ensures ParseLoop(cmdln, i, s) == ParseLoop(cmdln, i + 2, s.(outfilename := cmdln[i + 1], useDefaultOname := false))
  {
    assert OptionOf(cmdln[i]) == OFile;
  }

  /** -s followed by a number written in decimal stores that number. */
  lemma ShiftOption(cmdln: seq<string>, i: nat, s: Settings, v: int)
    requires i + 1 < |cmdln| && TokensFit(cmdln) && cmdln[i] == "-s"
    requires INT_MIN <= v <= INT_MAX && cmdln[i + 1] == ToDecimal(v)
    ensures ParseLoop(cmdln, i, s) == ParseLoop(cmdln, i + 2, s.(shiftAmount := v))
  {
    StoIToDecimal(v);
    assert OptionOf(cmdln[i]) == ShiftAmount;
    assert ParseStep(cmdln, i, s) == Continue(i + 2, s.(shiftAmount := v));
  }

  /** -i stores the next token as input name. */
  lemma IfileOption(cmdln: seq<string>, i: nat, s: Settings)
    requires i + 1 < |cmdln| && TokensFit(cmdln) && cmdln[i] == "-i"
    ensures ParseLoop(cmdln, i, s) == ParseLoop(cmdln, i + 2, s.(infilename := cmdln[i + 1]))
  {
    assert OptionOf(cmdln[i]) == IFile;
  }

  /**
   * A token that is no option and whose last '-' is past index 0, or that
   * has no '-' at all (npos > 0), throws invalid_argument and changes nothing.
   */
  lemma MisplacedDashRejected(cmdln: seq<string>, i: nat, s: Settings)
    requires i < |cmdln| && TokensFit(cmdln) && OptionOf(cmdln[i]) == Combined
    requires '-' !in cmdln[i] || exists j :: 0 < j < |cmdln[i]| && cmdln[i][j] == '-'
    ensures ParseLoop(cmdln, i, s) == (Raised(InvalidArgument), s)
  {
    var arg := cmdln[i];
    if '-' in arg {
      var j :| 0 < j < |arg| && arg[j] == '-';
      assert FindLastOf(arg, '-') >= j;
    }
  }

  /** The decipherer's spelling --shift-numbers is not an option here: its inner dash makes it throw. */
  lemma ShiftNumbersRejected(cmdln: seq<string>, i: nat, s: Settings)
    requires i < |cmdln| && TokensFit(cmdln) && cmdln[i] == "--shift-numbers"
    ensures ParseLoop(cmdln, i, s) == (Raised(InvalidArgument), s)
  {
    assert cmdln[i][7] == '-';
    assert OptionOf(cmdln[i]) == Combined;
    MisplacedDashRejected(cmdln, i, s);
  }

  /** After 'h' the letters that follow still count: "-hn" shows HELP with numbers turned on. */
  lemma HelpThenLetter(cmdln: seq<string>, i: nat, s: Settings)
    requires i < |cmdln| && TokensFit(cmdln) && cmdln[i] == "-hn"
    ensures ParseLoop(cmdln, i, s) == (Returned(1), s.(encNumbers := true))
  {
    var arg := cmdln[i];
    assert OptionOf(arg) == Combined;
    assert FindLastOf(arg, '-') == 0;
    assert arg[1..] == "hn" && "hn"[1..] == "n" && "n"[1..] == "";
  }

  /** An unknown letter after 'h' still throws, with the three scan options cleared. */
  lemma HelpThenUnknownLetter(cmdln: seq<string>, i: nat, s: Settings)
    requires i < |cmdln| && TokensFit(cmdln) && cmdln[i] == "-hx"
    ensures ParseLoop(cmdln, i, s)
         == (Raised(InvalidArgument), s.(encNumbers := false, encPuncts := false, displayLogInfo := false))
  {
    var arg := cmdln[i];
    assert OptionOf(arg) == Combined;
    assert FindLastOf(arg, '-') == 0;
    assert arg[1..] == "hx" && "hx"[1..] == "x";
  }

  /**
   * --shift-nums, --shift-puncts, --shift-all and --show-log turn on their
   * options and go on with the next token.
   */
  lemma SwitchOptions(cmdln: seq<string>, i: nat, s: Settings)
    requires i < |cmdln| && TokensFit(cmdln)
    ensures cmdln[i] == "--shift-nums" ==> ParseLoop(cmdln, i, s) == ParseLoop(cmdln, i + 1, s.(encNumbers := true))
    ensures cmdln[i] == "--shift-puncts" ==> ParseLoop(cmdln, i, s) == ParseLoop(cmdln, i + 1, s.(encPuncts := true))
    ensures cmdln[i] == "--shift-all" ==>
      ParseLoop(cmdln, i, s) == ParseLoop(cmdln, i + 1, s.(encNumbers := true, encPuncts := true))
    ensures cmdln[i] == "--show-log" ==> ParseLoop(cmdln, i, s) == ParseLoop(cmdln, i + 1, s.(displayLogInfo := true))
  {
  }

  /** --help returns 1 and ends the loop: later tokens are not looked at, earlier tokens' effects stay. */
  lemma HelpStopsParse(cmdln: seq<string>, i: nat, s: Settings)
    requires i < |cmdln| && TokensFit(cmdln) && cmdln[i] == "--help"
    ensures ParseLoop(cmdln, i, s) == (Returned(1), s)
  {
    assert OptionOf(cmdln[i]) == Help;
  }

  /**
   * A well-formed combined token holding an 'h' returns 1 and ends the
   * loop, with the options its other letters set.
   */
  lemma HelpLetterStopsParse(cmdln: seq<string>, i: nat, s: Settings)
    requires i < |cmdln| && TokensFit(cmdln) && OptionOf(cmdln[i]) == Combined
    requires |cmdln[i]| > 0 && cmdln[i][0] == '-'
    requires forall j :: 0 < j < |cmdln[i]| ==> IsOptionChar(cmdln[i][j])
    requires 'h' in cmdln[i]
    ensures ParseLoop(cmdln, i, s) == (Returned(1), ScanChars(s, false, cmdln[i][1..]).settings)
  {
    var arg := cmdln[i];
    var t := arg[1..];
    assert FindLastOf(arg, '-') == 0;
    assert forall j :: 0 <= j < |t| ==> t[j] == arg[j + 1];
    ScanValid(s, false, t);
    ScanCompleted(s, false, t);
    var j :| 0 <= j < |arg| && arg[j] == 'h';
    assert t[j - 1] == 'h';
  }

  /** The tokens that can make the loop return 1: --help, or a combined token holding an 'h'. */
  predicate AsksHelp(arg: string)
  {
    OptionOf(arg) == Help || (OptionOf(arg) == Combined && 'h' in arg)
  }

  /**
   * One pass of the loop returns only 1, throws only invalid_argument or
   * out_of_range, never turns the default output name on, and turns it off
   * only for a -o token; it returns only for a token that asks for HELP,
   * and the input name, output name and shift change only at their own
   * options; a pass that does not throw never turns numbers, punctuation
   * or the log off.
   */
  predicate StepFacts(cmdln: seq<string>, i: nat, s: Settings)
    requires i < |cmdln| && TokensFit(cmdln)
  {
    var r := ParseStep(cmdln, i, s);
    (r.Stop? && r.outcome.Returned? ==> r.outcome.code == 1 && AsksHelp(cmdln[i]))
    && (r.Stop? && r.outcome.Raised? ==> r.outcome.error == InvalidArgument || r.outcome.error == OutOfRange)
    && (r.settings.useDefaultOname ==> s.useDefaultOname)
    && (s.useDefaultOname && !r.settings.useDefaultOname ==> OptionOf(cmdln[i]) == OFile)
    && (OptionOf(cmdln[i]) != IFile ==> r.settings.infilename == s.infilename)
    && (OptionOf(cmdln[i]) != OFile ==> r.settings.outfilename == s.outfilename)
    && (OptionOf(cmdln[i]) != ShiftAmount ==> r.settings.shiftAmount == s.shiftAmount)
    && (!(r.Stop? && r.outcome.Raised?) && s.encNumbers ==> r.settings.encNumbers)
    && (!(r.Stop? && r.outcome.Raised?) && s.encPuncts ==> r.settings.encPuncts)
    && (!(r.Stop? && r.outcome.Raised?) && s.displayLogInfo ==> r.settings.displayLogInfo)
  }

  lemma StepFactsHold(cmdln: seq<string>, i: nat, s: Settings)
    requires i < |cmdln| && TokensFit(cmdln)
    ensures StepFacts(cmdln, i, s)
  {
    var arg := cmdln[i];
    match OptionOf(arg)
    case IFile =>
    case OFile =>
    case ShiftAmount =>
    case ShiftNums =>
    case ShiftPuncts =>
    case ShiftAll =>
    case Help =>
    case ShowLog =>
    case Combined =>
      if FindLastOf(arg, '-') <= 0 {
        var t := arg[1..];
        ScanKeepsOthers(s, false, t);
        if ScanChars(s, false, t).valid {
          ScanCompleted(s, false, t);
          if 'h' in t {
            var j :| 0 <= j < |t| && t[j] == 'h';
            assert arg[j + 1] == 'h';
          }
        }
      }
  }

  /**
   * The option loop returns 0 or 1, and 1 only when some token from i on
   * asks for HELP; it throws only invalid_argument or out_of_range.  The
   * default output name is never turned on, and it is turned off only when
   * some token from i on is -o or --ofile.
   */
  lemma {:induction false} LoopFacts(cmdln: seq<string>, i: nat, s: Settings)
    requires TokensFit(cmdln)
    ensures ParseLoop(cmdln, i, s).0.Returned? ==>
      ParseLoop(cmdln, i, s).0.code == 0 || ParseLoop(cmdln, i, s).0.code == 1
    ensures ParseLoop(cmdln, i, s).0 == Returned(1) ==> exists k :: i <= k < |cmdln| && AsksHelp(cmdln[k])
    ensures ParseLoop(cmdln, i, s).0.Raised? ==>
      ParseLoop(cmdln, i, s).0.error == InvalidArgument || ParseLoop(cmdln, i, s).0.error == OutOfRange
    ensures ParseLoop(cmdln, i, s).1.useDefaultOname ==> s.useDefaultOname
    ensures s.useDefaultOname && !ParseLoop(cmdln, i, s).1.useDefaultOname ==>
      exists k :: i <= k < |cmdln| && OptionOf(cmdln[k]) == OFile
    decreases |cmdln| - i
  {
    if i < |cmdln| {
      var r := ParseStep(cmdln, i, s);
      StepFactsHold(cmdln, i, s);
      if r.Continue? {
        LoopFacts(cmdln, r.next, r.settings);
        if s.useDefaultOname && !ParseLoop(cmdln, i, s).1.useDefaultOname && r.settings.useDefaultOname {
          var k :| r.next <= k < |cmdln| && OptionOf(cmdln[k]) == OFile;
          assert i <= k;
        }
        if ParseLoop(cmdln, i, s).0 == Returned(1) {
          var k :| r.next <= k < |cmdln| && AsksHelp(cmdln[k]);
          assert i <= k;
        }
      }
    }
  }

  /**
   * The input name, the output name and the shift change only at their own
   * options: the loop from token i leaves each of them as it was when no
   * token from i on names its option.
   */
  lemma {:induction false} LoopKeepsFields(cmdln: seq<string>, i: nat, s: Settings)
    requires TokensFit(cmdln)
    ensures (forall k :: i <= k < |cmdln| ==> OptionOf(cmdln[k]) != IFile) ==>
      ParseLoop(cmdln, i, s).1.infilename == s.infilename
    ensures (forall k :: i <= k < |cmdln| ==> OptionOf(cmdln[k]) != OFile) ==>
      ParseLoop(cmdln, i, s).1.outfilename == s.outfilename
    ensures (forall k :: i <= k < |cmdln| ==> OptionOf(cmdln[k]) != ShiftAmount) ==>
      ParseLoop(cmdln, i, s).1.shiftAmount == s.shiftAmount
    decreases |cmdln| - i
  {
    if i < |cmdln| {
      var r := ParseStep(cmdln, i, s);
      StepFactsHold(cmdln, i, s);
      if r.Continue? {
        LoopKeepsFields(cmdln, r.next, r.settings);
      }
    }
  }

  /** The last -i wins: with no later -i or --ifile, its name is the input name parsing leaves. */
  lemma LastIfileWins(cmdln: seq<string>, i: nat, s: Settings)
    requires i + 1 < |cmdln| && TokensFit(cmdln) && cmdln[i] == "-i"
    requires forall k :: i + 2 <= k < |cmdln| ==> OptionOf(cmdln[k]) != IFile
    ensures ParseLoop(cmdln, i, s).1.infilename == cmdln[i + 1]
  {
    IfileOption(cmdln, i, s);
    LoopKeepsFields(cmdln, i + 2, s.(infilename := cmdln[i + 1]));
  }

  /** The last -o wins: with no later -o or --ofile, its name is the output name parsing leaves. */
  lemma LastOfileWins(cmdln: seq<string>, i: nat, s: Settings)
    requires i + 1 < |cmdln| && TokensFit(cmdln) && cmdln[i] == "-o"
    requires forall k :: i + 2 <= k < |cmdln| ==> OptionOf(cmdln[k]) != OFile
    ensures ParseLoop(cmdln, i, s).1.outfilename == cmdln[i + 1]
  {
    OfileOption(cmdln, i, s);
    LoopKeepsFields(cmdln, i + 2, s.(outfilename := cmdln[i + 1], useDefaultOname := false));
  }

  /** The last -s wins: with no later -s or --shift-amount, its value is the shift parsing leaves. */
  lemma LastShiftWins(cmdln: seq<string>, i: nat, s: Settings, v: int)
    requires i + 1 < |cmdln| && TokensFit(cmdln) && cmdln[i] == "-s" && StoI(cmdln[i + 1]) == Success(v)
    requires forall k :: i + 2 <= k < |cmdln| ==> OptionOf(cmdln[k]) != ShiftAmount
    ensures ParseLoop(cmdln, i, s).1.shiftAmount == v
  {
    assert OptionOf(cmdln[i]) == ShiftAmount;
    assert ParseStep(cmdln, i, s) == Continue(i + 2, s.(shiftAmount := v));
    LoopKeepsFields(cmdln, i + 2, s.(shiftAmount := v));
  }

  /**
   * A parse that returns keeps numbers, punctuation and the log on once
   * they are on.  (An unknown letter turns them off, but it throws.)
   */
  lemma {:induction false} LoopKeepsSwitches(cmdln: seq<string>, i: nat, s: Settings)
    requires TokensFit(cmdln)
    ensures ParseLoop(cmdln, i, s).0.Returned? && s.encNumbers ==> ParseLoop(cmdln, i, s).1.encNumbers
    ensures ParseLoop(cmdln, i, s).0.Returned? && s.encPuncts ==> ParseLoop(cmdln, i, s).1.encPuncts
    ensures ParseLoop(cmdln, i, s).0.Returned? && s.displayLogInfo ==> ParseLoop(cmdln, i, s).1.displayLogInfo
    decreases |cmdln| - i
  {
    if i < |cmdln| {
      var r := ParseStep(cmdln, i, s);
      StepFactsHold(cmdln, i, s);
      if r.Continue? {
        LoopKeepsSwitches(cmdln, r.next, r.settings);
      }
    }
  }

  /**
   * --shift-nums, --shift-puncts, --shift-all and --show-log leave their
   * options on at the end of a parse that returns.
   */
  lemma SwitchStaysOn(cmdln: seq<string>, i: nat, s: Settings)
    requires i < |cmdln| && TokensFit(cmdln)
    ensures (cmdln[i] == "--shift-nums" || cmdln[i] == "--shift-all") && ParseLoop(cmdln, i, s).0.Returned? ==>
      ParseLoop(cmdln, i, s).1.encNumbers
    ensures (cmdln[i] == "--shift-puncts" || cmdln[i] == "--shift-all") && ParseLoop(cmdln, i, s).0.Returned? ==>
      ParseLoop(cmdln, i, s).1.encPuncts
    ensures cmdln[i] == "--show-log" && ParseLoop(cmdln, i, s).0.Returned? ==> ParseLoop(cmdln, i, s).1.displayLogInfo
  {
    var r := ParseStep(cmdln, i, s);
    if r.Continue? {
      LoopKeepsSwitches(cmdln, r.next, r.settings);
    }
  }

  /** Without a token asking for HELP from i on, the loop that returns returns 0. */
  lemma NoHelpReturnsZero(cmdln: seq<string>, i: nat, s: Settings)
    requires TokensFit(cmdln)
    requires forall k :: i <= k < |cmdln| ==> !AsksHelp(cmdln[k])
    ensures ParseLoop(cmdln, i, s).0.Returned? ==> ParseLoop(cmdln, i, s).0.code == 0
  {
    LoopFacts(cmdln, i, s);
  }

  /**
   * From the constructed defaults, parseCommandLine returns 0 or 1 or throws
   * invalid_argument or out_of_range; it returns 1 only for a program name
   * alone or a token asking for HELP; and the output keeps its default name
   * (input name + ".ciph") unless -o or --ofile occurs.
   */
  lemma ParseFacts(cmdln: seq<string>)
    requires TokensFit(cmdln)
    ensures ParseSpec(cmdln, DEFAULT_SETTINGS).0.Returned? ==>
      ParseSpec(cmdln, DEFAULT_SETTINGS).0.code == 0 || ParseSpec(cmdln, DEFAULT_SETTINGS).0.code == 1
    ensures ParseSpec(cmdln, DEFAULT_SETTINGS).0.Raised? ==>
      ParseSpec(cmdln, DEFAULT_SETTINGS).0.error == InvalidArgument
      || ParseSpec(cmdln, DEFAULT_SETTINGS).0.error == OutOfRange
    ensures ParseSpec(cmdln, DEFAULT_SETTINGS).0 == Returned(1) ==>
      |cmdln| == 1 || exists k :: 1 <= k < |cmdln| && AsksHelp(cmdln[k])
    ensures (forall k :: 1 <= k < |cmdln| ==> OptionOf(cmdln[k]) != OFile) ==>
      ParseSpec(cmdln, DEFAULT_SETTINGS).1.useDefaultOname
  {
    if |cmdln| > 1 {
      LoopFacts(cmdln, 1, DEFAULT_SETTINGS.(programName := DEFAULT_SETTINGS.programName + cmdln[0]));
    }
  }

  // ---------------------------------------------------------------------
  // encipherFileText
  // ---------------------------------------------------------------------

  /** The output path encipherFileText opens. */
  function OutputName(infilename: string, outfilename: string, useDefaultOname: bool): string
  {
    if useDefaultOname then infilename + ".ciph" else outfilename
  }

  /**
   * The ".ciph" default name is never the input path, so with the default
   * name the output never truncates the input and every line is read; an
   * -o name equal to the input path is read as empty.
   */
  lemma DefaultNameKeepsInput(infilename: string, outfilename: string, useDefaultOname: bool, lines: seq<string>)
    ensures useDefaultOname ==> LinesRead(infilename, OutputName(infilename, outfilename, useDefaultOname), lines) == lines
    ensures !useDefaultOname && outfilename == infilename ==>
      LinesRead(infilename, OutputName(infilename, outfilename, useDefaultOname), lines) == []
  {
    if useDefaultOname {
      assert |OutputName(infilename, outfilename, useDefaultOname)| == |infilename| + 5;
    }
  }

  /** Where encipherFileText writes and what ends up in that file. */
  datatype FileOutput = FileOutput(path: string, written: seq<string>)

  class CipherOptions {
    var programName: string
    var infilename: string
    var outfilename: string
    var useDefaultOname: bool
    var shiftAmount: int
    var effectiveShift: int
    var numbersShift: int
    var punctsShift: int
    var encNumbers: bool
    var encPuncts: bool
    var cipherDict: map<char, char>
    var nbytesFile: nat
    var displayLogInfo: bool

    /** The member initialisers of the struct. */
    constructor ()
      ensures Snapshot() == DEFAULT_SETTINGS
      ensures effectiveShift == 5 && numbersShift == 0 && punctsShift == 0
      ensures cipherDict == map[] && nbytesFile == 0
    {
      programName := "";
      infilename := "";
      outfilename := "";
      useDefaultOname := true;
      shiftAmount := 5;
      effectiveShift := 5;
      numbersShift := 0;
      punctsShift := 0;
      encNumbers := false;
      encPuncts := false;
      cipherDict := map[];
      nbytesFile := 0;
      displayLogInfo := false;
    }

    /** The fields that parsing writes, as a value. */
    function Snapshot(): Settings
      reads this
    {
      Settings(programName, infilename, outfilename, useDefaultOname, shiftAmount,
               encNumbers, encPuncts, displayLogInfo)
    }

    /**
     * parseCommandLine: walks the tokens by index, writing the options it
     * recognises.  parse_results only becomes 1 where the loop is left at
     * once (--help, or an 'h' in a combined token), so the loop returns as
     * soon as a pass of its body ends the parse.
     */
    method ParseCommandLine(usrCmdln: seq<string>) returns (res: ParseResult)
      requires TokensFit(usrCmdln)
      modifies this`programName, this`infilename, this`outfilename, this`useDefaultOname,
               this`shiftAmount, this`encNumbers, this`encPuncts, this`displayLogInfo
      ensures (res, Snapshot()) == ParseSpec(usrCmdln, old(Snapshot()))
    {
      var parseResults := 0;
      var optNumber := 0;
      if |usrCmdln| == 0 {
        return Raised(OutOfRange);
      }
      programName := programName + usrCmdln[optNumber];
      optNumber := optNumber + 1;
      if |usrCmdln| == 1 {
        parseResults := 1;
        return Returned(parseResults);
      }
      ghost var target := ParseLoop(usrCmdln, 1, Snapshot());
      while optNumber < |usrCmdln|
        invariant ParseLoop(usrCmdln, optNumber, Snapshot()) == target
        decreases |usrCmdln| - optNumber
      {
        var step := ParseOption(usrCmdln, optNumber);
        match step {
          case Stop(outcome, _) =>
            return outcome;
          case Continue(next, _) =>
            optNumber := next;
        }
      }
      return Returned(parseResults);
    }

    /**
     * One pass of the loop body of parseCommandLine on token optNumber; a
     * combined token is scanned letter by letter.  The program's
     * valid_sco_used is always true once the letter loop completes (an
     * unknown letter throws at once), so its final else is not modelled.
     */
    method ParseOption(usrCmdln: seq<string>, optNumber: nat) returns (step: Step)
      requires optNumber < |usrCmdln| && TokensFit(usrCmdln)
      modifies this`infilename, this`outfilename, this`useDefaultOname,
               this`shiftAmount, this`encNumbers, this`encPuncts, this`displayLogInfo
      ensures step == ParseStep(usrCmdln, optNumber, old(Snapshot())) && Snapshot() == step.settings
    {
      var curropt := usrCmdln[optNumber];
      match OptionOf(curropt) {
        case IFile =>
          if optNumber + 1 == |usrCmdln| {
            return Stop(Raised(OutOfRange), Snapshot());
          }
          infilename := usrCmdln[optNumber + 1];
          step := Continue(optNumber + 2, Snapshot());
        case OFile =>
          if optNumber + 1 == |usrCmdln| {
            return Stop(Raised(OutOfRange), Snapshot());
          }
          outfilename := usrCmdln[optNumber + 1];
          useDefaultOname := false;
          step := Continue(optNumber + 2, Snapshot());
        case ShiftAmount =>
          if optNumber + 1 == |usrCmdln| {
            return Stop(Raised(OutOfRange), Snapshot());
          }
          var currarg := usrCmdln[optNumber + 1];
          match StoI(currarg) {
            case Failure(e) =>
              return Stop(Raised(e), Snapshot());
            case Success(v) =>
              shiftAmount := v;
              step := Continue(optNumber + 2, Snapshot());
          }
        case ShiftNums =>
          encNumbers := true;
          step := Continue(optNumber + 1, Snapshot());
        case ShiftPuncts =>
          encPuncts := true;
          step := Continue(optNumber + 1, Snapshot());
        case ShiftAll =>
          encNumbers := true;
          encPuncts := true;
          step := Continue(optNumber + 1, Snapshot());
        case Help =>
          step := Stop(Returned(1), Snapshot());
        case ShowLog =>
          displayLogInfo := true;
          step := Continue(optNumber + 1, Snapshot());
        case Combined =>
          if FindLastOf(curropt, '-') > 0 {
            return Stop(Raised(InvalidArgument), Snapshot());
          }
          var valid, help := ScanCombined(curropt);
          if !valid {
            step := Stop(Raised(InvalidArgument), Snapshot());
          } else if help {
            step := Stop(Returned(1), Snapshot());
          } else {
            step := Continue(optNumber + 1, Snapshot());
          }
      }
    }

    /**
     * The letter loop of parseCommandLine over a combined token whose only
     * dash is its first character: `help` reports an 'h' (where the program
     * sets parse_results to 1 and moves opt_number to the end), and
     * `valid` is false when the loop stopped at an unknown letter (where the
     * program clears the three options and throws).
     */
    method ScanCombined(curropt: string) returns (valid: bool, help: bool)
      requires |curropt| > 0
      modifies this`encNumbers, this`encPuncts, this`displayLogInfo
      ensures ScanState(valid, help, Snapshot()) == ScanChars(old(Snapshot()), false, curropt[1..])
    {
      help := false;
      var n := 1;
      while n < |curropt|
        invariant 1 <= n <= |curropt|
        invariant ScanChars(Snapshot(), help, curropt[n..]) == ScanChars(old(Snapshot()), false, curropt[1..])
      {
        assert curropt[n..][1..] == curropt[n + 1..];
        match curropt[n] {
          case 'a' =>
            encNumbers := true;
            encPuncts := true;
          case 'n' =>
            encNumbers := true;
          case 'p' =>
            encPuncts := true;
          case 'l' =>
            displayLogInfo := true;
          case 'h' =>
            help := true;
          case _ =>
            displayLogInfo := false;
            encNumbers := false;
            encPuncts := false;
            return false, help;
        }
        n := n + 1;
      }
      valid := true;
    }

    /**
     * generateCipherDict: reduces the shift for the letters, and for numbers
     * and punctuation when they are enabled, then inserts original symbol to
     * rotated symbol for the four alphabets in turn.
     */
    method GenerateCipherDict()
      modifies this`effectiveShift, this`numbersShift, this`punctsShift, this`cipherDict
      ensures effectiveShift == ReducedShift(shiftAmount, 26)
      ensures numbersShift == if encNumbers then ReducedShift(shiftAmount, 10) else old(numbersShift)
      ensures punctsShift == if encPuncts then ReducedShift(shiftAmount, 32) else old(punctsShift)
      ensures cipherDict == Inserted(old(cipherDict), Keys(Forward, effectiveShift, numbersShift, punctsShift),
                                                     Vals(Forward, effectiveShift, numbersShift, punctsShift))
    {
      AlphabetSizes();
      effectiveShift := CalcReducedShift(shiftAmount, 26);
      if encNumbers {
        numbersShift := CalcReducedShift(shiftAmount, |Digits|);
      }
      if encPuncts {
        punctsShift := CalcReducedShift(shiftAmount, |Puncts|);
      }
      cipherDict := InsertAllPairs(cipherDict, Forward, effectiveShift, numbersShift, punctsShift);
    }

    /**
     * encipherFileText: fails when the input does not exist; otherwise opens
     * the output (input name + ".ciph" unless -o was given) without checking
     * it, and enciphers every line, counting its characters.  When the
     * output did not open, the writes are lost but the count still grows.
     * `inputExists` and `outputOpens` are the file system's answers,
     * `lines` the input file.
     */
    method EncipherFileText(inputExists: bool, lines: seq<string>, outputOpens: bool) returns (res: Result<FileOutput>)
      modifies this`nbytesFile
      ensures !inputExists ==> res == Failure(FilesystemError) && nbytesFile == old(nbytesFile)
      ensures inputExists && outputOpens ==>
        res == Success(FileOutput(OutputName(infilename, outfilename, useDefaultOname),
                                  MapText(cipherDict, LinesRead(infilename, OutputName(infilename, outfilename, useDefaultOname), lines))))
        && nbytesFile == old(nbytesFile) + TotalLength(LinesRead(infilename, OutputName(infilename, outfilename, useDefaultOname), lines))
      ensures inputExists && !outputOpens ==>
        res == Success(FileOutput(OutputName(infilename, outfilename, useDefaultOname), []))
        && nbytesFile == old(nbytesFile) + TotalLength(lines)
    {
      if !inputExists {
        return Failure(FilesystemError);
      }
      var fulloname: string;
      if useDefaultOname {
        fulloname := infilename;
        fulloname := fulloname + ".ciph";
      } else {
        fulloname := outfilename;
      }
      assert fulloname == OutputName(infilename, outfilename, useDefaultOname);
      var input := lines;
      if outputOpens {
        input := LinesRead(infilename, fulloname, lines);
      }
      var enciphered: seq<string> := [];
      var numChrsRead := 0;
      var k := 0;
      while k < |input|
        modifies this`nbytesFile
        invariant 0 <= k <= |input|
        invariant enciphered == MapText(cipherDict, input[..k])
        invariant numChrsRead == TotalLength(input[..k])
        invariant nbytesFile == old(nbytesFile) + numChrsRead
      {
        var outstr := TransformLine(cipherDict, input[k]);
        TextPrefixStep(cipherDict, input, k);
        enciphered := enciphered + [outstr];
        numChrsRead := numChrsRead + |input[k]|;
        nbytesFile := nbytesFile + |input[k]|;
        k := k + 1;
      }
      assert input[..k] == input;
      return Success(FileOutput(fulloname, if outputOpens then enciphered else []));
    }
  }
}
