/**
 * The substitution dictionary built by generateCipherDict.  Both programs
 * run four insertion loops in the same order (upper-case letters, lower-case
 * letters, digits, punctuation), so the dictionary is what inserting the 94
 * pairs of the four loops one after the other produces.  The encipherer maps
 * each original symbol to the rotated one (Forward); the decipherer maps each
 * rotated symbol back to the original (Backward).  Letters are rotated by one
 * reduced shift, digits and punctuation by their own.
 */
module Tables {
  import opened Modular
  import opened Alphabets
  import opened Rotation

  datatype Direction = Forward | Backward

  /** The shift a class is rotated by: rl for letters, rd for digits, rp for punctuation. */
  function ClassShift(cl: CharClass, rl: int, rd: int, rp: int): int
  {
    match cl
    case UpperAlpha => rl
    case LowerAlpha => rl
    case Digit => rd
    case Punctuation => rp
  }

  /** The keys one class's loop inserts, in insertion order. */
  function ClassKeys(dir: Direction, cl: CharClass, r: int): seq<char>
  {
    if dir == Forward then Alphabet(cl) else Cshift(Alphabet(cl), r)
  }

  /** The values one class's loop inserts, in insertion order. */
  function ClassVals(dir: Direction, cl: CharClass, r: int): (v: seq<char>)
    ensures |v| == |ClassKeys(dir, cl, r)|
  {
    if dir == Forward then Cshift(Alphabet(cl), r) else Alphabet(cl)
  }

  /**
   * One loop inserts as many pairs as its alphabet is long, and its keys and
   * its values each list every symbol of the class exactly once.
   */
  lemma ClassKeysVals(dir: Direction, cl: CharClass, r: int)
    ensures |ClassKeys(dir, cl, r)| == Size(cl) && |ClassVals(dir, cl, r)| == Size(cl)
    ensures Distinct(ClassKeys(dir, cl, r)) && Distinct(ClassVals(dir, cl, r))
    ensures forall c :: c in ClassKeys(dir, cl, r) <==> InClass(cl, c)
    ensures forall c :: c in ClassVals(dir, cl, r) <==> InClass(cl, c)
  {
    var a := Alphabet(cl);
    AlphabetShape(cl);
    CshiftDistinct(a, r);
    CshiftMembers(a, r);
    if dir == Forward {
      assert ClassKeys(dir, cl, r) == a && ClassVals(dir, cl, r) == Cshift(a, r);
    } else {
      assert ClassKeys(dir, cl, r) == Cshift(a, r) && ClassVals(dir, cl, r) == a;
    }
  }

  /** All keys of the four loops in insertion order. */
  function Keys(dir: Direction, rl: int, rd: int, rp: int): seq<char>
  {
    ClassKeys(dir, UpperAlpha, rl) + ClassKeys(dir, LowerAlpha, rl)
    + ClassKeys(dir, Digit, rd) + ClassKeys(dir, Punctuation, rp)
  }

  /** All values of the four loops in insertion order. */
  function Vals(dir: Direction, rl: int, rd: int, rp: int): (v: seq<char>)
    ensures |v| == |Keys(dir, rl, rd, rp)|
  {
    ClassVals(dir, UpperAlpha, rl) + ClassVals(dir, LowerAlpha, rl)
    + ClassVals(dir, Digit, rd) + ClassVals(dir, Punctuation, rp)
  }

  /** Running the four class loops one after the other inserts all keys and values in order. */
  lemma InsertedByClass(d: map<char, char>, dir: Direction, rl: int, rd: int, rp: int)
    ensures Inserted(Inserted(Inserted(Inserted(d,
              ClassKeys(dir, UpperAlpha, rl), ClassVals(dir, UpperAlpha, rl)),
              ClassKeys(dir, LowerAlpha, rl), ClassVals(dir, LowerAlpha, rl)),
              ClassKeys(dir, Digit, rd), ClassVals(dir, Digit, rd)),
              ClassKeys(dir, Punctuation, rp), ClassVals(dir, Punctuation, rp))
         == Inserted(d, Keys(dir, rl, rd, rp), Vals(dir, rl, rd, rp))
  {
    InsertedAppend4(d, ClassKeys(dir, UpperAlpha, rl), ClassVals(dir, UpperAlpha, rl),
                    ClassKeys(dir, LowerAlpha, rl), ClassVals(dir, LowerAlpha, rl),
                    ClassKeys(dir, Digit, rd), ClassVals(dir, Digit, rd),
                    ClassKeys(dir, Punctuation, rp), ClassVals(dir, Punctuation, rp));
  }

  /**
   * One insertion loop of generateCipherDict: the class's alphabet and its
   * rotation by r (the cshift) paired index by index, the alphabet as keys
   * when enciphering and as values when deciphering.
   */
  method InsertClassPairs(dict: map<char, char>, dir: Direction, cl: CharClass, r: int) returns (d: map<char, char>)
    ensures d == Inserted(dict, ClassKeys(dir, cl, r), ClassVals(dir, cl, r))
  {
    var shifted := Cshift(Alphabet(cl), r);
    if dir == Forward {
      d := InsertPairs(dict, Alphabet(cl), shifted);
    } else {
      d := InsertPairs(dict, shifted, Alphabet(cl));
    }
  }

  /** The four insertion loops of generateCipherDict: letters first, then digits, then punctuation. */
  method InsertAllPairs(dict: map<char, char>, dir: Direction, rl: int, rd: int, rp: int) returns (d: map<char, char>)
    ensures d == Inserted(dict, Keys(dir, rl, rd, rp), Vals(dir, rl, rd, rp))
  {
    d := InsertClassPairs(dict, dir, UpperAlpha, rl);
    d := InsertClassPairs(d, dir, LowerAlpha, rl);
    d := InsertClassPairs(d, dir, Digit, rd);
    d := InsertClassPairs(d, dir, Punctuation, rp);
    InsertedByClass(dict, dir, rl, rd, rp);
  }

  /** The complete dictionary: the four insertion loops run one after the other. */
  function Table(dir: Direction, rl: int, rd: int, rp: int): map<char, char>
  {
    Inserted(map[], Keys(dir, rl, rd, rp), Vals(dir, rl, rd, rp))
  }

  /** Where a class's pairs start among all 94. */
  function Offset(cl: CharClass): nat
  {
    match cl
    case UpperAlpha => 0
    case LowerAlpha => 26
    case Digit => 52
    case Punctuation => 62
  }

  /** The four loops insert 26, 26, 10 and 32 pairs, 94 in all. */
  lemma KeysLength(dir: Direction, rl: int, rd: int, rp: int)
    ensures |ClassKeys(dir, UpperAlpha, rl)| == 26 && |ClassKeys(dir, LowerAlpha, rl)| == 26
    ensures |ClassKeys(dir, Digit, rd)| == 10 && |ClassKeys(dir, Punctuation, rp)| == 32
    ensures |Keys(dir, rl, rd, rp)| == 94
  {
    AlphabetSizes();
  }

  /** Indexing into four sequences joined end to end. */
  lemma JoinAt(a: seq<char>, b: seq<char>, c: seq<char>, d: seq<char>, i: int)
    requires 0 <= i < |a| + |b| + |c| + |d|
    ensures (a + b + c + d)[i] ==
      if i < |a| then a[i]
      else if i < |a| + |b| then b[i - |a|]
      else if i < |a| + |b| + |c| then c[i - |a| - |b|]
      else d[i - |a| - |b| - |c|]
  {
  }

  /** Pair n of a class's loop is pair Offset(cl) + n of the whole insertion sequence. */
  lemma KeysAt(dir: Direction, rl: int, rd: int, rp: int, cl: CharClass, n: int)
    requires 0 <= n < Size(cl)
    ensures |Keys(dir, rl, rd, rp)| == 94
    ensures n < |ClassKeys(dir, cl, ClassShift(cl, rl, rd, rp))|
    ensures Offset(cl) + n < 94
    ensures Keys(dir, rl, rd, rp)[Offset(cl) + n] == ClassKeys(dir, cl, ClassShift(cl, rl, rd, rp))[n]
    ensures Vals(dir, rl, rd, rp)[Offset(cl) + n] == ClassVals(dir, cl, ClassShift(cl, rl, rd, rp))[n]
  {
    KeysLength(dir, rl, rd, rp);
    var i := Offset(cl) + n;
    JoinAt(ClassKeys(dir, UpperAlpha, rl), ClassKeys(dir, LowerAlpha, rl),
           ClassKeys(dir, Digit, rd), ClassKeys(dir, Punctuation, rp), i);
    JoinAt(ClassVals(dir, UpperAlpha, rl), ClassVals(dir, LowerAlpha, rl),
           ClassVals(dir, Digit, rd), ClassVals(dir, Punctuation, rp), i);
  }

  /** The 94 keys are pairwise different and are exactly the symbols of the four classes. */
  lemma KeysShape(dir: Direction, rl: int, rd: int, rp: int)
    ensures Distinct(Keys(dir, rl, rd, rp))
    ensures forall c :: c in Keys(dir, rl, rd, rp) <==> IsCipherSymbol(c)
  {
    ClassKeysVals(dir, UpperAlpha, rl);
    ClassKeysVals(dir, LowerAlpha, rl);
    ClassKeysVals(dir, Digit, rd);
    ClassKeysVals(dir, Punctuation, rp);
    var k1, k2, k3, k4 := ClassKeys(dir, UpperAlpha, rl), ClassKeys(dir, LowerAlpha, rl),
                          ClassKeys(dir, Digit, rd), ClassKeys(dir, Punctuation, rp);
    DistinctAppend(k1, k2);
    DistinctAppend(k1 + k2, k3);
    DistinctAppend(k1 + k2 + k3, k4);
  }

  /** The keys are exactly the 94 symbols of the four alphabets, whatever the shifts. */
  lemma TableKeys(dir: Direction, rl: int, rd: int, rp: int)
    ensures forall c :: c in Table(dir, rl, rd, rp) <==> IsCipherSymbol(c)
  {
    KeysShape(dir, rl, rd, rp);
    InsertedKeys(map[], Keys(dir, rl, rd, rp), Vals(dir, rl, rd, rp));
  }

  /** Pair n of a class's loop survives in the dictionary: no other insertion overwrites it. */
  lemma TableAt(dir: Direction, rl: int, rd: int, rp: int, cl: CharClass, n: int)
    requires 0 <= n < Size(cl)
    ensures n < |ClassKeys(dir, cl, ClassShift(cl, rl, rd, rp))|
    ensures ClassKeys(dir, cl, ClassShift(cl, rl, rd, rp))[n] in Table(dir, rl, rd, rp)
    ensures Table(dir, rl, rd, rp)[ClassKeys(dir, cl, ClassShift(cl, rl, rd, rp))[n]]
            == ClassVals(dir, cl, ClassShift(cl, rl, rd, rp))[n]
  {
    var keys, vals := Keys(dir, rl, rd, rp), Vals(dir, rl, rd, rp);
    KeysAt(dir, rl, rd, rp, cl, n);
    KeysShape(dir, rl, rd, rp);
    InsertedAt(map[], keys, vals, Offset(cl) + n);
  }

  /** Enciphering: the symbol at index n goes to the symbol at index (n + r) mod m. */
  lemma ForwardAt(rl: int, rd: int, rp: int, cl: CharClass, n: int)
    requires 0 <= n < Size(cl)
    ensures n < |Alphabet(cl)| && Alphabet(cl)[n] in Table(Forward, rl, rd, rp)
    ensures Table(Forward, rl, rd, rp)[Alphabet(cl)[n]]
            == Alphabet(cl)[(n + ClassShift(cl, rl, rd, rp)) % Size(cl)]
  {
    TableAt(Forward, rl, rd, rp, cl, n);
    ClassKeysVals(Forward, cl, ClassShift(cl, rl, rd, rp));
  }

  /** Deciphering: the symbol at index (n + r) mod m goes back to the symbol at index n. */
  lemma BackwardAt(rl: int, rd: int, rp: int, cl: CharClass, n: int)
    requires 0 <= n < Size(cl)
    ensures n < |Alphabet(cl)| && (n + ClassShift(cl, rl, rd, rp)) % Size(cl) < |Alphabet(cl)|
    ensures Alphabet(cl)[(n + ClassShift(cl, rl, rd, rp)) % Size(cl)] in Table(Backward, rl, rd, rp)
    ensures Table(Backward, rl, rd, rp)[Alphabet(cl)[(n + ClassShift(cl, rl, rd, rp)) % Size(cl)]]
            == Alphabet(cl)[n]
  {
    TableAt(Backward, rl, rd, rp, cl, n);
    ClassKeysVals(Backward, cl, ClassShift(cl, rl, rd, rp));
  }

  /** The class a symbol of the four alphabets belongs to. */
  function ClassOf(c: char): (cl: CharClass)
    requires IsCipherSymbol(c)
    ensures InClass(cl, c)
  {
    if InClass(UpperAlpha, c) then UpperAlpha
    else if InClass(LowerAlpha, c) then LowerAlpha
    else if InClass(Digit, c) then Digit
    else Punctuation
  }

  /** The index of a symbol within its own alphabet. */
  lemma IndexIn(cl: CharClass, c: char) returns (i: int)
    requires InClass(cl, c)
    ensures 0 <= i < Size(cl) && i < |Alphabet(cl)| && Alphabet(cl)[i] == c
  {
    AlphabetShape(cl);
    i :| 0 <= i < |Alphabet(cl)| && Alphabet(cl)[i] == c;
  }

  /**
   * The two directions built from the same shifts undo each other on every
   * symbol of the four alphabets, in either order.
   */
  lemma TableInverse(rl: int, rd: int, rp: int, c: char)
    requires IsCipherSymbol(c)
    ensures c in Table(Forward, rl, rd, rp) && c in Table(Backward, rl, rd, rp)
    ensures Table(Forward, rl, rd, rp)[c] in Table(Backward, rl, rd, rp)
    ensures Table(Backward, rl, rd, rp)[Table(Forward, rl, rd, rp)[c]] == c
    ensures Table(Backward, rl, rd, rp)[c] in Table(Forward, rl, rd, rp)
    ensures Table(Forward, rl, rd, rp)[Table(Backward, rl, rd, rp)[c]] == c
  {
    var cl := ClassOf(c);
    var r := ClassShift(cl, rl, rd, rp);
    var a := Alphabet(cl);
    AlphabetShape(cl);
    // forward, then backward
    var i := IndexIn(cl, c);
    ForwardAt(rl, rd, rp, cl, i);
    BackwardAt(rl, rd, rp, cl, i);
    // backward, then forward: c sits where index t lands after rotation
    var t := CshiftSource(a, r, i);
    BackwardAt(rl, rd, rp, cl, t);
    ForwardAt(rl, rd, rp, cl, t);
  }

  /** The table sends every symbol of a class into the same class. */
  lemma TableStaysInClass(dir: Direction, rl: int, rd: int, rp: int, cl: CharClass, c: char)
    requires InClass(cl, c)
    ensures c in Table(dir, rl, rd, rp) && InClass(cl, Table(dir, rl, rd, rp)[c])
  {
    var r := ClassShift(cl, rl, rd, rp);
    ClassKeysVals(dir, cl, r);
    var keys := ClassKeys(dir, cl, r);
    var n :| 0 <= n < |keys| && keys[n] == c;
    TableAt(dir, rl, rd, rp, cl, n);
    assert ClassVals(dir, cl, r)[n] in ClassVals(dir, cl, r);
  }

  /** The other direction. */
  function Opposite(dir: Direction): Direction
  {
    if dir == Forward then Backward else Forward
  }

  /** Either table composed with the other one is the identity on the 94 symbols. */
  lemma TableUndo(dir: Direction, rl: int, rd: int, rp: int, c: char)
    requires IsCipherSymbol(c)
    ensures c in Table(dir, rl, rd, rp) && Table(dir, rl, rd, rp)[c] in Table(Opposite(dir), rl, rd, rp)
    ensures Table(Opposite(dir), rl, rd, rp)[Table(dir, rl, rd, rp)[c]] == c
  {
    TableInverse(rl, rd, rp, c);
  }

  /** Within a class no two symbols share an image. */
  lemma TableInjectiveOnClass(dir: Direction, rl: int, rd: int, rp: int, cl: CharClass, c1: char, c2: char)
    requires InClass(cl, c1) && InClass(cl, c2)
    requires c1 in Table(dir, rl, rd, rp) && c2 in Table(dir, rl, rd, rp)
    requires Table(dir, rl, rd, rp)[c1] == Table(dir, rl, rd, rp)[c2]
    ensures c1 == c2
  {
    TableUndo(dir, rl, rd, rp, c1);
    TableUndo(dir, rl, rd, rp, c2);
  }

  /** Every symbol of a class is the image of a symbol of that class. */
  lemma TableOntoClass(dir: Direction, rl: int, rd: int, rp: int, cl: CharClass, c: char) returns (d: char)
    requires InClass(cl, c)
    ensures InClass(cl, d) && d in Table(dir, rl, rd, rp) && Table(dir, rl, rd, rp)[d] == c
  {
    TableStaysInClass(Opposite(dir), rl, rd, rp, cl, c);
    d := Table(Opposite(dir), rl, rd, rp)[c];
    TableUndo(Opposite(dir), rl, rd, rp, c);
    assert Opposite(Opposite(dir)) == dir;
  }

  /** A class rotated by zero maps every one of its symbols to itself. */
  lemma UnshiftedClassIdentity(dir: Direction, rl: int, rd: int, rp: int, cl: CharClass, c: char)
    requires ClassShift(cl, rl, rd, rp) == 0 && InClass(cl, c)
    ensures c in Table(dir, rl, rd, rp) && Table(dir, rl, rd, rp)[c] == c
  {
    var i := IndexIn(cl, c);
    ModUnique(i, Size(cl), 0, i);
    if dir == Forward {
      ForwardAt(rl, rd, rp, cl, i);
    } else {
      BackwardAt(rl, rd, rp, cl, i);
    }
  }
}
