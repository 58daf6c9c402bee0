/**
 * The per-character transform of decipherFileText and encipherFileText:
 * every character of a line that is a key of the dictionary is replaced by
 * its entry, every other character is copied unchanged, and one output
 * character is produced per input character.
 */
module Substitution {

  /** What one character becomes: its entry when it is a key, itself otherwise. */
  function Substitute(dict: map<char, char>, c: char): char
  {
    if c in dict then dict[c] else c
  }

  /** A line transformed character by character, built from the left like `outstr`. */
  function MapLine(dict: map<char, char>, s: string): (t: string)
    ensures |t| == |s|
    ensures forall i :: 0 <= i < |s| ==> t[i] == Substitute(dict, s[i])
    decreases |s|
  {
    if |s| == 0 then [] else MapLine(dict, s[..|s| - 1]) + [Substitute(dict, s[|s| - 1])]
  }

  /** Every line of a file transformed; the file keeps its number of lines. */
  function MapText(dict: map<char, char>, lines: seq<string>): (out: seq<string>)
    ensures |out| == |lines|
    ensures forall k :: 0 <= k < |lines| ==> out[k] == MapLine(dict, lines[k])
    decreases |lines|
  {
    if |lines| == 0 then [] else MapText(dict, lines[..|lines| - 1]) + [MapLine(dict, lines[|lines| - 1])]
  }

  /**
   * The lines getline reads from an input file after the output stream
   * opened: an output opened under the input's own path truncates the
   * file, and nothing is left to read.
   */
  function LinesRead(inPath: string, outPath: string, lines: seq<string>): seq<string>
  {
    if outPath == inPath then [] else lines
  }

  /** Number of characters in all lines, line terminators not counted. */
  function TotalLength(lines: seq<string>): nat
    decreases |lines|
  {
    if |lines| == 0 then 0 else TotalLength(lines[..|lines| - 1]) + |lines[|lines| - 1]|
  }

  /** Appending a line adds its length to the count. */
  lemma TotalLengthSnoc(lines: seq<string>, line: string)
    ensures TotalLength(lines + [line]) == TotalLength(lines) + |line|
  {
    assert (lines + [line])[..|lines|] == lines;
  }

  /** Appending a line appends its transform. */
  lemma MapTextSnoc(dict: map<char, char>, lines: seq<string>, line: string)
    ensures MapText(dict, lines + [line]) == MapText(dict, lines) + [MapLine(dict, line)]
  {
    assert (lines + [line])[..|lines|] == lines;
  }

  /** One more line read: the transform and the count of the first k + 1 lines. */
  lemma TextPrefixStep(dict: map<char, char>, lines: seq<string>, k: int)
    requires 0 <= k < |lines|
    ensures MapText(dict, lines[..k + 1]) == MapText(dict, lines[..k]) + [MapLine(dict, lines[k])]
    ensures TotalLength(lines[..k + 1]) == TotalLength(lines[..k]) + |lines[k]|
  {
    assert lines[..k + 1] == lines[..k] + [lines[k]];
    MapTextSnoc(dict, lines[..k], lines[k]);
    TotalLengthSnoc(lines[..k], lines[k]);
  }

  /**
   * The inner loop of the file transforms: `outstr.push_back` of the entry
   * for a key, of the character itself otherwise.
   */
  method TransformLine(dict: map<char, char>, line: string) returns (out: string)
    ensures out == MapLine(dict, line)
  {
    out := [];
    var n := 0;
    while n < |line|
      invariant 0 <= n <= |line|
      invariant out == MapLine(dict, line[..n])
    {
      assert line[..n + 1][..n] == line[..n];
      if line[n] in dict {
        out := out + [dict[line[n]]];
      } else {
        out := out + [line[n]];
      }
      n := n + 1;
    }
    assert line[..n] == line;
  }

  /** Two dictionaries where the second undoes the first on character c. */
  predicate UndoesAt(first: map<char, char>, second: map<char, char>, c: char)
  {
    (c in first ==> first[c] in second && second[first[c]] == c) && (c !in first ==> c !in second)
  }

  /** When the second dictionary undoes the first on every character of a line, transforming twice gives the line back. */
  lemma MapLineUndo(first: map<char, char>, second: map<char, char>, s: string)
    requires forall i :: 0 <= i < |s| ==> UndoesAt(first, second, s[i])
    ensures MapLine(second, MapLine(first, s)) == s
  {
    var t := MapLine(second, MapLine(first, s));
    forall i | 0 <= i < |s| ensures t[i] == s[i] {
      assert UndoesAt(first, second, s[i]);
    }
  }

  /** A dictionary that maps each of its keys to itself changes no line. */
  lemma MapLineIdentity(dict: map<char, char>, s: string)
    requires forall c :: c in dict ==> dict[c] == c
    ensures MapLine(dict, s) == s
  {
  }
}
