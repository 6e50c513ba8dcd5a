/**
 * The package setup's requirement reader: the requirements file is split into
 * lines with Python's `str.splitlines`, and every line that starts with `#` or
 * `-` is dropped.  Reading the file is left to the caller: the model starts
 * from its contents.
 */
module Setup {

  /** The characters `str.splitlines` breaks at (`\r\n` counts as one break). */
  predicate IsBreak(c: char)
  {
    c in {'\n', '\r', '\U{B}', '\U{C}', '\U{1C}', '\U{1D}', '\U{1E}', '\U{85}', '\U{2028}', '\U{2029}'}
  }

  predicate NoBreak(line: string)
  {
    forall i :: 0 <= i < |line| ==> !IsBreak(line[i])
  }

  /** The index of the first line break in `s`, or `|s|` when there is none. */
  function FirstBreak(s: string): (k: nat)
    ensures k <= |s|
    ensures NoBreak(s[..k])
    ensures k < |s| ==> IsBreak(s[k])
  {
    if s == [] || IsBreak(s[0]) then 0
    else
      var k := FirstBreak(s[1..]);
      assert s[..k + 1] == [s[0]] + s[1..][..k];
      k + 1
  }

  /**
   * `contents.splitlines()`: the text between line breaks, with a `\r\n` pair
   * counted as one break; a final break ends the last line without starting an
   * empty one, and empty contents have no lines at all.
   */
  function SplitLines(s: string): (lines: seq<string>)
    ensures forall i :: 0 <= i < |lines| ==> NoBreak(lines[i])
    ensures s == [] <==> lines == []
    decreases |s|
  {
    if s == [] then []
    else
      var k := FirstBreak(s);
      if k == |s| then [s]
      else
        var width := if s[k] == '\r' && k + 1 < |s| && s[k + 1] == '\n' then 2 else 1;
        [s[..k]] + SplitLines(s[k + width..])
  }

  /** Lines written out, each ended by `\n`. */
  function JoinLines(lines: seq<string>): string
  {
    if lines == [] then [] else lines[0] + "\n" + JoinLines(lines[1..])
  }

  /** A line ended by `\n` is split off whole. */
  lemma SplitAtNewline(line: string, rest: string)
    requires NoBreak(line)
    ensures SplitLines(line + "\n" + rest) == [line] + SplitLines(rest)
  {
    var s := line + "\n" + rest;
    assert s[..|line|] == line && s[|line|] == '\n' && s[|line| + 1..] == rest;
    FirstBreakAt(s, |line|);
  }

  /** A line ended by `\r\n` is split off whole, the pair counting as one break. */
  lemma SplitAtCrLf(line: string, rest: string)
    requires NoBreak(line)
    ensures SplitLines(line + "\r\n" + rest) == [line] + SplitLines(rest)
  {
    var s := line + "\r\n" + rest;
    assert s[..|line|] == line && s[|line|] == '\r' && s[|line| + 1] == '\n' && s[|line| + 2..] == rest;
    FirstBreakAt(s, |line|);
  }

  /** Splitting text written one line per `\n` gives back its lines. */
  lemma {:induction false} SplitJoin(lines: seq<string>)
    requires forall i :: 0 <= i < |lines| ==> NoBreak(lines[i])
    ensures SplitLines(JoinLines(lines)) == lines
  {
    if lines != [] {
      SplitAtNewline(lines[0], JoinLines(lines[1..]));
      SplitJoin(lines[1..]);
    }
  }

  /** The first break is at `k` when `s[..k]` has none and `s[k]` is one. */
  lemma FirstBreakAt(s: string, k: nat)
    requires k < |s| && NoBreak(s[..k]) && IsBreak(s[k])
    ensures FirstBreak(s) == k
  {
  }

  /** `not r.startswith('#') and not r.startswith('-')` */
  predicate Keep(line: string)
    ensures Keep(line) <==> line == [] || (line[0] != '#' && line[0] != '-')
  {
    !(|line| > 0 && line[0] == '#') && !(|line| > 0 && line[0] == '-')
  }

  /** The comprehension: the lines to keep, in their order. */
  function Requirements(lines: seq<string>): (kept: seq<string>)
    ensures |kept| <= |lines|
    ensures forall r :: r in kept ==> Keep(r) && r in lines
    ensures forall l :: l in lines && Keep(l) ==> l in kept
  {
    if lines == [] then []
    else if Keep(lines[0]) then [lines[0]] + Requirements(lines[1..])
    else Requirements(lines[1..])
  }

  /** `a` can be obtained from `b` by deleting elements, keeping the order of the rest. */
  predicate SubsequenceOf(a: seq<string>, b: seq<string>)
    decreases |b|
  {
    if a == [] then true
    else if b == [] then false
    else (a[0] == b[0] && SubsequenceOf(a[1..], b[1..])) || SubsequenceOf(a, b[1..])
  }

  /** The kept lines appear in the file's order: filtering only deletes lines. */
  lemma {:induction false} RequirementsInOrder(lines: seq<string>)
    ensures SubsequenceOf(Requirements(lines), lines)
  {
    if lines != [] {
      RequirementsInOrder(lines[1..]);
      if Keep(lines[0]) {
        assert Requirements(lines)[1..] == Requirements(lines[1..]);
      }
    }
  }

  /** `get_requirements`, on the file's contents. */
  function GetRequirements(contents: string): (requirements: seq<string>)
    ensures forall r :: r in requirements ==> Keep(r) && NoBreak(r)
    ensures forall l :: l in SplitLines(contents) && Keep(l) ==> l in requirements
  {
    Requirements(SplitLines(contents))
  }

  /** Filtering again drops nothing more. */
  lemma {:induction false} RequirementsIdempotent(lines: seq<string>)
    ensures Requirements(Requirements(lines)) == Requirements(lines)
  {
    if lines != [] {
      RequirementsIdempotent(lines[1..]);
    }
  }

  /** Filtering commutes with concatenation, so a requirements file can be read in pieces. */
  lemma {:induction false} RequirementsAppend(a: seq<string>, b: seq<string>)
    ensures Requirements(a + b) == Requirements(a) + Requirements(b)
  {
    if a != [] {
      assert (a + b)[0] == a[0] && (a + b)[1..] == a[1..] + b;
      RequirementsAppend(a[1..], b);
      if Keep(a[0]) {
        assert Requirements(a + b) == [a[0]] + (Requirements(a[1..]) + Requirements(b));
      }
    } else {
      assert a + b == b;
    }
  }

  /**
   * A file written one line per `\n` yields exactly its lines that are neither
   * comments nor options; blank lines count as requirements, as an empty string
   * starts with neither character.
   */
  lemma ReadBack(lines: seq<string>)
    requires forall i :: 0 <= i < |lines| ==> NoBreak(lines[i])
    ensures GetRequirements(JoinLines(lines)) == Requirements(lines)
    ensures "" in lines ==> "" in GetRequirements(JoinLines(lines))
  {
    SplitJoin(lines);
  }

  /** A break at the very end ends the last line and starts no empty one. */
  lemma TrailingBreak(line: string)
    requires NoBreak(line)
    ensures SplitLines(line + "\n") == [line]
    ensures SplitLines(line + "\r\n") == [line]
  {
    SplitAtNewline(line, "");
    SplitAtCrLf(line, "");
    assert line + "\n" + "" == line + "\n";
    assert line + "\r\n" + "" == line + "\r\n";
  }

  /**
   * The file is read line by line: a first line, ended by `\n` or by `\r\n`,
   * becomes the first requirement when it is neither a comment nor an option and
   * is dropped otherwise, and the rest of the file is read on its own.
   */
  lemma FirstLine(line: string, rest: string)
    requires NoBreak(line)
    ensures GetRequirements(line + "\n" + rest)
            == (if Keep(line) then [line] else []) + GetRequirements(rest)
    ensures GetRequirements(line + "\r\n" + rest)
            == (if Keep(line) then [line] else []) + GetRequirements(rest)
  {
    SplitAtNewline(line, rest);
    SplitAtCrLf(line, rest);
    assert ([line] + SplitLines(rest))[1..] == SplitLines(rest);
  }
}
