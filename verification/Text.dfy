/** ASCII text helpers shared by the models: case folding, blanks, trimming and lines. */
module Text {

  function LowerChar(c: char): char {
    if 'A' <= c <= 'Z' then c - 'A' + 'a' else c
  }

  function Lower(s: string): (r: string)
    ensures |r| == |s|
  {
    seq(|s|, i requires 0 <= i < |s| => LowerChar(s[i]))
  }

  /** Space, tab, line feed, vertical tab, form feed and carriage return. */
  predicate IsBlank(c: char) {
    c == ' ' || '\t' <= c <= '\r'
  }

  predicate NoBlanks(s: string) {
    forall i :: 0 <= i < |s| ==> !IsBlank(s[i])
  }

  /** The text from its first non-blank character on. */
  function SkipBlanks(s: string): (r: string)
    ensures |r| <= |s| && (r == "" || !IsBlank(r[0]))
  {
    TrimLeft(s, IsBlank)
  }

  /** The text before its first blank. */
  function Word(s: string): (w: string)
    ensures w <= s && NoBlanks(w) && (w == s || IsBlank(s[|w|]))
  {
    if s == "" || IsBlank(s[0]) then "" else [s[0]] + Word(s[1..])
  }

  /** The two properties of `Word` determine it. */
  lemma {:induction false} WordIs(w: string, rest: string)
    requires NoBlanks(w) && (rest == "" || IsBlank(rest[0]))
    ensures Word(w + rest) == w
  {
    if w == "" {
      assert w + rest == rest;
    } else {
      assert (w + rest)[1..] == w[1..] + rest;
      WordIs(w[1..], rest);
    }
  }

  // ---------------------------------------------------------------- trimming

  function TrimLeft(s: string, cut: char -> bool): (r: string)
    ensures |r| <= |s| && (r == "" || !cut(r[0]))
  {
    if s != "" && cut(s[0]) then TrimLeft(s[1..], cut) else s
  }

  function TrimRight(s: string, cut: char -> bool): (r: string)
    ensures |r| <= |s| && (r == "" || !cut(r[|r| - 1]))
  {
    if s != "" && cut(s[|s| - 1]) then TrimRight(s[..|s| - 1], cut) else s
  }

  /** Python's `str.strip`, with the characters to cut off at both ends. */
  function Trim(s: string, cut: char -> bool): string {
    TrimRight(TrimLeft(s, cut), cut)
  }

  function Strip(s: string): string {
    Trim(s, IsBlank)
  }

  /** Neither end would be cut. */
  predicate Trimmed(s: string, cut: char -> bool) {
    s == "" || (!cut(s[0]) && !cut(s[|s| - 1]))
  }

  lemma {:induction false} TrimRightKeepsStart(s: string, cut: char -> bool)
    ensures TrimRight(s, cut) <= s
  {
    if s != "" && cut(s[|s| - 1]) {
      TrimRightKeepsStart(s[..|s| - 1], cut);
    }
  }

  lemma {:induction false} TrimLeftKeepsEnd(s: string, cut: char -> bool)
    ensures TrimLeft(s, cut) == s[|s| - |TrimLeft(s, cut)|..]
  {
    if s != "" && cut(s[0]) {
      TrimLeftKeepsEnd(s[1..], cut);
    }
  }

  /** Trimming leaves a trimmed part of the text. */
  lemma TrimIsTrimmed(s: string, cut: char -> bool)
    ensures Trimmed(Trim(s, cut), cut)
    ensures forall c :: c in Trim(s, cut) ==> c in s
  {
    TrimLeftKeepsEnd(s, cut);
    TrimRightKeepsStart(TrimLeft(s, cut), cut);
  }

  lemma TrimTrimmed(s: string, cut: char -> bool)
    requires Trimmed(s, cut)
    ensures Trim(s, cut) == s
  {
  }

  /** Delimiters that would be cut are cut, and the trimmed text between them is left. */
  lemma TrimDelimited(s: string, q: char, cut: char -> bool)
    requires Trimmed(s, cut) && cut(q)
    ensures Trim([q] + s + [q], cut) == s
  {
    assert ([q] + s + [q])[1..] == s + [q];
    if s == "" {
      assert TrimLeft([q] + s + [q], cut) == TrimLeft([q], cut) == TrimLeft([q][1..], cut) == "";
    } else {
      assert TrimLeft([q] + s + [q], cut) == TrimLeft(s + [q], cut) == s + [q];
      assert (s + [q])[..|s + [q]| - 1] == s;
      assert TrimRight(s + [q], cut) == TrimRight(s, cut) == s;
    }
  }

  lemma {:induction false} TrimLeftIs(a: string, t: string, cut: char -> bool)
    requires (forall c :: c in a ==> cut(c)) && (t == "" || !cut(t[0]))
    ensures TrimLeft(a + t, cut) == t
  {
    if a == "" {
      assert a + t == t;
    } else {
      assert (a + t)[1..] == a[1..] + t;
      TrimLeftIs(a[1..], t, cut);
    }
  }

  lemma {:induction false} TrimRightIs(t: string, b: string, cut: char -> bool)
    requires (forall c :: c in b ==> cut(c)) && (t == "" || !cut(t[|t| - 1]))
    ensures TrimRight(t + b, cut) == t
  {
    if b == "" {
      assert t + b == t;
    } else {
      assert (t + b)[..|t + b| - 1] == t + b[..|b| - 1];
      TrimRightIs(t, b[..|b| - 1], cut);
    }
  }

  /** What trimming cuts off. */
  lemma TrimSplits(s: string, cut: char -> bool) returns (a: string, b: string)
    ensures s == a + Trim(s, cut) + b && (forall c :: c in a ==> cut(c)) && (forall c :: c in b ==> cut(c))
  {
    var t := TrimLeft(s, cut);
    a := TrimLeftSplits(s, cut);
    b := TrimRightSplits(t, cut);
  }

  lemma {:induction false} TrimLeftSplits(s: string, cut: char -> bool) returns (a: string)
    ensures s == a + TrimLeft(s, cut) && forall c :: c in a ==> cut(c)
  {
    a := "";
    if s != "" && cut(s[0]) {
      a := TrimLeftSplits(s[1..], cut);
      a := [s[0]] + a;
    }
  }

  lemma {:induction false} TrimRightSplits(s: string, cut: char -> bool) returns (b: string)
    ensures s == TrimRight(s, cut) + b && forall c :: c in b ==> cut(c)
  {
    b := "";
    if s != "" && cut(s[|s| - 1]) {
      b := TrimRightSplits(s[..|s| - 1], cut);
      b := b + [s[|s| - 1]];
    }
  }

  /** Trimming cuts off everything at both ends that is to be cut, and nothing else. */
  lemma TrimIs(a: string, t: string, b: string, cut: char -> bool)
    requires (forall c :: c in a ==> cut(c)) && (forall c :: c in b ==> cut(c)) && Trimmed(t, cut)
    ensures Trim(a + t + b, cut) == t
  {
    if t == "" {
      assert forall c :: c in a + t + b ==> cut(c);
      assert a + t + b == (a + t + b) + "";
      TrimLeftIs(a + t + b, "", cut);
    } else {
      assert a + t + b == a + (t + b);
      TrimLeftIs(a, t + b, cut);
      TrimRightIs(t, b, cut);
    }
  }

  /** Only the 26 capitals change, each to the letter 32 places on. */
  lemma LowerIs(s: string, i: nat)
    requires i < |s|
    ensures Lower(s)[i] as int == s[i] as int + if 65 <= s[i] as int <= 90 then 32 else 0
  {
    CapitalsAre(s[i]);
  }

  lemma CapitalsAre(c: char)
    ensures LowerChar(c) as int == c as int + if 65 <= c as int <= 90 then 32 else 0
  {
  }

  /** Space, tab, line feed, vertical tab, form feed, carriage return. */
  lemma BlankIs(c: char)
    ensures IsBlank(c) <==> c == ' ' || c == '\t' || c == '\n' || c == '\U{0b}' || c == '\U{0c}' || c == '\r'
  {
  }

  // ---------------------------------------------------------------- lines

  /** The index of the first `c`, or the length of the text. */
  function IndexOf(s: string, c: char): (i: nat)
    ensures i <= |s| && (i < |s| ==> s[i] == c)
  {
    if s == "" || s[0] == c then 0 else 1 + IndexOf(s[1..], c)
  }

  lemma {:induction false} IndexOfIs(a: string, c: char, b: string)
    requires c !in a
    ensures IndexOf(a + [c] + b, c) == |a|
    ensures IndexOf(a, c) == |a|
  {
    if a == "" {
      assert a + [c] + b == [c] + b;
    } else {
      assert (a + [c] + b)[1..] == a[1..] + [c] + b;
      IndexOfIs(a[1..], c, b);
    }
  }

  lemma {:induction false} NotBefore(s: string, c: char)
    ensures c !in s[..IndexOf(s, c)]
    ensures IndexOf(s, c) == |s| <==> c !in s
  {
    if s != "" && s[0] != c {
      NotBefore(s[1..], c);
      assert s[..IndexOf(s, c)] == [s[0]] + s[1..][..IndexOf(s[1..], c)];
    }
  }

  /** `text.split("\n")`. */
  function Lines(s: string): (lines: seq<string>)
    decreases |s|
  {
    var i := IndexOf(s, '\n');
    if i == |s| then [s] else [s[..i]] + Lines(s[i + 1..])
  }

  lemma LinesOfCons(line: string, rest: string)
    requires '\n' !in line
    ensures Lines(line + "\n" + rest) == [line] + Lines(rest)
    ensures Lines(line) == [line]
  {
    IndexOfIs(line, '\n', rest);
    assert (line + "\n" + rest)[..|line|] == line && (line + "\n" + rest)[|line| + 1..] == rest;
  }

  lemma {:induction false} LinesHaveNoBreaks(s: string)
    ensures forall line :: line in Lines(s) ==> '\n' !in line
    decreases |s|
  {
    var i := IndexOf(s, '\n');
    NotBefore(s, '\n');
    if i < |s| {
      LinesHaveNoBreaks(s[i + 1..]);
    }
  }
}
