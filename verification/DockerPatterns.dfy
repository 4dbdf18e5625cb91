/** What the regular expressions of `dev/cli/commands/docker.py` stand for, and what its texts look like:
    the functions of `DockerInstance` written out. */
module DockerPatterns {
  import opened Sql
  import opened Text
  import opened DockerInstance

  ghost predicate Blanks(s: string) {
    forall c :: c in s ==> IsBlank(c)
  }

  lemma KeyIs()
    ensures Key() == "POLAR_DOCKER_INSTANCE"
  {
  }

  lemma LineIs(n: nat)
    ensures Line(n) == "POLAR_DOCKER_INSTANCE" + "=" + Digits(n)
  {
  }

  lemma ClearedIs()
    ensures Cleared() == "# POLAR_DOCKER_INSTANCE="
  {
  }

  // ---------------------------------------------------------------- numbers

  /** No number is printed with a zero in front. */
  lemma {:induction false} NoLeadingZero(n: nat)
    ensures Digits(n) != "" && (Digits(n)[0] == '0' <==> n == 0)
  {
    if n >= 10 {
      NoLeadingZero(n / 10);
    }
  }

  /** One more digit. */
  lemma ValueSnoc(s: string, c: char)
    requires AllDigits(s) && '0' <= c <= '9'
    ensures AllDigits(s + [c]) && Value(s + [c]) == 10 * Value(s) + (c as int - 48)
  {
    assert (s + [c])[..|s|] == s;
  }

  // ---------------------------------------------------------------- the reader's pattern

  /** A line of the form `KEY = digits`, blanks apart. */
  ghost predicate Holds(line: string, n: nat) {
    exists a, b, c, d, digits :: HoldsAs(line, a, b, c, digits, d) && AllDigits(digits) && Value(digits) == n
  }

  ghost predicate HoldsAs(line: string, a: string, b: string, c: string, digits: string, d: string) {
    && Blanks(a) && Blanks(b) && Blanks(c) && Blanks(d) && digits != ""
    && line == a + ("POLAR_DOCKER_INSTANCE" + (b + ("=" + (c + digits)))) + d
  }

  /** A line is read as a number exactly if it has that form. */
  lemma ReadLineIff(line: string, n: nat)
    ensures ReadLine(line) == Some(n) <==> Holds(line, n)
  {
    hide ReadLine, Value, HoldsAs;
    if ReadLine(line) == Some(n) {
      ReadLineHolds(line, n);
    }
    if Holds(line, n) {
      var a, b, c, d, digits :| HoldsAs(line, a, b, c, digits, d) && AllDigits(digits) && Value(digits) == n;
      HoldsIsRead(line, a, b, c, digits, d);
    }
  }

  lemma ReadLineHolds(line: string, n: nat)
    requires ReadLine(line) == Some(n)
    ensures Holds(line, n)
  {
    hide Value, Key, TrimLeft, TrimRight;
    KeyIs();
    var t := Strip(line);
    var a, d := TrimSplits(line, IsBlank);
    var r := t[|Key()|..];
    var b := TrimLeftSplits(r, IsBlank);
    var x := SkipBlanks(r)[1..];
    var c := TrimLeftSplits(x, IsBlank);
    var digits := SkipBlanks(x);
    assert SkipBlanks(r) == "=" + x && t == Key() + r;
    assert t == Key() + (b + ("=" + (c + digits)));
    assert HoldsAs(line, a, b, c, digits, d);
  }

  lemma HoldsIsRead(line: string, a: string, b: string, c: string, digits: string, d: string)
    requires HoldsAs(line, a, b, c, digits, d) && AllDigits(digits)
    ensures ReadLine(line) == Some(Value(digits))
  {
    hide Value, Key, TrimLeft, TrimRight;
    KeyIs();
    KeyIsSolid();
    var x := c + digits;
    var r := b + ("=" + x);
    var t := Key() + r;
    DigitsAreSolid(digits);
    EndOf(Key(), b, c, digits);
    TrimIs(a, t, d, IsBlank);
    assert t[|Key()|..] == r;
    TrimLeftIs(b, "=" + x, IsBlank);
    assert ("=" + x)[1..] == x;
    TrimLeftIs(c, digits, IsBlank);
  }

  lemma EndOf(key: string, b: string, c: string, digits: string)
    requires key != "" && !IsBlank(key[0]) && digits != "" && !IsBlank(digits[|digits| - 1])
    ensures Trimmed(key + (b + ("=" + (c + digits))), IsBlank)
  {
    var t := key + (b + ("=" + (c + digits)));
    assert t[|t| - 1] == digits[|digits| - 1];
  }

  lemma DigitsAreSolid(digits: string)
    requires AllDigits(digits) && digits != ""
    ensures !IsBlank(digits[0]) && !IsBlank(digits[|digits| - 1])
  {
  }

  // ---------------------------------------------------------------- the other two patterns

  /** `KEY =`, blanks apart, and then the text up to the end of the line; the writer's pattern also allows
      a number sign and blanks in front. */
  ghost predicate MatchesAs(p: Pattern, s: string, mark: string, a: string, b: string, value: string, rest: string) {
    && (mark == "" || mark == "#") && Blanks(a) && Blanks(b) && (p == ActiveLine ==> mark == "" && a == "")
    && '\n' !in value && (rest == "" || rest[0] == '\n')
    && s == mark + (a + ("POLAR_DOCKER_INSTANCE" + (b + ("=" + value + rest))))
  }

  /** At the start of a line the pattern matches exactly such a text. */
  lemma MatchIff(p: Pattern, s: string, rest: string)
    ensures Match(p, s) == Some(rest) <==> exists mark, a, b, value :: MatchesAs(p, s, mark, a, b, value, rest)
  {
    hide Match, MatchesAs;
    if Match(p, s) == Some(rest) {
      MatchHasForm(p, s, rest);
    }
    if mark, a, b, value :| MatchesAs(p, s, mark, a, b, value, rest) {
      FormMatches(p, s, mark, a, b, value, rest);
    }
  }

  lemma MatchHasForm(p: Pattern, s: string, rest: string)
    requires Match(p, s) == Some(rest)
    ensures exists mark, a, b, value :: MatchesAs(p, s, mark, a, b, value, rest)
  {
    hide Key, TrimLeft, MatchValue;
    KeyIs();
    var t := Unmarked(p, s);
    var mark, a := UnmarkedSplits(p, s);
    var b, value := MatchValueSplits(t[|Key()|..]);
    assert t == Key() + t[|Key()|..];
    assert MatchesAs(p, s, mark, a, b, value, rest);
  }

  lemma UnmarkedSplits(p: Pattern, s: string) returns (mark: string, a: string)
    ensures (mark == "" || mark == "#") && Blanks(a) && (p == ActiveLine ==> mark == "" && a == "")
    ensures s == mark + (a + Unmarked(p, s))
  {
    hide TrimLeft;
    mark, a := "", "";
    if p == AnyLine {
      var cut := s;
      if s != "" && s[0] == '#' {
        mark, cut := "#", s[1..];
        assert s == "#" + cut;
      }
      a := TrimLeftSplits(cut, IsBlank);
    }
  }

  lemma MatchValueSplits(s: string) returns (b: string, value: string)
    requires MatchValue(s).Some?
    ensures Blanks(b) && '\n' !in value && s == b + ("=" + value + MatchValue(s).value)
  {
    hide TrimLeft;
    b := TrimLeftSplits(s, IsBlank);
    var t := SkipBlanks(s);
    var i := IndexOf(t, '\n');
    NotBefore(t, '\n');
    value := t[1..i];
    assert t[..i] == ['='] + value;
    assert t == t[..i] + t[i..];
    forall c | c in value ensures c in t[..i] {
    }
  }

  lemma FormMatches(p: Pattern, s: string, mark: string, a: string, b: string, value: string, rest: string)
    requires MatchesAs(p, s, mark, a, b, value, rest)
    ensures Match(p, s) == Some(rest)
  {
    hide Key, TrimLeft, MatchValue;
    KeyIs();
    KeyIsSolid();
    var tail := b + ("=" + value + rest);
    var t := Key() + tail;
    FormUnmarked(p, mark, a, t);
    assert t[|Key()|..] == tail;
    FormValue(b, value, rest);
  }

  lemma FormUnmarked(p: Pattern, mark: string, a: string, t: string)
    requires (mark == "" || mark == "#") && Blanks(a) && (p == ActiveLine ==> mark == "" && a == "")
    requires t != "" && !IsBlank(t[0]) && t[0] != '#'
    ensures Unmarked(p, mark + (a + t)) == t
  {
    hide TrimLeft;
    var s := mark + (a + t);
    TrimLeftIs(a, t, IsBlank);
    if p == ActiveLine {
      assert s == t;
    } else if mark == "#" {
      assert s[1..] == a + t;
    } else {
      assert s == a + t;
      if a != "" {
        assert a[0] in a && s[0] == a[0];
      } else {
        assert s[0] == t[0];
      }
    }
  }

  lemma FormValue(b: string, value: string, rest: string)
    requires Blanks(b) && '\n' !in value && (rest == "" || rest[0] == '\n')
    ensures MatchValue(b + ("=" + value + rest)) == Some(rest)
  {
    hide TrimLeft;
    var t := "=" + value + rest;
    TrimLeftIs(b, t, IsBlank);
    var line := "=" + value;
    if rest == "" {
      assert t == line;
      IndexOfIs(line, '\n', "");
      assert t[|t|..] == "";
    } else {
      assert t == line + ['\n'] + rest[1..];
      IndexOfIs(line, '\n', rest[1..]);
      assert t[|line|..] == rest;
    }
  }

  // ---------------------------------------------------------------- searching and appending

  ghost predicate IsLineStart(s: string, k: int) {
    0 <= k <= |s| && (k == 0 || s[k - 1] == '\n')
  }

  /** `re.search` finds a match exactly if there is one at the start of a line. */
  lemma SearchIff(p: Pattern, s: string)
    ensures Search(p, s) <==> exists k :: IsLineStart(s, k) && Match(p, s[k..]).Some?
  {
    hide Match, Search;
    if Search(p, s) {
      var k := SearchFinds(p, s);
    }
    if k :| IsLineStart(s, k) && Match(p, s[k..]).Some? {
      StartIsFound(p, s, k);
    }
  }

  lemma {:induction false} SearchFinds(p: Pattern, s: string) returns (k: int)
    requires Search(p, s)
    ensures IsLineStart(s, k) && Match(p, s[k..]).Some?
    decreases |s|
  {
    hide Match, IndexOf;
    k := 0;
    assert s[0..] == s;
    if Match(p, s).None? {
      var i := IndexOf(s, '\n');
      var j := SearchFinds(p, s[i + 1..]);
      k := i + 1 + j;
      assert s[i + 1..][j..] == s[k..];
      assert j > 0 ==> s[i + 1..][j - 1] == s[k - 1];
    }
  }

  lemma {:induction false} StartIsFound(p: Pattern, s: string, k: int)
    requires IsLineStart(s, k) && Match(p, s[k..]).Some?
    ensures Search(p, s)
    decreases |s|
  {
    hide Match, IndexOf;
    if k == 0 {
      assert s[0..] == s;
    } else {
      var i := IndexOf(s, '\n');
      NotBefore(s, '\n');
      BreakBefore(s, i, k - 1);
      var next := s[i + 1..];
      var j := k - i - 1;
      assert next[j..] == s[k..];
      assert j > 0 ==> next[j - 1] == s[k - 1];
      StartIsFound(p, next, j);
    }
  }

  /** The first line break is not after any other. */
  lemma BreakBefore(s: string, i: nat, j: int)
    requires 0 <= j < |s| && s[j] == '\n' && i <= |s| && '\n' !in s[..i]
    ensures i <= j
  {
    assert forall m :: 0 <= m < i ==> s[..i][m] == s[m] && s[m] in s[..i];
  }

  /** Without a match the text stays in front, but for the blanks at its end, and the line is added. */
  lemma AppendedIs(s: string, n: nat) returns (text: string, blanks: string)
    requires !Search(AnyLine, s)
    ensures s == text + blanks && Blanks(blanks) && (text == "" || !IsBlank(text[|text| - 1]))
    ensures Written(s, n) == text + "\n" + Line(n) + "\n"
  {
    hide Search, Line;
    text := TrimRight(s, IsBlank);
    blanks := TrimRightSplits(s, IsBlank);
  }

  /** Clearing changes nothing where the key starts no line. */
  lemma NothingToClear(s: string)
    requires !Search(ActiveLine, s)
    ensures Emptied(s) == s
  {
    hide Search;
  }

  /** Where each match stays on its line, writing and clearing change the matching lines and no other: the
      number's line is put there, or a comment without a number. */
  lemma OnlyMatchingLinesChange(p: Pattern, s: string, line: string)
    requires OneLineMatches(p, s) && '\n' !in line
    ensures |Lines(Sub(p, s, line))| == |Lines(s)|
    ensures forall i | 0 <= i < |Lines(s)| ::
      Lines(Sub(p, s, line))[i] == if Match(p, Lines(s)[i]).Some? then line else Lines(s)[i]
  {
    hide Lines, OneLineMatches, Match, Sub;
    LinesOfSub(p, s, line);
  }
}
