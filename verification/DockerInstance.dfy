/** `dev/cli/commands/docker.py`: the instance number that is stored in the text of `.env.docker`.
    Only a line feed ends a line here. The patterns' `\s*` may run over line ends, as in the original. */
module DockerInstance {
  import opened Sql
  import opened Text

  function Key(): string { "POLAR_DOCKER_INSTANCE" }

  // ---------------------------------------------------------------- numbers

  predicate AllDigits(s: string) {
    forall i :: 0 <= i < |s| ==> '0' <= s[i] <= '9'
  }

  function Digit(d: nat): (c: char)
    requires d < 10
    ensures '0' <= c <= '9' && (c - '0') as nat == d
  {
    '0' + (d as char)
  }

  /** `str(n)`. */
  function Digits(n: nat): string {
    if n < 10 then [Digit(n)] else Digits(n / 10) + [Digit(n % 10)]
  }

  /** `int(s)`. */
  function Value(s: string): nat
    requires AllDigits(s)
  {
    if s == "" then 0 else 10 * Value(s[..|s| - 1]) + (s[|s| - 1] - '0') as nat
  }

  lemma {:induction false} DigitsReadBack(n: nat)
    ensures Digits(n) != "" && AllDigits(Digits(n)) && Value(Digits(n)) == n
  {
    if n >= 10 {
      DigitsReadBack(n / 10);
      assert Digits(n)[..|Digits(n)| - 1] == Digits(n / 10);
    } else {
      assert Digits(n)[..0] == "";
    }
  }

  // ---------------------------------------------------------------- reading

  /** `^POLAR_DOCKER_INSTANCE\s*=\s*(\d+)\s*$` on a stripped line that is no comment. */
  function ReadLine(line: string): Option<nat> {
    var t := Strip(line);
    if t == "" || t[0] == '#' || !(Key() <= t) then None
    else
      var r := SkipBlanks(t[|Key()|..]);
      if r == "" || r[0] != '=' then None
      else
        var v := SkipBlanks(r[1..]);
        if v != "" && AllDigits(v) then Some(Value(v)) else None
  }

  /** The text after the first line, or nothing when there is only one. */
  function NextLines(s: string): Option<string> {
    var i := IndexOf(s, '\n');
    if i == |s| then None else Some(s[i + 1..])
  }

  function FirstLine(s: string): string {
    s[..IndexOf(s, '\n')]
  }

  /** `_read_stored_instance`: the first line that holds a number. */
  function Read(s: string): Option<nat>
    decreases |s|
  {
    if ReadLine(FirstLine(s)).Some? then ReadLine(FirstLine(s))
    else if NextLines(s).Some? then Read(NextLines(s).value)
    else None
  }

  // ---------------------------------------------------------------- matching and replacing

  /** The pattern of `_write_stored_instance`, `^#?\s*KEY\s*=`, or that of `_clear_stored_instance`,
      `^KEY\s*=`. */
  datatype Pattern = AnyLine | ActiveLine

  /** `\s*=` and then `.*$`: the text from the end of that line on. */
  function MatchValue(s: string): (rest: Option<string>)
    ensures rest.Some? ==> |rest.value| <= |s| && (rest.value == "" || rest.value[0] == '\n')
  {
    var t := SkipBlanks(s);
    if t == "" || t[0] != '=' then None else Some(t[IndexOf(t, '\n')..])
  }

  /** The text after what may precede the key. */
  function Unmarked(p: Pattern, s: string): string {
    if p == ActiveLine then s else SkipBlanks(if s != "" && s[0] == '#' then s[1..] else s)
  }

  /** A match at the start of a line; the result is the text after it. */
  function Match(p: Pattern, s: string): (rest: Option<string>)
    ensures rest.Some? ==> |rest.value| <= |s| && (rest.value == "" || rest.value[0] == '\n')
  {
    var t := Unmarked(p, s);
    if Key() <= t then MatchValue(t[|Key()|..]) else None
  }

  /** `re.search`. */
  predicate Search(p: Pattern, s: string)
    decreases |s|
  {
    Match(p, s).Some? || (NextLines(s).Some? && Search(p, NextLines(s).value))
  }

  /** `re.sub`. */
  function Sub(p: Pattern, s: string, line: string): string
    decreases |s|
  {
    match Match(p, s)
    case Some(rest) => line + if rest == "" then "" else "\n" + Sub(p, rest[1..], line)
    case None => FirstLine(s) + if NextLines(s).None? then "" else "\n" + Sub(p, NextLines(s).value, line)
  }

  function Line(n: nat): string {
    Key() + "=" + Digits(n)
  }

  function Cleared(): string { "# POLAR_DOCKER_INSTANCE=" }

  function Written(s: string, n: nat): string {
    if Search(AnyLine, s) then Sub(AnyLine, s, Line(n)) else TrimRight(s, IsBlank) + "\n" + Line(n) + "\n"
  }

  function Emptied(s: string): string {
    if Search(ActiveLine, s) then Sub(ActiveLine, s, Cleared()) else s
  }

  // ---------------------------------------------------------------- lines

  /** Every line that holds a number has the key in its first column. */
  predicate Clean(s: string)
    decreases |s|
  {
    && (ReadLine(FirstLine(s)).Some? ==> Key() <= FirstLine(s))
    && (NextLines(s).Some? ==> Clean(NextLines(s).value))
  }

  lemma SplitFirst(line: string, rest: string)
    requires '\n' !in line
    ensures FirstLine(line + "\n" + rest) == line && NextLines(line + "\n" + rest) == Some(rest)
    ensures FirstLine(line) == line && NextLines(line) == None
  {
    IndexOfIs(line, '\n', rest);
    assert (line + "\n" + rest)[..|line|] == line && (line + "\n" + rest)[|line| + 1..] == rest;
  }

  lemma FirstLineHasNoBreak(s: string)
    ensures '\n' !in FirstLine(s)
    ensures s == FirstLine(s) + if NextLines(s).None? then "" else "\n" + NextLines(s).value
  {
    NotBefore(s, '\n');
    var i := IndexOf(s, '\n');
    assert i < |s| ==> s == s[..i] + [s[i]] + s[i + 1..];
  }

  /** The two texts that `Sub` puts together, line by line. */
  lemma ReadCons(line: string, rest: string)
    requires '\n' !in line
    ensures Read(line + "\n" + rest) == if ReadLine(line).Some? then ReadLine(line) else Read(rest)
    ensures Clean(line + "\n" + rest) <==> (ReadLine(line).Some? ==> Key() <= line) && Clean(rest)
    ensures Read(line) == ReadLine(line)
    ensures Clean(line) <==> (ReadLine(line).Some? ==> Key() <= line)
  {
    hide ReadLine, Key, FirstLine, NextLines;
    SplitFirst(line, rest);
  }

  lemma KeyIsSolid()
    ensures Key() != "" && !IsBlank(Key()[0]) && Key()[0] != '#' && '\n' !in Key()
  {
  }

  lemma LineReads(n: nat)
    ensures ReadLine(Line(n)) == Some(n) && '\n' !in Line(n) && Key() <= Line(n)
  {
    hide Key, Digits, Value, TrimLeft, TrimRight, Trimmed;
    KeyIsSolid();
    DigitsReadBack(n);
    LineIsTrimmed(n);
    TrimTrimmed(Line(n), IsBlank);
    assert Line(n)[|Key()|..] == "=" + Digits(n);
    assert ("=" + Digits(n))[1..] == Digits(n);
    SkipNothing("=" + Digits(n));
    SkipNothing(Digits(n));
  }

  lemma LineIsTrimmed(n: nat)
    ensures Trimmed(Line(n), IsBlank)
  {
    hide Key, Digits, Value;
    KeyIsSolid();
    DigitsReadBack(n);
  }

  lemma ClearedReads()
    ensures ReadLine(Cleared()) == None && '\n' !in Cleared()
  {
    TrimTrimmed(Cleared(), IsBlank);
  }

  // ---------------------------------------------------------------- what is read is matched

  lemma {:induction false} SkipBlanksAppend(a: string, b: string)
    requires SkipBlanks(a) != ""
    ensures SkipBlanks(a + b) == SkipBlanks(a) + b
  {
    if a != "" && IsBlank(a[0]) {
      assert (a + b)[1..] == a[1..] + b;
      SkipBlanksAppend(a[1..], b);
    }
  }

  lemma MatchValueAppend(a: string, b: string)
    requires SkipBlanks(a) != "" && SkipBlanks(a)[0] == '='
    ensures MatchValue(a + b).Some?
  {
    SkipBlanksAppend(a, b);
  }

  /** A line that holds a number is matched by the pattern of the writer, and by that of the clearer
      when the key is in its first column. */
  lemma ReadableIsMatched(s: string)
    requires ReadLine(FirstLine(s)).Some?
    ensures Match(AnyLine, s).Some?
    ensures Key() <= FirstLine(s) ==> Match(ActiveLine, s).Some?
  {
    hide Key, FirstLine, NextLines, MatchValue, ReadLine, TrimLeft, TrimRight;
    KeyIsSolid();
    FirstLineHasNoBreak(s);
    var line := FirstLine(s);
    ReadableStart(line);
    var tail := s[|line|..];
    var u, t := SkipBlanks(line), Strip(line);
    TrimRightKeepsStart(u, IsBlank);
    assert s == line + tail && u == t + u[|t|..];
    SkipBlanksAppend(line, tail);
    assert SkipBlanks(s) == t + (u[|t|..] + tail);
    KeyThenValue(t, u[|t|..] + tail);
    if Key() <= line {
      assert line[0] == Key()[0];
      SkipNothing(line);
    }
  }

  lemma SkipNothing(s: string)
    requires s != "" && !IsBlank(s[0])
    ensures SkipBlanks(s) == s
  {
  }

  lemma ReadableStart(line: string)
    requires ReadLine(line).Some?
    ensures var t := Strip(line); Key() <= t && SkipBlanks(t[|Key()|..]) != "" && SkipBlanks(t[|Key()|..])[0] == '='
    ensures line != "" && line[0] != '#' && SkipBlanks(line) != ""
  {
    hide Key;
    KeyIsSolid();
    TrimRightKeepsStart(SkipBlanks(line), IsBlank);
  }

  lemma KeyThenValue(t: string, more: string)
    requires Key() <= t && SkipBlanks(t[|Key()|..]) != "" && SkipBlanks(t[|Key()|..])[0] == '='
    ensures Key() <= t + more && MatchValue((t + more)[|Key()|..]).Some?
  {
    hide Key, MatchValue;
    assert (t + more)[|Key()|..] == t[|Key()|..] + more;
    MatchValueAppend(t[|Key()|..], more);
  }

  // ---------------------------------------------------------------- writing

  /** Replacing leaves only lines `KEY=n` that hold a number, and at least one if there was a match. */
  lemma {:induction false} SubReads(s: string, n: nat)
    ensures Clean(Sub(AnyLine, s, Line(n)))
    ensures Read(Sub(AnyLine, s, Line(n))) == if Search(AnyLine, s) then Some(n) else None
    decreases |s|
  {
    hide ReadLine, Key, Line, Match, Clean, Read, FirstLine, NextLines;
    LineReads(n);
    match Match(AnyLine, s) {
      case Some(rest) =>
        if rest == "" {
          ReadCons(Line(n), "");
          assert Line(n) + "" == Line(n);
        } else {
          SubReads(rest[1..], n);
          ReadCons(Line(n), Sub(AnyLine, rest[1..], Line(n)));
          assert Line(n) + ("\n" + Sub(AnyLine, rest[1..], Line(n)))
            == Line(n) + "\n" + Sub(AnyLine, rest[1..], Line(n));
        }
      case None =>
        var line := FirstLine(s);
        FirstLineHasNoBreak(s);
        if ReadLine(line).Some? {
          ReadableIsMatched(s);
        }
        if NextLines(s).None? {
          ReadCons(line, "");
          assert line + "" == line;
        } else {
          SubReads(NextLines(s).value, n);
          ReadCons(line, Sub(AnyLine, NextLines(s).value, Line(n)));
          assert line + ("\n" + Sub(AnyLine, NextLines(s).value, Line(n)))
            == line + "\n" + Sub(AnyLine, NextLines(s).value, Line(n));
        }
    }
  }

  lemma {:induction false} NoMatchNoRead(s: string)
    requires !Search(AnyLine, s)
    ensures Read(s) == None
    decreases |s|
  {
    hide ReadLine, Key, Match;
    if ReadLine(FirstLine(s)).Some? {
      ReadableIsMatched(s);
    }
    if NextLines(s).Some? {
      NoMatchNoRead(NextLines(s).value);
    }
  }

  lemma {:induction false} TrimRightBlanks(a: string, b: string)
    requires forall c :: c in b ==> IsBlank(c)
    ensures TrimRight(a + b, IsBlank) == TrimRight(a, IsBlank)
  {
    if b == "" {
      assert a + b == a;
    } else {
      assert (a + b)[..|a + b| - 1] == a + b[..|b| - 1];
      TrimRightBlanks(a, b[..|b| - 1]);
    }
  }

  lemma {:induction false} StripBlanks(a: string, b: string)
    requires forall c :: c in b ==> IsBlank(c)
    ensures Strip(a + b) == Strip(a)
  {
    if a != "" && IsBlank(a[0]) {
      assert (a + b)[1..] == a[1..] + b;
      StripBlanks(a[1..], b);
    } else if a != "" {
      TrimRightBlanks(a, b);
    } else {
      assert a + b == b;
      OnlyBlanks(b);
    }
  }

  lemma {:induction false} OnlyBlanks(b: string)
    requires forall c :: c in b ==> IsBlank(c)
    ensures TrimLeft(b, IsBlank) == ""
  {
    if b != "" {
      OnlyBlanks(b[1..]);
    }
  }

  /** Cutting blanks off the end of a text without numbers leaves none. */
  lemma {:induction false} ReadWithoutEnd(a: string, b: string)
    requires forall c :: c in b ==> IsBlank(c)
    requires Read(a + b) == None
    ensures Read(a) == None
    decreases |a|
  {
    hide ReadLine, Key, FirstLine, NextLines;
    FirstLineHasNoBreak(a);
    var line := FirstLine(a);
    if NextLines(a).Some? {
      var next := NextLines(a).value;
      assert a + b == line + "\n" + (next + b);
      ReadCons(line, next + b);
      ReadCons(line, next);
      ReadWithoutEnd(next, b);
    } else {
      assert a == line;
      FirstLineHasNoBreak(b);
      var end := FirstLine(b);
      SameLine(a, end);
      if NextLines(b).Some? {
        assert a + b == a + end + "\n" + NextLines(b).value;
        ReadCons(a + end, NextLines(b).value);
      } else {
        assert b == end;
        ReadCons(a + end, "");
      }
      ReadCons(a, "");
    }
  }

  lemma SameLine(a: string, b: string)
    requires forall c :: c in b ==> IsBlank(c)
    ensures ReadLine(a + b) == ReadLine(a)
  {
    StripBlanks(a, b);
  }

  /** A text without numbers in front does not matter. */
  lemma {:induction false} ReadAfter(a: string, r: string)
    requires Read(a) == None
    ensures Read(a + "\n" + r) == Read(r) && (Clean(a + "\n" + r) <==> Clean(r))
    decreases |a|
  {
    hide ReadLine, Key, FirstLine, NextLines;
    FirstLineHasNoBreak(a);
    var line := FirstLine(a);
    if NextLines(a).Some? {
      var next := NextLines(a).value;
      ReadCons(line, next);
      ReadAfter(next, r);
      assert a + "\n" + r == line + "\n" + (next + "\n" + r);
      ReadCons(line, next + "\n" + r);
    } else {
      assert a == line;
      ReadCons(line, r);
    }
  }

  /** Reading after writing n gives n, whatever the text was. */
  lemma ReadWritten(s: string, n: nat)
    ensures Read(Written(s, n)) == Some(n) && Clean(Written(s, n))
  {
    hide ReadLine, Key, Line, Match, Clean, Read, Sub, Search;
    if Search(AnyLine, s) {
      SubReads(s, n);
    } else {
      var t := TrimRight(s, IsBlank);
      NoMatchNoRead(s);
      var blanks := TrimRightSplits(s, IsBlank);
      ReadWithoutEnd(t, blanks);
      LineReads(n);
      ReadCons(Line(n), "");
      ReadAfter(t, Line(n) + "\n" + "");
      assert t + "\n" + (Line(n) + "\n" + "") == Written(s, n);
      EmptyTextIsClean();
    }
  }

  lemma EmptyTextIsClean()
    ensures Clean("")
  {
  }

  // ---------------------------------------------------------------- clearing

  /** The value is on the line of the sign; before that there are blanks. */
  lemma MatchValueSteps(s: string)
    requires MatchValue(s).Some?
    ensures s != "" && (s[0] == '=' || (IsBlank(s[0]) && MatchValue(s[1..]) == MatchValue(s)))
    ensures s[0] == '=' ==>
      var rest := MatchValue(s).value;
      NextLines(s) == if rest == "" then None else Some(rest[1..])
  {
  }

  /** Only the first line of a matched text may hold a number: the other lines that `\s*=` runs over are
      blank or begin with the sign. */
  lemma {:induction false} MatchedPartIsClean(start: string, s: string)
    requires '\n' !in start && (Key() <= start || forall c :: c in start ==> IsBlank(c))
    requires MatchValue(s).Some?
    ensures var rest := MatchValue(s).value; Clean(start + s) <==> rest == "" || Clean(rest[1..])
    decreases |s|
  {
    hide Clean, Key, MatchValue, ReadLine, NextLines, FirstLine;
    MatchValueSteps(s);
    if s[0] == '=' {
      FirstLineHasNoBreak(s);
      var line := FirstLine(s);
      FirstLineStarts(s);
      StartIsClean(start, line);
      if NextLines(s).Some? {
        ReadCons(start + line, NextLines(s).value);
        assert start + s == start + line + "\n" + NextLines(s).value;
      } else {
        ReadCons(start + line, "");
        assert start + s == start + line;
      }
    } else if s[0] == '\n' {
      MatchedPartIsClean("", s[1..]);
      StartIsClean(start, "");
      assert start + "" == start;
      ReadCons(start, s[1..]);
      assert start + s == start + "\n" + s[1..];
      assert "" + s[1..] == s[1..];
    } else {
      assert start + s == (start + [s[0]]) + s[1..];
      assert Key() <= start ==> Key() <= start + [s[0]];
      MatchedPartIsClean(start + [s[0]], s[1..]);
    }
  }

  lemma FirstLineStarts(s: string)
    requires s != "" && s[0] != '\n'
    ensures FirstLine(s) != "" && FirstLine(s)[0] == s[0]
  {
  }

  lemma StartIsClean(start: string, line: string)
    requires Key() <= start || forall c :: c in start ==> IsBlank(c)
    requires line == "" || line[0] == '='
    ensures ReadLine(start + line).Some? ==> Key() <= start + line
  {
    hide ReadLine, Key;
    if Key() <= start {
      assert (start + line)[..|Key()|] == start[..|Key()|];
    } else {
      SignIsNoKey(start, line);
    }
  }

  /** Blanks, or blanks and then a sign, hold no number. */
  lemma SignIsNoKey(start: string, line: string)
    requires forall c :: c in start ==> IsBlank(c)
    requires line == "" || line[0] == '='
    ensures ReadLine(start + line) == None
  {
    OnlyBlanks(start);
    SkipAllBlanks(start, line);
    TrimRightKeepsStart(line, IsBlank);
  }

  lemma {:induction false} SkipAllBlanks(start: string, line: string)
    requires forall c :: c in start ==> IsBlank(c)
    requires line == "" || !IsBlank(line[0])
    ensures SkipBlanks(start + line) == line
  {
    if start == "" {
      assert start + line == line;
    } else {
      assert (start + line)[1..] == start[1..] + line;
      SkipAllBlanks(start[1..], line);
    }
  }

  lemma ActiveMatchIsClean(s: string)
    requires Match(ActiveLine, s).Some?
    ensures var rest := Match(ActiveLine, s).value; Clean(s) <==> rest == "" || Clean(rest[1..])
  {
    hide Clean, MatchValue;
    assert s == Key() + s[|Key()|..];
    MatchedPartIsClean(Key(), s[|Key()|..]);
  }

  lemma {:induction false} SubClears(s: string)
    ensures Read(Sub(ActiveLine, s, Cleared())) == None <==> Clean(s)
    ensures Clean(Sub(ActiveLine, s, Cleared())) <==> Clean(s)
    decreases |s|
  {
    hide ReadLine, Key, Cleared, Match, Clean, Read, FirstLine, NextLines;
    ClearedReads();
    match Match(ActiveLine, s) {
      case Some(rest) =>
        ActiveMatchIsClean(s);
        if rest == "" {
          ReadCons(Cleared(), "");
          assert Cleared() + "" == Cleared();
        } else {
          SubClears(rest[1..]);
          ReadCons(Cleared(), Sub(ActiveLine, rest[1..], Cleared()));
          assert Cleared() + ("\n" + Sub(ActiveLine, rest[1..], Cleared()))
              == Cleared() + "\n" + Sub(ActiveLine, rest[1..], Cleared());
        }
      case None =>
        var line := FirstLine(s);
        FirstLineHasNoBreak(s);
        if ReadLine(line).Some? {
          ReadableIsMatched(s);
        }
        if NextLines(s).None? {
          ReadCons(line, "");
          assert line + "" == line;
        } else {
          SubClears(NextLines(s).value);
          ReadCons(line, NextLines(s).value);
          assert s == line + "\n" + NextLines(s).value;
          ReadCons(line, Sub(ActiveLine, NextLines(s).value, Cleared()));
          assert line + ("\n" + Sub(ActiveLine, NextLines(s).value, Cleared()))
              == line + "\n" + Sub(ActiveLine, NextLines(s).value, Cleared());
        }
    }
  }

  lemma {:induction false} SubWithoutMatch(p: Pattern, s: string, line: string)
    requires !Search(p, s)
    ensures Sub(p, s, line) == s
    decreases |s|
  {
    hide Match, FirstLine, NextLines;
    FirstLineHasNoBreak(s);
    if NextLines(s).Some? {
      SubWithoutMatch(p, NextLines(s).value, line);
    }
  }

  /** After clearing nothing is read if and only if every number had its key in the first column. */
  lemma ReadEmptied(s: string)
    ensures Read(Emptied(s)) == None <==> Clean(s)
    ensures Clean(Emptied(s)) <==> Clean(s)
  {
    hide Clean, Read, Sub, Search, Cleared;
    SubClears(s);
    if !Search(ActiveLine, s) {
      SubWithoutMatch(ActiveLine, s, Cleared());
    }
  }

  function Indented(): string { " " + Line(5) }

  /** A line that is only indented is read, but clearing does not find it. */
  lemma IndentedLineIsNotCleared()
    ensures Read(Indented()) == Some(5) && Emptied(Indented()) == Indented()
  {
    hide Key, Line, NextLines, ReadLine;
    KeyIsSolid();
    LineReads(5);
    var s := Indented();
    assert s[1..] == Line(5);
    IndentationIsNoise(Line(5));
    SplitFirst(s, "");
    ReadCons(s, "");
    assert Match(ActiveLine, s) == None by {
      assert s[0] != Key()[0];
    }
  }

  lemma IndentationIsNoise(line: string)
    ensures ReadLine(" " + line) == ReadLine(line)
  {
    assert (" " + line)[1..] == line;
  }

  // ---------------------------------------------------------------- the other lines

  lemma {:induction false} SkipBlanksIsEnd(s: string)
    ensures SkipBlanks(s) == s[|s| - |SkipBlanks(s)|..]
    ensures '\n' !in s ==> '\n' !in SkipBlanks(s)
  {
    TrimLeftKeepsEnd(s, IsBlank);
  }

  lemma {:induction false} SkipBlanksOnly(a: string, b: string)
    requires SkipBlanks(a) == ""
    ensures SkipBlanks(a + b) == SkipBlanks(b)
  {
    if a == "" {
      assert a + b == b;
    } else {
      assert (a + b)[1..] == a[1..] + b;
      SkipBlanksOnly(a[1..], b);
    }
  }

  /** The value on a line is replaced up to the end of the line; a match that the line alone does not
      hold runs over its end. */
  lemma MatchValueOnLine(a: string, b: string)
    requires '\n' !in a && (b == "" || b[0] == '\n')
    ensures MatchValue(a).Some? ==> MatchValue(a) == Some("") && MatchValue(a + b) == Some(b)
    ensures MatchValue(a).None? && MatchValue(a + b).Some? ==> |MatchValue(a + b).value| < |b|
  {
    var t := SkipBlanks(a);
    SkipBlanksIsEnd(a);
    if t == "" {
      SkipBlanksOnly(a, b);
    } else {
      SkipBlanksAppend(a, b);
      NotBefore(t, '\n');
      if b != "" {
        IndexOfIs(t, '\n', b[1..]);
        assert t + b == t + "\n" + b[1..];
      } else {
        assert t + b == t;
      }
    }
  }

  lemma UnmarkedOnLine(p: Pattern, a: string, b: string)
    requires '\n' !in a && (b == "" || b[0] == '\n')
    ensures '\n' !in Unmarked(p, a)
    ensures Unmarked(p, a + b) == Unmarked(p, a) + b || (Unmarked(p, a) == "" && |Unmarked(p, a + b)| <= |b|)
  {
    if p == AnyLine {
      var cut := if a != "" && a[0] == '#' then a[1..] else a;
      assert (if a + b != "" && (a + b)[0] == '#' then (a + b)[1..] else a + b) == cut + b;
      SkipBlanksIsEnd(cut);
      if SkipBlanks(cut) == "" {
        SkipBlanksOnly(cut, b);
      } else {
        SkipBlanksAppend(cut, b);
      }
    }
  }

  lemma KeyOnLine(a: string, b: string)
    requires b == "" || b[0] == '\n'
    requires Key() <= a + b
    ensures Key() <= a
  {
    hide Key;
    KeyIsSolid();
    var k := Key();
    var i := if |a| < |k| then |a| else 0;
    assert k[i] == (a + b)[i];
    assert k[i] != '\n';
  }

  lemma PrefixOfMore(k: string, a: string, b: string)
    requires k <= a
    ensures k <= a + b
  {
    assert (a + b)[..|k|] == a[..|k|];
  }

  lemma MatchOnLine(p: Pattern, a: string, b: string)
    requires '\n' !in a && (b == "" || b[0] == '\n')
    ensures Match(p, a).Some? ==> Match(p, a) == Some("") && Match(p, a + b) == Some(b)
    ensures Match(p, a).None? && Match(p, a + b).Some? ==> |Match(p, a + b).value| < |b|
  {
    hide Key, MatchValue, TrimLeft;
    KeyIsSolid();
    UnmarkedOnLine(p, a, b);
    var t := Unmarked(p, a);
    if Unmarked(p, a + b) == t + b {
      if Key() <= t {
        PrefixOfMore(Key(), t, b);
      }
      if Key() <= t + b {
        KeyOnLine(t, b);
        assert (t + b)[|Key()|..] == t[|Key()|..] + b;
        MatchValueOnLine(t[|Key()|..], b);
      }
    }
  }

  lemma MatchValueIsEnd(s: string)
    requires MatchValue(s).Some?
    ensures var rest := MatchValue(s).value; rest == s[|s| - |rest|..]
  {
    SkipBlanksIsEnd(s);
  }

  lemma EndOfEnd(s: string, a: nat, b: nat)
    requires a <= |s| && b <= |s| - a
    ensures s[a..][b..] == s[a + b..]
  {
  }

  lemma UnmarkedIsEnd(p: Pattern, s: string)
    ensures |Unmarked(p, s)| <= |s| && Unmarked(p, s) == s[|s| - |Unmarked(p, s)|..]
  {
    hide TrimLeft;
    if p == AnyLine {
      var k := if s != "" && s[0] == '#' then 1 else 0;
      var cut := s[k..];
      assert cut == if s != "" && s[0] == '#' then s[1..] else s;
      SkipBlanksIsEnd(cut);
      EndOfEnd(s, k, |cut| - |SkipBlanks(cut)|);
    }
  }

  lemma MatchIsEnd(p: Pattern, s: string)
    requires Match(p, s).Some?
    ensures var rest := Match(p, s).value; rest == s[|s| - |rest|..]
  {
    hide Key, MatchValue, Unmarked;
    var t := Unmarked(p, s);
    UnmarkedIsEnd(p, s);
    MatchValueIsEnd(t[|Key()|..]);
  }

  lemma {:induction false} LinesOfEnd(s: string, k: nat)
    requires k <= |s|
    ensures |Lines(s[k..])| <= |Lines(s)|
  {
    if k > 0 {
      LinesOfEnd(s[1..], k - 1);
      assert s[1..][k - 1..] == s[k..];
      if s[0] == '\n' {
        assert s[0 + 1..] == s[1..];
      } else if IndexOf(s, '\n') < |s| {
        assert s[IndexOf(s, '\n') + 1..] == s[1..][IndexOf(s[1..], '\n') + 1..];
      }
    }
  }

  /** No match runs over the end of the line it starts on. */
  predicate OneLineMatches(p: Pattern, s: string)
    decreases |s|
  {
    && (Match(p, s).Some? ==> Match(p, FirstLine(s)).Some?)
    && (NextLines(s).Some? ==> OneLineMatches(p, NextLines(s).value))
  }

  function Replaced(p: Pattern, lines: seq<string>, line: string): (r: seq<string>)
    ensures |r| == |lines|
  {
    seq(|lines|, i requires 0 <= i < |lines| => if Match(p, lines[i]).Some? then line else lines[i])
  }

  lemma ReplacedCons(p: Pattern, l: string, more: seq<string>, line: string)
    ensures Replaced(p, [l] + more, line) == [if Match(p, l).Some? then line else l] + Replaced(p, more, line)
  {
    hide Match;
  }

  lemma ReplacedNothing(p: Pattern, line: string)
    ensures Replaced(p, [], line) == []
  {
  }

  lemma LinesOf(s: string)
    ensures Lines(s) == [FirstLine(s)] + if NextLines(s).Some? then Lines(NextLines(s).value) else []
  {
    hide IndexOf;
    assert s[..|s|] == s;
  }

  /** A match that runs over the end of its line takes lines away. */
  lemma LongMatchTakesLines(p: Pattern, s: string)
    requires Match(p, s).Some? && Match(p, FirstLine(s)).None?
    ensures var rest := Match(p, s).value; 1 + (if rest == "" then 0 else |Lines(rest[1..])|) < |Lines(s)|
  {
    hide Match, FirstLine, NextLines, Lines;
    FirstLineHasNoBreak(s);
    var line, rest := FirstLine(s), Match(p, s).value;
    LinesOf(s);
    assert NextLines(s).None? ==> s == line;
    MatchIsEnd(p, s);
    if NextLines(s).Some? {
      var next := NextLines(s).value;
      var end := "\n" + next;
      assert s == line + end;
      MatchOnLine(p, line, end);
      SameEnd(line + "\n", next, |rest|);
      assert s == line + "\n" + next;
      LinesOf(next);
      if rest != "" {
        EndWithBreak(next, |next| - |rest|);
        assert rest[1..] == next[|next| - |rest| + 1..];
      }
    }
  }

  lemma SameEnd(a: string, b: string, n: nat)
    requires n <= |b|
    ensures (a + b)[|a + b| - n..] == b[|b| - n..]
  {
  }

  lemma EndWithBreak(s: string, k: nat)
    requires k < |s| && s[k] == '\n'
    ensures 1 + |Lines(s[k + 1..])| <= |Lines(s)|
  {
    hide Lines;
    LinesOfEnd(s, k);
    assert s[k..] == "" + "\n" + s[k + 1..];
    LinesOfCons("", s[k + 1..]);
  }

  lemma LinesOfPair(line: string, more: string)
    requires '\n' !in line
    ensures Lines(line + ("\n" + more)) == [line] + Lines(more)
  {
    hide Lines;
    LinesOfCons(line, more);
    assert line + ("\n" + more) == line + "\n" + more;
  }

  lemma SameFirst(first: string, a: seq<string>, b: seq<string>)
    ensures [first] + a == [first] + b <==> a == b
  {
    assert ([first] + a)[1..] == a && ([first] + b)[1..] == b;
  }

  /** Replacing never adds a line. It changes exactly the matching lines and keeps all others in place
      if and only if no match runs over the end of its line. */
  lemma {:induction false} LinesOfSub(p: Pattern, s: string, line: string)
    requires '\n' !in line
    ensures |Lines(Sub(p, s, line))| <= |Lines(s)|
    ensures Lines(Sub(p, s, line)) == Replaced(p, Lines(s), line) <==> OneLineMatches(p, s)
    decreases |s|
  {
    hide Match, FirstLine, NextLines, Lines, Replaced;
    FirstLineHasNoBreak(s);
    LinesOf(s);
    ReplacedNothing(p, line);
    var first := FirstLine(s);
    var end := s[|first|..];
    assert s == first + end;
    ReplacedCons(p, first, if NextLines(s).Some? then Lines(NextLines(s).value) else [], line);
    MatchOnLine(p, first, end);
    LinesOfCons(line, "");
    LinesOfCons(first, "");
    assert line + "" == line && first + "" == first;
    if Match(p, s).Some? {
      var rest := Match(p, s).value;
      if rest != "" {
        LinesOfSub(p, rest[1..], line);
        LinesOfPair(line, Sub(p, rest[1..], line));
      }
      if Match(p, first).None? {
        LongMatchTakesLines(p, s);
        assert |Lines(Sub(p, s, line))| < |Lines(s)|;
      } else {
        assert rest == end;
        if NextLines(s).Some? {
          assert rest[1..] == NextLines(s).value;
          SameFirst(line, Lines(Sub(p, rest[1..], line)), Replaced(p, Lines(rest[1..]), line));
        }
      }
    } else {
      if NextLines(s).Some? {
        LinesOfSub(p, NextLines(s).value, line);
        LinesOfPair(first, Sub(p, NextLines(s).value, line));
        SameFirst(first, Lines(Sub(p, NextLines(s).value, line)), Replaced(p, Lines(NextLines(s).value), line));
      }
    }
  }

  function AfterBlankLine(m: nat): string { "\n" + Line(m) }

  /** The writer's pattern runs over the blank line in front of the key and takes it away. */
  lemma BlankLineIsTaken(m: nat, n: nat)
    ensures Lines(AfterBlankLine(m)) == ["", Line(m)] && !OneLineMatches(AnyLine, AfterBlankLine(m))
    ensures Lines(Written(AfterBlankLine(m), n)) == [Line(n)]
  {
    hide Lines, Line, Match, Key, OneLineMatches, Replaced, FirstLine, NextLines, AfterBlankLine;
    BlankLineMatches(m);
    LineReads(n);
    LineReads(m);
    TwoLines(m);
    LinesOfCons(Line(n), "");
    assert Line(n) + "" == Line(n);
    LinesOfSub(AnyLine, AfterBlankLine(m), Line(n));
  }

  lemma TwoLines(m: nat)
    requires '\n' !in Line(m)
    ensures Lines(AfterBlankLine(m)) == ["", Line(m)]
  {
    hide Lines, Line;
    assert AfterBlankLine(m) == "" + "\n" + Line(m);
    LinesOfCons("", Line(m));
    LinesOfCons(Line(m), "");
  }

  lemma BlankLineMatches(m: nat)
    ensures Match(AnyLine, AfterBlankLine(m)) == Some("")
  {
    hide Key, Digits, TrimLeft, MatchValue;
    KeyIsSolid();
    LineReads(m);
    DigitsReadBack(m);
    var value := Line(m)[|Key()|..];
    assert value == "=" + Digits(m);
    SkipBreak(Line(m));
    SkipNothing(Line(m));
    ValueOnLine(Digits(m));
  }

  lemma SkipBreak(s: string)
    ensures SkipBlanks("\n" + s) == SkipBlanks(s)
  {
    assert ("\n" + s)[1..] == s;
  }

  lemma ValueOnLine(digits: string)
    requires '\n' !in digits
    ensures MatchValue("=" + digits) == Some("")
  {
    var value := "=" + digits;
    NotBefore(value, '\n');
    SkipNothing(value);
  }

  // ---------------------------------------------------------------- runs

  datatype Operation = Write(n: nat) | Clear

  function After(s: string, op: Operation): string {
    match op
    case Write(n) => Written(s, n)
    case Clear => Emptied(s)
  }

  function Run(s: string, ops: seq<Operation>): string {
    if ops == [] then s else After(Run(s, ops[..|ops| - 1]), ops[|ops| - 1])
  }

  /** What an operation leaves to be read. */
  function Stored(op: Operation): Option<nat> {
    match op
    case Write(n) => Some(n)
    case Clear => None
  }

  predicate Writes(ops: seq<Operation>) {
    exists i :: 0 <= i < |ops| && ops[i].Write?
  }

  lemma {:induction false} RunIsClean(s: string, ops: seq<Operation>)
    ensures Clean(Run(s, ops)) <==> Clean(s) || Writes(ops)
  {
    hide Clean, Written, Emptied;
    if ops != [] {
      var before, op := ops[..|ops| - 1], ops[|ops| - 1];
      RunIsClean(s, before);
      assert forall i :: 0 <= i < |before| ==> ops[i] == before[i];
      match op {
        case Write(n) =>
          ReadWritten(Run(s, before), n);
          assert ops[|ops| - 1].Write?;
        case Clear => ReadEmptied(Run(s, before));
      }
    }
  }

  /** Over any run the last operation decides what is read, if and only if the text was clean to begin
      with or something was written on the way. */
  lemma LastOperationDecides(s: string, ops: seq<Operation>)
    requires ops != []
    ensures Read(Run(s, ops)) == Stored(ops[|ops| - 1]) <==> Clean(s) || Writes(ops)
  {
    hide Clean, Read, Written, Emptied;
    var before, op := ops[..|ops| - 1], ops[|ops| - 1];
    RunIsClean(s, before);
    assert forall i :: 0 <= i < |before| ==> ops[i] == before[i];
    match op {
      case Write(n) =>
        ReadWritten(Run(s, before), n);
        assert ops[|ops| - 1].Write?;
      case Clear => ReadEmptied(Run(s, before));
    }
  }

  // ---------------------------------------------------------------- the file

  function FirstOf(lines: seq<string>): Option<nat> {
    if lines == [] then None
    else if ReadLine(lines[0]).Some? then ReadLine(lines[0])
    else FirstOf(lines[1..])
  }

  lemma {:induction false} ReadIsFirstOfLines(s: string)
    ensures Read(s) == FirstOf(Lines(s))
    decreases |s|
  {
    hide ReadLine, IndexOf, NextLines, FirstLine;
    FirstLineHasNoBreak(s);
    LinesOfCons(FirstLine(s), if NextLines(s).Some? then NextLines(s).value else "");
    if NextLines(s).Some? {
      var line, rest := FirstLine(s), NextLines(s).value;
      assert s == line + "\n" + rest;
      ReadIsFirstOfLines(rest);
      assert ([line] + Lines(rest))[1..] == Lines(rest);
    } else {
      assert s == FirstLine(s) && [s][1..] == [];
    }
  }

  /** What is read from a file that may be missing. */
  function ReadFile(content: Option<string>): Option<nat> {
    if content.None? then None else Read(content.value)
  }

  class EnvFile {
    var content: Option<string>
    const template: string

    constructor (content: Option<string>, template: string)
      ensures this.content == content && this.template == template
    {
      this.content, this.template := content, template;
    }

    method ReadStoredInstance() returns (instance: Option<nat>)
      ensures instance == ReadFile(content)
    {
      hide ReadLine, Read;
      if content.None? {
        return None;
      }
      var lines := Lines(content.value);
      ReadIsFirstOfLines(content.value);
      assert lines[0..] == lines;
      for i := 0 to |lines|
        invariant FirstOf(lines) == FirstOf(lines[i..])
      {
        instance := ReadLine(lines[i]);
        if instance.Some? {
          return;
        }
      }
      instance := None;
    }

    method EnsureEnvFile()
      modifies this
      ensures content == Some(if old(content).Some? then old(content).value else template)
    {
      if content.None? {
        content := Some(template);
      }
    }

    method WriteStoredInstance(instance: nat)
      modifies this
      ensures content == Some(Written(if old(content).Some? then old(content).value else template, instance))
      ensures ReadFile(content) == Some(instance)
    {
      hide Read, Search, Sub;
      EnsureEnvFile();
      var text := content.value;
      ReadWritten(text, instance);
      if Search(AnyLine, text) {
        text := Sub(AnyLine, text, Line(instance));
      } else {
        text := TrimRight(text, IsBlank) + "\n" + Line(instance) + "\n";
      }
      content := Some(text);
    }

    method ClearStoredInstance() returns (found: bool)
      modifies this
      ensures found <==> old(content).Some? && Search(ActiveLine, old(content).value)
      ensures content == if old(content).None? then None else Some(Emptied(old(content).value))
      ensures ReadFile(content) == None <==> old(content).None? || Clean(old(content).value)
    {
      hide Read, Search, Sub, Clean;
      if content.None? {
        return false;
      }
      var text := content.value;
      ReadEmptied(text);
      if Search(ActiveLine, text) {
        content := Some(Sub(ActiveLine, text, Cleared()));
        return true;
      }
      return false;
    }
  }

  /** Any file, also a missing one: what is written is read back, and clearing it then leaves nothing. */
  method WriteReadClear(file: EnvFile, n: nat) returns (stored: Option<nat>, found: bool, cleared: Option<nat>)
    modifies file
    ensures stored == Some(n) && cleared == None
  {
    hide Read, Search, Sub, Clean, Written, Emptied;
    ghost var text := if file.content.Some? then file.content.value else file.template;
    file.WriteStoredInstance(n);
    ReadWritten(text, n);
    stored := file.ReadStoredInstance();
    found := file.ClearStoredInstance();
    cleared := file.ReadStoredInstance();
  }
}
