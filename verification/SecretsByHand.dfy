/** The readers of the secrets file on a file that was edited by hand: when they agree with the settings
    that the update routine reads from it. */
module SecretsByHand {
  import opened Sql
  import opened Text
  import opened Secrets
  import opened SecretsReaders

  /** The update routine reads the key from this line, whatever blanks surround it. */
  predicate Denotes(line: string, key: string) {
    IsEntry(line) && KeyOf(line) == key
  }

  /** A line that a reader accepts is one that denotes the key, with no blank in front of it or behind. */
  lemma AssignedIff(line: string, key: string)
    requires IsKey(key)
    ensures Assigned(line, key) <==> Denotes(line, key) && line[..IndexOf(line, '=')] == key
    ensures Assigned(line, key) ==> AssignedValue(line, key) == Some(ValueOf(line))
  {
    hide Trim, Trimmed, ValueOf;
    TrimTrimmed(key, IsBlank);
    if Assigned(line, key) {
      var rest := line[|key| + 1..];
      IndexOfIs(key, '=', rest);
      assert line == key + ['='] + rest;
      assert key != "" ==> line[0] == key[0];
    }
    if '=' in line && line[..IndexOf(line, '=')] == key {
      NotBefore(line, '=');
      assert key + "=" == line[..IndexOf(line, '=') + 1];
    }
  }

  // ---------------------------------------------------------------- the lines that count

  function LastEntry(lines: seq<string>, key: string): (i: Option<nat>)
    ensures i.Some? ==> i.value < |lines| && Denotes(lines[i.value], key)
  {
    if lines == [] then None
    else if Denotes(lines[|lines| - 1], key) then Some(|lines| - 1)
    else LastEntry(lines[..|lines| - 1], key)
  }

  function LastLine(lines: seq<string>, key: string): (i: Option<nat>)
    ensures i.Some? ==> i.value < |lines| && Assigned(lines[i.value], key)
  {
    if lines == [] then None
    else if Assigned(lines[|lines| - 1], key) then Some(|lines| - 1)
    else LastLine(lines[..|lines| - 1], key)
  }

  function FirstLine(lines: seq<string>, key: string): (i: Option<nat>)
    ensures i.Some? ==> i.value < |lines| && Assigned(lines[i.value], key)
  {
    if lines == [] then None
    else if FirstLine(lines[..|lines| - 1], key).Some? then FirstLine(lines[..|lines| - 1], key)
    else if Assigned(lines[|lines| - 1], key) then Some(|lines| - 1)
    else None
  }

  function ValueAt(lines: seq<string>, i: Option<nat>): Option<string>
    requires i.Some? ==> i.value < |lines| && '=' in lines[i.value]
  {
    if i.Some? then Some(ValueOf(lines[i.value])) else None
  }

  lemma {:induction false} LookupIsLastEntry(lines: seq<string>, key: string)
    ensures Lookup(AsMap(Parsed(lines)), key) == ValueAt(lines, LastEntry(lines, key))
  {
    hide IsEntry, KeyOf, ValueOf, Put, AsMap;
    if lines == [] {
      NothingPrinted();
    } else {
      var last := lines[|lines| - 1];
      var d := Parsed(lines[..|lines| - 1]);
      LookupIsLastEntry(lines[..|lines| - 1], key);
      if IsEntry(last) {
        EntryHasSign(last);
        PutIsInsert(d, KeyOf(last), ValueOf(last));
      }
    }
  }

  lemma EntryHasSign(line: string)
    requires IsEntry(line)
    ensures '=' in line
  {
  }

  lemma {:induction false} ReadersFindTheirLines(lines: seq<string>, key: string)
    requires IsKey(key)
    ensures LastLine(lines, key).Some? ==> '=' in lines[LastLine(lines, key).value]
    ensures FirstLine(lines, key).Some? ==> '=' in lines[FirstLine(lines, key).value]
    ensures LastAssigned(lines, key) == ValueAt(lines, LastLine(lines, key))
    ensures FirstAssigned(lines, key) == ValueAt(lines, FirstLine(lines, key))
  {
    hide Assigned, AssignedValue, ValueOf, IsKey;
    if lines != [] {
      var last := lines[|lines| - 1];
      ReadersFindTheirLines(lines[..|lines| - 1], key);
      if Assigned(last, key) {
        AssignedIff(last, key);
      }
    }
  }

  /** The last line that is read as the key's is the last entry, if and only if that is written without
      blanks around the key. */
  lemma {:induction false} SameLineIff(lines: seq<string>, key: string)
    requires IsKey(key)
    ensures LastLine(lines, key) == LastEntry(lines, key)
       <==> LastEntry(lines, key).Some? ==> Assigned(lines[LastEntry(lines, key).value], key)
  {
    hide Assigned, Denotes, IsKey;
    if lines != [] {
      var last := lines[|lines| - 1];
      AssignedIff(last, key);
      if !Denotes(last, key) {
        SameLineIff(lines[..|lines| - 1], key);
      }
    }
  }

  /** The first line that is read as the key's is the last entry, if and only if that is written without
      blanks around the key and no line before it is. */
  lemma FirstLineIff(lines: seq<string>, key: string)
    requires IsKey(key)
    ensures FirstLine(lines, key) == LastEntry(lines, key) <==> IsFirstAndLast(lines, key)
  {
    hide Assigned, Denotes, IsKey;
    NoLineWithoutEntry(lines, key);
    FirstLineIsFirst(lines, key);
  }

  predicate IsFirstAndLast(lines: seq<string>, key: string) {
    var entry := LastEntry(lines, key);
    entry.None? ||
    (Assigned(lines[entry.value], key) && forall j :: 0 <= j < entry.value ==> !Assigned(lines[j], key))
  }

  lemma {:induction false} FirstLineIsFirst(lines: seq<string>, key: string)
    ensures FirstLine(lines, key).None? <==> forall j :: 0 <= j < |lines| ==> !Assigned(lines[j], key)
    ensures FirstLine(lines, key).Some? ==> forall j :: 0 <= j < FirstLine(lines, key).value ==>
      !Assigned(lines[j], key)
  {
    hide Assigned;
    if lines != [] {
      FirstLineIsFirst(lines[..|lines| - 1], key);
    }
  }

  // ---------------------------------------------------------------- agreement

  /** On any file the settings have the key's last entry, and each reader has the value of one line. For
      the reader that lets the last assignment win this is the line of the last entry if and only if that
      is written without blanks around the key; for the readers that stop at the first assignment, if and
      only if moreover no line before it assigns the key. Where the lines are the same, so are the values,
      whatever they are; and where the key has no entry, no reader finds one. */
  lemma ReadersAgreeIff(content: Option<string>, key: string)
    requires IsKey(key)
    ensures var lines := LinesOf(content);
      var entry := LastEntry(lines, key);
      && Lookup(Denoted(content), key) == ValueAt(lines, entry)
      && (LastLine(lines, key) == entry <==> (entry.Some? ==> Assigned(lines[entry.value], key)))
      && (FirstLine(lines, key) == entry <==> IsFirstAndLast(lines, key))
      && (LastLine(lines, key) == entry ==> LastAssigned(lines, key) == Lookup(Denoted(content), key))
      && (FirstLine(lines, key) == entry ==> FirstAssigned(lines, key) == Lookup(Denoted(content), key))
  {
    hide Assigned, Denotes, ValueOf, IsKey, Lookup, AsMap, Parsed, LinesOf, IsFirstAndLast;
    var lines := LinesOf(content);
    DenotedIs(content);
    LookupIsLastEntry(lines, key);
    ReadersFindTheirLines(lines, key);
    SameLineIff(lines, key);
    FirstLineIff(lines, key);
  }

  lemma DenotedIs(content: Option<string>)
    ensures Denoted(content) == AsMap(Parsed(LinesOf(content)))
  {
  }

  lemma {:induction false} NoLineWithoutEntry(lines: seq<string>, key: string)
    requires IsKey(key)
    ensures LastEntry(lines, key).None? ==> LastLine(lines, key).None? && FirstLine(lines, key).None?
  {
    hide Assigned, Denotes, IsKey;
    if lines != [] {
      AssignedIff(lines[|lines| - 1], key);
      NoLineWithoutEntry(lines[..|lines| - 1], key);
    }
  }

  /** A blank in front of the key hides the setting from every reader. */
  lemma IndentedSettingIsHidden(line: string, key: string)
    requires IsKey(key) && key != "" && Assigned(line, key) && '\n' !in line
    ensures Lookup(Denoted(Some(" " + line)), key) == AssignedValue(line, key)
    ensures FirstAssigned(LinesOf(Some(" " + line)), key) == LastAssigned(LinesOf(Some(" " + line)), key) == None
  {
    hide AsMap, Parsed, Assigned, ValueOf, KeyOf, IsEntry, IsKey;
    AssignedIff(line, key);
    IndentedStillDenotes(line, key);
    LinesOfCons(" " + line, "");
    NoneAssigned([" " + line], key);
    LookupIsLastEntry([" " + line], key);
  }

  lemma IndentedStillDenotes(line: string, key: string)
    requires IsKey(key) && key != "" && Assigned(line, key)
    ensures Denotes(" " + line, key) && ValueOf(" " + line) == ValueOf(line) && !Assigned(" " + line, key)
  {
    hide Trim, TrimRight;
    var rest := line[|key| + 1..];
    assert line == key + ['='] + rest;
    assert " " + line == (" " + key) + ['='] + rest;
    IndexOfIs(key, '=', rest);
    IndexOfIs(" " + key, '=', rest);
    assert line[|key| + 1..] == (" " + line)[|key| + 2..] && (" " + line)[..|key| + 1] == " " + key;
    StripIndented(key);
    assert (" " + line)[0] == ' ' != key[0];
  }

  lemma StripIndented(key: string)
    requires Trimmed(key, IsBlank) && key != ""
    ensures Strip(" " + key) == key && !IsBlank(key[0])
  {
    assert (" " + key)[1..] == key;
    TrimTrimmed(key, IsBlank);
  }

  /** After a second assignment the first one is still what the first-assignment readers find. */
  lemma SecondAssignmentIsOverlooked(a: string, b: string, key: string)
    requires IsKey(key) && Assigned(a, key) && Assigned(b, key) && '\n' !in a && '\n' !in b
    ensures FirstAssigned(LinesOf(Some(a + "\n" + b)), key) == AssignedValue(a, key)
    ensures LastAssigned(LinesOf(Some(a + "\n" + b)), key) == AssignedValue(b, key)
    ensures Lookup(Denoted(Some(a + "\n" + b)), key) == AssignedValue(b, key)
  {
    hide AsMap, Parsed, Assigned, ValueOf, IsKey, Denotes;
    LinesOfCons(a, b);
    LinesOfCons(b, "");
    var lines := [a] + [b];
    AssignedIff(b, key);
    NoneAssigned([], key);
    assert [a] == [] + [a];
    AssignedSnoc([], a, key);
    AssignedSnoc([a], b, key);
    LookupIsLastEntry(lines, key);
  }

  /** The readers of one file with `A=1` and then `A=2` differ. */
  lemma ReadersDiffer()
    ensures var lines := LinesOf(Some("A=1" + "\n" + "A=2")); FirstAssigned(lines, "A") != LastAssigned(lines, "A")
  {
    hide LinesOf, FirstAssigned, LastAssigned, Denoted;
    ShortLine('1');
    ShortLine('2');
    assert "A=" + ['1'] == "A=1" && "A=" + ['2'] == "A=2";
    SecondAssignmentIsOverlooked("A=1", "A=2", "A");
  }

  lemma ShortLine(c: char)
    requires c == '1' || c == '2'
    ensures var line := "A=" + [c]; Assigned(line, "A") && AssignedValue(line, "A") == Some([c])
  {
    var line := "A" + ['='] + [c];
    assert line == "A=" + [c];
    IndexOfIs("A", '=', [c]);
    assert line[..1] == "A" && line[2..] == [c];
  }
}
