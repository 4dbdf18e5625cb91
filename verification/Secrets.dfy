/** The secrets file of the development CLI: the two copies of `_update_secrets_file`
    (`up_steps/09_configure_integrations.py`, `commands/stripe.py`) and the readers beside them. */
module Secrets {
  import opened Sql
  import opened Text

  type Entry = (string, string)

  /** A Python dict: keys in insertion order. */
  type Dict = seq<Entry>

  type Settings = map<string, string>

  /** The copy of the update routine: the setup step writes a header, the stripe command none. */
  datatype Writer = SetupStep | StripeCommand

  predicate IsQuote(c: char) {
    c == '"' || c == '\''
  }

  predicate IsComment(s: string) {
    s != "" && s[0] == '#'
  }

  // ---------------------------------------------------------------- the dict

  function AsMap(d: Dict): Settings {
    if d == [] then map[] else AsMap(d[1..])[d[0].0 := d[0].1]
  }

  predicate Unique(d: Dict) {
    d == [] || (d[0].0 !in AsMap(d[1..]) && Unique(d[1..]))
  }

  /** `existing[key] = value`: an existing key keeps its place. */
  function Put(d: Dict, key: string, value: string): Dict {
    if d == [] then [(key, value)]
    else if d[0].0 == key then [(key, value)] + d[1..]
    else [d[0]] + Put(d[1..], key, value)
  }

  /** `existing.pop(key, None)`. */
  function Pop(d: Dict, key: string): Dict {
    if d == [] then [] else if d[0].0 == key then Pop(d[1..], key) else [d[0]] + Pop(d[1..], key)
  }

  lemma {:induction false} PutIsInsert(d: Dict, key: string, value: string)
    ensures AsMap(Put(d, key, value)) == AsMap(d)[key := value]
    ensures forall e :: e in Put(d, key, value) ==> e == (key, value) || e in d
    ensures Unique(d) ==> Unique(Put(d, key, value))
  {
    if d != [] && d[0].0 != key {
      PutIsInsert(d[1..], key, value);
    }
  }

  lemma {:induction false} PopIsDelete(d: Dict, key: string)
    ensures AsMap(Pop(d, key)) == AsMap(d) - {key}
    ensures forall e :: e in Pop(d, key) ==> e in d
    ensures Unique(d) ==> Unique(Pop(d, key))
  {
    if d != [] {
      PopIsDelete(d[1..], key);
    }
  }

  lemma {:induction false} AsMapSnoc(d: Dict, e: Entry)
    requires Unique(d + [e])
    ensures Unique(d) && e.0 !in AsMap(d)
    ensures AsMap(d + [e]) == AsMap(d)[e.0 := e.1]
  {
    if d == [] {
      assert [] + [e] == [e];
    } else {
      assert (d + [e])[1..] == d[1..] + [e];
      AsMapSnoc(d[1..], e);
    }
  }

  // ---------------------------------------------------------------- parsing

  predicate IsEntry(line: string) {
    '=' in line && !IsComment(line)
  }

  function KeyOf(line: string): string {
    Strip(line[..IndexOf(line, '=')])
  }

  /** `line.split("=", 1)[1].strip().strip("\"'")`. */
  function ValueOf(line: string): string
    requires '=' in line
  {
    NotBefore(line, '=');
    Trim(Strip(line[IndexOf(line, '=') + 1..]), IsQuote)
  }

  function ReadLine(d: Dict, line: string): Dict {
    if IsEntry(line) then Put(d, KeyOf(line), ValueOf(line)) else d
  }

  function Parsed(lines: seq<string>): Dict {
    if lines == [] then [] else ReadLine(Parsed(lines[..|lines| - 1]), lines[|lines| - 1])
  }

  function LinesOf(content: Option<string>): seq<string> {
    if content.Some? then Lines(content.value) else []
  }

  /** The settings a file stands for. */
  function Denoted(content: Option<string>): Settings {
    AsMap(Parsed(LinesOf(content)))
  }

  /** What the update routine can print so that it reads it back. */
  predicate Printable(e: Entry) {
    && Trimmed(e.0, IsBlank) && '=' !in e.0 && '\n' !in e.0
    && Trimmed(e.1, IsQuote) && '\n' !in e.1
  }

  ghost predicate Proper(d: Dict) {
    Unique(d) && forall e :: e in d ==> Printable(e)
  }

  lemma LineIsPrintable(line: string)
    requires IsEntry(line) && '\n' !in line
    ensures Printable((KeyOf(line), ValueOf(line)))
  {
    var i := IndexOf(line, '=');
    NotBefore(line, '=');
    TrimIsTrimmed(line[..i], IsBlank);
    TrimIsTrimmed(line[i + 1..], IsBlank);
    TrimIsTrimmed(Strip(line[i + 1..]), IsQuote);
    hide Trim, Trimmed, IndexOf;
    assert forall c :: c in line[..i] ==> c in line;
    assert forall c :: c in line[i + 1..] ==> c in line;
  }

  /** Whatever is read can be printed. */
  lemma {:induction false} ParsedIsProper(lines: seq<string>)
    requires forall line :: line in lines ==> '\n' !in line
    ensures Proper(Parsed(lines))
  {
    if lines != [] {
      var last := lines[|lines| - 1];
      var d := Parsed(lines[..|lines| - 1]);
      ParsedIsProper(lines[..|lines| - 1]);
      if IsEntry(last) {
        LineIsPrintable(last);
        PutIsInsert(d, KeyOf(last), ValueOf(last));
      }
      hide Printable, Unique, KeyOf, ValueOf, IsEntry;
    }
  }

  // ---------------------------------------------------------------- printing

  function Title(): string { "# Polar Development Secrets" }

  function Subtitle(): string { "# Shared across Git worktrees" }

  function Header(writer: Writer): seq<string> {
    match writer
    case SetupStep => [Title(), Subtitle(), ""]
    case StripeCommand => []
  }

  function Quoted(value: string): string {
    var delimiter := if '"' in value then '\'' else '"';
    [delimiter] + value + [delimiter]
  }

  function PrintedLine(e: Entry): string {
    e.0 + ['='] + Quoted(e.1)
  }

  function PrintedLines(d: Dict): seq<string> {
    if d == [] then [] else PrintedLines(d[..|d| - 1]) + [PrintedLine(d[|d| - 1])]
  }

  /** Every line, ended by a line break. */
  function Unlines(lines: seq<string>): string {
    if lines == [] then "" else Unlines(lines[..|lines| - 1]) + lines[|lines| - 1] + "\n"
  }

  function Written(writer: Writer, d: Dict): string {
    Unlines(Header(writer) + PrintedLines(d))
  }

  lemma {:induction false} UnlinesCons(line: string, rest: seq<string>)
    ensures Unlines([line] + rest) == line + "\n" + Unlines(rest)
  {
    if rest == [] {
      assert [line] + rest == [line] && [line][..0] == [];
      assert "" + line + "\n" == line + "\n" + "";
    } else {
      var n := |rest| - 1;
      assert ([line] + rest)[..n + 1] == [line] + rest[..n];
      UnlinesCons(line, rest[..n]);
      assert line + "\n" + Unlines(rest[..n]) + rest[n] + "\n" == line + "\n" + (Unlines(rest[..n]) + rest[n] + "\n");
    }
  }

  lemma {:induction false} LinesOfUnlines(lines: seq<string>)
    requires forall line :: line in lines ==> '\n' !in line
    ensures Lines(Unlines(lines)) == lines + [""]
  {
    if lines != [] {
      assert lines == [lines[0]] + lines[1..];
      UnlinesCons(lines[0], lines[1..]);
      LinesOfCons(lines[0], Unlines(lines[1..]));
      LinesOfUnlines(lines[1..]);
    }
  }

  lemma QuotedReadsBack(value: string)
    requires Trimmed(value, IsQuote)
    ensures Trim(Strip(Quoted(value)), IsQuote) == value
    ensures '\n' in Quoted(value) <==> '\n' in value
  {
    TrimTrimmed(Quoted(value), IsBlank);
    TrimDelimited(value, if '"' in value then '\'' else '"', IsQuote);
    hide Trim, Trimmed;
  }

  /** A printed entry is one line without a break, and reads back as itself. */
  lemma PrintedLineReadsBack(e: Entry)
    requires Printable(e)
    ensures '\n' !in PrintedLine(e) && (IsEntry(PrintedLine(e)) <==> !IsComment(e.0))
    ensures '=' in PrintedLine(e) && KeyOf(PrintedLine(e)) == e.0 && ValueOf(PrintedLine(e)) == e.1
  {
    hide Trim, Trimmed, IsQuote, IsBlank, Quoted;
    SplitAtEquals(e.0, Quoted(e.1));
    TrimTrimmed(e.0, IsBlank);
    QuotedReadsBack(e.1);
  }

  lemma SplitAtEquals(key: string, rest: string)
    requires '=' !in key
    ensures var line := key + ['='] + rest;
      '=' in line && line[..IndexOf(line, '=')] == key && IndexOf(line, '=') < |line| &&
        line[IndexOf(line, '=') + 1..] == rest
  {
    IndexOfIs(key, '=', rest);
    assert (key + ['='] + rest)[|key|] == '=';
  }

  /** Keys that start with '#' would be read as comments. */
  function Visible(m: Settings): Settings {
    map k | k in m && !IsComment(k) :: m[k]
  }

  lemma {:induction false} PrintedLinesHaveNoBreaks(d: Dict)
    requires forall e :: e in d ==> Printable(e)
    ensures forall line :: line in PrintedLines(d) ==> '\n' !in line
  {
    if d != [] {
      PrintedLinesHaveNoBreaks(d[..|d| - 1]);
      PrintedLineReadsBack(d[|d| - 1]);
    }
  }

  lemma HeaderIsIgnored(writer: Writer)
    ensures Parsed(Header(writer)) == [] && forall line :: line in Header(writer) ==> '\n' !in line && !IsEntry(line)
  {
    hide IsEntry, Title, Subtitle, IsComment;
    TitleIsComment();
    SubtitleIsComment();
    HeaderLine(Title());
    HeaderLine(Subtitle());
    HeaderLine("");
    NoEntries(Header(writer));
  }

  lemma TitleIsComment()
    ensures IsComment(Title()) && '\n' !in Title()
  {
  }

  lemma SubtitleIsComment()
    ensures IsComment(Subtitle()) && '\n' !in Subtitle()
  {
  }

  lemma HeaderLine(line: string)
    requires line == "" || IsComment(line)
    ensures !IsEntry(line)
  {
  }

  lemma {:induction false} NoEntries(lines: seq<string>)
    requires forall line :: line in lines ==> !IsEntry(line)
    ensures Parsed(lines) == []
  {
    if lines != [] {
      NoEntries(lines[..|lines| - 1]);
    }
  }

  lemma PrintedSnoc(header: seq<string>, d: Dict, e: Entry)
    ensures header + PrintedLines(d + [e]) == header + PrintedLines(d) + [PrintedLine(e)]
  {
    hide PrintedLine;
    assert (d + [e])[..|d|] == d;
    Reassociate(header, PrintedLines(d), [PrintedLine(e)]);
  }

  lemma Reassociate(a: seq<string>, b: seq<string>, c: seq<string>)
    ensures a + (b + c) == a + b + c
  {
  }

  lemma {:induction false} PrintedReadsBack(header: seq<string>, d: Dict)
    requires Proper(d) && Parsed(header) == []
    ensures AsMap(Parsed(header + PrintedLines(d))) == Visible(AsMap(d))
  {
    hide Parsed, Printable, IsComment, PrintedLine;
    if d == [] {
      assert header + [] == header;
      assert Visible(AsMap(d)) == map[];
    } else {
      var n := |d| - 1;
      var lines := header + PrintedLines(d[..n]);
      assert d == d[..n] + [d[n]];
      PrintedSnoc(header, d[..n], d[n]);
      ProperSnoc(d[..n], d[n]);
      PrintedReadsBack(header, d[..n]);
      ParsedSnoc(lines, d[n]);
    }
  }

  lemma ProperSnoc(d: Dict, e: Entry)
    requires Proper(d + [e])
    ensures Proper(d) && Printable(e) && e.0 !in AsMap(d) && AsMap(d + [e]) == AsMap(d)[e.0 := e.1]
    ensures Visible(AsMap(d + [e])) == if IsComment(e.0) then Visible(AsMap(d)) else Visible(AsMap(d))[e.0 := e.1]
  {
    hide Printable, IsComment, Unique, AsMap;
    AsMapSnoc(d, e);
  }

  lemma ParsedSnoc(lines: seq<string>, e: Entry)
    requires Printable(e)
    ensures AsMap(Parsed(lines + [PrintedLine(e)])) == if IsComment(e.0) then AsMap(Parsed(lines))
      else AsMap(Parsed(lines))[e.0 := e.1]
  {
    PrintedLineReadsBack(e);
    PutIsInsert(Parsed(lines), e.0, e.1);
    assert (lines + [PrintedLine(e)])[..|lines|] == lines;
    hide Printable, PrintedLine, KeyOf, ValueOf, IsEntry;
  }

  /** Reading what was written gives back the dict, without keys that look like comments. */
  lemma WrittenReadsBack(writer: Writer, d: Dict)
    requires Proper(d)
    ensures LinesOf(Some(Written(writer, d))) == Header(writer) + PrintedLines(d) + [""]
    ensures Denoted(Some(Written(writer, d))) == Visible(AsMap(d))
  {
    var lines := Header(writer) + PrintedLines(d);
    HeaderIsIgnored(writer);
    PrintedLinesHaveNoBreaks(d);
    LinesOfUnlines(lines);
    PrintedReadsBack(Header(writer), d);
    assert (lines + [""])[..|lines|] == lines;
  }

  // ---------------------------------------------------------------- one update, and runs of them

  datatype Edit = Edit(writer: Writer, key: string, value: Option<string>)

  function EditDict(d: Dict, e: Edit): Dict {
    if e.value.Some? then Put(d, e.key, e.value.value) else Pop(d, e.key)
  }

  function EditMap(m: Settings, e: Edit): Settings {
    if e.value.Some? then m[e.key := e.value.value] else m - {e.key}
  }

  /** The file after one call of `_update_secrets_file`. */
  function EditFile(content: Option<string>, e: Edit): string {
    Written(e.writer, EditDict(Parsed(LinesOf(content)), e))
  }

  /** The edits that read back: any delete, and an insert whose key is no comment and whose key and value
      have nothing at their ends that is stripped, no line break, and no '=' in the key. */
  predicate Sound(e: Edit) {
    e.value.Some? ==> !IsComment(e.key) && Printable((e.key, e.value.value))
  }

  lemma EditedIsProper(content: Option<string>, e: Edit)
    requires Sound(e)
    ensures Proper(EditDict(Parsed(LinesOf(content)), e))
    ensures AsMap(EditDict(Parsed(LinesOf(content)), e)) == EditMap(Denoted(content), e)
  {
    var d := Parsed(LinesOf(content));
    ParsedLinesAreProper(content);
    hide Unique, Printable, IsComment, AsMap, Parsed, LinesOf, Put, Pop;
    if e.value.Some? {
      PutIsInsert(d, e.key, e.value.value);
    } else {
      PopIsDelete(d, e.key);
    }
  }

  /** Whatever is read from a file can be printed. */
  lemma DenotedIsPrintable(content: Option<string>, key: string)
    requires key in Denoted(content)
    ensures Printable((key, Denoted(content)[key]))
  {
    hide Printable, Unique, Parsed, LinesOf;
    ParsedLinesAreProper(content);
    EntryOfMap(Parsed(LinesOf(content)), key);
  }

  lemma ParsedLinesAreProper(content: Option<string>)
    ensures Proper(Parsed(LinesOf(content)))
  {
    hide Proper, Parsed;
    if content.Some? {
      LinesHaveNoBreaks(content.value);
    }
    ParsedIsProper(LinesOf(content));
  }

  lemma {:induction false} EntryOfMap(d: Dict, key: string)
    requires key in AsMap(d)
    ensures (key, AsMap(d)[key]) in d
  {
    if d[0].0 != key {
      EntryOfMap(d[1..], key);
    }
  }

  /** An update is one insert or delete on the settings the file stands for, settings whose key starts
      with '#' apart, if and only if it is sound. In particular a value with outer quotes or a line break
      never reads back. */
  lemma UpdateRefinesIff(content: Option<string>, e: Edit)
    ensures Denoted(Some(EditFile(content, e))) == EditMap(Visible(Denoted(content)), e) <==> Sound(e)
  {
    hide Denoted, Printable, EditFile, Visible;
    if Sound(e) {
      UpdateRefines(content, e);
    } else if Denoted(Some(EditFile(content, e))) == EditMap(Visible(Denoted(content)), e) {
      DenotedIsPrintable(Some(EditFile(content, e)), e.key);
      CommentReadsAsNothing(content, e);
    }
  }

  lemma CommentReadsAsNothing(content: Option<string>, e: Edit)
    requires e.value.Some? && IsComment(e.key) && Printable((e.key, e.value.value))
    ensures e.key !in Denoted(Some(EditFile(content, e)))
  {
    hide Denoted, Proper, Written, Parsed, LinesOf, AsMap, Printable, Put;
    var d := Parsed(LinesOf(content));
    ParsedLinesAreProper(content);
    PutIsProper(d, e.key, e.value.value);
    WrittenReadsBack(e.writer, Put(d, e.key, e.value.value));
  }

  lemma PutIsProper(d: Dict, key: string, value: string)
    requires Proper(d) && Printable((key, value))
    ensures Proper(Put(d, key, value))
  {
    hide Printable, Unique, Put, AsMap;
    PutIsInsert(d, key, value);
  }

  lemma UpdateRefines(content: Option<string>, e: Edit)
    requires Sound(e)
    ensures Denoted(Some(EditFile(content, e))) == EditMap(Visible(Denoted(content)), e)
  {
    hide Denoted, Proper, Written, EditDict, Parsed, LinesOf, AsMap, Printable;
    EditedIsProper(content, e);
    WrittenReadsBack(e.writer, EditDict(Parsed(LinesOf(content)), e));
    VisibleEdit(Denoted(content), e);
  }

  lemma VisibleEdit(m: Settings, e: Edit)
    requires Sound(e)
    ensures Visible(EditMap(m, e)) == EditMap(Visible(m), e)
  {
    hide IsComment, Printable;
  }

  /** A pasted value with its quotes does not read back. */
  lemma PastedQuotesAreLost(content: Option<string>, writer: Writer)
    ensures var e := Edit(writer, "A", Some("'a'"));
      Denoted(Some(EditFile(content, e))) != EditMap(Visible(Denoted(content)), e)
  {
    hide Denoted, EditFile;
    UpdateRefinesIff(content, Edit(writer, "A", Some("'a'")));
  }

  /** It is exactly that insert or delete if and only if no other setting's key starts with '#'. */
  lemma UpdateIsInsertOrDeleteIff(content: Option<string>, e: Edit)
    requires Sound(e)
    ensures Denoted(Some(EditFile(content, e))) == EditMap(Denoted(content), e)
       <==> forall k :: k in Denoted(content) && k != e.key ==> !IsComment(k)
  {
    hide Denoted, EditFile, Printable;
    UpdateRefines(content, e);
    var m := Denoted(content);
    if k :| k in m && k != e.key && IsComment(k) {
      assert k in EditMap(m, e) && k !in EditMap(Visible(m), e);
    } else {
      assert EditMap(Visible(m), e) == EditMap(m, e);
    }
  }

  /** A file that loses a setting: the line is indented, so it is not read as a comment, but it is
      printed as one. */
  lemma IndentedCommentIsLost(e: Edit)
    requires Sound(e)
    ensures Denoted(Some(" #A=1")) == map["#A" := "1"]
    ensures "#A" !in Denoted(Some(EditFile(Some(" #A=1"), e)))
  {
    var line := " #A=1";
    IndentedCommentIsRead(line);
    UpdateRefines(Some(line), e);
    hide Denoted, EditFile;
  }

  lemma IndentedCommentIsRead(line: string)
    requires line == " #A" + ['='] + "1"
    ensures Denoted(Some(line)) == map["#A" := "1"]
  {
    SplitAtEquals(" #A", "1");
    assert " #A"[1..] == "#A";
    assert Strip(" #A") == Trim("#A", IsBlank) == "#A";
    assert Strip("1") == "1" && Trim("1", IsQuote) == "1";
    IndexOfIs(line, '\n', "");
    assert LinesOf(Some(line)) == [line];
    assert [line][..0] == [] && [("#A", "1")][1..] == [];
    assert Parsed([line]) == [("#A", "1")];
  }

  function RunFile(content: Option<string>, edits: seq<Edit>): Option<string>
    decreases edits
  {
    if edits == [] then content else RunFile(Some(EditFile(content, edits[0])), edits[1..])
  }

  function RunMap(m: Settings, edits: seq<Edit>): Settings
    decreases edits
  {
    if edits == [] then m else RunMap(EditMap(m, edits[0]), edits[1..])
  }

  lemma EditKeepsVisible(m: Settings, e: Edit)
    requires Sound(e)
    ensures Visible(EditMap(Visible(m), e)) == EditMap(Visible(m), e)
  {
    hide IsComment, Printable;
  }

  /** Any run of updates, by either copy of the routine, reads back as the run on the settings. */
  lemma {:induction false} RunRefines(content: Option<string>, edits: seq<Edit>)
    requires forall e :: e in edits ==> Sound(e)
    ensures Visible(Denoted(RunFile(content, edits))) == RunMap(Visible(Denoted(content)), edits)
    ensures edits != [] ==> Denoted(RunFile(content, edits)) == RunMap(Visible(Denoted(content)), edits)
    decreases edits
  {
    if edits != [] {
      hide Denoted, Printable, EditFile, Visible, IsComment;
      UpdateRefines(content, edits[0]);
      EditKeepsVisible(Denoted(content), edits[0]);
      RunRefines(Some(EditFile(content, edits[0])), edits[1..]);
    }
  }

  /** A file that the update routine has written. */
  ghost predicate IsWritten(content: Option<string>) {
    exists writer, d :: Proper(d) && content == Some(Written(writer, d))
  }

  lemma {:induction false} RunIsWritten(content: Option<string>, edits: seq<Edit>)
    requires forall e :: e in edits ==> Sound(e)
    requires edits != [] || IsWritten(content)
    ensures IsWritten(RunFile(content, edits))
    decreases edits
  {
    if edits != [] {
      EditedIsProper(content, edits[0]);
      hide Proper, Printable, Written, EditDict, Sound;
      RunIsWritten(Some(EditFile(content, edits[0])), edits[1..]);
    }
  }
}
