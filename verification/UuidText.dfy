/** The text form of a UUID, as PostgreSQL prints it and as its cast from text reads it. */
module UuidText {
  import opened Sql

  /** How many values `k` groups of four hexadecimal digits have. */
  function Bound(k: nat): nat {
    if k == 0 then 1 else 0x1_0000 * Bound(k - 1)
  }

  /** An id of 128 bits. */
  predicate IsUuid(d: Uuid) {
    d < Bound(8)
  }

  function Digit(d: nat): char
    requires d < 16
  {
    "0123456789abcdef"[d]
  }

  function DigitValue(c: char): Option<nat> {
    if '0' <= c <= '9' then Some((c - '0') as nat)
    else if 'a' <= c <= 'f' then Some(10 + (c - 'a') as nat)
    else if 'A' <= c <= 'F' then Some(10 + (c - 'A') as nat)
    else None
  }

  function Four(n: nat): (s: string)
    requires n < 0x1_0000
    ensures |s| == 4
  {
    [Digit(n / 16 / 16 / 16), Digit(n / 16 / 16 % 16), Digit(n / 16 % 16), Digit(n % 16)]
  }

  function FourValue(s: string): Option<nat>
    requires |s| == 4
  {
    var a, b, c, d := DigitValue(s[0]), DigitValue(s[1]), DigitValue(s[2]), DigitValue(s[3]);
    if a.Some? && b.Some? && c.Some? && d.Some?
    then Some(16 * (16 * (16 * a.value + b.value) + c.value) + d.value)
    else None
  }

  // ---------------------------------------------------------------- printing

  /** What stands in front of group `i`: the form is 8-4-4-4-12. */
  function Separator(i: nat): string {
    if 2 <= i <= 5 then "-" else ""
  }

  function PrintGroups(d: Uuid, k: nat): string {
    if k == 0 then "" else PrintGroups(d / 0x1_0000, k - 1) + Separator(k - 1) + Four(d % 0x1_0000)
  }

  /** `id::text`. */
  function Print(d: Uuid): string {
    PrintGroups(d, 8)
  }

  // ---------------------------------------------------------------- reading

  /** From the second group on, a hyphen may stand in front of a group. */
  function SkipHyphen(s: string, i: nat): string {
    if i > 0 && s != "" && s[0] == '-' then s[1..] else s
  }

  function ReadGroups(s: string, i: nat, value: Uuid): Option<Uuid>
    requires i <= 8
    decreases 8 - i
  {
    if i == 8 then if s == "" then Some(value) else None
    else
      var t := SkipHyphen(s, i);
      if |t| >= 4 && FourValue(t[..4]).Some?
      then ReadGroups(t[4..], i + 1, value * 0x1_0000 + FourValue(t[..4]).value)
      else None
  }

  /** `text::uuid`; nothing stands for the error. */
  function Parse(s: string): Option<Uuid> {
    if s != "" && s[0] == '{' then
      if |s| > 1 && s[|s| - 1] == '}' then ReadGroups(s[1..|s| - 1], 0, 0) else None
    else ReadGroups(s, 0, 0)
  }

  // ---------------------------------------------------------------- round trip

  lemma DigitReadsBack(d: nat)
    requires d < 16
    ensures DigitValue(Digit(d)) == Some(d) && Digit(d) != '-' && Digit(d) != '{'
  {
  }

  lemma FourReadsBack(n: nat)
    requires n < 0x1_0000
    ensures FourValue(Four(n)) == Some(n) && Four(n)[0] != '-' && Four(n)[0] != '{'
  {
    hide Digit, DigitValue;
    var a, b, c, d := n / 16 / 16 / 16, n / 16 / 16 % 16, n / 16 % 16, n % 16;
    DigitReadsBack(a);
    DigitReadsBack(b);
    DigitReadsBack(c);
    DigitReadsBack(d);
    assert 16 * (16 * (16 * a + b) + c) + d == n;
  }

  /** One printed group is read. */
  lemma ReadGroup(n: nat, i: nat, value: Uuid, rest: string)
    requires n < 0x1_0000 && i < 8
    ensures ReadGroups(Separator(i) + Four(n) + rest, i, value) == ReadGroups(rest, i + 1, value * 0x1_0000 + n)
  {
    hide Four, FourValue, SkipHyphen, Separator;
    FourReadsBack(n);
    var t := Four(n) + rest;
    SkipSeparator(i, t);
    assert Separator(i) + Four(n) + rest == Separator(i) + t;
    assert t[..4] == Four(n) && t[4..] == rest;
  }

  lemma SkipSeparator(i: nat, t: string)
    requires t != "" && t[0] != '-'
    ensures SkipHyphen(Separator(i) + t, i) == t
  {
    if Separator(i) == "" {
      assert Separator(i) + t == t;
    } else {
      assert (Separator(i) + t)[1..] == t;
    }
  }

  lemma {:induction false} ReadPrinted(d: Uuid, k: nat, rest: string)
    requires k <= 8 && d < Bound(k)
    ensures ReadGroups(PrintGroups(d, k) + rest, 0, 0) == ReadGroups(rest, k, d)
  {
    hide ReadGroups, Four, Separator;
    if k == 0 {
      assert PrintGroups(d, k) + rest == rest;
    } else {
      var high, low := d / 0x1_0000, d % 0x1_0000;
      var last := Separator(k - 1) + Four(low) + rest;
      assert PrintGroups(d, k) + rest == PrintGroups(high, k - 1) + last;
      ReadPrinted(high, k - 1, last);
      ReadGroup(low, k - 1, high, rest);
    }
  }

  lemma {:induction false} PrintedStart(d: Uuid, k: nat)
    requires k > 0
    ensures PrintGroups(d, k) != "" && PrintGroups(d, k)[0] != '{'
  {
    hide Four;
    FourReadsBack(d % 0x1_0000);
    if k > 1 {
      PrintedStart(d / 0x1_0000, k - 1);
    }
  }

  /** A printed id reads back as itself. */
  lemma PrintedReadsBack(d: Uuid)
    requires IsUuid(d)
    ensures Parse(Print(d)) == Some(d)
  {
    hide ReadGroups, PrintGroups, Bound;
    PrintedStart(d, 8);
    ReadPrinted(d, 8, "");
    assert Print(d) + "" == Print(d);
    NothingLeft(d);
  }

  lemma NothingLeft(d: Uuid)
    ensures ReadGroups("", 8, d) == Some(d)
  {
  }

  /** Eight groups of four lower-case digits, the highest first, in the form 8-4-4-4-12. */
  lemma PrintIs(d: Uuid)
    ensures var d1 := d / 0x1_0000; var d2 := d1 / 0x1_0000; var d3 := d2 / 0x1_0000; var d4 := d3 / 0x1_0000;
      var d5 := d4 / 0x1_0000; var d6 := d5 / 0x1_0000; var d7 := d6 / 0x1_0000;
      Print(d) == "" + "" + Four(d7 % 0x1_0000) + "" + Four(d6 % 0x1_0000) + "-" + Four(d5 % 0x1_0000)
        + "-" + Four(d4 % 0x1_0000) + "-" + Four(d3 % 0x1_0000) + "-" + Four(d2 % 0x1_0000)
        + "" + Four(d1 % 0x1_0000) + "" + Four(d % 0x1_0000)
  {
    hide Four, PrintGroups;
    var d1 := d / 0x1_0000;
    var d2 := d1 / 0x1_0000;
    var d3 := d2 / 0x1_0000;
    var d4 := d3 / 0x1_0000;
    var d5 := d4 / 0x1_0000;
    var d6 := d5 / 0x1_0000;
    var d7 := d6 / 0x1_0000;
    NextGroup(d, 8);
    NextGroup(d1, 7);
    NextGroup(d2, 6);
    NextGroup(d3, 5);
    NextGroup(d4, 4);
    NextGroup(d5, 3);
    NextGroup(d6, 2);
    NextGroup(d7, 1);
    NoGroup(d7 / 0x1_0000);
  }

  lemma NextGroup(d: Uuid, k: nat)
    requires k > 0
    ensures PrintGroups(d, k) ==
      PrintGroups(d / 0x1_0000, k - 1) + (if 3 <= k <= 6 then "-" else "") + Four(d % 0x1_0000)
  {
    hide Four;
  }

  lemma NoGroup(d: Uuid)
    ensures PrintGroups(d, 0) == ""
  {
  }

  lemma FourIs(n: nat)
    requires n < 0x1_0000
    ensures Four(n) == [
      "0123456789abcdef"[n / 0x1000], "0123456789abcdef"[n / 0x100 % 16], "0123456789abcdef"[n / 0x10 % 16],
      "0123456789abcdef"[n % 16]]
  {
    assert n / 16 / 16 / 16 == n / 0x1000 && n / 16 / 16 == n / 0x100;
  }

  /** Braces around the id and capitals are read, too. */
  lemma BracesAreRead(d: Uuid)
    requires IsUuid(d)
    ensures Parse("{" + Print(d) + "}") == Some(d)
  {
    hide ReadGroups, PrintGroups, Bound;
    var s := "{" + Print(d) + "}";
    assert s[1..|s| - 1] == Print(d);
    ReadPrinted(d, 8, "");
    assert Print(d) + "" == Print(d);
    NothingLeft(d);
  }

  /** A brace that opens must be closed at the end. */
  lemma OpenBraceIsNoId(s: string)
    requires s != "" && s[0] == '{' && s[|s| - 1] != '}'
    ensures Parse(s) == None
  {
    hide ReadGroups;
  }

  lemma CapitalDigits(k: nat)
    requires k < 6
    ensures DigitValue("ABCDEF"[k]) == DigitValue("abcdef"[k]) == Some(10 + k)
  {
  }

  /** A text that is no id. */
  lemma NotAnId()
    ensures Parse("none") == None
  {
    assert "none"[..4][0] == 'n';
  }
}
