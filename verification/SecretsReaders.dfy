/** The readers of the secrets file and the object that reads and rewrites it: `is_..._configured`,
    `is_..._skipped`, `set_..._skipped` and `save_stripe_keys` in `up_steps/09_configure_integrations.py`
    and `commands/stripe.py`. */
module SecretsReaders {
  import opened Sql
  import opened Text
  import opened Secrets

  // ---------------------------------------------------------------- the readers

  function GithubClientId(): string { "POLAR_GITHUB_CLIENT_ID" }

  function StripeSecretKey(): string { "POLAR_STRIPE_SECRET_KEY" }

  function StripePublishableKey(): string { "POLAR_STRIPE_PUBLISHABLE_KEY" }

  function StripeWebhookSecret(): string { "POLAR_STRIPE_WEBHOOK_SECRET" }

  function SkipGithub(): string { "POLAR_SKIP_GITHUB_SETUP" }

  function SkipStripe(): string { "POLAR_SKIP_STRIPE_SETUP" }

  /** `line.startswith(key + "=")`. */
  predicate Assigned(line: string, key: string) {
    key + "=" <= line
  }

  /** The value of the first line that assigns the key. */
  function FirstAssigned(lines: seq<string>, key: string): Option<string> {
    if lines == [] then None
    else if FirstAssigned(lines[..|lines| - 1], key).Some? then FirstAssigned(lines[..|lines| - 1], key)
    else if Assigned(lines[|lines| - 1], key) then AssignedValue(lines[|lines| - 1], key)
    else None
  }

  /** The value of the last line that assigns the key. */
  function LastAssigned(lines: seq<string>, key: string): Option<string> {
    if lines == [] then None
    else if Assigned(lines[|lines| - 1], key) then AssignedValue(lines[|lines| - 1], key)
    else LastAssigned(lines[..|lines| - 1], key)
  }

  function AssignedValue(line: string, key: string): Option<string>
    requires Assigned(line, key)
  {
    assert line[|key|] == '=';
    Some(ValueOf(line))
  }

  predicate NonEmpty(value: Option<string>) {
    value.Some? && value.value != ""
  }

  /** What the two Stripe readers compute. */
  predicate StripeConfigured(content: Option<string>) {
    && NonEmpty(LastAssigned(LinesOf(content), StripeSecretKey()))
    && NonEmpty(LastAssigned(LinesOf(content), StripePublishableKey()))
  }

  predicate IsTrue(value: Option<string>) {
    value.Some? && Lower(value.value) == "true"
  }

  function Lookup(m: Settings, key: string): Option<string> {
    if key in m then Some(m[key]) else None
  }

  predicate KeySound(key: string) {
    '=' !in key && !IsComment(key)
  }

  /** A line assigns the text before its first '=' and nothing else. */
  lemma AssignsOnly(k: string, rest: string, key: string)
    requires '=' !in k && '=' !in key
    ensures Assigned(k + ['='] + rest, key) <==> k == key
  {
    var line := k + ['='] + rest;
    IndexOfIs(k, '=', rest);
    if Assigned(line, key) {
      assert line == key + ['='] + line[|key| + 1..];
      IndexOfIs(key, '=', line[|key| + 1..]);
      assert line[..|key|] == key && line[..|k|] == k;
    }
    if k == key {
      assert k + "=" == line[..|k| + 1];
    }
  }

  /** A printed line assigns its own key and no other. */
  lemma AssignedPrinted(e: Entry, key: string)
    requires Printable(e) && '=' !in key
    ensures Assigned(PrintedLine(e), key) <==> e.0 == key
    ensures e.0 == key ==> AssignedValue(PrintedLine(e), key) == Some(e.1)
  {
    hide Trimmed, Quoted, Assigned, IndexOf, ValueOf, KeyOf, IsEntry;
    PrintedLineReadsBack(e);
    AssignsOnly(e.0, Quoted(e.1), key);
  }

  lemma {:induction false} NoneAssigned(lines: seq<string>, key: string)
    requires forall line :: line in lines ==> !Assigned(line, key)
    ensures FirstAssigned(lines, key) == LastAssigned(lines, key) == None
  {
    if lines != [] {
      NoneAssigned(lines[..|lines| - 1], key);
    }
  }

  lemma AssignedSnoc(lines: seq<string>, line: string, key: string)
    ensures FirstAssigned(lines + [line], key) ==
      if FirstAssigned(lines, key).Some? then FirstAssigned(lines, key)
      else if Assigned(line, key) then AssignedValue(line, key) else None
    ensures LastAssigned(lines + [line], key) == if Assigned(line, key) then AssignedValue(line, key)
      else LastAssigned(lines, key)
  {
    assert (lines + [line])[..|lines|] == lines;
  }

  lemma LastAssignedSnoc(lines: seq<string>, i: nat, key: string)
    requires i < |lines|
    ensures LastAssigned(lines[..i + 1], key)
         == if Assigned(lines[i], key) then AssignedValue(lines[i], key) else LastAssigned(lines[..i], key)
  {
    hide Assigned, AssignedValue;
    assert lines[..i + 1] == lines[..i] + [lines[i]];
    AssignedSnoc(lines[..i], lines[i], key);
  }

  lemma NothingAssigned(key: string)
    ensures !NonEmpty(LastAssigned([], key))
  {
  }

  lemma NothingPrinted()
    ensures PrintedLines([]) == [] && AsMap([]) == map[]
  {
  }

  lemma {:induction false} AssignedInPrinted(header: seq<string>, d: Dict, key: string)
    requires Proper(d) && '=' !in key && forall line :: line in header ==> !Assigned(line, key)
    ensures FirstAssigned(header + PrintedLines(d), key) == Lookup(AsMap(d), key)
    ensures LastAssigned(header + PrintedLines(d), key) == Lookup(AsMap(d), key)
  {
    hide Printable, PrintedLine, PrintedLines, Assigned, AssignedValue, FirstAssigned, LastAssigned, Unique, Proper,
      AsMap;
    if d == [] {
      NothingPrinted();
      assert header + [] == header;
      NoneAssigned(header, key);
    } else {
      var n := |d| - 1;
      assert d == d[..n] + [d[n]];
      PrintedSnoc(header, d[..n], d[n]);
      ProperSnoc(d[..n], d[n]);
      AssignedInPrinted(header, d[..n], key);
      AssignedSnoc(header + PrintedLines(d[..n]), PrintedLine(d[n]), key);
      AssignedPrinted(d[n], key);
    }
  }

  lemma HeaderAssignsNothing(writer: Writer, key: string)
    requires KeySound(key)
    ensures forall line :: line in Header(writer) ==> !Assigned(line, key)
    ensures !Assigned("", key)
  {
    assert forall line :: line in Header(writer) ==> line == "" || line[0] == '#';
    assert forall line :: Assigned(line, key) ==> line[0] == (key + "=")[0];
  }

  /** Both kinds of reader, first assignment and last, agree with the settings of a file that the
      update routine has written. */
  lemma ReadersAgree(content: Option<string>, key: string)
    requires IsWritten(content) && KeySound(key)
    ensures FirstAssigned(LinesOf(content), key) == LastAssigned(LinesOf(content), key) == Lookup(Denoted(content), key)
  {
    hide Printable, PrintedLines, AsMap, Parsed, LinesOf, Proper, Assigned, FirstAssigned, LastAssigned, Header,
      Written;
    var writer, d :| Proper(d) && content == Some(Written(writer, d));
    WrittenReadsBack(writer, d);
    HeaderAssignsNothing(writer, key);
    AssignedInPrinted(Header(writer), d, key);
    AssignedSnoc(Header(writer) + PrintedLines(d), "", key);
  }

  predicate OccursAt(text: string, part: string, i: int) {
    0 <= i && i + |part| <= |text| && text[i..i + |part|] == part
  }

  /** The substring test of `is_github_configured` adds nothing to the search through the lines. */
  lemma {:induction false} AssignedIsContained(text: string, key: string)
    requires exists line :: line in Lines(text) && Assigned(line, key)
    ensures exists i :: OccursAt(text, key + "=", i)
    decreases |text|
  {
    var i := IndexOf(text, '\n');
    if Assigned(Lines(text)[0], key) {
      assert OccursAt(text, key + "=", 0);
    } else {
      AssignedIsContained(text[i + 1..], key);
      var j :| OccursAt(text[i + 1..], key + "=", j);
      assert OccursAt(text, key + "=", i + 1 + j);
    }
  }

  // ---------------------------------------------------------------- the file

  class SecretsFile {
    var content: Option<string>

    constructor (content: Option<string>)
      ensures this.content == content
    {
      this.content := content;
    }

    /** The first half of `_update_secrets_file`: the settings of the file as a dict. */
    method ReadExisting() returns (existing: Dict)
      ensures existing == Parsed(LinesOf(content))
    {
      existing := [];
      var lines := LinesOf(content);
      for i := 0 to |lines|
        invariant existing == Parsed(lines[..i])
      {
        assert lines[..i + 1][..i] == lines[..i];
        if IsEntry(lines[i]) {
          existing := Put(existing, KeyOf(lines[i]), ValueOf(lines[i]));
        }
      }
      assert lines[..|lines|] == lines;
    }

    /** The second half: the dict as a file. */
    method Write(writer: Writer, existing: Dict)
      modifies this
      ensures content == Some(Written(writer, existing))
    {
      hide PrintedLine, Header;
      var text := Unlines(Header(writer));
      assert Header(writer) + PrintedLines([]) == Header(writer);
      for i := 0 to |existing|
        invariant text == Unlines(Header(writer) + PrintedLines(existing[..i]))
      {
        assert existing[..i + 1][..i] == existing[..i];
        ghost var before := Header(writer) + PrintedLines(existing[..i]);
        assert Header(writer) + PrintedLines(existing[..i + 1]) == before + [PrintedLine(existing[i])];
        assert (before + [PrintedLine(existing[i])])[..|before|] == before;
        text := text + PrintedLine(existing[i]) + "\n";
      }
      assert existing[..|existing|] == existing;
      content := Some(text);
    }

    /** `_update_secrets_file`. */
    method Update(e: Edit)
      modifies this
      ensures content == Some(EditFile(old(content), e))
    {
      var existing := ReadExisting();
      if e.value.None? {
        existing := Pop(existing, e.key);
      } else {
        existing := Put(existing, e.key, e.value.value);
      }
      Write(e.writer, existing);
    }

    /** The loop of `is_github_configured` and of both `is_..._skipped`. */
    method ReadFirst(key: string) returns (value: Option<string>)
      ensures value == FirstAssigned(LinesOf(content), key)
    {
      var lines := LinesOf(content);
      for i := 0 to |lines|
        invariant FirstAssigned(lines[..i], key).None?
      {
        assert lines[..i + 1] == lines[..i] + [lines[i]];
        AssignedSnoc(lines[..i], lines[i], key);
        if Assigned(lines[i], key) {
          FirstIsKept(lines, i + 1, key);
          return AssignedValue(lines[i], key);
        }
      }
      assert lines[..|lines|] == lines;
      return None;
    }

    method IsGithubConfigured() returns (configured: bool)
      ensures configured <==> NonEmpty(FirstAssigned(LinesOf(content), GithubClientId()))
      ensures configured <==> NonEmpty(FirstAssigned(LinesOf(content), "POLAR_GITHUB_CLIENT_ID"))
    {
      var value := ReadFirst(GithubClientId());
      configured := NonEmpty(value);
    }

    method IsGithubSkipped() returns (skipped: bool)
      ensures skipped <==> IsTrue(FirstAssigned(LinesOf(content), SkipGithub()))
      ensures skipped <==> IsTrue(FirstAssigned(LinesOf(content), "POLAR_SKIP_GITHUB_SETUP"))
    {
      var value := ReadFirst(SkipGithub());
      skipped := IsTrue(value);
    }

    method IsStripeSkipped() returns (skipped: bool)
      ensures skipped <==> IsTrue(FirstAssigned(LinesOf(content), SkipStripe()))
      ensures skipped <==> IsTrue(FirstAssigned(LinesOf(content), "POLAR_SKIP_STRIPE_SETUP"))
    {
      var value := ReadFirst(SkipStripe());
      skipped := IsTrue(value);
    }

    /** Both copies of the Stripe reader: a later line overrides an earlier one. */
    method IsStripeConfigured() returns (configured: bool)
      ensures configured <==> StripeConfigured(content)
      ensures configured <==>
        && NonEmpty(LastAssigned(LinesOf(content), "POLAR_STRIPE_SECRET_KEY"))
        && NonEmpty(LastAssigned(LinesOf(content), "POLAR_STRIPE_PUBLISHABLE_KEY"))
    {
      StripeKeysAre();
      hide Assigned, AssignedValue, NonEmpty, LastAssigned, LinesOf, StripeSecretKey, StripePublishableKey;
      var secretKey, publishableKey := StripeSecretKey(), StripePublishableKey();
      var lines := LinesOf(content);
      var hasSecret, hasPublishable := false, false;
      NothingAssigned(secretKey);
      NothingAssigned(publishableKey);
      for i := 0 to |lines|
        invariant hasSecret == NonEmpty(LastAssigned(lines[..i], secretKey))
        invariant hasPublishable == NonEmpty(LastAssigned(lines[..i], publishableKey))
      {
        LastAssignedSnoc(lines, i, secretKey);
        LastAssignedSnoc(lines, i, publishableKey);
        if Assigned(lines[i], secretKey) {
          hasSecret := NonEmpty(AssignedValue(lines[i], secretKey));
        }
        if Assigned(lines[i], publishableKey) {
          hasPublishable := NonEmpty(AssignedValue(lines[i], publishableKey));
        }
      }
      assert lines[..|lines|] == lines;
      configured := hasSecret && hasPublishable;
    }

    /** `set_github_skipped` and `set_stripe_skipped`. */
    method SetGithubSkipped(skipped: bool)
      modifies this
      ensures content == Some(EditFile(old(content), SkipEdit(SkipGithub(), skipped)))
      ensures IsTrue(FirstAssigned(LinesOf(content), "POLAR_SKIP_GITHUB_SETUP")) <==> skipped
    {
      KeysAreSound();
      SkippedReadsBack(content, SkipGithub(), skipped);
      Update(SkipEdit(SkipGithub(), skipped));
    }

    method SetStripeSkipped(skipped: bool)
      modifies this
      ensures content == Some(EditFile(old(content), SkipEdit(SkipStripe(), skipped)))
      ensures IsTrue(FirstAssigned(LinesOf(content), "POLAR_SKIP_STRIPE_SETUP")) <==> skipped
    {
      KeysAreSound();
      SkippedReadsBack(content, SkipStripe(), skipped);
      Update(SkipEdit(SkipStripe(), skipped));
    }

    /** Both copies of `save_stripe_keys`. */
    method SaveStripeKeys(writer: Writer, secretKey: string, publishableKey: string, webhookSecret: string)
      modifies this
      ensures content == RunFile(old(content), StripeEdits(writer, secretKey, publishableKey, webhookSecret))
    {
      hide EditFile, StripeSecretKey, StripePublishableKey, StripeWebhookSecret, RunFile;
      var first, second := Edit(writer, StripeSecretKey(), Some(secretKey)),
        Edit(writer, StripePublishableKey(), Some(publishableKey));
      var third := Edit(writer, StripeWebhookSecret(), Some(webhookSecret));
      RunOfFew(content, map[], first, second, third);
      Update(first);
      Update(second);
      if webhookSecret != "" {
        Update(third);
      }
    }
  }

  lemma StripeKeysAre()
    ensures StripeSecretKey() == "POLAR_STRIPE_SECRET_KEY" && StripePublishableKey() == "POLAR_STRIPE_PUBLISHABLE_KEY"
  {
  }

  lemma {:induction false} FirstIsKept(lines: seq<string>, n: nat, key: string)
    requires n <= |lines| && FirstAssigned(lines[..n], key).Some?
    ensures FirstAssigned(lines, key) == FirstAssigned(lines[..n], key)
    decreases |lines|
  {
    if n == |lines| {
      assert lines[..n] == lines;
    } else {
      var m := |lines| - 1;
      assert lines[..m][..n] == lines[..n];
      FirstIsKept(lines[..m], n, key);
    }
  }

  // ---------------------------------------------------------------- what the commands write, read back

  function SkipEdit(key: string, skipped: bool): Edit {
    Edit(SetupStep, key, if skipped then Some("true") else None)
  }

  function StripeEdits(writer: Writer, secretKey: string, publishableKey: string, webhookSecret: string): seq<Edit> {
    var first, second := Edit(writer, StripeSecretKey(), Some(secretKey)),
      Edit(writer, StripePublishableKey(), Some(publishableKey));
    if webhookSecret == "" then [first, second]
    else [first, second, Edit(writer, StripeWebhookSecret(), Some(webhookSecret))]
  }

  lemma RunOfFew(content: Option<string>, m: Settings, a: Edit, b: Edit, c: Edit)
    ensures RunFile(content, [a, b]) == Some(EditFile(Some(EditFile(content, a)), b))
    ensures RunFile(content, [a, b, c]) == Some(EditFile(Some(EditFile(Some(EditFile(content, a)), b)), c))
    ensures RunMap(m, [a, b]) == EditMap(EditMap(m, a), b)
    ensures RunMap(m, [a, b, c]) == EditMap(EditMap(EditMap(m, a), b), c)
  {
    hide EditFile, EditMap;
    assert [b][1..] == [] && [a, b][1..] == [b];
    assert [c][1..] == [] && [b, c][1..] == [c] && [a, b, c][1..] == [b, c];
    assert forall x, e: Edit :: [e][1..] == [] && RunFile(x, [e]) == Some(EditFile(x, e));
    assert forall x, e: Edit :: [e][1..] == [] && RunMap(x, [e]) == EditMap(x, e);
    assert forall x :: RunFile(x, [b, c]) == RunFile(Some(EditFile(x, b)), [c]);
    assert forall x :: RunMap(x, [b, c]) == RunMap(EditMap(x, b), [c]);
  }

  predicate IsKey(key: string) {
    KeySound(key) && Trimmed(key, IsBlank) && '\n' !in key
  }

  lemma KeysAreSound()
    ensures IsKey(GithubClientId()) && IsKey(SkipGithub()) && IsKey(SkipStripe())
    ensures IsKey(StripeSecretKey()) && IsKey(StripePublishableKey()) && IsKey(StripeWebhookSecret())
    ensures StripeSecretKey() != StripePublishableKey()
    ensures StripeSecretKey() != StripeWebhookSecret() && StripePublishableKey() != StripeWebhookSecret()
  {
    hide GithubClientId, SkipGithub, SkipStripe, StripeSecretKey, StripePublishableKey, StripeWebhookSecret, KeySound,
      Trimmed;
    SetupKeysAreSound();
    StripeKeysAreSound();
    StripeKeysDiffer();
  }

  lemma SetupKeysAreSound()
    ensures IsKey(GithubClientId()) && IsKey(SkipGithub()) && IsKey(SkipStripe())
  {
    hide StripeSecretKey, StripePublishableKey, StripeWebhookSecret;
  }

  lemma StripeKeysAreSound()
    ensures IsKey(StripeSecretKey()) && IsKey(StripePublishableKey()) && IsKey(StripeWebhookSecret())
  {
    hide *;
    SecretKeyIsSound();
    PublishableKeyIsSound();
    WebhookSecretIsSound();
  }

  lemma SecretKeyIsSound()
    ensures IsKey(StripeSecretKey())
  {
  }

  lemma PublishableKeyIsSound()
    ensures IsKey(StripePublishableKey())
  {
  }

  lemma WebhookSecretIsSound()
    ensures IsKey(StripeWebhookSecret())
  {
  }

  lemma StripeKeysDiffer()
    ensures StripeSecretKey() != StripePublishableKey()
    ensures StripeSecretKey() != StripeWebhookSecret() && StripePublishableKey() != StripeWebhookSecret()
  {
    assert StripeSecretKey()[13] == 'S' && StripePublishableKey()[13] == 'P' && StripeWebhookSecret()[13] == 'W';
  }

  /** A choice that was stored or cleared is the one the reader finds. */
  lemma SkippedReadsBack(content: Option<string>, key: string, skipped: bool)
    requires IsKey(key)
    ensures IsTrue(FirstAssigned(LinesOf(Some(EditFile(content, SkipEdit(key, skipped)))), key)) <==> skipped
  {
    hide Denoted, EditFile, FirstAssigned, LastAssigned, LinesOf, IsWritten;
    var e := SkipEdit(key, skipped);
    SkipEditIsSound(key, skipped);
    RunIsWritten(content, [e]);
    assert [e][1..] == [];
    ReadersAgree(Some(EditFile(content, e)), key);
    UpdateRefines(content, e);
    assert Lower("true") == "true";
  }

  lemma SkipEditIsSound(key: string, skipped: bool)
    requires IsKey(key)
    ensures Sound(SkipEdit(key, skipped))
  {
  }

  /** After saving, Stripe counts as configured exactly when both keys are given, and no other
      setting has changed. */
  lemma SavedKeysReadBack(content: Option<string>, writer: Writer, secretKey: string, publishableKey: string,
                          webhookSecret: string)
    requires forall e :: e in StripeEdits(writer, secretKey, publishableKey, webhookSecret) ==> Sound(e)
    ensures var after := RunFile(content, StripeEdits(writer, secretKey, publishableKey, webhookSecret));
      && (StripeConfigured(after) <==> secretKey != "" && publishableKey != "")
      && Denoted(after) - {StripeSecretKey(), StripePublishableKey(), StripeWebhookSecret()}
           == Visible(Denoted(content)) - {StripeSecretKey(), StripePublishableKey(), StripeWebhookSecret()}
  {
    hide Denoted, EditFile, FirstAssigned, LastAssigned, LinesOf, StripeSecretKey, StripePublishableKey,
      StripeWebhookSecret, Printable, Trimmed, IsWritten, Visible, IsComment, RunFile, RunMap;
    KeysAreSound();
    var edits := StripeEdits(writer, secretKey, publishableKey, webhookSecret);
    RunRefines(content, edits);
    RunIsWritten(content, edits);
    RunOfFew(content, Visible(Denoted(content)), edits[0], edits[1], edits[|edits| - 1]);
    ReadersAgree(RunFile(content, edits), StripeSecretKey());
    ReadersAgree(RunFile(content, edits), StripePublishableKey());
  }
}
