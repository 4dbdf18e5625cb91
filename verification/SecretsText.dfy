/** The text of the secrets file written out: its header, the quotes, the order of its lines, the names of
    the settings, and what one command leaves of the others. */
module SecretsText {
  import opened Sql
  import opened Text
  import opened Secrets
  import opened SecretsReaders

  // ---------------------------------------------------------------- reading one line

  /** A line `key = "value"`, with blanks around both and quotes around the value, is read as its key and
      its value. */
  lemma EntryIs(a: string, key: string, b: string, c: string, left: string, value: string, right: string, d: string)
    requires Blanks(a) && Blanks(b) && Blanks(c) && Blanks(d) && Trimmed(key, IsBlank) && '=' !in key
    requires Quotes(left) && Quotes(right) && Trimmed(value, IsQuote) && Trimmed(left + value + right, IsBlank)
    ensures var line := (a + key + b) + ['='] + (c + (left + value + right) + d);
      '=' in line && KeyOf(line) == key && ValueOf(line) == value
      && (IsEntry(line) <==> !IsComment(a + key + b + "="))
  {
    hide TrimLeft, TrimRight;
    var front, back := a + key + b, c + (left + value + right) + d;
    NoSign(a, key, b);
    SplitAtEquals(front, back);
    TrimIs(a, key, b, IsBlank);
    TrimIs(c, left + value + right, d, IsBlank);
    TrimIs(left, value, right, IsQuote);
    assert (front + ['='] + back)[0] == (front + "=")[0];
  }

  ghost predicate Blanks(s: string) {
    forall c :: c in s ==> IsBlank(c)
  }

  ghost predicate Quotes(s: string) {
    forall c :: c in s ==> c == '"' || c == '\''
  }

  lemma NoSign(a: string, key: string, b: string)
    requires Blanks(a) && Blanks(b) && '=' !in key
    ensures '=' !in a + key + b
  {
    assert !IsBlank('=');
  }

  // ---------------------------------------------------------------- writing

  lemma EmptyFileIs()
    ensures Written(SetupStep, []) == "# Polar Development Secrets\n# Shared across Git worktrees\n\n"
    ensures Written(StripeCommand, []) == ""
  {
    hide Title, Subtitle;
    HeaderIs();
    assert Header(SetupStep) + [] == [Title()] + ([Subtitle()] + ([""] + []));
    UnlinesCons(Title(), [Subtitle()] + ([""] + []));
    UnlinesCons(Subtitle(), [""] + []);
    UnlinesCons("", []);
    assert Written(SetupStep, []) == Title() + "\n" + (Subtitle() + "\n" + ("" + "\n" + ""));
    JoinHeader();
  }

  lemma HeaderIs()
    ensures Title() == "# Polar Development Secrets" && Subtitle() == "# Shared across Git worktrees"
  {
  }

  lemma JoinHeader()
    ensures "# Polar Development Secrets" + "\n" + ("# Shared across Git worktrees" + "\n" + ("" + "\n" + ""))
      == "# Polar Development Secrets\n# Shared across Git worktrees\n\n"
  {
  }

  /** The last entry is the last line: its key, the sign, and its value between double quotes, or between
      single ones when it holds a double one. */
  lemma WrittenSnoc(writer: Writer, d: Dict, key: string, value: string)
    ensures Written(writer, d + [(key, value)]) == Written(writer, d) + (key + ['='] +
      if exists i :: 0 <= i < |value| && value[i] == '"' then "'" + value + "'" else "\"" + value + "\"") + "\n"
  {
    hide Header, PrintedLines;
    var lines := Header(writer) + PrintedLines(d);
    PrintedSnoc(Header(writer), d, (key, value));
    assert (lines + [PrintedLine((key, value))])[..|lines|] == lines;
  }

  function Keys(d: Dict): seq<string> {
    if d == [] then [] else [d[0].0] + Keys(d[1..])
  }

  /** An existing key keeps its line; a new one comes last. */
  lemma {:induction false} KeysOfPut(d: Dict, key: string, value: string)
    ensures Keys(Put(d, key, value)) == if key in Keys(d) then Keys(d) else Keys(d) + [key]
  {
    if d != [] {
      KeysOfPut(d[1..], key, value);
      assert key in Keys(d) <==> key == d[0].0 || key in Keys(d[1..]);
    }
  }

  /** A popped key leaves the others in their order. */
  lemma {:induction false} KeysOfPop(d: Dict, key: string)
    ensures Keys(Pop(d, key)) == Others(Keys(d), key)
  {
    if d != [] {
      KeysOfPop(d[1..], key);
      assert Keys(d)[1..] == Keys(d[1..]);
    }
  }

  function Others(keys: seq<string>, key: string): seq<string> {
    if keys == [] then [] else (if keys[0] == key then [] else [keys[0]]) + Others(keys[1..], key)
  }

  // ---------------------------------------------------------------- the settings

  lemma NamesAre()
    ensures GithubClientId() == "POLAR_GITHUB_CLIENT_ID"
    ensures SkipGithub() == "POLAR_SKIP_GITHUB_SETUP" && SkipStripe() == "POLAR_SKIP_STRIPE_SETUP"
    ensures StripeSecretKey() == "POLAR_STRIPE_SECRET_KEY" && StripePublishableKey() == "POLAR_STRIPE_PUBLISHABLE_KEY"
    ensures StripeWebhookSecret() == "POLAR_STRIPE_WEBHOOK_SECRET"
  {
  }

  lemma NamesDiffer()
    ensures SkipGithub() != SkipStripe() && GithubClientId() != SkipGithub() && GithubClientId() != SkipStripe()
  {
    assert SkipGithub()[11] == 'G' && SkipStripe()[11] == 'S' && GithubClientId()[6] == 'G' && SkipGithub()[6] == 'S';
    assert SkipStripe()[6] == 'S';
  }

  lemma TrueIs(value: Option<string>)
    ensures IsTrue(value) <==>
      && value.Some? && |value.value| == 4 && value.value[0] in "tT" && value.value[1] in "rR"
      && value.value[2] in "uU" && value.value[3] in "eE"
  {
    if value.Some? {
      var v := value.value;
      assert IsTrue(value) <==>
        |v| == 4 && Lower(v)[0] == 't' && Lower(v)[1] == 'r' && Lower(v)[2] == 'u' && Lower(v)[3] == 'e';
    }
  }

  /** After an update the readers find every other setting as it was in the file, but for comments. */
  lemma OtherKeysStay(content: Option<string>, e: Edit, key: string)
    requires Sound(e) && KeySound(key) && key != e.key
    ensures var lines := LinesOf(Some(EditFile(content, e)));
      FirstAssigned(lines, key) == LastAssigned(lines, key) == Lookup(Denoted(content), key)
  {
    hide Denoted, EditFile, FirstAssigned, LastAssigned, LinesOf, IsWritten, Printable;
    RunIsWritten(content, [e]);
    assert [e][1..] == [];
    ReadersAgree(Some(EditFile(content, e)), key);
    UpdateRefines(content, e);
  }

  /** Storing or clearing one choice leaves the other as the settings have it. */
  lemma ChoicesAreApart(content: Option<string>, skipped: bool)
    ensures FirstAssigned(LinesOf(Some(EditFile(content, SkipEdit(SkipGithub(), skipped)))), SkipStripe())
         == Lookup(Denoted(content), SkipStripe())
    ensures FirstAssigned(LinesOf(Some(EditFile(content, SkipEdit(SkipStripe(), skipped)))), SkipGithub())
         == Lookup(Denoted(content), SkipGithub())
  {
    hide Denoted, EditFile, FirstAssigned, LinesOf, SkipGithub, SkipStripe, Printable, Sound, KeySound, Trimmed;
    KeysAreSound();
    NamesDiffer();
    SoundKey(SkipGithub());
    SoundKey(SkipStripe());
    SkipEditIsSound(SkipGithub(), skipped);
    SkipEditIsSound(SkipStripe(), skipped);
    OtherKeysStay(content, SkipEdit(SkipGithub(), skipped), SkipStripe());
    OtherKeysStay(content, SkipEdit(SkipStripe(), skipped), SkipGithub());
  }

  lemma SoundKey(key: string)
    requires IsKey(key)
    ensures KeySound(key)
  {
  }

  /** After saving, each of the three settings is what was given; without a webhook secret that setting is
      as it was. */
  lemma SavedKeysAre(content: Option<string>, writer: Writer, secretKey: string, publishableKey: string,
                     webhookSecret: string)
    requires forall e :: e in StripeEdits(writer, secretKey, publishableKey, webhookSecret) ==> Sound(e)
    ensures var after := Denoted(RunFile(content, StripeEdits(writer, secretKey, publishableKey, webhookSecret)));
      && Lookup(after, "POLAR_STRIPE_SECRET_KEY") == Some(secretKey)
      && Lookup(after, "POLAR_STRIPE_PUBLISHABLE_KEY") == Some(publishableKey)
      && Lookup(after, "POLAR_STRIPE_WEBHOOK_SECRET")
           == if webhookSecret == "" then Lookup(Denoted(content), "POLAR_STRIPE_WEBHOOK_SECRET")
             else Some(webhookSecret)
  {
    hide Denoted, RunFile, RunMap, StripeSecretKey, StripePublishableKey, StripeWebhookSecret, Sound;
    NamesAre();
    var edits := StripeEdits(writer, secretKey, publishableKey, webhookSecret);
    var m := Visible(Denoted(content));
    RunRefines(content, edits);
    StripeKeysDiffer();
    var first, second := Edit(writer, StripeSecretKey(), Some(secretKey)),
      Edit(writer, StripePublishableKey(), Some(publishableKey));
    RunOfFew(content, m, first, second, Edit(writer, StripeWebhookSecret(), Some(webhookSecret)));
    WebhookIsVisible();
  }

  lemma WebhookIsVisible()
    ensures !IsComment(StripeWebhookSecret())
  {
  }
}
