/** `scripts/import_users.py`: the import of users from a legacy dump. */
module UserImport {
  import opened Sql
  import opened Text

  /** One element of the payload; missing values are read as empty. */
  datatype Record = Record(email: string, role: string, emailVerified: bool, image: string, createdAt: int)

  datatype User = User(emailVerified: bool, isAdmin: bool, avatarUrl: Option<string>, createdAt: int)

  /** Users by their exact email. */
  type Users = map<string, User>

  datatype Outcome = Done(created: nat, updated: nat, skipped: nat) | DatabaseError

  /** What one record leads to. */
  datatype Step = Failed | Created | Changed | Skipped

  function Key(r: Record): string {
    Lower(Strip(r.email))
  }

  predicate IsAdmin(r: Record) {
    Lower(r.role) == "admin"
  }

  /** `avatar_url` is truthy. */
  predicate HasAvatar(avatar: Option<string>) {
    avatar.Some? && avatar.value != ""
  }

  function Image(r: Record): Option<string> {
    if r.image == "" then None else Some(r.image)
  }

  // ---------------------------------------------------------------- closed form

  function Lookup(users: Users, email: string): Option<User> {
    if email in users then Some(users[email]) else None
  }

  /** The records of one email. */
  function Of(email: string, payload: seq<Record>): seq<Record> {
    if payload == [] then []
    else
      var last := payload[|payload| - 1];
      Of(email, payload[..|payload| - 1]) + if Key(last) == email then [last] else []
  }

  predicate AnyVerified(records: seq<Record>) {
    exists r :: r in records && r.emailVerified
  }

  predicate AnyAdmin(records: seq<Record>) {
    exists r :: r in records && IsAdmin(r)
  }

  function FirstImage(records: seq<Record>): Option<string> {
    if records == [] then None
    else if records[0].image != "" then Some(records[0].image)
    else FirstImage(records[1..])
  }

  /** What the user of an email is after all records of that email: the flags are the OR of the earlier
      values and of all records, the avatar is the old one or the first that is given, and the
      creation date is the old one or that of the first record. */
  function Merged(was: Option<User>, records: seq<Record>): Option<User> {
    if records == [] then was
    else match was
      case None =>
        Some(User(AnyVerified(records), AnyAdmin(records), FirstImage(records), records[0].createdAt))
      case Some(u) =>
        Some(User(u.emailVerified || AnyVerified(records), u.isAdmin || AnyAdmin(records),
                  if HasAvatar(u.avatarUrl) || FirstImage(records).None? then u.avatarUrl
                  else FirstImage(records), u.createdAt))
  }

  /** The closed form for every email that a record can have. */
  ghost predicate ImportedInto(before: Users, payload: seq<Record>, after: Users) {
    && (forall e :: e != "" ==> Lookup(after, e) == Merged(Lookup(before, e), Of(e, payload)))
    && Lookup(after, "") == Lookup(before, "")
  }

  /** PostgreSQL stores no text with the character U+0000. */
  predicate Storable(s: string) {
    '\0' !in s
  }

  /** A record whose email cannot even be looked up, or is new, but only by its case, or longer than the
      column: inserting it breaks the unique index on lower(email), or does not fit. */
  predicate Refused(users: Users, r: Record) {
    Key(r) != "" && (!Storable(Key(r)) || IsRefusedInsert(users, Key(r)))
  }

  predicate IsRefusedInsert(users: Users, email: string) {
    email !in users && (|email| > 320 || exists u :: u in users && Lower(u) == email)
  }

  predicate LacksAvatar(users: Users, email: string) {
    !(email in users && HasAvatar(users[email].avatarUrl))
  }

  /** A record whose image would become an avatar, but cannot be stored. */
  predicate HasBadImage(users: Users, r: Record) {
    Key(r) != "" && !Storable(r.image) && LacksAvatar(users, Key(r))
  }

  /** Some user without an avatar would get one that cannot be stored: the first image of its records. */
  predicate GivesBadAvatar(users: Users, payload: seq<Record>) {
    exists r :: r in payload && IsGivenBadAvatar(users, payload, Key(r))
  }

  predicate IsGivenBadAvatar(users: Users, payload: seq<Record>, email: string) {
    var image := FirstImage(Of(email, payload));
    email != "" && LacksAvatar(users, email) && image.Some? && !Storable(image.value)
  }

  /** What the import needs of the payload. */
  predicate CanImport(users: Users, payload: seq<Record>) {
    (forall r :: r in payload ==> !Refused(users, r)) && !GivesBadAvatar(users, payload)
  }

  /** An address that was stored with a capital, and one that is too long. */
  lemma RefusedRecords(r: Record, user: User, long: Record)
    requires r.email == "a@x" && Key(long) == long.email && |long.email| == 321
    ensures Refused(map["A@x" := user], r) && Refused(map[], long)
  {
    hide IsBlank;
    TrimTrimmedEmail();
    var users := map["A@x" := user];
    assert Lower("A@x") == "a@x" && Lower("a@x") == "a@x" && "A@x"[0] != "a@x"[0];
    assert "A@x" in users;
  }

  /** An image with a character that cannot be stored, for a user that has no avatar yet. */
  lemma BadAvatar(r: Record)
    requires r.email == "a@x" && r.image == ['\0']
    ensures GivesBadAvatar(map[], [r])
  {
    TrimTrimmedEmail();
    assert Key(r) == "a@x";
    assert [r][..0] == [] && Of("a@x", [r]) == [r];
    assert r in [r];
  }

  lemma TrimTrimmedEmail()
    ensures Strip("a@x") == "a@x"
  {
    TrimTrimmed("a@x", IsBlank);
  }

  // ---------------------------------------------------------------- lemmas

  /** One more record of the email. */
  lemma MergedSnoc(was: Option<User>, records: seq<Record>, r: Record)
    ensures Merged(was, records + [r]) == Some(Updated(Merged(was, records), r))
  {
    FirstImageSnoc(records, r);
    assert forall x :: x in records + [r] <==> x in records || x == r;
  }

  lemma {:induction false} FirstImageSnoc(records: seq<Record>, r: Record)
    ensures FirstImage(records + [r]) == if FirstImage(records).Some? then FirstImage(records) else Image(r)
    ensures FirstImage(records).Some? ==> FirstImage(records).value != ""
  {
    if records != [] {
      FirstImageSnoc(records[1..], r);
      assert (records + [r])[1..] == records[1..] + [r];
    }
  }

  /** The row a record creates, or what it makes of the existing one. */
  function Updated(existing: Option<User>, r: Record): User {
    match existing
    case None => User(r.emailVerified, IsAdmin(r), Image(r), r.createdAt)
    case Some(u) =>
      User(u.emailVerified || r.emailVerified, u.isAdmin || IsAdmin(r),
           if HasAvatar(u.avatarUrl) || Image(r).None? then u.avatarUrl else Image(r), u.createdAt)
  }

  lemma {:induction false} OfContains(payload: seq<Record>, r: Record)
    ensures r in payload ==> r in Of(Key(r), payload)
    ensures forall e, x :: x in Of(e, payload) ==> x in payload && Key(x) == e
  {
    if payload != [] {
      OfContains(payload[..|payload| - 1], r);
      assert payload == payload[..|payload| - 1] + [payload[|payload| - 1]];
    }
  }

  /** Nothing in the record is news to the users. */
  predicate Absorbed(users: Users, r: Record) {
    Key(r) == "" || (Key(r) in users && Updated(Some(users[Key(r)]), r) == users[Key(r)])
  }

  /** The users after the first records, one by one. */
  function After(before: Users, done: seq<Record>): Users {
    if done == [] then before
    else
      Next(After(before, done[..|done| - 1]), done[|done| - 1])
  }

  function Next(rows: Users, r: Record): Users {
    if Key(r) == "" then rows else rows[Key(r) := Updated(Lookup(rows, Key(r)), r)]
  }

  /** How many records were no news when their turn came. */
  function NoNews(before: Users, done: seq<Record>): nat {
    if done == [] then 0
    else
      var most := done[..|done| - 1];
      NoNews(before, most) + if Absorbed(After(before, most), done[|done| - 1]) then 1 else 0
  }

  lemma AfterSnoc(before: Users, done: seq<Record>, r: Record)
    ensures After(before, done + [r]) == Next(After(before, done), r)
    ensures NoNews(before, done + [r]) == NoNews(before, done) + if Absorbed(After(before, done), r) then 1 else 0
  {
    hide Next, Absorbed;
    assert (done + [r])[..|done|] == done;
  }

  /** After an import every record of the payload is absorbed. */
  lemma ImportAbsorbs(before: Users, payload: seq<Record>, after: Users, r: Record)
    requires ImportedInto(before, payload, after) && r in payload
    ensures Absorbed(after, r)
  {
    var e := Key(r);
    if e != "" {
      OfContains(payload, r);
      var records := Of(e, payload);
      FirstImageFound(records, r);
      FirstImageSnoc(records, r);
      assert Lookup(after, e) == Merged(Lookup(before, e), records);
    }
  }

  lemma {:induction false} FirstImageFound(records: seq<Record>, r: Record)
    requires r in records
    ensures FirstImage(records).None? ==> r.image == ""
  {
    if records[0] != r && records[0].image == "" {
      FirstImageFound(records[1..], r);
    }
  }

  lemma LowerTwice(s: string)
    ensures Lower(Lower(s)) == Lower(s)
  {
  }

  /** One iteration of the loop keeps the closed form. */
  lemma ImportStep(before: Users, done: seq<Record>, rows: Users, r: Record)
    requires ImportedInto(before, done, rows)
    ensures ImportedInto(before, done + [r], Next(rows, r))
  {
    var k := Key(r);
    var after := Next(rows, r);
    forall e | e != "" ensures Lookup(after, e) == Merged(Lookup(before, e), Of(e, done + [r])) {
      OfSnoc(e, done, r);
      assert Lookup(rows, e) == Merged(Lookup(before, e), Of(e, done));
      hide Updated, Key, Merged, Of, ImportedInto;
      if e == k {
        MergedSnoc(Lookup(before, e), Of(e, done), r);
      }
    }
    hide Updated, Key, Merged, Of;
  }

  lemma OfSnoc(e: string, done: seq<Record>, r: Record)
    ensures Of(e, done + [r]) == if Key(r) == e then Of(e, done) + [r] else Of(e, done)
  {
    assert (done + [r])[..|done|] == done;
    hide Key;
    assert Of(e, done) + [] == Of(e, done);
  }

  /** Who is in the table during the import. */
  lemma ImportedKeys(before: Users, done: seq<Record>, rows: Users)
    requires ImportedInto(before, done, rows)
    ensures forall e :: e in before ==> e in rows
    ensures forall e :: e in rows && e !in before ==> exists r :: r in done && Key(r) == e && e != ""
  {
    forall e | e in rows && e !in before ensures exists r :: r in done && Key(r) == e && e != "" {
      assert Lookup(before, e).None? && Lookup(rows, e).Some?;
      assert Of(e, done) != [];
      var r := Of(e, done)[0];
      OfContains(done, r);
      assert r in Of(e, done);
    }
    forall e | e in before ensures e in rows {
      assert Lookup(before, e).Some?;
      assert e != "" ==> Lookup(rows, e) == Merged(Lookup(before, e), Of(e, done));
    }
  }

  /** No insert that breaks the index or does not fit has put an email into the table, so the growing
      table refuses the records that the original one refuses. */
  lemma RefusalFoundIff(before: Users, done: seq<Record>, rows: Users, r: Record)
    requires ImportedInto(before, done, rows)
    requires forall x :: x in done ==> !Refused(before, x)
    ensures Refused(before, r) <==> Refused(rows, r)
  {
    ImportedKeys(before, done, rows);
    hide ImportedInto;
    if Key(r) !in rows {
      forall u | u in rows && Lower(u) == Key(r) ensures u in before {
        if u !in before {
          var x :| x in done && Key(x) == u;
          LowerTwice(Strip(x.email));
        }
      }
    }
  }

  /** The image of a record becomes an avatar exactly if it is the first one for a user without. */
  lemma LacksAvatarIff(before: Users, done: seq<Record>, rows: Users, email: string)
    requires ImportedInto(before, done, rows) && email != ""
    ensures LacksAvatar(rows, email) <==> LacksAvatar(before, email) && FirstImage(Of(email, done)).None?
  {
    assert Lookup(rows, email) == Merged(Lookup(before, email), Of(email, done));
    hide ImportedInto, Of;
    var records := Of(email, done);
    if records != [] {
      FirstImageSnoc(records[..|records| - 1], records[|records| - 1]);
      FirstImageIsGiven(records);
    }
  }

  lemma {:induction false} FirstImageIsGiven(records: seq<Record>)
    ensures FirstImage(records).Some? ==> FirstImage(records).value != ""
  {
    if records != [] {
      FirstImageIsGiven(records[1..]);
    }
  }

  /** A bad image is met in the loop exactly when the record brings about a bad avatar. */
  lemma BadImageFoundIff(before: Users, done: seq<Record>, rows: Users, r: Record)
    requires ImportedInto(before, done, rows) && !GivesBadAvatar(before, done)
    ensures HasBadImage(rows, r) <==> GivesBadAvatar(before, done + [r])
  {
    hide ImportedInto, Of, FirstImage, LacksAvatar, Storable, Key;
    var more := done + [r];
    forall x | x in more ensures IsGivenBadAvatar(before, more, Key(x)) <==> Key(x) == Key(r) && HasBadImage(rows, r) {
      BadAvatarSnoc(before, done, rows, r, Key(x));
    }
    assert r in more;
  }

  lemma BadAvatarSnoc(before: Users, done: seq<Record>, rows: Users, r: Record, email: string)
    requires ImportedInto(before, done, rows) && !GivesBadAvatar(before, done)
    requires email == Key(r) || exists x :: x in done && Key(x) == email
    ensures IsGivenBadAvatar(before, done + [r], email) <==> email == Key(r) && HasBadImage(rows, r)
  {
    hide ImportedInto, LacksAvatar, Key;
    if email != "" {
      LacksAvatarIff(before, done, rows, email);
    }
    OfSnoc(email, done, r);
    FirstImageSnoc(Of(email, done), r);
    NoBadAvatarYet(before, done, email);
    EmptyIsStorable();
  }

  lemma EmptyIsStorable()
    ensures Storable("")
  {
  }

  lemma NoBadAvatarYet(before: Users, done: seq<Record>, email: string)
    requires !GivesBadAvatar(before, done)
    ensures !IsGivenBadAvatar(before, done, email)
  {
    hide Storable, LacksAvatar, Key;
    var records := Of(email, done);
    if records != [] {
      OfContains(done, records[0]);
      assert records[0] in records;
    }
  }

  /** What has been brought about stays. */
  lemma {:induction false} BadAvatarStays(before: Users, payload: seq<Record>, n: nat)
    requires n <= |payload| && GivesBadAvatar(before, payload[..n])
    ensures GivesBadAvatar(before, payload)
    decreases |payload|
  {
    hide Storable, LacksAvatar, Key;
    if n == |payload| {
      assert payload[..n] == payload;
    } else {
      var most, last := payload[..|payload| - 1], payload[|payload| - 1];
      assert most[..n] == payload[..n] && payload == most + [last];
      BadAvatarStays(before, most, n);
      var r :| r in most && IsGivenBadAvatar(before, most, Key(r));
      OfSnoc(Key(r), most, last);
      FirstImageSnoc(Of(Key(r), most), last);
    }
  }

  /** After an import nobody lacks an avatar for whom there is an image. */
  lemma NoBadAvatarTwice(before: Users, payload: seq<Record>, after: Users)
    requires ImportedInto(before, payload, after) && !GivesBadAvatar(before, payload)
    ensures !GivesBadAvatar(after, payload)
  {
    hide ImportedInto, Of, FirstImage, LacksAvatar, Storable, Key;
    forall r | r in payload ensures !IsGivenBadAvatar(after, payload, Key(r)) {
      if Key(r) != "" {
        LacksAvatarIff(before, payload, after, Key(r));
      }
    }
  }

  /** A payload without news leaves the users alone and is skipped record by record. */
  lemma {:induction false} NothingNew(users: Users, payload: seq<Record>)
    requires forall r :: r in payload ==> Absorbed(users, r) && (Key(r) != "" ==> Storable(Key(r)))
    ensures After(users, payload) == users && NoNews(users, payload) == |payload|
    ensures forall r :: r in payload ==> !Refused(users, r)
  {
    hide Storable, Key;
    if payload != [] {
      NothingNew(users, payload[..|payload| - 1]);
      assert payload[|payload| - 1] in payload;
    }
  }

  /** The invariant of the import loop: the rows after the records that are done. */
  ghost predicate Progress(before: Users, done: seq<Record>, rows: Users, skipped: nat) {
    && ImportedInto(before, done, rows)
    && rows == After(before, done) && skipped == NoNews(before, done)
    && (forall r :: r in done ==> !Refused(before, r))
    && !GivesBadAvatar(before, done)
  }

  lemma NothingImported(users: Users)
    ensures Progress(users, [], users, 0)
  {
  }

  lemma ProgressStep(before: Users, done: seq<Record>, rows: Users, skipped: nat, r: Record)
    requires Progress(before, done, rows, skipped)
    ensures Refused(before, r) <==> Refused(rows, r)
    ensures GivesBadAvatar(before, done + [r]) <==> HasBadImage(rows, r)
    ensures !Refused(rows, r) && !HasBadImage(rows, r) ==>
      Progress(before, done + [r], Next(rows, r), skipped + if Absorbed(rows, r) then 1 else 0)
  {
    hide ImportedInto, Refused, Absorbed, After, NoNews, Next, GivesBadAvatar, HasBadImage;
    ImportStep(before, done, rows, r);
    AfterSnoc(before, done, r);
    RefusalFoundIff(before, done, rows, r);
    BadImageFoundIff(before, done, rows, r);
  }

  // ---------------------------------------------------------------- in columns

  /** The record is about the email. */
  ghost predicate IsOf(r: Record, email: string) {
    email != "" && Lower(Strip(r.email)) == email
  }

  /** The first record of the email that has an image. */
  ghost predicate IsFirstImage(payload: seq<Record>, i: int, email: string)
    ensures IsFirstImage(payload, i, email) ==> 0 <= i < |payload|
  {
    && 0 <= i < |payload| && IsOf(payload[i], email) && payload[i].image != ""
    && forall j :: 0 <= j < i && IsOf(payload[j], email) ==> payload[j].image == ""
  }

  ghost predicate IsFirstRecord(payload: seq<Record>, i: int, email: string)
    ensures IsFirstRecord(payload, i, email) ==> 0 <= i < |payload|
  {
    0 <= i < |payload| && IsOf(payload[i], email) && forall j :: 0 <= j < i ==> !IsOf(payload[j], email)
  }

  /** The users are those before and those of the payload. A flag is set if it was, or if a record of the
      email sets it; the avatar is the one there was or the first image of the email; who is new was
      created when its first record says. */
  ghost predicate UsersImported(before: Users, payload: seq<Record>, after: Users) {
    && (forall e :: e in after <==> e in before || exists r :: r in payload && IsOf(r, e))
    && forall e :: e in after ==> IsImported(Lookup(before, e), payload, e, after[e])
  }

  ghost predicate IsImported(was: Option<User>, payload: seq<Record>, e: string, u: User) {
    && (u.emailVerified <==>
         (was.Some? && was.value.emailVerified) || exists r :: r in payload && IsOf(r, e) && r.emailVerified)
    && (u.isAdmin <==>
         (was.Some? && was.value.isAdmin) || exists r :: r in payload && IsOf(r, e) && Lower(r.role) == "admin")
    && (was.Some? ==> u.createdAt == was.value.createdAt)
    && (was.None? ==> exists i :: IsFirstRecord(payload, i, e) && u.createdAt == payload[i].createdAt)
    && (Given(was) ==> u.avatarUrl == was.value.avatarUrl)
    && (!Given(was) && (exists i :: IsFirstImage(payload, i, e)) ==>
         exists i :: IsFirstImage(payload, i, e) && u.avatarUrl == Some(payload[i].image))
    && (!Given(was) && !(exists i :: IsFirstImage(payload, i, e)) ==>
         u.avatarUrl == if was.Some? then was.value.avatarUrl else None)
  }

  /** The user had an avatar. */
  ghost predicate Given(was: Option<User>) {
    was.Some? && was.value.avatarUrl.Some? && was.value.avatarUrl.value != ""
  }

  /** What the payload must be like. */
  ghost predicate MayImport(before: Users, payload: seq<Record>) {
    && (forall r, e :: r in payload && IsOf(r, e) ==>
         '\0' !in e && (e in before || (|e| <= 320 && forall u :: u in before ==> Lower(u) != e)))
    && forall i, e :: IsFirstImage(payload, i, e) && !Given(Lookup(before, e)) ==> '\0' !in payload[i].image
  }

  lemma OfInColumns(payload: seq<Record>, e: string)
    requires e != ""
    ensures forall r :: r in Of(e, payload) <==> r in payload && IsOf(r, e)
  {
    hide Lower, Strip;
    forall r | r in payload && IsOf(r, e) ensures r in Of(e, payload) {
      OfContains(payload, r);
    }
    forall r | r in Of(e, payload) ensures r in payload && IsOf(r, e) {
      OfContains(payload, r);
    }
  }

  /** What the next record does to the first image. */
  lemma FirstImageSnocIff(most: seq<Record>, last: Record, e: string, i: int)
    ensures IsFirstImage(most + [last], i, e) <==>
      if i == |most| then IsOf(last, e) && last.image != "" && !exists k :: IsFirstImage(most, k, e)
      else IsFirstImage(most, i, e)
  {
    hide IsOf;
    var payload := most + [last];
    assert forall j :: 0 <= j < |most| ==> payload[j] == most[j];
    if i == |most| {
      if !exists k :: IsFirstImage(most, k, e) {
        NoFirstImage(most, e);
      }
    }
  }

  lemma FirstRecordSnoc(most: seq<Record>, last: Record, e: string, i: int)
    requires IsFirstRecord(most, i, e)
    ensures IsFirstRecord(most + [last], i, e) && (most + [last])[i] == most[i]
  {
    hide IsOf;
    assert forall j :: 0 <= j < |most| ==> (most + [last])[j] == most[j];
  }

  /** The closed form's first image, by its place in the payload. */
  lemma {:induction false} FirstImageInColumns(payload: seq<Record>, e: string)
    requires e != ""
    ensures forall i :: IsFirstImage(payload, i, e) ==> FirstImage(Of(e, payload)) == Some(payload[i].image)
    ensures FirstImage(Of(e, payload)).Some? ==> exists i :: IsFirstImage(payload, i, e)
    decreases |payload|
  {
    hide IsOf, FirstImage, IsFirstImage, Of;
    if payload == [] {
      NothingOf(e);
    } else {
      var most, last := payload[..|payload| - 1], payload[|payload| - 1];
      assert payload == most + [last];
      FirstImageInColumns(most, e);
      OfSnoc(e, most, last);
      OfIs(last, e);
      FirstImageSnoc(Of(e, most), last);
      forall i ensures IsFirstImage(payload, i, e) <==>
        if i == |most| then IsOf(last, e) && last.image != "" && !exists k :: IsFirstImage(most, k, e)
        else IsFirstImage(most, i, e)
      {
        FirstImageSnocIff(most, last, e, i);
      }
      if k :| IsFirstImage(most, k, e) {
        assert IsFirstImage(payload, k, e);
      } else if IsOf(last, e) && last.image != "" {
        assert IsFirstImage(payload, |most|, e);
      }
    }
  }

  lemma NothingOf(e: string)
    ensures FirstImage(Of(e, [])) == None
    ensures !exists i :: IsFirstImage([], i, e)
  {
  }

  lemma OfIs(r: Record, e: string)
    requires e != ""
    ensures IsOf(r, e) <==> Key(r) == e
  {
    hide Lower, Strip;
  }

  lemma {:induction false} FirstRecordInColumns(payload: seq<Record>, e: string)
    requires e != "" && Of(e, payload) != []
    ensures exists i :: IsFirstRecord(payload, i, e) && payload[i] == Of(e, payload)[0]
    decreases |payload|
  {
    hide IsOf, Key;
    var most, last := payload[..|payload| - 1], payload[|payload| - 1];
    assert payload == most + [last];
    OfSnoc(e, most, last);
    OfIs(last, e);
    if Of(e, most) != [] {
      FirstRecordInColumns(most, e);
      var i :| IsFirstRecord(most, i, e) && most[i] == Of(e, most)[0];
      FirstRecordSnoc(most, last, e, i);
    } else {
      OfInColumns(most, e);
      assert forall j :: 0 <= j < |most| ==> most[j] in most && most[j] == payload[j];
      assert IsFirstRecord(payload, |most|, e);
    }
  }

  lemma NoImage()
    ensures FirstImage([]) == None
  {
  }

  /** Without a first image there is none. */
  lemma {:induction false} NoFirstImage(payload: seq<Record>, e: string)
    requires !exists i :: IsFirstImage(payload, i, e)
    ensures forall j :: 0 <= j < |payload| && IsOf(payload[j], e) ==> payload[j].image == ""
  {
    hide IsOf;
    if payload != [] {
      var most := payload[..|payload| - 1];
      forall i | IsFirstImage(most, i, e) ensures IsFirstImage(payload, i, e) {
        assert forall j :: 0 <= j <= i ==> most[j] == payload[j];
      }
      NoFirstImage(most, e);
      assert forall j :: 0 <= j < |most| ==> most[j] == payload[j];
      assert !IsFirstImage(payload, |most|, e);
    }
  }

  lemma ImportedInColumns(before: Users, payload: seq<Record>, after: Users)
    requires ImportedInto(before, payload, after)
    ensures UsersImported(before, payload, after)
  {
    hide IsOf, IsImported;
    forall e ensures e in after <==> e in before || exists r :: r in payload && IsOf(r, e) {
      InAfterIff(before, payload, after, e);
    }
    forall e | e in after ensures IsImported(Lookup(before, e), payload, e, after[e]) {
      UserInColumns(before, payload, after, e);
    }
  }

  lemma InAfterIff(before: Users, payload: seq<Record>, after: Users, e: string)
    requires ImportedInto(before, payload, after)
    ensures e in after <==> e in before || exists r :: r in payload && IsOf(r, e)
  {
    hide Lower, Strip;
    if e == "" {
      assert Lookup(after, e) == Lookup(before, e);
    } else {
      assert Lookup(after, e) == Merged(Lookup(before, e), Of(e, payload));
      OfInColumns(payload, e);
      hide IsOf, Of;
      if Of(e, payload) != [] {
        assert Of(e, payload)[0] in Of(e, payload);
      }
    }
  }

  lemma UserInColumns(before: Users, payload: seq<Record>, after: Users, e: string)
    requires ImportedInto(before, payload, after) && e in after
    ensures IsImported(Lookup(before, e), payload, e, after[e])
  {
    if e == "" {
      assert Lookup(after, e) == Lookup(before, e);
      EmptyIsUnchanged(payload, after[e]);
    } else {
      assert Lookup(after, e) == Merged(Lookup(before, e), Of(e, payload));
      hide ImportedInto;
      MergedInColumns(Lookup(before, e), payload, e);
    }
  }

  lemma EmptyIsUnchanged(payload: seq<Record>, u: User)
    ensures IsImported(Some(u), payload, "", u)
  {
    hide Lower, Strip;
  }

  lemma MergedInColumns(was: Option<User>, payload: seq<Record>, e: string)
    requires e != "" && Merged(was, Of(e, payload)).Some?
    ensures IsImported(was, payload, e, Merged(was, Of(e, payload)).value)
  {
    hide IsOf, Of, FirstImage, Lower, IsFirstImage, IsFirstRecord, AnyVerified, AnyAdmin;
    var records := Of(e, payload);
    OfInColumns(payload, e);
    FirstImageInColumns(payload, e);
    if records == [] {
      NoImage();
    } else {
      FirstRecordInColumns(payload, e);
    }
    FlagsInColumns(records, payload, e);
  }

  lemma FlagsInColumns(records: seq<Record>, payload: seq<Record>, e: string)
    requires forall r :: r in records <==> r in payload && IsOf(r, e)
    ensures AnyVerified(records) <==> exists r :: r in payload && IsOf(r, e) && r.emailVerified
    ensures AnyAdmin(records) <==> exists r :: r in payload && IsOf(r, e) && Lower(r.role) == "admin"
  {
    hide IsOf, Lower;
  }

  lemma ConditionsInColumns(before: Users, payload: seq<Record>)
    ensures CanImport(before, payload) <==> MayImport(before, payload)
  {
    hide Refused, IsOf, GivesBadAvatar;
    forall r | r in payload
      ensures Refused(before, r) <==> !(forall e :: IsOf(r, e) ==>
        '\0' !in e && (e in before || (|e| <= 320 && forall u :: u in before ==> Lower(u) != e)))
    {
      RefusedInColumns(before, r);
    }
    BadAvatarInColumns(before, payload);
  }

  lemma RefusedInColumns(before: Users, r: Record)
    ensures Refused(before, r) <==> !(forall e :: IsOf(r, e) ==>
      '\0' !in e && (e in before || (|e| <= 320 && forall u :: u in before ==> Lower(u) != e)))
  {
    hide Strip, Lower;
    if Key(r) != "" {
      assert IsOf(r, Key(r));
    }
  }

  lemma BadAvatarInColumns(before: Users, payload: seq<Record>)
    ensures GivesBadAvatar(before, payload) <==>
      exists i, e :: IsFirstImage(payload, i, e) && !Given(Lookup(before, e)) && '\0' in payload[i].image
  {
    hide Strip, Lower, FirstImage, Of, Storable, IsFirstImage;
    forall r | r in payload && IsGivenBadAvatar(before, payload, Key(r))
      ensures exists i, e :: IsFirstImage(payload, i, e) && !Given(Lookup(before, e)) && '\0' in payload[i].image
    {
      FirstImageInColumns(payload, Key(r));
      var i :| IsFirstImage(payload, i, Key(r));
      GivenBadIs(before, payload, i, Key(r));
    }
    forall i, e | IsFirstImage(payload, i, e) && !Given(Lookup(before, e)) && '\0' in payload[i].image
      ensures GivesBadAvatar(before, payload)
    {
      FirstImageIsOf(payload, i, e);
      FirstImageInColumns(payload, e);
      GivenBadIs(before, payload, i, e);
      assert payload[i] in payload && Key(payload[i]) == e;
    }
  }

  lemma FirstImageIsOf(payload: seq<Record>, i: int, e: string)
    requires IsFirstImage(payload, i, e)
    ensures 0 <= i < |payload| && e != "" && Key(payload[i]) == e
  {
    hide Strip, Lower;
  }

  lemma GivenBadIs(before: Users, payload: seq<Record>, i: int, e: string)
    requires e != "" && IsFirstImage(payload, i, e) && FirstImage(Of(e, payload)) == Some(payload[i].image)
    ensures IsGivenBadAvatar(before, payload, e) <==> !Given(Lookup(before, e)) && '\0' in payload[i].image
  {
    hide Strip, Lower, FirstImage, Of;
  }

  /** A record is no news exactly if it leaves the users as they are. */
  lemma AbsorbedIff(users: Users, r: Record)
    ensures Absorbed(users, r) <==> Next(users, r) == users
  {
    hide Key, Updated;
  }

  // ---------------------------------------------------------------- the import

  class Session {
    var users: Users

    constructor (users: Users)
      ensures this.users == users
    {
      this.users := users;
    }

    /** The three updates of an existing user. */
    static method Update(user: User, raw: Record) returns (existing: User, changed: bool)
      ensures existing == Updated(Some(user), raw)
      ensures changed <==> existing != user
    {
      existing, changed := user, false;
      if raw.emailVerified && !existing.emailVerified {
        existing := existing.(emailVerified := true);
        changed := true;
      }
      if IsAdmin(raw) && !existing.isAdmin {
        existing := existing.(isAdmin := true);
        changed := true;
      }
      if raw.image != "" && !HasAvatar(existing.avatarUrl) {
        existing := existing.(avatarUrl := Some(raw.image));
        changed := true;
      }
    }

    /** One iteration: what happens to the row of the record's email. */
    static method ImportRecord(rows: Users, raw: Record) returns (after: Users, step: Step)
      ensures step == Failed <==> Refused(rows, raw) || HasBadImage(rows, raw)
      ensures step != Failed ==> after == Next(rows, raw) && |after| == |rows| + if step == Created then 1 else 0
      ensures step == Skipped ==> after == rows
      ensures step != Failed ==> (step == Skipped <==> Absorbed(rows, raw))
    {
      hide Lower, HasAvatar, Storable, Strip;
      after := rows;
      var email := Key(raw);
      if email == "" {
        return after, Skipped;
      }
      if !Storable(email) {
        return after, Failed;
      }
      if email !in rows {
        if IsRefusedInsert(rows, email) || !Storable(raw.image) {
          return after, Failed;
        }
        after := rows[email := User(raw.emailVerified, IsAdmin(raw), Image(raw), raw.createdAt)];
        return after, Created;
      }
      if !HasAvatar(rows[email].avatarUrl) && !Storable(raw.image) {
        return after, Failed;
      }
      var existing, changed := Update(rows[email], raw);
      after := rows[email := existing];
      step := if changed then Changed else Skipped;
    }

    /** The loop over the payload. */
    static method ImportRows(users: Users, payload: seq<Record>) returns (rows: Users, outcome: Outcome)
      ensures outcome.DatabaseError? ==> !CanImport(users, payload)
      ensures outcome.Done? ==> Progress(users, payload, rows, outcome.skipped)
      ensures outcome.Done? ==> outcome.created + outcome.updated + outcome.skipped == |payload|
      ensures outcome.Done? ==> |rows| == |users| + outcome.created
    {
      hide Progress, Refused, Absorbed, Next, GivesBadAvatar, HasBadImage;
      NothingImported(users);
      rows := users;
      var created, updated, skipped := 0, 0, 0;
      ghost var done := [];
      for i := 0 to |payload|
        invariant done == payload[..i]
        invariant created + updated + skipped == i && |rows| == |users| + created
        invariant Progress(users, done, rows, skipped)
      {
        ProgressStep(users, done, rows, skipped, payload[i]);
        var step: Step;
        rows, step := ImportRecord(rows, payload[i]);
        match step {
          case Failed =>
            assert payload[..i + 1] == done + [payload[i]];
            if GivesBadAvatar(users, payload[..i + 1]) {
              BadAvatarStays(users, payload, i + 1);
            }
            return rows, DatabaseError;
          case Created => created := created + 1;
          case Changed => updated := updated + 1;
          case Skipped => skipped := skipped + 1;
        }
        done := done + [payload[i]];
      }
      assert done == payload;
      outcome := Done(created, updated, skipped);
    }

    /** Fails, and commits nothing, exactly when a record's email cannot be looked up, or is missing from
        the users but present up to case, or too long, or when the first image for a user without an
        avatar cannot be stored. Otherwise the users are the closed form, every record is counted once,
        a record is skipped exactly when it was no news, and one is created for every new user. */
    method ImportUsers(payload: seq<Record>) returns (outcome: Outcome)
      modifies this
      ensures outcome.DatabaseError? <==> !CanImport(old(users), payload)
      ensures outcome.DatabaseError? ==> users == old(users)
      ensures outcome.Done? ==> ImportedInto(old(users), payload, users)
      ensures outcome.Done? ==> outcome.created + outcome.updated + outcome.skipped == |payload|
      ensures outcome.Done? ==> |users| == |old(users)| + outcome.created
      ensures outcome.Done? ==> outcome.skipped == NoNews(old(users), payload)
      ensures outcome.Done? ==> users == After(old(users), payload)
      ensures outcome.Done? <==> MayImport(old(users), payload)
      ensures outcome.Done? ==> UsersImported(old(users), payload, users)
    {
      ConditionsInColumns(users, payload);
      hide MayImport, UsersImported, ImportedInto, Refused, NoNews, After, GivesBadAvatar;
      var rows: Users;
      rows, outcome := ImportRows(users, payload);
      if outcome.Done? {
        ImportedInColumns(users, payload, rows);
        users := rows;
      }
    }
  }

  /** A second run of the same payload changes nothing and skips every record. */
  method ImportTwice(session: Session, payload: seq<Record>) returns (first: Outcome, second: Outcome)
    modifies session
    ensures first.DatabaseError? ==> second.DatabaseError? && session.users == old(session.users)
    ensures first.Done? ==> second == Done(0, 0, |payload|) && ImportedInto(old(session.users), payload, session.users)
  {
    hide ImportedInto, Absorbed, Refused, After, NoNews, GivesBadAvatar;
    ghost var before := session.users;
    first := session.ImportUsers(payload);
    ghost var middle := session.users;
    if first.Done? {
      forall r | r in payload ensures Absorbed(middle, r) && (Key(r) != "" ==> Storable(Key(r))) {
        ImportAbsorbs(before, payload, middle, r);
        NotRefused(before, r);
      }
      NothingNew(middle, payload);
      NoBadAvatarTwice(before, payload, middle);
    }
    second := session.ImportUsers(payload);
  }

  lemma NotRefused(users: Users, r: Record)
    requires !Refused(users, r)
    ensures Key(r) != "" ==> Storable(Key(r))
  {
  }
}
