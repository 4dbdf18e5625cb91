/** The scope rewriting at the end of `2024-12-10-1357_migrate_to_customers.py`: the removed user
    scopes of a token are replaced by customer portal scopes. */
module TokenScopes {
  import opened Sql
  import opened Text

  predicate IsRemoved(p: string) {
    p in {
      "user:benefits:read", "user:orders:read", "user:subscriptions:read", "user:subscriptions:write",
      "user:downloadables:read", "user:advertisement_campaigns:read", "user:advertisement_campaigns:write",
      "user:license_keys:read"
    }
  }

  predicate IsWriting(p: string) {
    p in {"user:subscriptions:write", "user:advertisement_campaigns:write"}
  }

  function PortalRead(): string { "customer_portal:read" }

  function PortalWrite(): string { "customer_portal:write" }

  /** regexp_split_to_table(scope, '\s+'). A leading or trailing blank yields an empty piece. */
  function Split(s: string): (pieces: seq<string>)
    ensures pieces != []
    decreases |s|
  {
    var w := Word(s);
    if w == s then [s] else [w] + Split(SkipBlanks(s[|w| + 1..]))
  }

  lemma {:induction false} PiecesHaveNoBlanks(s: string)
    ensures forall p :: p in Split(s) ==> NoBlanks(p)
    decreases |s|
  {
    var w := Word(s);
    if w != s {
      PiecesHaveNoBlanks(SkipBlanks(s[|w| + 1..]));
    }
  }

  /** The scopes a text stands for. */
  function Scopes(s: string): set<string> {
    set p | p in Split(s) && p != ""
  }

  function Kept(pieces: seq<string>): seq<string> {
    if pieces == [] then []
    else if IsRemoved(pieces[0]) then Kept(pieces[1..])
    else [pieces[0]] + Kept(pieces[1..])
  }

  /** string_agg(pieces, ' '). */
  function Join(pieces: seq<string>): string {
    if pieces == [] then ""
    else if |pieces| == 1 then pieces[0]
    else pieces[0] + " " + Join(pieces[1..])
  }

  /** string_agg has no ORDER BY: the pieces come in some order. */
  type Order = seq<string> -> seq<string>

  ghost predicate Permutes(order: Order) {
    forall s: seq<string> :: multiset(order(s)) == multiset(s)
  }

  predicate HasRemoved(s: string) {
    exists p :: p in Split(s) && IsRemoved(p)
  }

  predicate HasWriting(s: string) {
    exists p :: p in Split(s) && IsWriting(p)
  }

  /** The join with user_scope and the GROUP BY leave no row for a token without a removed scope,
      or without any piece to keep. */
  predicate IsRewritten(s: string) {
    HasRemoved(s) && Kept(Split(s)) != []
  }

  /** The new scope of a token. */
  function Rewrite(s: string, order: Order): string {
    if !IsRewritten(s) then s
    else
      var kept := Join(order(Kept(Split(s))));
      if HasWriting(s) then kept + " " + PortalRead() + " " + PortalWrite() else kept + " " + PortalRead()
  }

  // ---------------------------------------------------------------- splitting what was joined

  /** A word that a blank follows is the first piece; the blanks after it are one separator. */
  lemma SplitAt(w: string, c: char, rest: string)
    requires NoBlanks(w) && IsBlank(c)
    ensures Split(w + [c] + rest) == [w] + Split(SkipBlanks(rest))
  {
    var s := w + [c] + rest;
    assert s == w + ([c] + rest);
    WordIs(w, [c] + rest);
    assert s[|w| + 1..] == rest;
    hide IsBlank, NoBlanks, SkipBlanks, Word;
  }

  lemma ScopesAt(w: string, c: char, rest: string)
    requires NoBlanks(w) && IsBlank(c)
    ensures Scopes(w + [c] + rest) == (if w == "" then {} else {w}) + Scopes(SkipBlanks(rest))
  {
    SplitAt(w, c, rest);
    var tail := Split(SkipBlanks(rest));
    hide Split, SkipBlanks, NoBlanks, IsBlank;
    assert forall p :: p in [w] + tail <==> p == w || p in tail;
  }

  lemma ScopesSkipBlanks(s: string)
    ensures Scopes(SkipBlanks(s)) == Scopes(s)
  {
    if s != "" && IsBlank(s[0]) {
      ScopesAt("", s[0], s[1..]);
      assert "" + [s[0]] + s[1..] == s;
      hide Scopes;
    }
  }

  lemma ScopesOfCons(w: string, rest: string)
    requires NoBlanks(w)
    ensures Scopes(w + " " + rest) == (if w == "" then {} else {w}) + Scopes(rest)
  {
    hide Scopes;
    ScopesAt(w, ' ', rest);
    ScopesSkipBlanks(rest);
  }

  function WordSet(pieces: seq<string>): set<string> {
    set p | p in pieces && p != ""
  }

  lemma {:induction false} ScopesOfJoin(pieces: seq<string>, rest: string)
    requires pieces != [] && forall p :: p in pieces ==> NoBlanks(p)
    ensures Scopes(Join(pieces) + " " + rest) == WordSet(pieces) + Scopes(rest)
  {
    if |pieces| == 1 {
      ScopesOfCons(pieces[0], rest);
    } else {
      assert Join(pieces) + " " + rest == pieces[0] + " " + (Join(pieces[1..]) + " " + rest);
      ScopesOfJoin(pieces[1..], rest);
      ScopesOfCons(pieces[0], Join(pieces[1..]) + " " + rest);
      assert forall p :: p in pieces <==> p == pieces[0] || p in pieces[1..];
    }
  }

  lemma ScopesOfWord(w: string)
    requires NoBlanks(w) && w != ""
    ensures Scopes(w) == {w}
  {
    WordIs(w, "");
    assert w + "" == w;
  }

  lemma ScopesOfJoinAndTwo(pieces: seq<string>, r: string, w: string)
    requires pieces != [] && forall p :: p in pieces ==> NoBlanks(p)
    requires NoBlanks(r) && r != "" && NoBlanks(w) && w != ""
    ensures Scopes(Join(pieces) + " " + r) == WordSet(pieces) + {r}
    ensures Scopes(Join(pieces) + " " + r + " " + w) == WordSet(pieces) + {r, w}
  {
    hide Scopes, NoBlanks, Join, WordSet;
    ScopesOfWord(r);
    ScopesOfWord(w);
    ScopesOfJoin(pieces, r);
    ScopesOfJoin(pieces, r + " " + w);
    ScopesOfCons(r, w);
    assert Join(pieces) + " " + r + " " + w == Join(pieces) + " " + (r + " " + w);
  }

  lemma {:induction false} KeptIs(pieces: seq<string>)
    ensures forall p :: p in Kept(pieces) <==> p in pieces && !IsRemoved(p)
    ensures Kept(pieces) != [] <==> exists p :: p in pieces && !IsRemoved(p)
  {
    hide IsRemoved;
    if pieces != [] {
      KeptIs(pieces[1..]);
      assert pieces[0] in pieces;
      if Kept(pieces) != [] {
        assert Kept(pieces)[0] in Kept(pieces);
      }
    }
  }

  lemma KnownScopes()
    ensures !IsRemoved("") && !IsRemoved(PortalRead()) && !IsRemoved(PortalWrite())
    ensures forall p :: IsWriting(p) ==> IsRemoved(p)
    ensures PortalRead() != "" && PortalWrite() != "" && NoBlanks(PortalRead()) && NoBlanks(PortalWrite())
  {
  }

  // ---------------------------------------------------------------- what the rewriting does

  function KeptScopes(s: string): set<string> {
    set p | p in Scopes(s) && !IsRemoved(p)
  }

  function PortalScopes(s: string): set<string> {
    {PortalRead()} + if exists p :: p in Scopes(s) && IsWriting(p) then {PortalWrite()} else {}
  }

  /** A rewritten token has its kept scopes, the portal's read scope, and the portal's write scope
      exactly when a removed scope was a writing one. Every other token keeps its very text. */
  lemma RewrittenScopes(s: string, order: Order)
    requires Permutes(order)
    ensures if IsRewritten(s) then Scopes(Rewrite(s, order)) == KeptScopes(s) + PortalScopes(s)
      else Rewrite(s, order) == s
  {
    if IsRewritten(s) {
      KnownScopes();
      var pieces := order(Kept(Split(s)));
      KeptPieces(s, order);
      hide IsRemoved, IsWriting, NoBlanks, Split, Kept, Permutes, PortalRead, PortalWrite, Scopes;
      ScopesOfJoinAndTwo(pieces, PortalRead(), PortalWrite());
    }
  }

  lemma KeptPieces(s: string, order: Order)
    requires Permutes(order) && Kept(Split(s)) != []
    ensures order(Kept(Split(s))) != [] && forall p :: p in order(Kept(Split(s))) ==> NoBlanks(p)
    ensures WordSet(order(Kept(Split(s)))) == KeptScopes(s)
    ensures HasWriting(s) <==> exists p :: p in Scopes(s) && IsWriting(p)
  {
    KnownScopes();
    hide IsRemoved, IsWriting, NoBlanks;
    PiecesHaveNoBlanks(s);
    KeptIs(Split(s));
    SamePieces(Kept(Split(s)), order(Kept(Split(s))));
    if HasWriting(s) {
      var p :| p in Split(s) && IsWriting(p);
      assert p in Scopes(s);
    }
  }

  lemma SamePieces(a: seq<string>, b: seq<string>)
    requires multiset(a) == multiset(b)
    ensures |a| == |b| && forall p :: p in a <==> p in b
  {
    assert |multiset(a)| == |a| && |multiset(b)| == |b|;
    assert forall p :: p in multiset(a) <==> p in a;
    assert forall p :: p in multiset(b) <==> p in b;
  }

  /** Removed scopes survive exactly in the tokens that consist of removed scopes only. */
  lemma RemovedScopesSurviveIff(s: string, order: Order)
    requires Permutes(order)
    ensures HasRemoved(Rewrite(s, order)) <==> forall p :: p in Split(s) ==> IsRemoved(p)
  {
    KeptIs(Split(s));
    assert Split(s)[0] in Split(s);
    if IsRewritten(s) {
      NoRemovedScopeLeft(s, order);
    }
  }

  function OrdersRead(): string { "user:orders:read" }

  /** A token that only had a removed scope keeps it. */
  lemma OnlyRemovedScopeSurvives(order: Order)
    ensures Rewrite(OrdersRead(), order) == OrdersRead() && HasRemoved(OrdersRead())
  {
    hide Rewrite, HasRemoved, Split, Word;
    OneRemovedScope(OrdersRead(), order);
  }

  lemma OneRemovedScope(w: string, order: Order)
    requires NoBlanks(w) && IsRemoved(w)
    ensures Rewrite(w, order) == w && HasRemoved(w)
  {
    hide IsRemoved, NoBlanks;
    WordIs(w, "");
    assert w + "" == w;
    assert Split(w) == [w];
    assert w in Split(w);
    assert [w][1..] == [] && Kept([w]) == Kept([]);
  }

  lemma NoRemovedScopeLeft(s: string, order: Order)
    requires Permutes(order) && IsRewritten(s)
    ensures !HasRemoved(Rewrite(s, order))
  {
    hide IsRemoved, IsRewritten, Permutes, Rewrite, Split, PortalRead, PortalWrite, NoBlanks, IsWriting;
    RewrittenScopes(s, order);
    KnownScopes();
    var t := Rewrite(s, order);
    forall p | p in Split(t) && p != "" ensures !IsRemoved(p) {
      assert p in Scopes(t);
    }
  }

  /** Running the statement again changes nothing, in whatever order it aggregates. */
  lemma RewriteTwice(s: string, first: Order, second: Order)
    requires Permutes(first) && Permutes(second)
    ensures Rewrite(Rewrite(s, first), second) == Rewrite(s, first)
  {
    RemovedScopesSurviveIff(s, first);
    KeptIs(Split(s));
  }

  // ---------------------------------------------------------------- in words

  ghost predicate IsObsolete(p: string) {
    || p == "user:benefits:read" || p == "user:orders:read" || p == "user:downloadables:read"
    || p == "user:subscriptions:read" || p == "user:subscriptions:write" || p == "user:license_keys:read"
    || p == "user:advertisement_campaigns:read" || p == "user:advertisement_campaigns:write"
  }

  ghost predicate MayWrite(p: string) {
    p == "user:subscriptions:write" || p == "user:advertisement_campaigns:write"
  }

  /** A token with an obsolete scope and another piece loses the obsolete ones and may read the portal; it
      may write to it if an obsolete one could write. Any other token is kept as it is. */
  ghost predicate IsRenewed(before: string, after: string) {
    if (exists p :: p in Split(before) && IsObsolete(p)) && (exists p :: p in Split(before) && !IsObsolete(p)) then
      forall p :: p in Scopes(after) <==>
        || (p in Scopes(before) && !IsObsolete(p))
        || p == "customer_portal:read"
        || (p == "customer_portal:write" && exists w :: w in Scopes(before) && MayWrite(w))
    else after == before
  }

  ghost predicate IsRenewedOrNull(before: Option<string>, after: Option<string>) {
    if before.None? then after.None? else after.Some? && IsRenewed(before.value, after.value)
  }

  lemma RemovedIs(p: string)
    ensures IsRemoved(p) <==> IsObsolete(p)
  {
  }

  lemma WritingIs(p: string)
    ensures IsWriting(p) <==> MayWrite(p)
  {
  }

  lemma PortalIs()
    ensures PortalRead() == "customer_portal:read" && PortalWrite() == "customer_portal:write"
  {
  }

  lemma ReplacedIsRenewed(before: Option<string>, after: Option<string>)
    requires ReplacedScope(before, after)
    ensures IsRenewedOrNull(before, after)
  {
    hide IsRemoved, IsObsolete, IsWriting, MayWrite, Split, PortalRead, PortalWrite;
    PortalIs();
    if before.Some? {
      var s := before.value;
      forall p | p in Split(s) || p in Scopes(s)
        ensures (IsRemoved(p) <==> IsObsolete(p)) && (IsWriting(p) <==> MayWrite(p))
      {
        RemovedIs(p);
        WritingIs(p);
      }
      KeptIs(Split(s));
      if IsRewritten(s) {
        assert forall p :: p in KeptScopes(s) <==> p in Scopes(s) && !IsObsolete(p) by {
          KeptScopesAre(s);
        }
      }
    }
  }

  lemma KeptScopesAre(s: string)
    ensures forall p :: p in KeptScopes(s) <==> p in Scopes(s) && !IsObsolete(p)
  {
    hide IsRemoved, IsObsolete, Split;
    forall p ensures IsRemoved(p) <==> IsObsolete(p) {
      RemovedIs(p);
    }
  }

  /** The very text: the other pieces, in some order, and then the scopes of the portal. */
  lemma RewrittenText(s: string, order: Order)
    requires IsRewritten(s)
    ensures var kept := Join(order(Kept(Split(s))));
      Rewrite(s, order)
        == if HasWriting(s) then kept + " " + "customer_portal:read" + " " + "customer_portal:write"
           else kept + " " + "customer_portal:read"
  {
    hide IsRemoved, IsWriting, Split, Kept, Join, PortalRead, PortalWrite;
    PortalIs();
  }

  // ---------------------------------------------------------------- the statements

  /** The scope of every row, which may be NULL. */
  type Tokens = map<Uuid, Option<string>>

  /** client_metadata: the text in its field `scope`, if there is one, and its other fields. */
  datatype ClientMetadata = ClientMetadata(scope: Option<string>, others: map<string, string>)

  type Clients = map<Uuid, ClientMetadata>

  class Database {
    var personalAccessTokens: Tokens
    var oauth2Tokens: Tokens
    var oauth2Grants: Tokens
    var oauth2Clients: Clients

    constructor (personalAccessTokens: Tokens, oauth2Tokens: Tokens, oauth2Grants: Tokens, oauth2Clients: Clients)
      ensures this.personalAccessTokens == personalAccessTokens && this.oauth2Tokens == oauth2Tokens
      ensures this.oauth2Grants == oauth2Grants && this.oauth2Clients == oauth2Clients
    {
      this.personalAccessTokens, this.oauth2Tokens := personalAccessTokens, oauth2Tokens;
      this.oauth2Grants, this.oauth2Clients := oauth2Grants, oauth2Clients;
    }

    /** The four UPDATEs, which differ in where the scope is. */
    method ReplaceRemovedScopes(order: Order)
      requires Permutes(order)
      modifies this
      ensures Replaced(old(personalAccessTokens), personalAccessTokens)
      ensures Replaced(old(oauth2Tokens), oauth2Tokens)
      ensures Replaced(old(oauth2Grants), oauth2Grants)
      ensures ReplacedClients(old(oauth2Clients), oauth2Clients)
    {
      personalAccessTokens := ReplaceIn(personalAccessTokens, order);
      oauth2Tokens := ReplaceIn(oauth2Tokens, order);
      oauth2Grants := ReplaceIn(oauth2Grants, order);
      oauth2Clients := ReplaceInClients(oauth2Clients, order);
    }
  }

  /** A row without a scope gives no pieces, so that no aggregated row belongs to it. */
  function RewriteAny(scope: Option<string>, order: Order): Option<string> {
    if scope.None? then None else Some(Rewrite(scope.value, order))
  }

  lemma AnyIsReplaced(scope: Option<string>, order: Order)
    requires Permutes(order)
    ensures ReplacedScope(scope, RewriteAny(scope, order))
  {
    hide IsRewritten, Rewrite, Permutes, KeptScopes, PortalScopes, Scopes;
    if scope.Some? {
      RewrittenScopes(scope.value, order);
    }
  }

  method ReplaceIn(tokens: Tokens, order: Order) returns (after: Tokens)
    requires Permutes(order)
    ensures Replaced(tokens, after)
  {
    hide ReplacedScope, RewriteAny, Permutes, IsRenewedOrNull;
    after := map t | t in tokens :: RewriteAny(tokens[t], order);
    forall t | t in tokens ensures IsRenewedOrNull(tokens[t], after[t]) {
      AnyIsReplaced(tokens[t], order);
      ReplacedIsRenewed(tokens[t], after[t]);
    }
  }

  method ReplaceInClients(clients: Clients, order: Order) returns (after: Clients)
    requires Permutes(order)
    ensures ReplacedClients(clients, after)
  {
    hide ReplacedScope, RewriteAny, Permutes, IsRenewedOrNull;
    after := map t | t in clients :: clients[t].(scope := RewriteAny(clients[t].scope, order));
    forall t | t in clients ensures IsRenewedOrNull(clients[t].scope, after[t].scope) {
      AnyIsReplaced(clients[t].scope, order);
      ReplacedIsRenewed(clients[t].scope, after[t].scope);
    }
  }

  ghost predicate ReplacedScope(before: Option<string>, after: Option<string>) {
    if before.Some? && IsRewritten(before.value) then
      after.Some? && Scopes(after.value) == KeptScopes(before.value) + PortalScopes(before.value)
    else after == before
  }

  ghost predicate Replaced(before: Tokens, after: Tokens) {
    after.Keys == before.Keys && forall t :: t in before ==> IsRenewedOrNull(before[t], after[t])
  }

  /** Only scopes change. */
  ghost predicate ReplacedClients(before: Clients, after: Clients) {
    && after.Keys == before.Keys
    && forall t :: t in before ==>
      after[t].others == before[t].others && IsRenewedOrNull(before[t].scope, after[t].scope)
  }
}
