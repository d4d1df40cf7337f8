/** Rotating refresh tokens: claims, grace recovery, and revocation of a reused family. */
module RefreshTokens {
  import opened Protocol
  import opened FiniteSets

  type TokenId = nat
  type UserId = nat
  type Time = int

  /** `born` counts the tokens issued before; no decision reads it, it only dates what a late query sees. */
  datatype Token = Token(user: UserId, expires: Time, revoked: Option<Time>, next: Option<TokenId>, born: nat)

  type Tokens = map<TokenId, Token>

  // ----- The replacement graph -----

  predicate Linked(tokens: Tokens, a: TokenId, b: TokenId) {
    a in tokens && b in tokens && (tokens[a].next == Some(b) || tokens[b].next == Some(a))
  }

  ghost predicate Path(tokens: Tokens, p: seq<TokenId>) {
    p != [] && p[0] in tokens && forall i :: 0 <= i < |p| - 1 ==> Linked(tokens, p[i], p[i + 1])
  }

  /** Connected by replacements, followed in either direction. */
  ghost predicate Connected(tokens: Tokens, a: TokenId, b: TokenId) {
    exists p :: Path(tokens, p) && p[0] == a && p[|p| - 1] == b
  }

  ghost predicate Closed(tokens: Tokens, family: set<TokenId>) {
    forall a, b :: a in family && Linked(tokens, a, b) ==> b in family
  }

  lemma ConnectedSelf(tokens: Tokens, a: TokenId)
    requires a in tokens
    ensures Connected(tokens, a, a)
  {
    assert Path(tokens, [a]);
    assert [a][0] == a && [a][|[a]| - 1] == a;
  }

  lemma ConnectedStep(tokens: Tokens, a: TokenId, b: TokenId, c: TokenId)
    requires Connected(tokens, a, b) && Linked(tokens, b, c)
    ensures Connected(tokens, a, c)
  {
    var p :| Path(tokens, p) && p[0] == a && p[|p| - 1] == b;
    var q := p + [c];
    assert Path(tokens, q) && q[0] == a && q[|q| - 1] == c;
  }

  lemma {:induction false} PathStaysInside(tokens: Tokens, p: seq<TokenId>, family: set<TokenId>, i: nat)
    requires Path(tokens, p) && p[0] in family && Closed(tokens, family) && i < |p|
    ensures p[i] in family
  {
    if i > 0 {
      PathStaysInside(tokens, p, family, i - 1);
      assert Linked(tokens, p[i - 1], p[i - 1 + 1]);
    }
  }

  lemma ClosedHoldsConnected(tokens: Tokens, family: set<TokenId>, a: TokenId, b: TokenId)
    requires a in family && Closed(tokens, family) && Connected(tokens, a, b)
    ensures b in family
  {
    var p :| Path(tokens, p) && p[0] == a && p[|p| - 1] == b;
    PathStaysInside(tokens, p, family, |p| - 1);
  }

  ghost function Family(tokens: Tokens, id: TokenId): (family: set<TokenId>)
    ensures forall b :: b in family <==> b in tokens && Connected(tokens, id, b)
  {
    set b | b in tokens && Connected(tokens, id, b)
  }

  lemma ConnectedIsToken(tokens: Tokens, a: TokenId, b: TokenId)
    requires Connected(tokens, a, b)
    ensures a in tokens && b in tokens
  {
    var p :| Path(tokens, p) && p[0] == a && p[|p| - 1] == b;
    if |p| > 1 {
      assert Linked(tokens, p[|p| - 2], p[|p| - 2 + 1]);
    }
  }

  lemma FamilyClosed(tokens: Tokens, id: TokenId)
    ensures Closed(tokens, Family(tokens, id))
    ensures id in tokens ==> id in Family(tokens, id)
  {
    forall a, b | a in Family(tokens, id) && Linked(tokens, a, b) ensures b in Family(tokens, id) {
      ConnectedStep(tokens, id, a, b);
    }
    if id in tokens {
      ConnectedSelf(tokens, id);
    }
  }

  // ----- The family search -----

  method Listed(s: set<TokenId>) returns (q: seq<TokenId>)
    ensures forall x :: x in q <==> x in s
  {
    q := [];
    var left := s;
    while left != {}
      invariant left <= s
      invariant forall x :: x in q <==> x in s && x !in left
      decreases |left|
    {
      var x :| x in left;
      q, left := q + [x], left - {x};
    }
  }

  /** A link of which at least one end with the `next` has been handled. */
  predicate Half(tokens: Tokens, left: set<TokenId>, a: TokenId, b: TokenId) {
    a in tokens && b in tokens
    && ((a !in left && tokens[a].next == Some(b)) || (b !in left && tokens[b].next == Some(a)))
  }

  ghost predicate Recorded(tokens: Tokens, left: set<TokenId>, neighbors: map<TokenId, set<TokenId>>) {
    && neighbors.Keys == tokens.Keys
    && (forall a, b :: a in tokens ==> (b in neighbors[a] <==> Half(tokens, left, a, b)))
  }

  method AddLink(neighbors: map<TokenId, set<TokenId>>, a: TokenId, b: TokenId) returns (after: map<TokenId, set<TokenId>>)
    requires a in neighbors && b in neighbors
    ensures after.Keys == neighbors.Keys
    ensures forall x, y :: x in neighbors ==>
      (y in after[x] <==> y in neighbors[x] || (x == a && y == b) || (x == b && y == a))
  {
    after := neighbors[a := neighbors[a] + {b}];
    after := after[b := after[b] + {a}];
  }

  /** Both directions of every replacement between the given tokens. */
  method Neighbors(tokens: Tokens) returns (neighbors: map<TokenId, set<TokenId>>)
    ensures neighbors.Keys == tokens.Keys
    ensures forall a, b :: a in tokens ==> (b in neighbors[a] <==> Linked(tokens, a, b))
  {
    neighbors := map id | id in tokens :: {};
    var left := tokens.Keys;
    while left != {}
      invariant left <= tokens.Keys && Recorded(tokens, left, neighbors)
      decreases |left|
    {
      var id :| id in left;
      ghost var before := left;
      left := left - {id};
      var next := tokens[id].next;
      forall a, b ensures Half(tokens, left, a, b) <==>
        Half(tokens, before, a, b) || (next.Some? && next.value in tokens && ((a == id && b == next.value) || (b == id && a == next.value)))
      {}
      if next.Some? && next.value in tokens {
        neighbors := AddLink(neighbors, id, next.value);
      }
    }
  }

  /** Everything found is connected, and a found token's links lead to something found. */
  ghost predicate Searching(tokens: Tokens, id: TokenId, family: set<TokenId>, remaining: seq<TokenId>) {
    && (id in family || id in remaining)
    && (forall x :: x in remaining || x in family ==> Connected(tokens, id, x))
    && (forall a, b :: a in family && Linked(tokens, a, b) ==> b in family || b in remaining)
  }

  lemma SearchStep(tokens: Tokens, id: TokenId, family: set<TokenId>, remaining: seq<TokenId>, candidate: TokenId, more: seq<TokenId>)
    requires Searching(tokens, id, family, remaining + [candidate])
    requires forall x :: x in more <==> Linked(tokens, candidate, x) && x !in family + {candidate}
    ensures Searching(tokens, id, family + {candidate}, remaining + more)
  {
    hide Connected, Linked;
    assert candidate in remaining + [candidate];
    forall x | x in more ensures Connected(tokens, id, x) {
      ConnectedStep(tokens, id, candidate, x);
    }
    assert forall x :: x in remaining ==> x in remaining + [candidate];
    assert forall x :: x in remaining + [candidate] ==> x in remaining || x == candidate;
  }

  /** The worklist search returns exactly the connected component, duplicates or not. */
  method FamilyIds(tokens: Tokens, id: TokenId) returns (family: set<TokenId>)
    ensures id !in tokens ==> family == {}
    ensures id in tokens ==> family == Family(tokens, id)
  {
    if id !in tokens {
      return {};
    }
    hide Connected, Linked;
    var neighbors := Neighbors(tokens);
    family := {};
    var remaining := [id];
    ConnectedSelf(tokens, id);
    while remaining != []
      invariant family <= tokens.Keys && Searching(tokens, id, family, remaining)
      decreases |tokens.Keys - family|, |remaining|
    {
      var candidate := remaining[|remaining| - 1];
      ghost var before := remaining;
      remaining := remaining[..|remaining| - 1];
      assert before == remaining + [candidate];
      assert candidate in before;
      ConnectedIsToken(tokens, id, candidate);
      if candidate in family {
        assert forall x :: x in before <==> x in remaining || x == candidate;
        continue;
      }
      ghost var left := tokens.Keys - family;
      var more := Listed(neighbors[candidate] - (family + {candidate}));
      SearchStep(tokens, id, family, remaining, candidate, more);
      family := family + {candidate};
      assert tokens.Keys - family == left - {candidate};
      remaining := remaining + more;
    }
    forall b | Connected(tokens, id, b) ensures b in family {
      assert Closed(tokens, family);
      ClosedHoldsConnected(tokens, family, id, b);
    }
  }

  // ----- What each committed transaction does -----

  datatype Step =
    | Issue(id: TokenId, user: UserId, expires: Time)
    | Rotate(id: TokenId, newId: TokenId, now: Time, expires: Time)
    | Recover(id: TokenId, newId: TokenId, now: Time, expires: Time)
    | Reuse(id: TokenId, now: Time)
    | RevokeUser(user: UserId, now: Time)

  predicate Claimable(tokens: Tokens, id: TokenId, now: Time) {
    id in tokens && tokens[id].revoked.None? && tokens[id].next.None? && tokens[id].expires > now
  }

  /** Revoked within the grace window, with an active replacement nobody has rotated yet. */
  predicate InGrace(tokens: Tokens, grace: nat, id: TokenId, now: Time) {
    && id in tokens && tokens[id].revoked.Some? && tokens[id].next.Some?
    && grace > 0 && 0 <= now - tokens[id].revoked.value <= grace
    && Claimable(tokens, tokens[id].next.value, now)
  }

  function Fresh(tokens: Tokens, user: UserId, expires: Time): Token {
    Token(user, expires, None, None, |tokens|)
  }

  function Replaced(tokens: Tokens, id: TokenId, newId: TokenId, now: Time, expires: Time): Tokens
    requires id in tokens
  {
    tokens[id := tokens[id].(revoked := Some(now), next := Some(newId))][newId := Fresh(tokens, tokens[id].user, expires)]
  }

  function RevokeAll(tokens: Tokens, ids: set<TokenId>, now: Time): Tokens {
    map id | id in tokens ::
      if id in ids && tokens[id].revoked.None? then tokens[id].(revoked := Some(now)) else tokens[id]
  }

  function TokensOf(tokens: Tokens, user: UserId): set<TokenId> {
    set id | id in tokens && tokens[id].user == user
  }

  predicate Enabled(tokens: Tokens, grace: nat, s: Step) {
    match s
    case Issue(id, user, expires) => id !in tokens
    case Rotate(id, newId, now, expires) => newId !in tokens && Claimable(tokens, id, now)
    case Recover(id, newId, now, expires) => newId !in tokens && InGrace(tokens, grace, id, now)
    case Reuse(id, now) => id in tokens && tokens[id].revoked.Some? && !InGrace(tokens, grace, id, now)
    case RevokeUser(user, now) => true
  }

  ghost function Apply(tokens: Tokens, grace: nat, s: Step): Tokens {
    if !Enabled(tokens, grace, s) then tokens
    else
      match s
      case Issue(id, user, expires) => tokens[id := Fresh(tokens, user, expires)]
      case Rotate(id, newId, now, expires) => Replaced(tokens, id, newId, now, expires)
      case Recover(id, newId, now, expires) => Replaced(tokens, tokens[id].next.value, newId, now, expires)
      case Reuse(id, now) => RevokeAll(tokens, Family(tokens, id), now)
      case RevokeUser(user, now) => RevokeAll(tokens, TokensOf(tokens, user), now)
  }

  ghost function Run(tokens: Tokens, grace: nat, steps: seq<Step>): Tokens {
    if steps == [] then tokens
    else Apply(Run(tokens, grace, steps[..|steps| - 1]), grace, steps[|steps| - 1])
  }

  // ----- Every family is a chain -----

  ghost predicate LinkOk(tokens: Tokens, id: TokenId)
    requires id in tokens
  {
    var t := tokens[id];
    && t.born < |tokens|
    && (t.next.Some? ==>
        t.revoked.Some? && t.next.value in tokens && tokens[t.next.value].user == t.user
        && t.born < tokens[t.next.value].born)
  }

  ghost predicate Chains(tokens: Tokens) {
    && (forall id :: id in tokens ==> LinkOk(tokens, id))
    && (forall a, b :: a in tokens && b in tokens && tokens[a].next.Some? && tokens[a].next == tokens[b].next ==> a == b)
  }

  lemma ReplacedKeepsChains(tokens: Tokens, id: TokenId, newId: TokenId, now: Time, expires: Time)
    requires Chains(tokens) && Claimable(tokens, id, now) && newId !in tokens
    ensures Chains(Replaced(tokens, id, newId, now, expires))
  {
    var after := Replaced(tokens, id, newId, now, expires);
    assert after.Keys == tokens.Keys + {newId};
    assert |after.Keys| == |tokens.Keys| + 1;
    forall t | t in after ensures LinkOk(after, t) {
      if t != newId {
        ReplacedKeepsLink(tokens, id, newId, now, expires, t);
      }
    }
    NewIsUnlinked(tokens, newId);
    hide LinkOk;
  }

  lemma ReplacedKeepsLink(tokens: Tokens, id: TokenId, newId: TokenId, now: Time, expires: Time, t: TokenId)
    requires t in tokens && LinkOk(tokens, t) && Claimable(tokens, id, now) && LinkOk(tokens, id) && newId !in tokens
    requires |Replaced(tokens, id, newId, now, expires)| == |tokens| + 1
    ensures LinkOk(Replaced(tokens, id, newId, now, expires), t)
  {
  }

  /** No token points to an id that does not exist. */
  lemma NewIsUnlinked(tokens: Tokens, newId: TokenId)
    requires Chains(tokens) && newId !in tokens
    ensures forall t :: t in tokens ==> tokens[t].next != Some(newId)
  {
    forall t | t in tokens ensures tokens[t].next != Some(newId) {
      assert LinkOk(tokens, t);
    }
  }

  lemma RevokeAllKeepsChains(tokens: Tokens, ids: set<TokenId>, now: Time)
    requires Chains(tokens)
    ensures Chains(RevokeAll(tokens, ids, now))
  {
    var after := RevokeAll(tokens, ids, now);
    assert after.Keys == tokens.Keys;
    forall t | t in after ensures LinkOk(after, t) {
      assert LinkOk(tokens, t);
    }
  }

  lemma ApplyKeepsChains(tokens: Tokens, grace: nat, s: Step)
    requires Chains(tokens)
    ensures Chains(Apply(tokens, grace, s))
  {
    hide Replaced, RevokeAll, Family, Claimable;
    if Enabled(tokens, grace, s) {
      match s
      case Issue(id, user, expires) => IssueKeepsChains(tokens, id, user, expires);
      case Rotate(id, newId, now, expires) => ReplacedKeepsChains(tokens, id, newId, now, expires);
      case Recover(id, newId, now, expires) => ReplacedKeepsChains(tokens, tokens[id].next.value, newId, now, expires);
      case Reuse(id, now) => RevokeAllKeepsChains(tokens, Family(tokens, id), now);
      case RevokeUser(user, now) => RevokeAllKeepsChains(tokens, TokensOf(tokens, user), now);
    }
  }

  lemma IssueKeepsChains(tokens: Tokens, id: TokenId, user: UserId, expires: Time)
    requires Chains(tokens) && id !in tokens
    ensures Chains(tokens[id := Fresh(tokens, user, expires)])
  {
    var after := tokens[id := Fresh(tokens, user, expires)];
    assert after.Keys == tokens.Keys + {id};
    forall t | t in after ensures LinkOk(after, t) {
      if t != id {
        assert LinkOk(tokens, t);
      }
    }
  }

  lemma {:induction false} RunKeepsChains(grace: nat, steps: seq<Step>)
    ensures Chains(Run(map[], grace, steps))
  {
    if steps != [] {
      RunKeepsChains(grace, steps[..|steps| - 1]);
      ApplyKeepsChains(Run(map[], grace, steps[..|steps| - 1]), grace, steps[|steps| - 1]);
    }
  }

  /** Each element is replaced by the following one. */
  ghost predicate IsChain(tokens: Tokens, c: seq<TokenId>) {
    && (forall i :: 0 <= i < |c| ==> c[i] in tokens)
    && (forall i :: 0 <= i < |c| - 1 ==> tokens[c[i]].next == Some(c[i + 1]))
  }

  lemma {:induction false} Forward(tokens: Tokens, id: TokenId) returns (c: seq<TokenId>)
    requires Chains(tokens) && id in tokens
    ensures IsChain(tokens, c) && c != [] && c[0] == id && tokens[c[|c| - 1]].next.None?
    decreases |tokens| - tokens[id].born
  {
    assert LinkOk(tokens, id);
    c := [id];
    if tokens[id].next.Some? {
      assert LinkOk(tokens, tokens[id].next.value);
      var rest := Forward(tokens, tokens[id].next.value);
      c := [id] + rest;
    }
  }

  lemma {:induction false} Backward(tokens: Tokens, id: TokenId) returns (c: seq<TokenId>)
    requires Chains(tokens) && id in tokens
    ensures IsChain(tokens, c) && c != [] && c[|c| - 1] == id
    ensures forall p :: p in tokens ==> tokens[p].next != Some(c[0])
    decreases tokens[id].born
  {
    c := [id];
    if p :| p in tokens && tokens[p].next == Some(id) {
      assert LinkOk(tokens, p);
      var rest := Backward(tokens, p);
      c := rest + [id];
    }
  }

  lemma {:induction false} BornGrows(tokens: Tokens, c: seq<TokenId>, i: nat, j: nat)
    requires Chains(tokens) && IsChain(tokens, c) && i < j < |c|
    ensures tokens[c[i]].born < tokens[c[j]].born
    decreases j
  {
    assert LinkOk(tokens, c[j - 1]);
    assert tokens[c[j - 1]].next == Some(c[j - 1 + 1]);
    if i < j - 1 {
      BornGrows(tokens, c, i, j - 1);
    }
  }

  lemma {:induction false} ChainIsConnected(tokens: Tokens, c: seq<TokenId>, i: nat, j: nat)
    requires IsChain(tokens, c) && i < |c| && j < |c|
    ensures Connected(tokens, c[i], c[j])
    decreases if i <= j then j - i else i - j
  {
    if i == j {
      ConnectedSelf(tokens, c[i]);
    } else if i < j {
      ChainIsConnected(tokens, c, i, j - 1);
      assert tokens[c[j - 1]].next == Some(c[j - 1 + 1]);
      ConnectedStep(tokens, c[i], c[j - 1], c[j]);
    } else {
      ChainIsConnected(tokens, c, i, j + 1);
      assert tokens[c[j]].next == Some(c[j + 1]);
      ConnectedStep(tokens, c[i], c[j + 1], c[j]);
    }
  }

  /** A family is one simple chain; all its tokens but the last are revoked. */
  lemma FamilyIsChain(tokens: Tokens, id: TokenId) returns (c: seq<TokenId>)
    requires Chains(tokens) && id in tokens
    ensures IsChain(tokens, c) && c != [] && tokens[c[|c| - 1]].next.None?
    ensures forall i, j :: 0 <= i < j < |c| ==> c[i] != c[j]
    ensures forall b :: b in c <==> b in Family(tokens, id)
    ensures forall b :: b in Family(tokens, id) && tokens[b].revoked.None? ==> b == c[|c| - 1]
  {
    var back := Backward(tokens, id);
    var front := Forward(tokens, id);
    c := back + front[1..];
    var at := |back| - 1;
    assert c[at] == id;
    forall i | 0 <= i < |c| - 1 ensures tokens[c[i]].next == Some(c[i + 1]) {
      if i >= at {
        assert c[i] == front[i - at] && c[i + 1] == front[i - at + 1];
      } else {
        assert c[i] == back[i] && c[i + 1] == back[i + 1];
      }
    }
    assert IsChain(tokens, c);
    assert c[|c| - 1] == front[|front| - 1];
    forall i, j | 0 <= i < j < |c| ensures c[i] != c[j] {
      BornGrows(tokens, c, i, j);
    }
    var all := set x | x in c;
    forall a, b | a in all && Linked(tokens, a, b) ensures b in all {
      ChainClosed(tokens, c, a, b);
    }
    forall b | b in Family(tokens, id) ensures b in c {
      ClosedHoldsConnected(tokens, all, id, b);
    }
    forall b | b in c ensures b in Family(tokens, id) {
      var j :| 0 <= j < |c| && c[j] == b;
      ChainIsConnected(tokens, c, at, j);
    }
    forall i | 0 <= i < |c| - 1 ensures tokens[c[i]].revoked.Some? {
      assert tokens[c[i]].next == Some(c[i + 1]) && LinkOk(tokens, c[i]);
    }
  }

  lemma ChainClosed(tokens: Tokens, c: seq<TokenId>, a: TokenId, b: TokenId)
    requires Chains(tokens) && IsChain(tokens, c) && c != [] && tokens[c[|c| - 1]].next.None?
    requires forall p :: p in tokens ==> tokens[p].next != Some(c[0])
    requires a in c && Linked(tokens, a, b)
    ensures b in c
  {
    var i :| 0 <= i < |c| && c[i] == a;
    if tokens[a].next == Some(b) {
      assert i < |c| - 1;
      assert b == c[i + 1];
    } else {
      assert i > 0;
      assert tokens[c[i - 1]].next == Some(c[i - 1 + 1]);
      assert b == c[i - 1];
    }
  }

  // ----- Revocation -----

  /** The token a step presents and gets accepted. */
  predicate Accepts(tokens: Tokens, grace: nat, s: Step, id: TokenId) {
    Enabled(tokens, grace, s) && (s.Rotate? || s.Recover?) && s.id == id
  }

  ghost predicate Dead(tokens: Tokens, family: set<TokenId>) {
    && family <= tokens.Keys && Closed(tokens, family)
    && forall id :: id in family ==> tokens[id].revoked.Some?
  }

  lemma ReuseKills(tokens: Tokens, grace: nat, id: TokenId, now: Time)
    requires Enabled(tokens, grace, Reuse(id, now))
    ensures Dead(Apply(tokens, grace, Reuse(id, now)), Family(tokens, id)) && id in Family(tokens, id)
  {
    FamilyClosed(tokens, id);
    var after := Apply(tokens, grace, Reuse(id, now));
    forall a, b | Linked(after, a, b) ensures Linked(tokens, a, b) {}
  }

  /** Revoking a reused family changes no token of any other family. */
  lemma ReuseIsLocal(tokens: Tokens, grace: nat, id: TokenId, now: Time, other: TokenId)
    requires other in tokens && !Connected(tokens, id, other)
    ensures var after := Apply(tokens, grace, Reuse(id, now)); other in after && after[other] == tokens[other]
    ensures forall b :: Connected(tokens, other, b) ==> !Connected(tokens, id, b)
  {
    forall b | Connected(tokens, other, b) && Connected(tokens, id, b) ensures false {
      ConnectedBack(tokens, other, b);
      FamilyClosed(tokens, id);
      ConnectedIsToken(tokens, id, b);
      ClosedHoldsConnected(tokens, Family(tokens, id), b, other);
    }
  }

  lemma ConnectedBack(tokens: Tokens, a: TokenId, b: TokenId)
    requires Connected(tokens, a, b)
    ensures Connected(tokens, b, a)
  {
    ConnectedIsToken(tokens, a, b);
    ConnectedSelf(tokens, b);
    var p :| Path(tokens, p) && p[0] == a && p[|p| - 1] == b;
    PathBack(tokens, p, 0);
  }

  lemma {:induction false} PathBack(tokens: Tokens, p: seq<TokenId>, i: nat)
    requires Path(tokens, p) && i < |p|
    ensures Connected(tokens, p[|p| - 1], p[i])
    decreases |p| - i
  {
    if i == |p| - 1 {
      if i > 0 {
        assert Linked(tokens, p[i - 1], p[i - 1 + 1]);
      }
      ConnectedSelf(tokens, p[i]);
    } else {
      PathBack(tokens, p, i + 1);
      assert Linked(tokens, p[i], p[i + 1]);
      ConnectedStep(tokens, p[|p| - 1], p[i + 1], p[i]);
    }
  }

  /** A dead family stays dead: no later step revives, extends or accepts any of its tokens. */
  lemma DeadStaysDead(tokens: Tokens, grace: nat, s: Step, family: set<TokenId>)
    requires Chains(tokens) && Dead(tokens, family)
    ensures Dead(Apply(tokens, grace, s), family)
    ensures forall id :: id in family ==> !Accepts(tokens, grace, s, id)
  {
    hide Family;
    var after := Apply(tokens, grace, s);
    if s.Recover? && s.id in family && s.id in tokens && tokens[s.id].next.Some? && tokens[s.id].next.value in tokens {
      assert Linked(tokens, s.id, tokens[s.id].next.value);
    }
    forall a, b | a in family && Linked(after, a, b) ensures b in family {
      DeadLinks(tokens, grace, s, family, a, b);
    }
  }

  lemma DeadLinks(tokens: Tokens, grace: nat, s: Step, family: set<TokenId>, a: TokenId, b: TokenId)
    requires Chains(tokens) && Dead(tokens, family) && a in family && Linked(Apply(tokens, grace, s), a, b)
    ensures b in family
  {
    hide Family;
    assert LinkOk(tokens, a);
    if b in tokens {
      assert LinkOk(tokens, b);
      assert Linked(tokens, a, b);
    }
  }

  lemma {:induction false} NeverAcceptedAgain(tokens: Tokens, grace: nat, steps: seq<Step>, family: set<TokenId>, n: nat)
    requires Chains(tokens) && Dead(tokens, family) && n < |steps|
    ensures Chains(Run(tokens, grace, steps[..n])) && Dead(Run(tokens, grace, steps[..n]), family)
    ensures forall id :: id in family ==> !Accepts(Run(tokens, grace, steps[..n]), grace, steps[n], id)
  {
    if n > 0 {
      NeverAcceptedAgain(tokens, grace, steps, family, n - 1);
      var before := Run(tokens, grace, steps[..n - 1]);
      assert steps[..n][..n - 1] == steps[..n - 1];
      DeadStaysDead(before, grace, steps[n - 1], family);
      ApplyKeepsChains(before, grace, steps[n - 1]);
    } else {
      assert steps[..0] == [];
    }
    DeadStaysDead(Run(tokens, grace, steps[..n]), grace, steps[n], family);
  }

  /** After a reuse outside the grace window, no token of that family is ever accepted again. */
  lemma ReuseIsFinal(grace: nat, history: seq<Step>, id: TokenId, now: Time, later: seq<Step>, n: nat)
    requires Enabled(Run(map[], grace, history), grace, Reuse(id, now)) && n < |later|
    ensures var reused := Run(map[], grace, history); var after := Apply(reused, grace, Reuse(id, now));
      forall b :: b in Family(reused, id) ==> !Accepts(Run(after, grace, later[..n]), grace, later[n], b)
  {
    var reused := Run(map[], grace, history);
    RunKeepsChains(grace, history);
    ReuseKills(reused, grace, id, now);
    ApplyKeepsChains(reused, grace, Reuse(id, now));
    NeverAcceptedAgain(Apply(reused, grace, Reuse(id, now)), grace, later, Family(reused, id), n);
  }

  // ----- The service -----

  ghost predicate IsReplacement(tokens: Tokens, id: TokenId) {
    exists c :: c in tokens && tokens[c].next == Some(id)
  }

  /** The locked tokens are all of one user's, seen at once or reached over a replacement. */
  ghost predicate LockedFrom(tokens: Tokens, user: UserId, seen: set<TokenId>, locked: Tokens) {
    && (forall id :: id in locked ==> id in tokens && locked[id] == tokens[id] && tokens[id].user == user)
    && (forall id :: id in seen && id in tokens && tokens[id].user == user ==> id in locked)
    && (forall id :: id in locked && id !in seen ==> IsReplacement(locked, id))
  }

  /** A snapshot that lags behind: it holds the tokens issued before some moment. */
  function IssuedBefore(tokens: Tokens, moment: nat): set<TokenId> {
    set id | id in tokens && tokens[id].born < moment
  }

  lemma LockedIsClosed(tokens: Tokens, user: UserId, moment: nat, locked: Tokens)
    requires Chains(tokens) && LockedFrom(tokens, user, IssuedBefore(tokens, moment), locked)
    requires forall id :: id in locked && locked[id].next.Some? ==> locked[id].next.value in locked
    ensures Closed(tokens, locked.Keys)
  {
    forall a, b | a in locked && Linked(tokens, a, b) ensures b in locked {
      assert LinkOk(tokens, a) && LinkOk(tokens, b);
    }
  }

  lemma SameFamily(tokens: Tokens, locked: Tokens, id: TokenId)
    requires Closed(tokens, locked.Keys) && id in locked
    requires forall x :: x in locked ==> x in tokens && locked[x] == tokens[x]
    ensures Family(locked, id) == Family(tokens, id)
  {
    FamilyClosed(locked, id);
    FamilyClosed(tokens, id);
    forall a, b | a in Family(locked, id) && Linked(tokens, a, b) ensures b in Family(locked, id) {
      assert b in locked.Keys && Linked(locked, a, b);
    }
    forall b | b in Family(tokens, id) ensures b in Family(locked, id) {
      ClosedHoldsConnected(tokens, Family(locked, id), id, b);
    }
    forall b | b in Family(locked, id) ensures b in Family(tokens, id) {
      assert Closed(locked, Family(tokens, id)) by {
        forall x, y | x in Family(tokens, id) && Linked(locked, x, y) ensures y in Family(tokens, id) {
          assert Linked(tokens, x, y);
        }
      }
      ClosedHoldsConnected(locked, Family(tokens, id), id, b);
    }
  }

  function OfUser(tokens: Tokens, ids: set<TokenId>, user: UserId): Tokens {
    map id | id in ids && id in tokens && tokens[id].user == user :: tokens[id]
  }

  /** Replacements of the newest tokens that are not among the known ones. */
  function Beyond(newest: Tokens, known: Tokens): set<TokenId> {
    set id | id in newest && newest[id].next.Some? && newest[id].next.value !in known :: newest[id].next.value
  }

  ghost predicate Following(tokens: Tokens, user: UserId, moment: nat, locked: Tokens, missing: set<TokenId>) {
    && LockedFrom(tokens, user, IssuedBefore(tokens, moment), locked)
    && (forall id :: id in missing ==> id !in locked && IsReplacement(locked, id))
    && (forall id :: id in locked && locked[id].next.Some? ==> locked[id].next.value in locked || locked[id].next.value in missing)
  }

  lemma MissingAreLinked(tokens: Tokens, user: UserId, moment: nat, locked: Tokens, missing: set<TokenId>, id: TokenId)
    requires Chains(tokens) && Following(tokens, user, moment, locked, missing) && id in missing
    ensures id in tokens && tokens[id].user == user
  {
    assert IsReplacement(locked, id);
    var c :| c in locked && locked[c].next == Some(id);
    assert LinkOk(tokens, c);
  }

  lemma ReplacementStays(a: Tokens, b: Tokens, id: TokenId)
    requires IsReplacement(a, id) && forall c :: c in a ==> c in b && b[c] == a[c]
    ensures IsReplacement(b, id)
  {
    var c :| c in a && a[c].next == Some(id);
    assert c in b && b[c].next == Some(id);
  }

  lemma BeyondIsReplaced(newest: Tokens, known: Tokens, id: TokenId)
    requires id in Beyond(newest, known)
    ensures IsReplacement(newest, id) && id !in known
  {
  }

  lemma FollowedOn(tokens: Tokens, user: UserId, moment: nat, locked: Tokens, missing: set<TokenId>, linked: Tokens)
    requires Chains(tokens) && Following(tokens, user, moment, locked, missing)
    requires linked == OfUser(tokens, missing, user)
    ensures Following(tokens, user, moment, locked + linked, Beyond(linked, locked + linked))
  {
    hide Chains, IsReplacement, IssuedBefore;
    var all := locked + linked;
    forall id | id in missing ensures id in linked {
      MissingAreLinked(tokens, user, moment, locked, missing, id);
    }
    forall id | id in all && id !in IssuedBefore(tokens, moment) ensures IsReplacement(all, id) {
      assert IsReplacement(locked, id);
      ReplacementStays(locked, all, id);
    }
    forall id | id in Beyond(linked, all) ensures IsReplacement(all, id) && id !in all {
      BeyondIsReplaced(linked, all, id);
      ReplacementStays(linked, all, id);
    }
  }

  lemma MissingUnlocked(tokens: Tokens, user: UserId, moment: nat, locked: Tokens, missing: set<TokenId>, linked: Tokens)
    requires Following(tokens, user, moment, locked, missing) && linked == OfUser(tokens, missing, user)
    ensures linked.Keys !! locked.Keys && linked.Keys <= tokens.Keys
  {
    hide IsReplacement;
  }

  lemma LockedGrows(tokens: Tokens, locked: Tokens, linked: Tokens)
    requires linked != map[] && linked.Keys <= tokens.Keys && linked.Keys !! locked.Keys
    ensures |tokens.Keys - (locked + linked).Keys| < |tokens.Keys - locked.Keys|
  {
    var found :| found in linked;
    assert found in tokens.Keys - locked.Keys && found !in tokens.Keys - (locked + linked).Keys;
    Smaller(tokens.Keys - (locked + linked).Keys, tokens.Keys - locked.Keys);
  }

  lemma FirstLocked(tokens: Tokens, user: UserId, moment: nat, locked: Tokens)
    requires locked == OfUser(tokens, IssuedBefore(tokens, moment), user)
    ensures Following(tokens, user, moment, locked, Beyond(locked, locked))
  {
    forall id | id in Beyond(locked, locked) ensures IsReplacement(locked, id) {
      BeyondIsReplaced(locked, locked, id);
    }
  }

  lemma AllFollowed(tokens: Tokens, user: UserId, moment: nat, locked: Tokens, missing: set<TokenId>)
    requires Chains(tokens) && Following(tokens, user, moment, locked, missing)
    requires missing == {} || OfUser(tokens, missing, user) == map[]
    ensures LockedFrom(tokens, user, IssuedBefore(tokens, moment), locked) && Closed(tokens, locked.Keys)
  {
    forall id | id in missing ensures id in OfUser(tokens, missing, user) {
      MissingAreLinked(tokens, user, moment, locked, missing, id);
    }
    LockedIsClosed(tokens, user, moment, locked);
  }

  datatype Recovery = Recovered | NotRevoked | Reused

  class Service {
    var tokens: Tokens
    const grace: nat

    constructor (grace: nat)
      ensures tokens == map[] && this.grace == grace && Chains(tokens)
    {
      tokens, this.grace := map[], grace;
    }

    method IssueToken(id: TokenId, user: UserId, expires: Time)
      requires id !in tokens
      modifies this
      ensures tokens == Apply(old(tokens), grace, Issue(id, user, expires))
    {
      tokens := tokens[id := Token(user, expires, None, None, |tokens|)];
    }

    /** One conditional update: revoke and link a still-active token. */
    method Claim(id: TokenId, replacement: TokenId, now: Time) returns (claimed: bool)
      modifies this
      ensures claimed == Claimable(old(tokens), id, now)
      ensures tokens == if claimed then old(tokens)[id := old(tokens)[id].(revoked := Some(now), next := Some(replacement))]
                        else old(tokens)
    {
      claimed := id in tokens && tokens[id].revoked.None? && tokens[id].next.None? && tokens[id].expires > now;
      if claimed {
        tokens := tokens[id := tokens[id].(revoked := Some(now), next := Some(replacement))];
      }
    }

    /** Claim a token and insert its replacement, in one transaction. */
    method ClaimAndInsert(id: TokenId, newId: TokenId, now: Time, expires: Time) returns (claimed: bool)
      requires newId !in tokens
      modifies this
      ensures claimed == Claimable(old(tokens), id, now)
      ensures tokens == if claimed then Replaced(old(tokens), id, newId, now, expires) else old(tokens)
    {
      var count := |tokens|;
      claimed := Claim(id, newId, now);
      if claimed {
        tokens := tokens[newId := Token(tokens[id].user, expires, None, None, count)];
      }
    }

    /** Load one user's tokens, then follow links the first query was too old to include. */
    method LockedUserTokens(user: UserId, moment: nat) returns (locked: Tokens)
      requires Chains(tokens)
      ensures LockedFrom(tokens, user, IssuedBefore(tokens, moment), locked) && Closed(tokens, locked.Keys)
    {
      locked := OfUser(tokens, IssuedBefore(tokens, moment), user);
      var missing := Beyond(locked, locked);
      FirstLocked(tokens, user, moment, locked);
      hide Chains, Following, LockedFrom, Closed, Beyond, OfUser, IssuedBefore;
      while missing != {}
        invariant Following(tokens, user, moment, locked, missing)
        decreases |tokens.Keys - locked.Keys|
      {
        var linked := OfUser(tokens, missing, user);
        if linked == map[] {
          break;
        }
        FollowedOn(tokens, user, moment, locked, missing, linked);
        MissingUnlocked(tokens, user, moment, locked, missing, linked);
        LockedGrows(tokens, locked, linked);
        locked := locked + linked;
        missing := Beyond(linked, locked);
      }
      AllFollowed(tokens, user, moment, locked, missing);
    }

    /** Recover one lost rotation response, or revoke the family of a reused token. */
    method RecoverOrRevoke(id: TokenId, now: Time, newId: TokenId, expires: Time, moment: nat) returns (r: Recovery)
      requires Chains(tokens) && id in tokens && newId !in tokens && tokens[id].born < moment
      modifies this
      ensures match r
        case Recovered => Accepts(old(tokens), grace, Recover(id, newId, now, expires), id)
                          && tokens == Apply(old(tokens), grace, Recover(id, newId, now, expires))
        case Reused => Enabled(old(tokens), grace, Reuse(id, now)) && tokens == Apply(old(tokens), grace, Reuse(id, now))
        case NotRevoked => old(tokens)[id].revoked.None? && tokens == old(tokens)
    {
      assert LinkOk(tokens, id);
      var locked := LockedUserTokens(tokens[id].user, moment);
      assert id in locked;
      var token := locked[id];
      if token.revoked.None? {
        return NotRevoked;
      }
      var age := now - token.revoked.value;
      var eligible := grace > 0 && 0 <= age <= grace && token.next.Some? && token.next.value in locked
        && locked[token.next.value].revoked.None? && locked[token.next.value].next.None?
        && locked[token.next.value].expires > now;
      if eligible {
        var claimed := ClaimAndInsert(token.next.value, newId, now, expires);
        return Recovered;
      }
      var family := FamilyIds(locked, id);
      SameFamily(tokens, locked, id);
      tokens := map t | t in tokens ::
        if t in family && tokens[t].revoked.None? then tokens[t].(revoked := Some(now)) else tokens[t];
      r := Reused;
    }

    /** Revoke each active token of the user in turn. */
    method RevokeUserTokens(user: UserId, now: Time) returns (count: nat)
      modifies this
      ensures tokens == Apply(old(tokens), grace, RevokeUser(user, now))
    {
      var active := set id | id in tokens && tokens[id].user == user && tokens[id].revoked.None?;
      count := 0;
      while active != {}
        invariant tokens.Keys == old(tokens).Keys && active <= tokens.Keys
        invariant forall id :: id in active ==> tokens[id] == old(tokens)[id] && tokens[id].user == user && tokens[id].revoked.None?
        invariant forall id :: id in tokens && id !in active ==> tokens[id] == RevokeAll(old(tokens), TokensOf(old(tokens), user), now)[id]
        decreases |active|
      {
        var id :| id in active;
        tokens := tokens[id := tokens[id].(revoked := Some(now))];
        active, count := active - {id}, count + 1;
      }
    }

    /** Whatever another transaction commits in between. */
    method Commit(s: Step)
      modifies this
      ensures tokens == Apply(old(tokens), grace, s)
    {
      if !Enabled(tokens, grace, s) {
        return;
      }
      match s
      case Issue(id, user, expires) => IssueToken(id, user, expires);
      case Rotate(id, newId, now, expires) =>
        var _ := ClaimAndInsert(id, newId, now, expires);
      case Recover(id, newId, now, expires) =>
        var _ := ClaimAndInsert(tokens[id].next.value, newId, now, expires);
      case Reuse(id, now) =>
        var family := FamilyIds(tokens, id);
        tokens := map t | t in tokens ::
          if t in family && tokens[t].revoked.None? then tokens[t].(revoked := Some(now)) else tokens[t];
      case RevokeUser(user, now) =>
        var _ := RevokeUserTokens(user, now);
    }

    /** Any number of other transactions. */
    method CommitAll(steps: seq<Step>)
      requires Chains(tokens)
      modifies this
      ensures tokens == Run(old(tokens), grace, steps) && Chains(tokens) && Older(old(tokens), tokens)
      ensures forall id :: id !in old(tokens) && NotMinted(steps, id) ==> id !in tokens
    {
      hide Chains, Apply, Older, NotMinted, Run;
      RunNothing(tokens, grace);
      OlderSelf(tokens);
      var i := 0;
      while i < |steps|
        invariant 0 <= i <= |steps| && tokens == Run(old(tokens), grace, steps[..i])
      {
        Commit(steps[i]);
        RunNext(old(tokens), grace, steps[..i], steps[i]);
        assert steps[..i + 1] == steps[..i] + [steps[i]];
        i := i + 1;
      }
      assert steps[..i] == steps;
      RunKeeps(old(tokens), grace, steps);
    }

    /** One attempt on a known token. `others` commit between its read and its claim or its locks. */
    method AttemptRotation(
      id: TokenId, active: set<UserId>, now: Time, lifetime: nat, newId: TokenId, moment: nat, others: seq<Step>)
      returns (r: Attempt, ghost steps: seq<Step>)
      requires Chains(tokens) && id in tokens && newId !in tokens && tokens[id].born < moment && NotMinted(others, newId)
      modifies this
      ensures Chains(tokens) && Older(old(tokens), tokens) && tokens == Run(old(tokens), grace, steps)
      ensures match r
        case Accepted =>
          |steps| == |others| + 1 && steps[..|others|] == others && Own(old(tokens), grace, steps, id, newId)
        case Refused => steps == others || steps == others + [Reuse(id, now)]
        case LostRace => steps == others
    {
      hide Chains, Family, RevokeAll, Enabled, Apply, Run, Own, Accepts, Older, Claimable, InGrace, Replaced, NotMinted;
      ghost var before := tokens;
      var rt := tokens[id];
      CommitAll(others);
      OlderKeeps(before, tokens, id);
      ghost var mid := tokens;
      steps := others;
      r := Refused;
      if rt.user !in active {
        return;
      }
      if rt.revoked.Some? {
        var recovery := RecoverOrRevoke(id, now, newId, now + lifetime, moment);
        match recovery
        case NotRevoked =>
          return LostRace, others;
        case Recovered =>
          ghost var own := Recover(id, newId, now, now + lifetime);
          OwnAfter(before, grace, others, own, id);
          return Attempt.Accepted, others + [own];
        case Reused =>
          OneAfter(before, grace, others, Reuse(id, now));
          return Refused, others + [Reuse(id, now)];
      }
      if rt.expires <= now {
        return;
      }
      var claimed := ClaimAndInsert(id, newId, now, now + lifetime);
      if !claimed {
        return LostRace, others;
      }
      ghost var own := Rotate(id, newId, now, now + lifetime);
      RotationApplies(mid, grace, id, newId, now, now + lifetime);
      OwnAfter(before, grace, others, own, id);
      r, steps := Attempt.Accepted, others + [own];
    }

    /** Up to three attempts: recover or revoke a revoked token, else claim it; a claim lost to
      * another transaction is tried again. Others commit before and within each attempt. */
    method RotateToken(
      presented: Option<TokenId>, active: set<UserId>, times: nat -> Time, lifetime: nat, newIds: nat -> TokenId,
      moments: nat -> nat, gaps: nat -> seq<Step>, others: nat -> seq<Step>)
      returns (accepted: Option<TokenId>, ghost steps: seq<Step>)
      requires Chains(tokens) && (presented.Some? ==> presented.value in tokens)
      requires forall i :: newIds(i) !in tokens && forall j :: NotMinted(gaps(j), newIds(i)) && NotMinted(others(j), newIds(i))
      requires presented.Some? ==> forall i :: tokens[presented.value].born < moments(i)
      modifies this
      ensures Chains(tokens) && tokens == Run(old(tokens), grace, steps)
      ensures accepted.Some? ==>
        presented.Some? && steps != [] && Own(old(tokens), grace, steps, presented.value, accepted.value)
        && forall s :: s in steps[..|steps| - 1] ==> Foreign(gaps, others, s)
      ensures accepted.None? ==>
        forall s :: s in steps ==> (presented.Some? && s.Reuse? && s.id == presented.value) || Foreign(gaps, others, s)
    {
      hide Chains, Own, Run, Accepts, Older, NotMinted, Foreign;
      steps := [];
      RunNothing(tokens, grace);
      OlderSelf(tokens);
      if presented.None? {
        return None, steps;
      }
      var id, attempt := presented.value, 0;
      while attempt < 3
        invariant Chains(tokens) && tokens == Run(old(tokens), grace, steps)
        invariant Older(old(tokens), tokens) && forall i :: newIds(i) !in tokens
        invariant forall s :: s in steps ==> Foreign(gaps, others, s)
      {
        ghost var first, so := tokens, steps + gaps(attempt);
        CommitAll(gaps(attempt));
        RunTwice(old(tokens), grace, steps, gaps(attempt));
        OlderTwice(old(tokens), first, tokens);
        OlderKeeps(old(tokens), tokens, id);
        AllForeign(gaps, others, attempt);
        ghost var before := tokens;
        var r;
        ghost var more;
        r, more := AttemptRotation(id, active, times(attempt), lifetime, newIds(attempt), moments(attempt), others(attempt));
        RunTwice(old(tokens), grace, so, more);
        OlderTwice(old(tokens), before, tokens);
        steps := so + more;
        match r
        case Accepted =>
          OwnLater(old(tokens), grace, so, more, id, newIds(attempt));
          assert steps[..|steps| - 1] == so + others(attempt);
          return Some(newIds(attempt)), steps;
        case Refused =>
          return None, steps;
        case LostRace =>
          RunMintsNone(before, grace, others(attempt));
          attempt := attempt + 1;
      }
      accepted := None;
    }
  }

  /** A step of another transaction, between two attempts or within one. */
  ghost predicate Foreign(gaps: nat -> seq<Step>, others: nat -> seq<Step>, s: Step) {
    exists i :: s in gaps(i) || s in others(i)
  }

  lemma AllForeign(gaps: nat -> seq<Step>, others: nat -> seq<Step>, i: nat)
    ensures forall s :: s in gaps(i) || s in others(i) ==> Foreign(gaps, others, s)
  {
  }

  datatype Attempt = Accepted | Refused | LostRace

  /** The last of these steps is the acceptance of the presented token, by rotation or recovery. */
  ghost predicate Own(tokens: Tokens, grace: nat, steps: seq<Step>, id: TokenId, newId: TokenId)
    requires steps != []
  {
    var last := steps[|steps| - 1];
    Accepts(Run(tokens, grace, steps[..|steps| - 1]), grace, last, id) && last.newId == newId
  }

  lemma RunNothing(tokens: Tokens, grace: nat)
    ensures Run(tokens, grace, []) == tokens
  {
  }

  lemma {:induction false} RunTwice(tokens: Tokens, grace: nat, a: seq<Step>, b: seq<Step>)
    ensures Run(tokens, grace, a + b) == Run(Run(tokens, grace, a), grace, b)
  {
    hide Apply;
    if b == [] {
      assert a + b == a;
    } else {
      assert (a + b)[..|a + b| - 1] == a + b[..|b| - 1];
      RunTwice(tokens, grace, a, b[..|b| - 1]);
    }
  }

  lemma OwnLater(tokens: Tokens, grace: nat, a: seq<Step>, b: seq<Step>, id: TokenId, newId: TokenId)
    requires b != [] && Own(Run(tokens, grace, a), grace, b, id, newId)
    ensures Own(tokens, grace, a + b, id, newId)
  {
    hide Accepts;
    assert (a + b)[..|a + b| - 1] == a + b[..|b| - 1];
    RunTwice(tokens, grace, a, b[..|b| - 1]);
  }

  /** No step issues this id. */
  ghost predicate NotMinted(steps: seq<Step>, id: TokenId) {
    forall s :: s in steps ==> NewId(s) != Some(id)
  }

  lemma OlderSelf(tokens: Tokens)
    ensures Older(tokens, tokens)
  {
  }

  lemma OlderTwice(a: Tokens, b: Tokens, c: Tokens)
    requires Older(a, b) && Older(b, c)
    ensures Older(a, c)
  {
  }

  lemma OlderKeeps(a: Tokens, b: Tokens, id: TokenId)
    requires Older(a, b) && id in a
    ensures id in b && b[id].user == a[id].user && b[id].born == a[id].born
  {
  }

  lemma {:induction false} RunKeeps(tokens: Tokens, grace: nat, steps: seq<Step>)
    requires Chains(tokens)
    ensures Chains(Run(tokens, grace, steps)) && Older(tokens, Run(tokens, grace, steps))
    ensures forall id :: id !in tokens && NotMinted(steps, id) ==> id !in Run(tokens, grace, steps)
  {
    hide Apply, Chains, Older;
    if steps == [] {
      OlderSelf(tokens);
    } else {
      var n := |steps| - 1;
      var mid := Run(tokens, grace, steps[..n]);
      RunKeeps(tokens, grace, steps[..n]);
      ApplyKeepsChains(mid, grace, steps[n]);
      ApplyKeepsOlder(tokens, mid, grace, steps[n]);
      forall id | id !in tokens && NotMinted(steps, id) ensures id !in Run(tokens, grace, steps) {
        assert NotMinted(steps[..n], id) && steps[n] in steps;
      }
    }
  }

  lemma RunMintsNone(tokens: Tokens, grace: nat, steps: seq<Step>)
    requires Chains(tokens)
    ensures forall id :: id !in tokens && NotMinted(steps, id) ==> id !in Run(tokens, grace, steps)
  {
    hide Run, Chains;
    RunKeeps(tokens, grace, steps);
  }

  /** One more step after those of the others. */
  lemma OneAfter(tokens: Tokens, grace: nat, others: seq<Step>, s: Step)
    requires Chains(tokens)
    ensures var after := Run(tokens, grace, others + [s]);
      after == Apply(Run(tokens, grace, others), grace, s) && Chains(after) && Older(tokens, after)
  {
    hide Apply, Chains;
    RunNext(tokens, grace, others, s);
    RunKeeps(tokens, grace, others + [s]);
  }

  lemma OwnAfter(tokens: Tokens, grace: nat, others: seq<Step>, own: Step, id: TokenId)
    requires Chains(tokens) && Accepts(Run(tokens, grace, others), grace, own, id)
    ensures var after := Run(tokens, grace, others + [own]);
      after == Apply(Run(tokens, grace, others), grace, own) && Chains(after) && Older(tokens, after)
    ensures Own(tokens, grace, others + [own], id, own.newId)
  {
    hide Apply, Chains, Run;
    OneAfter(tokens, grace, others, own);
    assert (others + [own])[..|others + [own]| - 1] == others;
  }

  lemma RotationApplies(tokens: Tokens, grace: nat, id: TokenId, newId: TokenId, now: Time, expires: Time)
    requires Claimable(tokens, id, now) && newId !in tokens
    ensures Accepts(tokens, grace, Rotate(id, newId, now, expires), id)
    ensures Apply(tokens, grace, Rotate(id, newId, now, expires)) == Replaced(tokens, id, newId, now, expires)
  {
  }

  function NewId(s: Step): Option<TokenId> {
    match s
    case Issue(id, _, _) => Some(id)
    case Rotate(_, newId, _, _) => Some(newId)
    case Recover(_, newId, _, _) => Some(newId)
    case _ => None
  }

  /** Tokens are never deleted and never change owner or age. */
  ghost predicate Older(a: Tokens, b: Tokens) {
    forall id :: id in a ==> id in b && b[id].user == a[id].user && b[id].born == a[id].born
  }

  lemma ApplyKeepsOlder(first: Tokens, tokens: Tokens, grace: nat, s: Step)
    requires Older(first, tokens)
    ensures Older(first, Apply(tokens, grace, s))
    ensures Apply(tokens, grace, s).Keys <= tokens.Keys + (if NewId(s).Some? then {NewId(s).value} else {})
  {
    hide Family;
  }

  lemma RunNext(tokens: Tokens, grace: nat, steps: seq<Step>, s: Step)
    ensures Run(tokens, grace, steps + [s]) == Apply(Run(tokens, grace, steps), grace, s)
  {
    assert (steps + [s])[..|steps + [s]| - 1] == steps;
  }
}
