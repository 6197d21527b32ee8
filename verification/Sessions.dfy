/** Shared betting sessions (`engine/account.go`, `engine/engine.go`): one client per provider and
    account name, kept open while some process holds it.

    Whether a dial succeeds is an input. A client is a number, given out in the order of dialling;
    `closed` records every call of a client's Close.
 */
module Sessions {
  import opened Clients
  import opened Wrappers

  datatype Session = Session(client: nat, holders: set<ProcessKey>)

  type Sessions = map<string, Session>

  /** One provider's sessions by account name, and how many clients it has dialled. */
  datatype Pool = Pool(sessions: Sessions, dials: nat)

  const NO_POOL := Pool(map[], 0)

  /** The account names a process bets with. */
  datatype Credentials = Credentials(betmatic: Option<string>, betfair: Option<string>)

  /** What a process bets through. */
  datatype Account = Account(betmatic: Option<nat>, betfair: Option<nat>)

  /** White space as Unicode has it. */
  predicate IsSpace(c: char) {
    || '\t' <= c <= '\r' || c == ' ' || c == '\U{85}' || c == '\U{A0}' || c == '\U{1680}'
    || '\U{2000}' <= c <= '\U{200A}' || c == '\U{2028}' || c == '\U{2029}' || c == '\U{202F}'
    || c == '\U{205F}' || c == '\U{3000}'
  }

  function TrimLeft(s: string): string {
    if s != [] && IsSpace(s[0]) then TrimLeft(s[1..]) else s
  }

  function TrimRight(s: string): string {
    if s != [] && IsSpace(s[|s| - 1]) then TrimRight(s[..|s| - 1]) else s
  }

  function Lower(s: string): string {
    seq(|s|, i requires 0 <= i < |s| => if 'A' <= s[i] <= 'Z' then s[i] - 'A' + 'a' else s[i])
  }

  /** The name a session is pooled under, so that spellings of one account share it. */
  function Alias(username: string): string {
    Lower(TrimRight(TrimLeft(username)))
  }

  // ----- which spellings are one account

  const SPACES := {
    '\t', '\n', '\U{0B}', '\U{0C}', '\r', ' ', '\U{85}', '\U{A0}', '\U{1680}', '\U{2000}', '\U{2001}', '\U{2002}',
    '\U{2003}', '\U{2004}', '\U{2005}', '\U{2006}', '\U{2007}', '\U{2008}', '\U{2009}', '\U{200A}', '\U{2028}',
    '\U{2029}', '\U{202F}', '\U{205F}', '\U{3000}'
  }

  /** The white space characters, one by one. */
  lemma SpacesListed(c: char)
    ensures IsSpace(c) <==> c in SPACES
  {}

  predicate Blank(s: string) {
    forall i :: 0 <= i < |s| ==> IsSpace(s[i])
  }

  /** The same letter, in either case, or the same other character. */
  predicate SameLetter(c: char, d: char) {
    || c == d
    || ('A' <= c <= 'Z' && 'a' <= d <= 'z' && d - c == 'a' - 'A')
    || ('A' <= d <= 'Z' && 'a' <= c <= 'z' && c - d == 'a' - 'A')
  }

  predicate SameLetters(a: string, b: string) {
    |a| == |b| && forall i :: 0 <= i < |a| ==> SameLetter(a[i], b[i])
  }

  /** `core` is what is left of a name without the blanks around it. */
  ghost predicate Core(name: string, core: string) {
    && (core != [] ==> !IsSpace(core[0]) && !IsSpace(core[|core| - 1]))
    && exists p, q :: Blank(p) && Blank(q) && name == p + core + q
  }

  /** Two spellings of one account: but for blanks around it and the case of its letters, one name. */
  ghost predicate SameAccount(u: string, v: string) {
    exists a, b :: Core(u, a) && Core(v, b) && SameLetters(a, b)
  }

  function Trimmed(s: string): string {
    TrimRight(TrimLeft(s))
  }

  lemma {:induction false} LeftTrimmed(s: string) returns (p: string)
    ensures Blank(p) && s == p + TrimLeft(s) && (TrimLeft(s) != [] ==> !IsSpace(TrimLeft(s)[0]))
  {
    p := [];
    if s != [] && IsSpace(s[0]) {
      var rest := LeftTrimmed(s[1..]);
      p := [s[0]] + rest;
    }
  }

  lemma {:induction false} RightTrimmed(s: string) returns (q: string)
    ensures Blank(q) && s == TrimRight(s) + q
    ensures TrimRight(s) != [] ==> !IsSpace(TrimRight(s)[|TrimRight(s)| - 1]) && TrimRight(s)[0] == s[0]
  {
    q := [];
    if s != [] && IsSpace(s[|s| - 1]) {
      var rest := RightTrimmed(s[..|s| - 1]);
      q := rest + [s[|s| - 1]];
    }
  }

  lemma TrimmedIsCore(s: string)
    ensures Core(s, Trimmed(s))
  {
    var p := LeftTrimmed(s);
    var q := RightTrimmed(TrimLeft(s));
    assert s == p + Trimmed(s) + q;
  }

  lemma {:induction false} BlankLeft(p: string, s: string)
    requires Blank(p)
    ensures TrimLeft(p + s) == TrimLeft(s)
  {
    if p == [] {
      assert p + s == s;
    } else {
      BlankLeft(p[1..], s);
      assert (p + s)[1..] == p[1..] + s;
    }
  }

  lemma {:induction false} BlankRight(s: string, q: string)
    requires Blank(q)
    ensures TrimRight(s + q) == TrimRight(s)
    decreases |q|
  {
    if q == [] {
      assert s + q == s;
    } else {
      var n := |q| - 1;
      BlankRight(s, q[..n]);
      assert (s + q)[..|s + q| - 1] == s + q[..n];
    }
  }

  lemma CoreIsTrimmed(s: string, core: string)
    requires Core(s, core)
    ensures core == Trimmed(s)
  {
    var p, q :| Blank(p) && Blank(q) && s == p + core + q;
    assert s == p + (core + q);
    BlankLeft(p, core + q);
    if core == [] {
      assert core + q == q == q + [];
      BlankLeft(q, []);
    } else {
      assert (core + q)[0] == core[0];
      BlankRight(core, q);
    }
  }

  lemma LowerIsCaseless(a: string, b: string)
    ensures Lower(a) == Lower(b) <==> SameLetters(a, b)
  {
    if Lower(a) == Lower(b) {
      assert |a| == |Lower(a)| == |b|;
      forall i | 0 <= i < |a| ensures SameLetter(a[i], b[i]) {
        assert Lower(a)[i] == Lower(b)[i];
      }
    }
  }

  /** Two names share a pooled session exactly when they are spellings of one account. */
  lemma AliasIsAccount(u: string, v: string)
    ensures Alias(u) == Alias(v) <==> SameAccount(u, v)
  {
    TrimmedIsCore(u);
    TrimmedIsCore(v);
    LowerIsCaseless(Trimmed(u), Trimmed(v));
    if SameAccount(u, v) {
      var a, b :| Core(u, a) && Core(v, b) && SameLetters(a, b);
      CoreIsTrimmed(u, a);
      CoreIsTrimmed(v, b);
    }
  }

  // ----- what a claim and a release do

  predicate Pooled(p: Pool, username: Option<string>) {
    username.Some? && Alias(username.value) in p.sessions
  }

  /** The client behind an account name. */
  function ClientOf(p: Pool, username: Option<string>): Option<nat> {
    if Pooled(p, username) then Some(p.sessions[Alias(username.value)].client) else None
  }

  function WithHolder(s: Sessions, alias: string, key: ProcessKey): Sessions
    requires alias in s
  {
    s[alias := s[alias].(holders := s[alias].holders + {key})]
  }

  /** A claim of an account name: joined when pooled, dialled otherwise, if a dial would succeed. */
  function Claimed(p: Pool, key: ProcessKey, alias: string, dialled: bool): Option<Pool> {
    if alias in p.sessions then Some(p.(sessions := WithHolder(p.sessions, alias, key)))
    else if dialled then Some(Pool(p.sessions[alias := Session(p.dials, {key})], p.dials + 1))
    else None
  }

  /** A process that names no account claims nothing. */
  function Joined(p: Pool, key: ProcessKey, username: Option<string>, dialled: bool): Option<Pool> {
    if username.None? then Some(p) else Claimed(p, key, Alias(username.value), dialled)
  }

  function Released(s: Sessions, key: ProcessKey): Sessions {
    map a | a in s && s[a].holders != {key} :: s[a].(holders := s[a].holders - {key})
  }

  ghost predicate Holds(s: Sessions, key: ProcessKey) {
    exists a :: a in s && key in s[a].holders
  }

  /** Every session is held and has a client of its own. */
  ghost predicate Sound(p: Pool) {
    && (forall a :: a in p.sessions ==> p.sessions[a].holders != {} && p.sessions[a].client < p.dials)
    && (forall a, b :: a in p.sessions && b in p.sessions && p.sessions[a].client == p.sessions[b].client ==> a == b)
  }

  lemma ClaimedStaysSound(p: Pool, key: ProcessKey, alias: string, dialled: bool)
    requires Sound(p)
    ensures Claimed(p, key, alias, dialled).Some? ==> Sound(Claimed(p, key, alias, dialled).value)
  {
    if alias in p.sessions {
      assert key in WithHolder(p.sessions, alias, key)[alias].holders;
    }
  }

  /** Nobody's client changes under a claim, so all who claim one account share one client. */
  lemma ClaimShares(p: Pool, key: ProcessKey, username: Option<string>, dialled: bool, other: Option<string>)
    ensures var q := Joined(p, key, username, dialled);
            q.Some? ==>
              && (Pooled(p, other) ==> ClientOf(q.value, other) == ClientOf(p, other))
              && (username.Some? ==> Pooled(q.value, username))
              && (username.Some? && other.Some? && Alias(username.value) == Alias(other.value) ==>
                    ClientOf(q.value, other) == ClientOf(q.value, username))
  {}

  /** Of two claims that both succeed, the answers are one client exactly when the names are spellings of
      one account, and then the second never dials. */
  lemma TwoClaims(p: Pool, key: ProcessKey, u: string, dialled: bool, key': ProcessKey, v: string, dialled': bool)
    requires Sound(p) && Joined(p, key, Some(u), dialled).Some?
    requires Joined(Joined(p, key, Some(u), dialled).value, key', Some(v), dialled').Some?
    ensures var q := Joined(p, key, Some(u), dialled).value;
            var r := Joined(q, key', Some(v), dialled').value;
            && ClientOf(q, Some(u)).Some? && ClientOf(r, Some(v)).Some?
            && (ClientOf(q, Some(u)) == ClientOf(r, Some(v)) <==> SameAccount(u, v))
            && (SameAccount(u, v) ==> r.dials == q.dials <= p.dials + 1)
  {
    AliasIsAccount(u, v);
    ClaimedStaysSound(p, key, Alias(u), dialled);
  }

  lemma ReleaseUndoesClaim(p: Pool, key: ProcessKey, alias: string, dialled: bool)
    requires Sound(p) && !Holds(p.sessions, key)
    ensures var q := Claimed(p, key, alias, dialled);
            q.Some? ==> Released(q.value.sessions, key) == p.sessions
  {
    var q := Claimed(p, key, alias, dialled);
    if q.Some? {
      var c := q.value.sessions;
      forall a ensures a in p.sessions <==> a in c && c[a].holders != {key}
               ensures a in p.sessions ==> c[a].(holders := c[a].holders - {key}) == p.sessions[a]
      {
        if a in p.sessions {
          assert key !in p.sessions[a].holders;
          var k :| k in p.sessions[a].holders;
          assert k in c[a].holders;
          assert c[a].holders - {key} == p.sessions[a].holders;
        }
      }
    }
  }

  lemma ReleaseWithoutHold(p: Pool, key: ProcessKey)
    requires Sound(p)
    ensures Released(p.sessions, key) == p.sessions <==> !Holds(p.sessions, key)
    ensures !Holds(Released(p.sessions, key), key) && Sound(p.(sessions := Released(p.sessions, key)))
  {
    var s := p.sessions;
    if !Holds(s, key) {
      forall a | a in s ensures s[a].holders != {key} && s[a].holders - {key} == s[a].holders {
        assert key !in s[a].holders;
      }
      assert Released(s, key) == s;
    } else {
      var a :| a in s && key in s[a].holders;
      assert a in Released(s, key) ==> key !in Released(s, key)[a].holders;
    }
    forall a | a in Released(s, key) ensures Released(s, key)[a].holders != {} {
      SomeoneElse(s[a].holders, key);
    }
  }

  lemma SomeoneElse(holders: set<ProcessKey>, key: ProcessKey)
    requires holders != {} && holders != {key}
    ensures holders - {key} != {}
  {
    if holders - {key} == {} {
      AllGone(holders, key);
    }
  }

  lemma AllGone(holders: set<ProcessKey>, key: ProcessKey)
    requires holders != {} && holders - {key} == {}
    ensures holders == {key}
  {
    var k :| k in holders;
    forall x | x in holders ensures x == key {
      assert x !in holders - {key};
    }
  }

  // ----- one provider's clients, open and closed

  ghost predicate Open(s: Sessions, client: nat) {
    exists a :: a in s && s[a].client == client
  }

  /** The pool is sound; a dialled client is pooled, or has been closed exactly once, never both; and
      dials minus closes is the number of pooled sessions. */
  ghost predicate Kept(p: Pool, closed: multiset<nat>) {
    && Sound(p)
    && (forall c: nat :: ClosedOnce(p, closed, c))
    && |p.sessions| + |closed| == p.dials
  }

  ghost predicate ClosedOnce(p: Pool, closed: multiset<nat>, c: nat) {
    closed[c] == if c < p.dials && !Open(p.sessions, c) then 1 else 0
  }

  lemma DialKeeps(p: Pool, closed: multiset<nat>, alias: string, key: ProcessKey)
    requires Kept(p, closed) && alias !in p.sessions
    ensures Kept(Pool(p.sessions[alias := Session(p.dials, {key})], p.dials + 1), closed)
  {
    var q := Pool(p.sessions[alias := Session(p.dials, {key})], p.dials + 1);
    forall c: nat ensures ClosedOnce(q, closed, c) {
      assert ClosedOnce(p, closed, c);
      if Open(p.sessions, c) {
        var a :| a in p.sessions && p.sessions[a].client == c;
        assert q.sessions[a].client == c;
      }
      assert q.sessions[alias].client == p.dials;
    }
  }

  lemma HoldersKeep(p: Pool, closed: multiset<nat>, alias: string, holders: set<ProcessKey>)
    requires Kept(p, closed) && alias in p.sessions && holders != {}
    ensures Kept(p.(sessions := p.sessions[alias := p.sessions[alias].(holders := holders)]), closed)
  {
    var q := p.(sessions := p.sessions[alias := p.sessions[alias].(holders := holders)]);
    forall c: nat ensures ClosedOnce(q, closed, c) {
      assert ClosedOnce(p, closed, c);
      if Open(p.sessions, c) {
        var a :| a in p.sessions && p.sessions[a].client == c;
        assert q.sessions[a].client == c;
      }
    }
    assert q.sessions.Keys == p.sessions.Keys;
    assert |q.sessions| == |q.sessions.Keys| && |p.sessions| == |p.sessions.Keys|;
  }

  lemma CloseKeeps(p: Pool, closed: multiset<nat>, alias: string)
    requires Kept(p, closed) && alias in p.sessions
    ensures Kept(p.(sessions := p.sessions - {alias}), closed + multiset{p.sessions[alias].client})
  {
    var q := p.(sessions := p.sessions - {alias});
    var closed' := closed + multiset{p.sessions[alias].client};
    forall c: nat ensures ClosedOnce(q, closed', c) {
      assert ClosedOnce(p, closed, c);
      if Open(p.sessions, c) && c != p.sessions[alias].client {
        var a :| a in p.sessions && p.sessions[a].client == c;
        assert a in q.sessions && q.sessions[a].client == c;
      }
    }
    assert q.sessions.Keys == p.sessions.Keys - {alias};
    assert |q.sessions| == |q.sessions.Keys| && |p.sessions| == |p.sessions.Keys|;
  }

  /** The names that get the client of a name are the spellings of its account, and no other. */
  ghost predicate SharedByItsSpellings(p: Pool, username: string) {
    forall u :: SameAccount(u, username) <==> ClientOf(p, Some(u)) == ClientOf(p, Some(username))
  }

  lemma OnlyItsSpellings(p: Pool, username: string)
    requires Sound(p) && Pooled(p, Some(username))
    ensures SharedByItsSpellings(p, username)
  {
    forall u ensures SameAccount(u, username) <==> ClientOf(p, Some(u)) == ClientOf(p, Some(username)) {
      AliasIsAccount(u, username);
    }
  }

  lemma PooledIsOpen(p: Pool, closed: multiset<nat>, alias: string)
    requires Kept(p, closed) && alias in p.sessions
    ensures closed[p.sessions[alias].client] == 0
  {
    assert ClosedOnce(p, closed, p.sessions[alias].client);
  }

  class SessionPool {
    var sessions: Sessions
    var dials: nat
    ghost var closed: multiset<nat>

    ghost predicate Valid()
      reads this
    {
      Kept(View(), closed)
    }

    function View(): Pool
      reads this
    {
      Pool(sessions, dials)
    }

    constructor ()
      ensures Valid() && View() == NO_POOL && closed == multiset{}
    {
      sessions, dials, closed := map[], 0, multiset{};
    }

    /** Joins the session of an account, dialling it first when nobody has. Whoever claimed the
        account before has this same client; everybody else's is as it was. */
    method Claim(key: ProcessKey, username: string, dialled: bool) returns (client: Option<nat>)
      requires Valid()
      modifies this
      ensures Valid() && closed == old(closed)
      ensures var q := Claimed(old(View()), key, Alias(username), dialled);
              if q.None? then client.None? && View() == old(View())
              else client.Some? && client == ClientOf(View(), Some(username)) && View() == q.value
      ensures Alias(username) in old(sessions) ==> client == Some(old(sessions)[Alias(username)].client)
      ensures client.Some? ==> SharedByItsSpellings(View(), username)
      ensures forall a :: a in old(sessions) ==> a in sessions && sessions[a].client == old(sessions)[a].client
    {
      var alias := Alias(username);
      if alias !in sessions {
        if !dialled {
          return None;
        }
        DialKeeps(View(), closed, alias, key);
        sessions := sessions[alias := Session(dials, {key})];
        dials := dials + 1;
      } else {
        HoldersKeep(View(), closed, alias, sessions[alias].holders + {key});
        sessions := sessions[alias := sessions[alias].(holders := sessions[alias].holders + {key})];
      }
      OnlyItsSpellings(View(), username);
      return Some(sessions[alias].client);
    }

    /** Drops every hold of a key; a session nobody holds any more is closed. */
    method Release(key: ProcessKey)
      requires Valid()
      modifies this
      ensures Valid() && dials == old(dials)
      ensures sessions == Released(old(sessions), key)
    {
      var left := sessions.Keys;
      while left != {}
        invariant Valid() && dials == old(dials)
        invariant LetGo(old(sessions), sessions, left, key)
        decreases left
      {
        var alias :| alias in left;
        LetGoOneMore(old(sessions), sessions, left, key, alias);
        left := left - {alias};
        ReleaseOne(alias, key);
      }
      LetGoIsReleased(old(sessions), sessions, key);
    }

    method ReleaseOne(alias: string, key: ProcessKey)
      requires Valid() && alias in sessions
      modifies this
      ensures Valid() && dials == old(dials)
      ensures sessions == WithoutHold(old(sessions), alias, key)
    {
      var s := sessions[alias];
      if key !in s.holders {
        return;
      }
      if s.holders - {key} != {} {
        HoldersKeep(View(), closed, alias, s.holders - {key});
        sessions := sessions[alias := s.(holders := s.holders - {key})];
        return;
      }
      assert s.holders == {key};
      CloseKeeps(View(), closed, alias);
      sessions := sessions - {alias};
      closed := closed + multiset{s.client};
    }

    /** Logs every session out. */
    method CloseAll()
      requires Valid()
      modifies this
      ensures Valid() && View() == old(View()).(sessions := map[])
      ensures forall c: nat :: closed[c] == if c < dials then 1 else 0
    {
      while sessions != map[]
        invariant Valid() && dials == old(dials)
        decreases |sessions|
      {
        var alias :| alias in sessions;
        CloseKeeps(View(), closed, alias);
        closed := closed + multiset{sessions[alias].client};
        sessions := sessions - {alias};
      }
      forall c: nat ensures closed[c] == if c < dials then 1 else 0 {
        assert ClosedOnce(View(), closed, c);
      }
    }
  }

  function WithoutHold(sessions: Sessions, alias: string, key: ProcessKey): Sessions
    requires alias in sessions
  {
    var s := sessions[alias];
    if key !in s.holders then sessions
    else if s.holders == {key} then sessions - {alias}
    else sessions[alias := s.(holders := s.holders - {key})]
  }

  lemma LetGoOneMore(was: Sessions, now: Sessions, left: set<string>, key: ProcessKey, alias: string)
    requires LetGo(was, now, left, key) && alias in left
    ensures LetGo(was, WithoutHold(now, alias, key), left - {alias}, key)
  {
    assert key !in was[alias].holders ==> was[alias].holders - {key} == was[alias].holders;
  }

  /** The sessions outside `left` have let `key` go. */
  ghost predicate LetGo(was: Sessions, now: Sessions, left: set<string>, key: ProcessKey) {
    && left <= now.Keys <= was.Keys
    && (forall a :: a in left ==> now[a] == was[a])
    && (forall a :: a in was && a !in left ==>
         && (a in now <==> was[a].holders != {key})
         && (a in now ==> now[a] == was[a].(holders := was[a].holders - {key})))
  }

  lemma LetGoIsReleased(was: Sessions, now: Sessions, key: ProcessKey)
    requires LetGo(was, now, {}, key)
    ensures now == Released(was, key)
  {
    assert forall a :: a in now ==> a in was;
  }

  // ----- both providers

  datatype Dials = Dials(betmatic: bool, betfair: bool)

  datatype Pools = Pools(betmatic: Pool, betfair: Pool)

  const NO_POOLS := Pools(NO_POOL, NO_POOL)

  /** The account a process gets from the pools. */
  function AccountIn(p: Pools, c: Credentials): Account {
    Account(ClientOf(p.betmatic, c.betmatic), ClientOf(p.betfair, c.betfair))
  }

  /** The pools after opening an account, and the account if it was opened. */
  function Opened(p: Pools, key: ProcessKey, c: Credentials, dials: Dials): (Pools, Option<Account>) {
    var bm := Joined(p.betmatic, key, c.betmatic, dials.betmatic);
    if bm.None? then (p, None)
    else
      var bf := Joined(p.betfair, key, c.betfair, dials.betfair);
      if bf.None? then (Pools(Without(bm.value, key), p.betfair), None)
      else (Pools(bm.value, bf.value), Some(AccountIn(Pools(bm.value, bf.value), c)))
  }

  function Without(p: Pool, key: ProcessKey): Pool {
    p.(sessions := Released(p.sessions, key))
  }

  function ReleasedBoth(p: Pools, key: ProcessKey): Pools {
    Pools(Without(p.betmatic, key), Without(p.betfair, key))
  }

  /** Every session logged out. What was dialled stays counted. */
  function Emptied(p: Pools): Pools {
    Pools(p.betmatic.(sessions := map[]), p.betfair.(sessions := map[]))
  }

  /** The same sessions with the same clients and holders; only the count of dials may differ. */
  predicate SameSessions(p: Pools, q: Pools) {
    p.betmatic.sessions == q.betmatic.sessions && p.betfair.sessions == q.betfair.sessions
  }

  class Engine {
    const betmatic: SessionPool
    const betfair: SessionPool

    ghost predicate Valid()
      reads betmatic, betfair
    {
      betmatic != betfair && betmatic.Valid() && betfair.Valid()
    }

    function View(): Pools
      reads betmatic, betfair
    {
      Pools(betmatic.View(), betfair.View())
    }

    constructor ()
      ensures Valid() && fresh(betmatic) && fresh(betfair) && View() == NO_POOLS
    {
      betmatic := new SessionPool();
      betfair := new SessionPool();
    }

    /** On success the account has exactly the named providers, and nobody's client has changed; a
        failure for a key that held no Betmatic session leaves every session as it was. */
    method OpenAccount(key: ProcessKey, c: Credentials, dials: Dials) returns (a: Option<Account>)
      requires Valid()
      modifies betmatic, betfair
      ensures Valid()
      ensures (View(), a) == Opened(old(View()), key, c, dials)
      ensures a.Some? ==> (a.value.betmatic.Some? <==> c.betmatic.Some?) && (a.value.betfair.Some? <==> c.betfair.Some?)
      ensures a.Some? ==> SameClients(old(betmatic.sessions), betmatic.sessions)
      ensures a.Some? ==> SameClients(old(betfair.sessions), betfair.sessions)
      ensures a.None? && !Holds(old(betmatic.sessions), key) ==> SameSessions(View(), old(View()))
    {
      FailedOpenRollsBack(View(), key, c, dials);
      var account := Account(None, None);
      if c.betmatic.Some? {
        var client := betmatic.Claim(key, c.betmatic.value, dials.betmatic);
        if client.None? {
          return None;
        }
        account := account.(betmatic := client);
      }
      if c.betfair.Some? {
        var client := betfair.Claim(key, c.betfair.value, dials.betfair);
        if client.None? {
          betmatic.Release(key);
          return None;
        }
        account := account.(betfair := client);
      }
      return Some(account);
    }

    method Release(key: ProcessKey)
      requires Valid()
      modifies betmatic, betfair
      ensures Valid() && View() == ReleasedBoth(old(View()), key)
    {
      betmatic.Release(key);
      betfair.Release(key);
    }

    method Close()
      requires Valid()
      modifies betmatic, betfair
      ensures Valid() && View() == Emptied(old(View()))
      ensures forall c: nat :: betmatic.closed[c] == if c < betmatic.dials then 1 else 0
      ensures forall c: nat :: betfair.closed[c] == if c < betfair.dials then 1 else 0
    {
      betmatic.CloseAll();
      betfair.CloseAll();
    }
  }

  predicate SameClients(before: Sessions, after: Sessions) {
    forall a :: a in before ==> a in after && after[a].client == before[a].client
  }

  /** An account that does not open leaves every session as it was, client and holders, if and only
      if the key held no Betmatic session or the Betmatic claim itself failed. */
  lemma FailedOpenRollsBack(p: Pools, key: ProcessKey, c: Credentials, dials: Dials)
    requires Sound(p.betmatic) && Sound(p.betfair)
    ensures Opened(p, key, c, dials).1.None? ==>
              (SameSessions(Opened(p, key, c, dials).0, p) <==>
                !Holds(p.betmatic.sessions, key) || Joined(p.betmatic, key, c.betmatic, dials.betmatic).None?)
  {
    var bm := Joined(p.betmatic, key, c.betmatic, dials.betmatic);
    if bm.Some? {
      ReleaseWithoutHold(p.betmatic, key);
      if c.betmatic.Some? {
        var alias := Alias(c.betmatic.value);
        ClaimedStaysSound(p.betmatic, key, alias, dials.betmatic);
        if Holds(p.betmatic.sessions, key) {
          ReleaseWithoutHold(bm.value, key);
        } else {
          ReleaseUndoesClaim(p.betmatic, key, alias, dials.betmatic);
        }
      }
    }
  }

  lemma PlainAlias(name: string)
    requires forall i :: 0 <= i < |name| ==> 'a' <= name[i] <= 'z'
    ensures Alias(name) == name
  {
    if name != [] {
      assert !IsSpace(name[0]) && !IsSpace(name[|name| - 1]);
    }
  }

  /** A key alone on one Betmatic session asks for another, and the Betfair dial fails: the account
      does not open and the session it had is gone. */
  lemma FailedOpenLosesSession(key: ProcessKey)
    ensures var p := Pools(Pool(map["old" := Session(0, {key})], 1), NO_POOL);
            var (q, account) := Opened(p, key, Credentials(Some("new"), Some("bf")), Dials(true, false));
            && Sound(p.betmatic) && Sound(p.betfair) && account.None? && q.betmatic.sessions == map[]
  {
    PlainAlias("new");
    PlainAlias("bf");
    var bm := Claimed(Pool(map["old" := Session(0, {key})], 1), key, "new", true).value;
    assert bm.sessions == map["old" := Session(0, {key}), "new" := Session(1, {key})];
  }
}
