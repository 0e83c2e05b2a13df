/**
 Refresh tokens in Redis (lib/refreshTokens.js): token keys and per-user index sets, each with its
 own expiry, under a clock that only moves forward.
 */
module RefreshTokens {
  import opened Options

  /** Thirty days, in seconds. */
  const REFRESH_TTL: nat := 30 * 24 * 60 * 60

  type Hash = nat

  datatype Token = Token(user: nat, expires: nat)

  datatype Members = Members(hashes: set<Hash>, expires: nat)

  /** A key is there until its expiry; what lies beyond it is garbage that nobody can read. */
  datatype Store = Store(now: nat, tokens: map<Hash, Token>, index: map<nat, Members>)

  predicate Live(s: Store, h: Hash) {
    h in s.tokens && s.now < s.tokens[h].expires
  }

  predicate Indexed(s: Store, u: nat) {
    u in s.index && s.now < s.index[u].expires
  }

  function IndexOf(s: Store, u: nat): set<Hash> {
    if Indexed(s, u) then s.index[u].hashes else {}
  }

  // ---- what the operations do ----

  /** `set … EX`, `sadd`, `expire` */
  function Put(s: Store, u: nat, h: Hash): Store {
    s.(tokens := s.tokens[h := Token(u, s.now + REFRESH_TTL)],
       index := s.index[u := Members(IndexOf(s, u) + {h}, s.now + REFRESH_TTL)])
  }

  function Read(s: Store, h: Hash): Option<nat> {
    if Live(s, h) then Some(s.tokens[h].user) else None
  }

  /** `srem`; Redis drops a set with its last member. */
  function Removed(s: Store, u: nat, h: Hash): map<nat, Members> {
    if !Indexed(s, u) then s.index
    else if s.index[u].hashes - {h} == {} then s.index - {u}
    else s.index[u := Members(s.index[u].hashes - {h}, s.index[u].expires)]
  }

  function Revoke(s: Store, h: Hash): Store {
    var record := Read(s, h);
    s.(tokens := s.tokens - {h}, index := if record.Some? then Removed(s, record.value, h) else s.index)
  }

  /** The second half of `revokeAllRefreshTokensForUser`, for the members that the first half read. */
  function DeleteAll(s: Store, u: nat, members: set<Hash>): Store {
    if members == {} then s else s.(tokens := s.tokens - members, index := s.index - {u})
  }

  function RevokeAll(s: Store, u: nat): Store {
    DeleteAll(s, u, IndexOf(s, u))
  }

  /** The user, and the successor, of a token that is still good. */
  function Rotate(s: Store, h: Hash, next: Hash): (Store, Option<nat>) {
    var record := Read(s, h);
    if record.None? then (s, None) else (Put(Revoke(s, h), record.value, next), record)
  }

  datatype Op =
    | Tick(seconds: nat)
    | IssueToken(user: nat, hash: Hash)
    | RevokeToken(hash: Hash)
    | RevokeAllOf(user: nat)
    | RotateToken(hash: Hash, next: Hash)

  function Apply(s: Store, op: Op): Store {
    match op
    case Tick(seconds) => s.(now := s.now + seconds)
    case IssueToken(u, h) => Put(s, u, h)
    case RevokeToken(h) => Revoke(s, h)
    case RevokeAllOf(u) => RevokeAll(s, u)
    case RotateToken(h, next) => Rotate(s, h, next).0
  }

  function Run(s: Store, ops: seq<Op>): Store {
    if ops == [] then s else Apply(Run(s, ops[..|ops| - 1]), ops[|ops| - 1])
  }

  // ---- what they keep ----

  /** A live token is in the index of its user, and the index outlives it. */
  predicate IsCovered(s: Store, h: Hash) {
    Live(s, h) ==>
      var u := s.tokens[h].user;
      u in s.index && h in s.index[u].hashes && s.tokens[h].expires <= s.index[u].expires
  }

  ghost predicate Covered(s: Store) {
    forall h: Hash :: IsCovered(s, h)
  }

  /** No expiry lies further ahead than a full lifetime. */
  ghost predicate Bounded(s: Store) {
    && (forall h: Hash :: h in s.tokens ==> s.tokens[h].expires <= s.now + REFRESH_TTL)
    && (forall u: nat :: u in s.index ==> s.index[u].expires <= s.now + REFRESH_TTL)
  }

  lemma PutCovered(s: Store, u: nat, h: Hash)
    requires Covered(s) && Bounded(s)
    ensures Covered(Put(s, u, h)) && Bounded(Put(s, u, h))
  {
    var s' := Put(s, u, h);
    assert s'.index[u] == Members(IndexOf(s, u) + {h}, s.now + REFRESH_TTL);
    forall g: Hash ensures IsCovered(s', g) {
      assert IsCovered(s, g);
    }
  }

  lemma RevokeCovered(s: Store, h: Hash)
    requires Covered(s) && Bounded(s)
    ensures Covered(Revoke(s, h)) && Bounded(Revoke(s, h))
  {
    forall g: Hash ensures IsCovered(Revoke(s, h), g) {
      assert IsCovered(s, g);
      if Live(s, g) && g != h {
        assert g in s.index[s.tokens[g].user].hashes - {h};
      }
    }
  }

  lemma RevokeAllCovered(s: Store, u: nat)
    requires Covered(s) && Bounded(s)
    ensures Covered(RevokeAll(s, u)) && Bounded(RevokeAll(s, u))
  {
    forall g: Hash ensures IsCovered(RevokeAll(s, u), g) {
      assert IsCovered(s, g);
    }
  }

  lemma ApplyCovered(s: Store, op: Op)
    requires Covered(s) && Bounded(s)
    ensures Covered(Apply(s, op)) && Bounded(Apply(s, op))
  {
    match op
    case Tick(seconds) =>
      forall g: Hash ensures IsCovered(Apply(s, op), g) {
        assert IsCovered(s, g);
      }
    case IssueToken(u, h) => PutCovered(s, u, h);
    case RevokeToken(h) => RevokeCovered(s, h);
    case RevokeAllOf(u) => RevokeAllCovered(s, u);
    case RotateToken(h, next) =>
      if Read(s, h).Some? {
        RevokeCovered(s, h);
        PutCovered(Revoke(s, h), Read(s, h).value, next);
      }
  }

  function Empty(now: nat): Store {
    Store(now, map[], map[])
  }

  /** Over every run, every live token is in its user's index, whose expiry covers it. */
  lemma {:induction false} TokensCovered(now: nat, ops: seq<Op>)
    ensures Covered(Run(Empty(now), ops)) && Bounded(Run(Empty(now), ops))
  {
    if ops != [] {
      TokensCovered(now, ops[..|ops| - 1]);
      ApplyCovered(Run(Empty(now), ops[..|ops| - 1]), ops[|ops| - 1]);
    }
  }

  predicate Issues(op: Op, h: Hash) {
    (op.IssueToken? && op.hash == h) || (op.RotateToken? && op.next == h)
  }

  predicate NeverIssued(ops: seq<Op>, h: Hash) {
    forall i :: 0 <= i < |ops| ==> !Issues(ops[i], h)
  }

  /** A token that is not live never becomes so again, unless it is drawn anew. */
  lemma {:induction false} DeadStays(s: Store, ops: seq<Op>, h: Hash)
    requires !Live(s, h) && NeverIssued(ops, h)
    ensures !Live(Run(s, ops), h)
  {
    if ops != [] {
      DeadStays(s, ops[..|ops| - 1], h);
      assert !Issues(ops[|ops| - 1], h);
    }
  }

  /**
   Revoking all tokens of a user makes every one issued before unrotatable for good, whatever
   happens afterwards.
   */
  lemma RevokeAllIsFinal(now: nat, before: seq<Op>, u: nat, after: seq<Op>, h: Hash, next: Hash)
    requires NeverIssued(after, h)
    requires Read(Run(Empty(now), before), h) == Some(u)
    ensures Rotate(Run(RevokeAll(Run(Empty(now), before), u), after), h, next).1 == None
  {
    TokensCovered(now, before);
    assert IsCovered(Run(Empty(now), before), h);
    DeadStays(RevokeAll(Run(Empty(now), before), u), after, h);
  }

  /** And it takes no other user's token. */
  lemma RevokeAllSpares(now: nat, before: seq<Op>, u: nat, h: Hash)
    requires forall i, j :: 0 <= i < j < |before| ==> !(Issues(before[i], h) && Issues(before[j], h))
    requires Read(Run(Empty(now), before), h).Some? && Read(Run(Empty(now), before), h) != Some(u)
    ensures Read(RevokeAll(Run(Empty(now), before), u), h) == Read(Run(Empty(now), before), h)
  {
    IndexedIsOwned(now, before, u, h);
  }

  /** A token drawn once only ever is in the index of the user it was drawn for. */
  lemma {:induction false} IndexedIsOwned(now: nat, ops: seq<Op>, u: nat, h: Hash)
    requires forall i, j :: 0 <= i < j < |ops| ==> !(Issues(ops[i], h) && Issues(ops[j], h))
    ensures var s := Run(Empty(now), ops);
            && (NeverIssued(ops, h) ==> h !in s.tokens && (u in s.index ==> h !in s.index[u].hashes))
            && (h in s.tokens && u in s.index && h in s.index[u].hashes ==> s.tokens[h].user == u)
  {
    if ops != [] {
      var front, op := ops[..|ops| - 1], ops[|ops| - 1];
      IndexedIsOwned(now, front, u, h);
      if Issues(op, h) {
        assert NeverIssued(front, h);
      } else if NeverIssued(ops, h) {
        assert NeverIssued(front, h);
      }
    }
  }

  /**
   Single use: a rotation answers the token's user, trades it for the new one and touches no other
   live token; the old one never rotates again.
   */
  lemma RotationIsSingleUse(s: Store, h: Hash, next: Hash, after: seq<Op>, other: Hash)
    requires Live(s, h) && next != h && NeverIssued(after, h)
    ensures var (s', user) := Rotate(s, h, next);
            && user == Some(s.tokens[h].user) && Read(s', next) == user
            && (forall g: Hash :: g != h && g != next ==> Read(s', g) == Read(s, g))
            && Rotate(Run(s', after), h, other).1 == None
  {
    DeadStays(Rotate(s, h, next).0, after, h);
  }

  // ---- how long a token is good ----

  /** The seconds that pass during these operations. */
  function Elapsed(ops: seq<Op>): nat {
    if ops == [] then 0
    else Elapsed(ops[..|ops| - 1]) + if ops[|ops| - 1].Tick? then ops[|ops| - 1].seconds else 0
  }

  /** Revokes the user's token, alone or with all of hers, or trades it for another. */
  predicate Ends(op: Op, u: nat, h: Hash) {
    op == RevokeToken(h) || op == RevokeAllOf(u) || (op.RotateToken? && op.hash == h)
  }

  predicate NeverEnded(ops: seq<Op>, u: nat, h: Hash) {
    forall i :: 0 <= i < |ops| ==> !Ends(ops[i], u, h)
  }

  lemma OwnIndexOnly(now: nat, ops: seq<Op>, h: Hash, v: nat)
    requires forall i, j :: 0 <= i < j < |ops| ==> !(Issues(ops[i], h) && Issues(ops[j], h))
    ensures var s := Run(Empty(now), ops); Live(s, h) && h in IndexOf(s, v) ==> s.tokens[h].user == v
  {
    IndexedIsOwned(now, ops, v, h);
  }

  /** One operation that does not draw the token: it stays as it is, or is good no longer. */
  lemma LifeStep(s: Store, op: Op, u: nat, h: Hash)
    requires !Issues(op, h) && IsCovered(s, h) && Live(s, h) && s.tokens[h].user == u
    requires op.RevokeAllOf? && h in IndexOf(s, op.user) ==> op.user == u
    ensures Live(Apply(s, op), h) <==> !Ends(op, u, h) && !(op.Tick? && s.tokens[h].expires <= s.now + op.seconds)
    ensures Live(Apply(s, op), h) ==> Apply(s, op).tokens[h] == s.tokens[h]
  {
  }

  lemma ClockStep(s: Store, op: Op)
    ensures Apply(s, op).now == s.now + if op.Tick? then op.seconds else 0
  {
  }

  ghost predicate LifeOk(start: nat, s: Store, u: nat, h: Hash, after: seq<Op>) {
    && s.now == start + Elapsed(after)
    && (Live(s, h) <==> Elapsed(after) < 30 * 24 * 60 * 60 && NeverEnded(after, u, h))
    && (Live(s, h) ==> s.tokens[h] == Token(u, start + 30 * 24 * 60 * 60))
  }

  lemma {:induction false} Lifetime(now: nat, before: seq<Op>, u: nat, h: Hash, after: seq<Op>)
    requires NeverIssued(before, h) && NeverIssued(after, h)
    ensures LifeOk(Run(Empty(now), before).now, Run(Empty(now), before + [IssueToken(u, h)] + after), u, h, after)
  {
    var start, all := Run(Empty(now), before).now, before + [IssueToken(u, h)] + after;
    if after == [] {
      assert all == before + [IssueToken(u, h)] && all[..|before|] == before;
    } else {
      var front, op := after[..|after| - 1], after[|after| - 1];
      var most := before + [IssueToken(u, h)] + front;
      assert all[..|all| - 1] == most && all[|all| - 1] == op;
      assert forall i :: 0 <= i < |front| ==> front[i] == after[i];
      Lifetime(now, before, u, h, front);
      var s := Run(Empty(now), most);
      ClockStep(s, op);
      assert NeverEnded(after, u, h) <==> NeverEnded(front, u, h) && !Ends(op, u, h);
      if Live(s, h) {
        TokensCovered(now, most);
        assert IsCovered(s, h);
        forall i, j | 0 <= i < j < |most| ensures !(Issues(most[i], h) && Issues(most[j], h)) {
          assert i < |before| || j > |before|;
        }
        if op.RevokeAllOf? {
          OwnIndexOnly(now, most, h, op.user);
        }
        LifeStep(s, op, u, h);
      } else {
        assert !Issues(op, h);
        assert [op][..0] == [] && Run(s, [op]) == Apply(s, op);
        DeadStays(s, [op], h);
      }
    }
  }

  /**
   An issued token is good for exactly thirty days: over every run it answers its user until then,
   unless it is revoked or traded or all of the user's are revoked, and nobody afterwards.
   */
  lemma LifetimeExactly(now: nat, before: seq<Op>, u: nat, h: Hash, after: seq<Op>)
    requires NeverIssued(before, h) && NeverIssued(after, h)
    ensures Read(Run(Empty(now), before + [IssueToken(u, h)] + after), h)
            == if Elapsed(after) < 30 * 24 * 60 * 60 && NeverEnded(after, u, h) then Some(u) else None
  {
    Lifetime(now, before, u, h, after);
  }

  // ---- a revocation with other operations between its two commands ----

  lemma {:induction false} RunCovered(s: Store, ops: seq<Op>)
    requires Covered(s) && Bounded(s)
    ensures Covered(Run(s, ops)) && Bounded(Run(s, ops))
  {
    if ops != [] {
      RunCovered(s, ops[..|ops| - 1]);
      ApplyCovered(Run(s, ops[..|ops| - 1]), ops[|ops| - 1]);
    }
  }

  /** Every token of the user that is good at this moment was among the members read. */
  ghost predicate AllRead(s: Store, u: nat, members: set<Hash>) {
    forall h: Hash :: Read(s, h) == Some(u) ==> h in members
  }

  /** No token of the user is good any more. */
  ghost predicate NoneLeft(s: Store, u: nat) {
    forall h: Hash :: Read(s, h) != Some(u)
  }

  /**
   A revocation reads the members of the index and deletes them with the index afterwards;
   anything may happen in between. What it read is dead for good. And it is complete, with every
   token that is still good in its index, exactly when every token of the user that is good by
   then was among the members read, or it had read none and did nothing.
   */
  lemma SplitRevocation(s: Store, u: nat, between: seq<Op>)
    requires Covered(s) && Bounded(s)
    ensures var members, then_ := IndexOf(s, u), Run(s, between);
            var end := DeleteAll(then_, u, members);
            && (forall h :: h in members ==> !Live(end, h))
            && (Covered(end) <==> members == {} || AllRead(then_, u, members))
            && (NoneLeft(end, u) <==> AllRead(then_, u, members))
  {
    RunCovered(s, between);
    var members, then_ := IndexOf(s, u), Run(s, between);
    var end := DeleteAll(then_, u, members);
    forall h: Hash ensures Read(end, h) == if h in members then None else Read(then_, h) {}
    forall h: Hash ensures IsCovered(then_, h) {}
    if members == {} {
      assert end == then_;
    } else if AllRead(then_, u, members) {
      forall h: Hash ensures IsCovered(end, h) {
        assert IsCovered(then_, h);
        assert Read(then_, h) == Some(u) ==> h in members;
      }
    } else {
      var h: Hash :| Read(then_, h) == Some(u) && h !in members;
      assert Read(end, h) == Some(u);
      assert !IsCovered(end, h);
    }
  }

  /** What was read stays dead. */
  lemma SplitRevocationIsFinal(s: Store, u: nat, between: seq<Op>, after: seq<Op>, h: Hash)
    requires Covered(s) && Bounded(s) && Read(s, h) == Some(u) && NeverIssued(after, h)
    ensures !Live(Run(DeleteAll(Run(s, between), u, IndexOf(s, u)), after), h)
  {
    assert IsCovered(s, h);
    SplitRevocation(s, u, between);
    DeadStays(DeleteAll(Run(s, between), u, IndexOf(s, u)), after, h);
  }

  /**
   With tokens drawn once only, the ones the revocation misses are those issued to the user in
   between that are still good.
   */
  lemma MissedAreIssuedBetween(now: nat, before: seq<Op>, u: nat, between: seq<Op>, h: Hash)
    requires forall i, j :: 0 <= i < j < |before + between| ==> !(Issues((before + between)[i], h) && Issues((before + between)[j], h))
    requires Read(Run(Run(Empty(now), before), between), h) == Some(u)
    ensures h !in IndexOf(Run(Empty(now), before), u) <==> !NeverIssued(between, h)
  {
    var s := Run(Empty(now), before);
    TokensCovered(now, before);
    var all := before + between;
    assert forall i :: 0 <= i < |before| ==> all[i] == before[i];
    if NeverIssued(between, h) {
      if !Live(s, h) {
        DeadStays(s, between, h);
      }
      OwnerStays(s, between, h);
      assert IsCovered(s, h);
    } else {
      var j :| 0 <= j < |between| && Issues(between[j], h);
      assert all[|before| + j] == between[j];
      forall i | 0 <= i < |before| ensures !Issues(before[i], h) {
        assert all[i] == before[i];
      }
      IndexedIsOwned(now, before, u, h);
    }
  }

  lemma {:induction false} OwnerStays(s: Store, ops: seq<Op>, h: Hash)
    requires NeverIssued(ops, h)
    ensures Live(Run(s, ops), h) ==> Live(s, h) && Run(s, ops).tokens[h].user == s.tokens[h].user
  {
    if ops != [] {
      OwnerStays(s, ops[..|ops| - 1], h);
      assert !Issues(ops[|ops| - 1], h);
    }
  }

  /** A token issued in between stays good and is in no index: no later revocation finds it. */
  lemma RevokeAllRace(s: Store, u: nat, h: Hash)
    requires Covered(s) && Bounded(s) && IndexOf(s, u) != {} && h !in IndexOf(s, u)
    ensures var s' := DeleteAll(Run(s, [IssueToken(u, h)]), u, IndexOf(s, u));
            Read(s', h) == Some(u) && !Covered(s') && Read(RevokeAll(s', u), h) == Some(u)
  {
    var ops := [IssueToken(u, h)];
    assert ops[..0] == [];
    assert Run(s, ops) == Put(s, u, h);
    var s' := DeleteAll(Put(s, u, h), u, IndexOf(s, u));
    assert !IsCovered(s', h);
  }

  // ---- rotations with anything between their commands ----

  /** Where one call of `rotateRefreshToken` stands: its read, the three commands of its revocation, its issue. */
  datatype Rotation =
    | HasRead(hash: Hash, user: nat)
    | HasReread(hash: Hash, user: nat, record: Option<nat>)
    | HasDeleted(hash: Hash, user: nat, record: Option<nat>)
    | HasRevoked(hash: Hash, user: nat)
    | Rotated(hash: Hash, user: nat, next: Hash)
    | Refused(hash: Hash)

  /** The store, the rotations under way, and the revocations that have read an index, with its members. */
  datatype Desk = Desk(store: Store, rotations: map<nat, Rotation>, revocations: map<nat, (nat, set<Hash>)>)

  /** `drawn` is the token that a rotation issues, should that be its next step. */
  datatype Event =
    | Do(op: Op)
    | Start(id: nat, hash: Hash)
    | Next(id: nat, drawn: Hash)
    | ReadMembers(id: nat, user: nat)
    | DeleteMembers(id: nat)

  function FirstRead(s: Store, h: Hash): Rotation {
    if Read(s, h).Some? then HasRead(h, Read(s, h).value) else Refused(h)
  }

  function Proceed(s: Store, p: Rotation, drawn: Hash): (Store, Rotation) {
    match p
    case HasRead(h, u) => (s, HasReread(h, u, Read(s, h)))
    case HasReread(h, u, record) => (s.(tokens := s.tokens - {h}), HasDeleted(h, u, record))
    case HasDeleted(h, u, record) =>
      (if record.Some? then s.(index := Removed(s, record.value, h)) else s, HasRevoked(h, u))
    case HasRevoked(h, u) => (Put(s, u, drawn), Rotated(h, u, drawn))
    case Rotated(_, _, _) => (s, p)
    case Refused(_) => (s, p)
  }

  function Happen(d: Desk, e: Event): Desk {
    match e
    case Do(op) => d.(store := Apply(d.store, op))
    case Start(id, h) =>
      if id in d.rotations then d else d.(rotations := d.rotations[id := FirstRead(d.store, h)])
    case Next(id, drawn) =>
      if id !in d.rotations then d
      else
        var (s, p) := Proceed(d.store, d.rotations[id], drawn);
        d.(store := s, rotations := d.rotations[id := p])
    case ReadMembers(id, u) => d.(revocations := d.revocations[id := (u, IndexOf(d.store, u))])
    case DeleteMembers(id) =>
      if id !in d.revocations then d
      else
        var (u, members) := d.revocations[id];
        d.(store := DeleteAll(d.store, u, members), revocations := d.revocations - {id})
  }

  function Course(d: Desk, es: seq<Event>): Desk {
    if es == [] then d else Happen(Course(d, es[..|es| - 1]), es[|es| - 1])
  }

  /** What ends the life of a live token: its expiry, or a command that deletes it. */
  predicate Removes(d: Desk, e: Event, h: Hash) {
    match e
    case Do(Tick(seconds)) => h in d.store.tokens && d.store.tokens[h].expires <= d.store.now + seconds
    case Do(IssueToken(_, _)) => false
    case Do(RevokeToken(g)) => g == h
    case Do(RevokeAllOf(u)) => h in IndexOf(d.store, u)
    case Do(RotateToken(g, _)) => g == h
    case Start(_, _) => false
    case Next(id, _) => id in d.rotations && d.rotations[id].HasReread? && d.rotations[id].hash == h
    case ReadMembers(_, _) => false
    case DeleteMembers(id) => id in d.revocations && h in d.revocations[id].1
  }

  predicate Untouched(d: Desk, es: seq<Event>, h: Hash) {
    forall k :: 0 <= k < |es| ==> !Removes(Course(d, es[..k]), es[k], h)
  }

  predicate Draws(e: Event, h: Hash) {
    match e
    case Do(op) => Issues(op, h)
    case Next(_, drawn) => drawn == h
    case _ => false
  }

  predicate NeverDrawn(es: seq<Event>, h: Hash) {
    forall k :: 0 <= k < |es| ==> !Draws(es[k], h)
  }

  lemma LiveStep(d: Desk, e: Event, h: Hash)
    requires !Draws(e, h)
    ensures Live(Happen(d, e).store, h) <==> Live(d.store, h) && !Removes(d, e, h)
    ensures Live(Happen(d, e).store, h) ==> Happen(d, e).store.tokens[h] == d.store.tokens[h]
  {
  }

  lemma UntouchedOn(d: Desk, es: seq<Event>, h: Hash)
    requires es != []
    ensures var front, e := es[..|es| - 1], es[|es| - 1];
            Untouched(d, es, h) <==> Untouched(d, front, h) && !Removes(Course(d, front), e, h)
  {
    var front := es[..|es| - 1];
    forall k | 0 <= k < |front| ensures front[k] == es[k] && front[..k] == es[..k] {}
  }

  /** A token lives on exactly when nothing in the run removes it. */
  lemma {:induction false} LiveExactly(d: Desk, es: seq<Event>, h: Hash)
    requires Live(d.store, h) && NeverDrawn(es, h)
    ensures Live(Course(d, es).store, h) <==> Untouched(d, es, h)
    ensures Live(Course(d, es).store, h) ==> Course(d, es).store.tokens[h] == d.store.tokens[h]
  {
    if es != [] {
      var front, e := es[..|es| - 1], es[|es| - 1];
      LiveExactly(d, front, h);
      LiveStep(Course(d, front), e, h);
      UntouchedOn(d, es, h);
    }
  }

  predicate NeverStarted(es: seq<Event>, id: nat) {
    forall k :: 0 <= k < |es| ==> !(es[k].Start? && es[k].id == id)
  }

  lemma {:induction false} NotStarted(d: Desk, es: seq<Event>, id: nat)
    requires id !in d.rotations && NeverStarted(es, id)
    ensures id !in Course(d, es).rotations
  {
    if es != [] {
      NotStarted(d, es[..|es| - 1], id);
      assert !(es[|es| - 1].Start? && es[|es| - 1].id == id);
    }
  }

  /** How often the rotation gets its turn. */
  function Turns(es: seq<Event>, id: nat): nat {
    if es == [] then 0
    else Turns(es[..|es| - 1], id) + if es[|es| - 1].Next? && es[|es| - 1].id == id then 1 else 0
  }

  /** Where a rotation that was not refused stands after a number of turns. */
  predicate StandsAt(p: Rotation, h: Hash, u: nat, turns: nat) {
    && !p.Refused? && p.hash == h && p.user == u
    && (p.HasRead? <==> turns == 0) && (p.HasReread? <==> turns == 1)
    && (p.HasDeleted? <==> turns == 2) && (p.HasRevoked? <==> turns == 3)
  }

  lemma {:induction false} RotationGoesOn(d: Desk, es: seq<Event>, id: nat, h: Hash)
    requires id in d.rotations
    ensures id in Course(d, es).rotations
    ensures d.rotations[id] == Refused(h) ==> Course(d, es).rotations[id] == Refused(h)
    ensures forall u :: d.rotations[id] == HasRead(h, u) ==> StandsAt(Course(d, es).rotations[id], h, u, Turns(es, id))
  {
    if es != [] {
      RotationGoesOn(d, es[..|es| - 1], id, h);
    }
  }

  lemma {:induction false} CourseOn(d: Desk, es: seq<Event>, more: seq<Event>)
    ensures Course(d, es + more) == Course(Course(d, es), more)
  {
    if more == [] {
      assert es + more == es;
    } else {
      CourseOn(d, es, more[..|more| - 1]);
      assert (es + more)[..|es + more| - 1] == es + more[..|more| - 1];
    }
  }

  /**
   However the commands of any number of rotations interleave with each other and with the other
   operations: a rotation of a good token goes through, given its four turns, exactly when nothing
   has removed the token before it read, the deletion by another rotation included; otherwise it is
   refused. It goes through for the token's user.
   */
  lemma RotationSucceedsExactly(d: Desk, before: seq<Event>, id: nat, h: Hash, after: seq<Event>)
    requires Live(d.store, h) && NeverDrawn(before, h)
    requires id !in d.rotations && NeverStarted(before, id)
    ensures var rotations := Course(d, before + [Start(id, h)] + after).rotations;
            && id in rotations
            && (rotations[id].Rotated? <==> Untouched(d, before, h) && Turns(after, id) >= 4)
            && (rotations[id].Refused? <==> !Untouched(d, before, h))
            && (!rotations[id].Refused? ==> rotations[id].user == d.store.tokens[h].user)
  {
    var d1 := Course(d, before);
    LiveExactly(d, before, h);
    NotStarted(d, before, id);
    CourseOn(d, before + [Start(id, h)], after);
    assert (before + [Start(id, h)])[..|before|] == before;
    RotationGoesOn(Happen(d1, Start(id, h)), after, id, h);
  }

  predicate GoodAfter(d: Desk, es: seq<Event>, u: nat, next: Hash) {
    Read(Course(d, es).store, next) == Some(u)
  }

  lemma IssueIsGood(d: Desk, e: Event, id: nat)
    requires id in d.rotations ==> !d.rotations[id].Rotated?
    ensures var d' := Happen(d, e);
            id in d'.rotations && d'.rotations[id].Rotated? ==>
              Read(d'.store, d'.rotations[id].next) == Some(d'.rotations[id].user)
  {
  }

  /** A rotation that has gone through left a successor that was good, for its user, when it was issued. */
  lemma {:induction false} SuccessorIsGood(d: Desk, es: seq<Event>, id: nat)
    requires id in d.rotations ==> !d.rotations[id].Rotated?
    ensures var rotations := Course(d, es).rotations;
            id in rotations && rotations[id].Rotated? ==>
              exists k :: 0 <= k <= |es| && GoodAfter(d, es[..k], rotations[id].user, rotations[id].next)
  {
    if es != [] {
      var front := es[..|es| - 1];
      SuccessorIsGood(d, front, id);
      var d1 := Course(d, front);
      if id in d1.rotations && d1.rotations[id].Rotated? {
        var k :| 0 <= k <= |front| && GoodAfter(d, front[..k], d1.rotations[id].user, d1.rotations[id].next);
        assert front[..k] == es[..k];
      } else {
        IssueIsGood(d1, es[|es| - 1], id);
        assert es[..|es|] == es;
      }
    }
  }

  // ---- uninterrupted rotations, and two of one token ----

  function Turn(id: nat, next: Hash): seq<Event> {
    [Next(id, next), Next(id, next), Next(id, next), Next(id, next)]
  }

  function FinishRotation(s: Store, h: Hash, u: nat, next: Hash): Store {
    Put(Revoke(s, h), u, next)
  }

  /** The steps after the read, when nothing comes between them. */
  lemma FourTurns(d: Desk, id: nat, next: Hash)
    requires id in d.rotations && d.rotations[id].HasRead?
    ensures var p := d.rotations[id];
            Course(d, Turn(id, next))
            == d.(store := FinishRotation(d.store, p.hash, p.user, next),
                  rotations := d.rotations[id := Rotated(p.hash, p.user, next)])
  {
    var e := Next(id, next);
    assert Turn(id, next)[..3] == [e, e, e] && [e, e, e][..2] == [e, e] && [e, e][..1] == [e] && [e][..0] == [];
    var d1 := Happen(d, e);
    assert Course(d, [e]) == d1;
    var d2 := Happen(d1, e);
    assert Course(d, [e, e]) == d2;
    var d3 := Happen(d2, e);
    assert Course(d, [e, e, e]) == d3;
    assert d3.store == Revoke(d.store, d.rotations[id].hash);
  }

  /** Uninterrupted, the steps of a rotation are the rotation. */
  lemma UninterruptedIsRotate(d: Desk, id: nat, h: Hash, next: Hash)
    requires id !in d.rotations
    ensures var (s, user) := Rotate(d.store, h, next);
            Course(d, [Start(id, h)] + Turn(id, next))
            == d.(store := s,
                  rotations := d.rotations[id := if user.Some? then Rotated(h, user.value, next) else Refused(h)])
  {
    CourseOn(d, [Start(id, h)], Turn(id, next));
    assert [Start(id, h)][..0] == [];
    var d1 := Happen(d, Start(id, h));
    assert Course(d, [Start(id, h)]) == d1;
    if Live(d.store, h) {
      FourTurns(d1, id, next);
    } else {
      StaysRefused(d1, id, h, Turn(id, next));
    }
  }

  lemma {:induction false} StaysRefused(d: Desk, id: nat, h: Hash, es: seq<Event>)
    requires id in d.rotations && d.rotations[id] == Refused(h)
    requires forall k :: 0 <= k < |es| ==> es[k].Next? && es[k].id == id
    ensures Course(d, es) == d
  {
    if es != [] {
      StaysRefused(d, id, h, es[..|es| - 1]);
      assert d.rotations == d.rotations[id := Refused(h)];
    }
  }

  lemma TwoSuccessors(s: Store, h: Hash, u: nat, first: Hash, second: Hash)
    requires Read(s, h) == Some(u) && first != h && second != h && first != second
    ensures var s' := FinishRotation(FinishRotation(s, h, u, first), h, u, second);
            Read(s', first) == Some(u) && Read(s', second) == Some(u) && Read(s', h) == None
  {
    var s1 := FinishRotation(s, h, u, first);
    assert Read(s1, h) == None && Read(s1, first) == Some(u);
  }

  lemma BothRead(d: Desk, h: Hash, u: nat)
    requires Read(d.store, h) == Some(u) && d.rotations == map[]
    ensures Course(d, [Start(0, h), Start(1, h)]) == d.(rotations := map[0 := HasRead(h, u), 1 := HasRead(h, u)])
  {
    assert [Start(0, h), Start(1, h)][..1] == [Start(0, h)] && [Start(0, h)][..0] == [];
    assert Course(d, [Start(0, h)]) == Happen(d, Start(0, h));
  }

  /** One of two rotations finishes while the other stands where it did. */
  lemma OneFinishes(d: Desk, id: nat, next: Hash, other: nat, p: Rotation)
    requires id != other && id in d.rotations && d.rotations[id].HasRead?
    requires d.rotations == map[id := d.rotations[id], other := p]
    ensures var q := d.rotations[id];
            Course(d, Turn(id, next))
            == d.(store := FinishRotation(d.store, q.hash, q.user, next),
                  rotations := map[id := Rotated(q.hash, q.user, next), other := p])
  {
    FourTurns(d, id, next);
  }

  /** Two rotations that both read the token before either deletes it leave two good successors. */
  lemma DoubleRotation(s: Store, h: Hash, u: nat, first: Hash, second: Hash)
    requires Read(s, h) == Some(u) && first != h && second != h && first != second
    ensures var d := Course(Desk(s, map[], map[]), [Start(0, h), Start(1, h)] + Turn(0, first) + Turn(1, second));
            && d.rotations == map[0 := Rotated(h, u, first), 1 := Rotated(h, u, second)]
            && Read(d.store, first) == Some(u) && Read(d.store, second) == Some(u) && Read(d.store, h) == None
  {
    var d, starts, one, two := Desk(s, map[], map[]), [Start(0, h), Start(1, h)], Turn(0, first), Turn(1, second);
    BothRead(d, h, u);
    OneFinishes(Course(d, starts), 0, first, 1, HasRead(h, u));
    OneFinishes(Course(Course(d, starts), one), 1, second, 0, Rotated(h, u, first));
    TwoSuccessors(s, h, u, first, second);
    CourseOn(d, starts, one);
    CourseOn(d, starts + one, two);
  }

  // ---- the store as it is updated in place ----

  class TokenStore {
    var now: nat
    var tokens: map<Hash, Token>
    var index: map<nat, Members>

    constructor (now: nat)
      ensures View() == Empty(now)
    {
      this.now := now;
      tokens, index := map[], map[];
    }

    function View(): Store
      reads this
    {
      Store(now, tokens, index)
    }

    method StoreRefreshToken(u: nat, h: Hash)
      modifies this`tokens, this`index
      ensures View() == Put(old(View()), u, h)
    {
      tokens := tokens[h := Token(u, now + REFRESH_TTL)];
      var known := u in index && now < index[u].expires;
      var expires := if known then index[u].expires else now + REFRESH_TTL;
      var hashes := if known then index[u].hashes + {h} else {h};
      index := index[u := Members(hashes, expires)];
      index := index[u := Members(index[u].hashes, now + REFRESH_TTL)];
      assert hashes == IndexOf(old(View()), u) + {h};
      assert index == old(index)[u := Members(hashes, now + REFRESH_TTL)];
    }

    method ReadRefreshToken(h: Hash) returns (user: Option<nat>)
      ensures user == Read(View(), h)
    {
      user := if h in tokens && now < tokens[h].expires then Some(tokens[h].user) else None;
    }

    method RevokeRefreshToken(h: Hash)
      modifies this`tokens, this`index
      ensures View() == Revoke(old(View()), h)
    {
      var record := ReadRefreshToken(h);
      tokens := tokens - {h};
      if record.Some? {
        var u := record.value;
        if u in index && now < index[u].expires {
          var rest := index[u].hashes - {h};
          index := if rest == {} then index - {u} else index[u := Members(rest, index[u].expires)];
        }
      }
    }

    /** One deletion for each member that was read, and one for the index. */
    method RevokeAllRefreshTokensForUser(u: nat)
      modifies this`tokens, this`index
      ensures View() == RevokeAll(old(View()), u)
    {
      var hashes := if u in index && now < index[u].expires then index[u].hashes else {};
      if hashes == {} {
        return;
      }
      var rest := hashes;
      while rest != {}
        modifies this`tokens
        invariant rest <= hashes
        invariant tokens == old(tokens) - (hashes - rest)
        decreases |rest|
      {
        var h :| h in rest;
        tokens := tokens - {h};
        rest := rest - {h};
      }
      assert hashes - rest == hashes;
      index := index - {u};
    }

    /** The token drawn, `next`, is an argument. */
    method RotateRefreshToken(h: Hash, next: Hash) returns (user: Option<nat>)
      modifies this`tokens, this`index
      ensures (View(), user) == Rotate(old(View()), h, next)
    {
      user := ReadRefreshToken(h);
      if user.None? {
        return;
      }
      RevokeRefreshToken(h);
      StoreRefreshToken(user.value, next);
    }
  }
}
