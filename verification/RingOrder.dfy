/**
 The order in which a ring group's members are rung, and its fairness over consecutive calls
 (lib/ringGroupRouter.js, lib/ringGroups.js).
 */
module RingOrder {
  import opened Options

  datatype Member = Member(id: nat, active: bool, priority: int, answeredAt: Option<nat>)

  datatype Strategy = SIMULTANEOUS | SEQUENTIAL | ROUND_ROBIN | LONGEST_IDLE

  datatype Group = Group(strategy: Strategy, pointer: int, callsAnswered: nat, members: seq<Member>)

  // ---- sorting ----

  /** A comparison looks at the last answer, when sorting by idleness, and then at the priority. */
  datatype Key = Key(time: nat, priority: int)

  function KeyOf(m: Member, idle: bool): Key {
    Key(if idle && m.answeredAt.Some? then m.answeredAt.value else 0, m.priority)
  }

  predicate AtMost(a: Key, b: Key) {
    a.time < b.time || (a.time == b.time && a.priority <= b.priority)
  }

  predicate Ordered(ms: seq<Member>, idle: bool) {
    forall i, j :: 0 <= i <= j < |ms| ==> AtMost(KeyOf(ms[i], idle), KeyOf(ms[j], idle))
  }

  function WithKey(ms: seq<Member>, k: Key, idle: bool): seq<Member> {
    if ms == [] then []
    else WithKey(ms[..|ms| - 1], k, idle) + if KeyOf(ms[|ms| - 1], idle) == k then [ms[|ms| - 1]] else []
  }

  /** Behind everything that compares as at most m. */
  function Insert(ms: seq<Member>, m: Member, idle: bool): seq<Member> {
    if ms == [] || AtMost(KeyOf(ms[|ms| - 1], idle), KeyOf(m, idle)) then ms + [m]
    else Insert(ms[..|ms| - 1], m, idle) + [ms[|ms| - 1]]
  }

  /** `Array.prototype.sort`, which is stable. */
  function Sort(ms: seq<Member>, idle: bool): seq<Member> {
    if ms == [] then [] else Insert(Sort(ms[..|ms| - 1], idle), ms[|ms| - 1], idle)
  }

  /** The sort keeps the members of each key, in their order. */
  ghost predicate SameClasses(a: seq<Member>, b: seq<Member>, idle: bool) {
    forall k :: WithKey(a, k, idle) == WithKey(b, k, idle)
  }

  lemma {:induction false} WithKeyOn(a: seq<Member>, b: seq<Member>, k: Key, idle: bool)
    ensures WithKey(a + b, k, idle) == WithKey(a, k, idle) + WithKey(b, k, idle)
  {
    if b == [] {
      assert a + b == a;
    } else {
      WithKeyOn(a, b[..|b| - 1], k, idle);
      assert (a + b)[..|a + b| - 1] == a + b[..|b| - 1];
    }
  }

  lemma {:induction false} WithKeyMembers(ms: seq<Member>, k: Key, idle: bool, m: Member)
    ensures m in WithKey(ms, k, idle) <==> m in ms && KeyOf(m, idle) == k
  {
    if ms != [] {
      var front, last := ms[..|ms| - 1], ms[|ms| - 1];
      WithKeyMembers(front, k, idle, m);
      assert m in ms <==> m in front || m == last by {
        assert ms == front + [last];
      }
    }
  }

  lemma {:induction false} InsertMembers(ms: seq<Member>, m: Member, idle: bool)
    ensures multiset(Insert(ms, m, idle)) == multiset(ms) + multiset{m}
  {
    if ms != [] && !AtMost(KeyOf(ms[|ms| - 1], idle), KeyOf(m, idle)) {
      InsertMembers(ms[..|ms| - 1], m, idle);
      assert ms == ms[..|ms| - 1] + [ms[|ms| - 1]];
    }
  }

  lemma {:induction false} InsertOrdered(ms: seq<Member>, m: Member, idle: bool)
    requires Ordered(ms, idle)
    ensures Ordered(Insert(ms, m, idle), idle)
  {
    if ms != [] && !AtMost(KeyOf(ms[|ms| - 1], idle), KeyOf(m, idle)) {
      var front, last := ms[..|ms| - 1], ms[|ms| - 1];
      InsertOrdered(front, m, idle);
      InsertMembers(front, m, idle);
      var r := Insert(front, m, idle);
      forall i | 0 <= i < |r| ensures AtMost(KeyOf(r[i], idle), KeyOf(last, idle)) {
        assert r[i] in multiset(r);
        assert r[i] in front || r[i] == m;
      }
    }
  }

  lemma {:induction false} InsertClass(ms: seq<Member>, m: Member, k: Key, idle: bool)
    ensures WithKey(Insert(ms, m, idle), k, idle) == WithKey(ms, k, idle) + if KeyOf(m, idle) == k then [m] else []
  {
    if ms == [] || AtMost(KeyOf(ms[|ms| - 1], idle), KeyOf(m, idle)) {
      assert (ms + [m])[..|ms|] == ms;
    } else {
      var r := Insert(ms[..|ms| - 1], m, idle);
      InsertClass(ms[..|ms| - 1], m, k, idle);
      assert (r + [ms[|ms| - 1]])[..|r|] == r;
    }
  }

  lemma {:induction false} SortMembers(ms: seq<Member>, idle: bool)
    ensures Ordered(Sort(ms, idle), idle)
    ensures multiset(Sort(ms, idle)) == multiset(ms)
  {
    if ms != [] {
      var front, last := ms[..|ms| - 1], ms[|ms| - 1];
      SortMembers(front, idle);
      InsertOrdered(Sort(front, idle), last, idle);
      InsertMembers(Sort(front, idle), last, idle);
      assert ms == front + [last];
    }
  }

  lemma {:induction false} SortClass(ms: seq<Member>, k: Key, idle: bool)
    ensures WithKey(Sort(ms, idle), k, idle) == WithKey(ms, k, idle)
  {
    if ms != [] {
      SortClass(ms[..|ms| - 1], k, idle);
      InsertClass(Sort(ms[..|ms| - 1], idle), ms[|ms| - 1], k, idle);
    }
  }

  /** The sort orders, is a permutation, and keeps the order of members that compare as equal. */
  lemma SortIsStable(ms: seq<Member>, idle: bool)
    ensures Ordered(Sort(ms, idle), idle) && SameClasses(Sort(ms, idle), ms, idle)
    ensures multiset(Sort(ms, idle)) == multiset(ms)
  {
    SortMembers(ms, idle);
    forall k ensures WithKey(Sort(ms, idle), k, idle) == WithKey(ms, k, idle) {
      SortClass(ms, k, idle);
    }
  }

  /** The last of an ordered arrangement has the greatest key there is, and is the last of its class. */
  lemma SameLast(a: seq<Member>, b: seq<Member>, idle: bool)
    requires Ordered(a, idle) && Ordered(b, idle) && SameClasses(a, b, idle) && a != []
    ensures b != [] && b[|b| - 1] == a[|a| - 1]
  {
    var x := a[|a| - 1];
    WithKeyMembers(b, KeyOf(x, idle), idle, x);
    WithKeyMembers(a, KeyOf(x, idle), idle, x);
    assert x in b;
    var y := b[|b| - 1];
    WithKeyMembers(a, KeyOf(y, idle), idle, y);
    WithKeyMembers(b, KeyOf(y, idle), idle, y);
    assert y in a;
    var k := KeyOf(x, idle);
    assert k == KeyOf(y, idle);
    assert WithKey(a, k, idle) == WithKey(a[..|a| - 1], k, idle) + [x];
    assert WithKey(b, k, idle) == WithKey(b[..|b| - 1], k, idle) + [y];
    assert WithKey(a, k, idle)[|WithKey(a, k, idle)| - 1] == WithKey(b, k, idle)[|WithKey(b, k, idle)| - 1];
  }

  lemma SameFront(a: seq<Member>, b: seq<Member>, idle: bool)
    requires SameClasses(a, b, idle) && a != [] && b != [] && a[|a| - 1] == b[|b| - 1]
    ensures SameClasses(a[..|a| - 1], b[..|b| - 1], idle)
  {
    var x, a', b' := a[|a| - 1], a[..|a| - 1], b[..|b| - 1];
    forall k ensures WithKey(a', k, idle) == WithKey(b', k, idle) {
      var more := if KeyOf(x, idle) == k then [x] else [];
      var u, v := WithKey(a', k, idle), WithKey(b', k, idle);
      assert u + more == WithKey(a, k, idle) == WithKey(b, k, idle) == v + more;
      assert u == (u + more)[..|u|] && v == (v + more)[..|v|];
    }
  }

  /** Ordered arrangements with the same classes are the same: stability leaves no choice. */
  lemma {:induction false} OneStableOrder(a: seq<Member>, b: seq<Member>, idle: bool)
    requires Ordered(a, idle) && Ordered(b, idle) && SameClasses(a, b, idle)
    ensures a == b
  {
    if a != [] {
      SameLast(a, b, idle);
      SameFront(a, b, idle);
      OneStableOrder(a[..|a| - 1], b[..|b| - 1], idle);
      assert a == a[..|a| - 1] + [a[|a| - 1]] && b == b[..|b| - 1] + [b[|b| - 1]];
    } else if b != [] {
      SameLast(b, a, idle);
    }
  }

  // ---- the strategies ----

  /** JavaScript's remainder takes the sign of the dividend. */
  function JsRemainder(a: int, n: nat): int
    requires n > 0
  {
    if a >= 0 then a % n else -((-a) % n)
  }

  /** Where the rotation starts: the remainder again, with the sign of the divisor. */
  function Start(pointer: int, n: nat): (start: nat)
    requires n > 0
    ensures start < n
  {
    JsRemainder(JsRemainder(pointer, n) + n, n)
  }

  function RotateMembers(ms: seq<Member>, pointer: int): seq<Member> {
    if ms == [] then []
    else
      var start := Start(pointer, |ms|);
      ms[start..] + ms[..start]
  }

  function Active(ms: seq<Member>): seq<Member> {
    if ms == [] then []
    else Active(ms[..|ms| - 1]) + if ms[|ms| - 1].active then [ms[|ms| - 1]] else []
  }

  function OrderMembers(ms: seq<Member>, strategy: Strategy, pointer: int): seq<Member> {
    var active := Sort(Active(ms), false);
    match strategy
    case LONGEST_IDLE => Sort(active, true)
    case ROUND_ROBIN => RotateMembers(active, pointer)
    case _ => active
  }

  function Ring(g: Group): seq<Member> {
    OrderMembers(g.members, g.strategy, g.pointer)
  }

  function Touched(ms: seq<Member>, who: Option<nat>, now: nat): seq<Member> {
    seq(|ms|, i requires 0 <= i < |ms| => if Some(ms[i].id) == who then ms[i].(answeredAt := Some(now)) else ms[i])
  }

  /** `recordRingGroupAnswered`: the counter, the pointer for round robin, and the member's time. */
  function RecordAnswered(g: Group, who: Option<nat>, now: nat): Group {
    g.(callsAnswered := g.callsAnswered + 1,
       pointer := if g.strategy == ROUND_ROBIN then g.pointer + 1 else g.pointer,
       members := Touched(g.members, who, now))
  }

  datatype Answer = Answer(who: Option<nat>, now: nat)

  function After(g: Group, answers: seq<Answer>): Group {
    if answers == [] then g
    else
      var last := answers[|answers| - 1];
      RecordAnswered(After(g, answers[..|answers| - 1]), last.who, last.now)
  }

  function Ids(ms: seq<Member>): seq<nat> {
    seq(|ms|, i requires 0 <= i < |ms| => ms[i].id)
  }

  ghost predicate DistinctIds(ms: seq<Member>) {
    forall i, j :: 0 <= i < j < |ms| ==> ms[i].id != ms[j].id
  }

  // ---- results ----

  lemma ModUnique(p: int, n: nat, q: int, r: nat)
    requires n > 0 && r < n && p == q * n + r
    ensures p % n == r
  {
    var q' := p / n;
    assert p == n * q' + p % n;
    MulApart(q - q', n);
    assert (q - q') * n == p % n - r by {
      assert (q - q') * n == q * n - q' * n;
    }
  }

  lemma MulApart(d: int, n: nat)
    requires n > 0
    ensures d >= 1 ==> d * n >= n
    ensures d <= -1 ==> d * n + n <= 0
  {
  }

  lemma RemainderLaws(p: int, n: nat)
    requires n > 0
    ensures Start(p, n) == p % n
  {
    if p < 0 {
      var q, r := (-p) / n, (-p) % n;
      assert p == (-q) * n - r;
      if r == 0 {
        ModUnique(p, n, -q, 0);
        ModUnique(n, n, 1, 0);
      } else {
        assert p == (-q - 1) * n + (n - r);
        ModUnique(p, n, -q - 1, n - r);
        ModUnique(n - r, n, 0, n - r);
      }
    } else {
      ModUnique(p % n + n, n, 1, p % n);
    }
  }

  lemma RotationMembers(ms: seq<Member>, pointer: int)
    ensures multiset(RotateMembers(ms, pointer)) == multiset(ms)
  {
    if ms != [] {
      var start := Start(pointer, |ms|);
      assert ms == ms[..start] + ms[start..];
    }
  }

  lemma RotationStarts(ms: seq<Member>, pointer: int)
    requires ms != []
    ensures RotateMembers(ms, pointer) == ms[pointer % |ms|..] + ms[..pointer % |ms|]
  {
    RemainderLaws(pointer, |ms|);
  }

  /** Every strategy rings exactly the active members, each as often as it is in the group. */
  lemma OrderIsPermutation(ms: seq<Member>, strategy: Strategy, pointer: int)
    ensures multiset(OrderMembers(ms, strategy, pointer)) == multiset(Active(ms))
  {
    SortMembers(Active(ms), false);
    SortMembers(Sort(Active(ms), false), true);
    RotationMembers(Sort(Active(ms), false), pointer);
  }

  lemma {:induction false} InsertTouched(ms: seq<Member>, m: Member, who: Option<nat>, now: nat)
    ensures Insert(Touched(ms, who, now), Touched([m], who, now)[0], false) == Touched(Insert(ms, m, false), who, now)
  {
    if ms != [] && !AtMost(KeyOf(ms[|ms| - 1], false), KeyOf(m, false)) {
      InsertTouched(ms[..|ms| - 1], m, who, now);
      assert Touched(ms, who, now)[..|ms| - 1] == Touched(ms[..|ms| - 1], who, now);
    }
  }

  /** Answering moves nobody in the order of priority. */
  lemma {:induction false} SortTouched(ms: seq<Member>, who: Option<nat>, now: nat)
    ensures Sort(Touched(ms, who, now), false) == Touched(Sort(ms, false), who, now)
  {
    if ms != [] {
      var front, last := ms[..|ms| - 1], ms[|ms| - 1];
      SortTouched(front, who, now);
      InsertTouched(Sort(front, false), last, who, now);
      assert Touched(ms, who, now)[..|ms| - 1] == Touched(front, who, now);
    }
  }

  lemma {:induction false} ActiveTouched(ms: seq<Member>, who: Option<nat>, now: nat)
    ensures Active(Touched(ms, who, now)) == Touched(Active(ms), who, now)
  {
    if ms != [] {
      ActiveTouched(ms[..|ms| - 1], who, now);
      assert Touched(ms, who, now)[..|ms| - 1] == Touched(ms[..|ms| - 1], who, now);
    }
  }

  /** The active members of a group by priority. */
  function Roster(g: Group): seq<Member> {
    Sort(Active(g.members), false)
  }

  lemma {:induction false} RosterAfter(g: Group, answers: seq<Answer>)
    ensures Ids(Roster(After(g, answers))) == Ids(Roster(g))
    ensures After(g, answers).strategy == g.strategy
    ensures After(g, answers).callsAnswered == g.callsAnswered + |answers|
    ensures g.strategy == ROUND_ROBIN ==> After(g, answers).pointer == g.pointer + |answers|
  {
    if answers != [] {
      var front, last := answers[..|answers| - 1], answers[|answers| - 1];
      RosterAfter(g, front);
      ActiveTouched(After(g, front).members, last.who, last.now);
      SortTouched(Active(After(g, front).members), last.who, last.now);
    }
  }

  /**
   Round robin: whoever answers, the i-th of consecutive answered calls rings member
   pointer + i (modulo their number) first.
   */
  lemma HeadOfTurn(g: Group, answers: seq<Answer>)
    requires g.strategy == ROUND_ROBIN && Roster(g) != []
    ensures Ring(After(g, answers)) != []
    ensures Ring(After(g, answers))[0].id == Roster(g)[(g.pointer + |answers|) % |Roster(g)|].id
  {
    RosterAfter(g, answers);
    var g' := After(g, answers);
    var n := |Roster(g)|;
    assert |Ids(Roster(g'))| == n;
    var i := (g.pointer + |answers|) % n;
    assert Ids(Roster(g'))[i] == Ids(Roster(g))[i];
    RotationStarts(Roster(g'), g'.pointer);
  }

  /** The member that a further call rings first. */
  function NextHead(g: Group, answers: seq<Answer>): nat
    requires g.strategy == ROUND_ROBIN && Roster(g) != []
  {
    HeadOfTurn(g, answers);
    Ring(After(g, answers))[0].id
  }

  /** The members rung first on each of a sequence of answered calls. */
  function Heads(g: Group, answers: seq<Answer>): seq<nat>
    requires g.strategy == ROUND_ROBIN && Roster(g) != []
  {
    seq<nat>(|answers|, i requires 0 <= i < |answers| => NextHead(g, answers[..i]))
  }

  /** Over n consecutive answered calls each of the n active members is rung first exactly once. */
  lemma RoundRobinIsFair(g: Group, answers: seq<Answer>)
    requires g.strategy == ROUND_ROBIN && Roster(g) != [] && |answers| == |Roster(g)|
    ensures multiset(Heads(g, answers)) == multiset(Ids(Roster(g)))
    ensures Heads(g, answers) == Ids(RotateMembers(Roster(g), g.pointer))
  {
    var n := |Roster(g)|;
    var start := g.pointer % n;
    var ids := Ids(Roster(g));
    RotationStarts(Roster(g), g.pointer);
    assert Ids(RotateMembers(Roster(g), g.pointer)) == ids[start..] + ids[..start];
    forall i | 0 <= i < n ensures Heads(g, answers)[i] == (ids[start..] + ids[..start])[i] {
      HeadOfTurn(g, answers[..i]);
      TurnIndex(g.pointer, i, n);
    }
    assert Heads(g, answers) == ids[start..] + ids[..start];
    assert ids == ids[..start] + ids[start..];
  }

  lemma TurnIndex(p: int, i: nat, n: nat)
    requires i < n
    ensures (p + i) % n == if p % n + i < n then p % n + i else p % n + i - n
  {
    var q, r := p / n, p % n;
    assert p == q * n + r;
    if r + i < n {
      ModUnique(p + i, n, q, r + i);
    } else {
      assert p + i == (q + 1) * n + (r + i - n);
      ModUnique(p + i, n, q + 1, r + i - n);
    }
  }

  // ---- the order in the members' own columns ----

  lemma {:induction false} ActiveCount(ms: seq<Member>, m: Member)
    ensures multiset(Active(ms))[m] == if m.active then multiset(ms)[m] else 0
  {
    if ms != [] {
      ActiveCount(ms[..|ms| - 1], m);
      assert ms == ms[..|ms| - 1] + [ms[|ms| - 1]];
    }
  }

  /** The member was answered at this moment, or never, which counts as moment 0. */
  predicate LastAnswered(m: Member, time: nat) {
    m.answeredAt == Some(time) || (m.answeredAt.None? && time == 0)
  }

  /**
   Exactly the active members are rung. A lower priority number comes first, unless the group rings
   by idleness: then whoever answered longer ago, or never, comes first, and of two at the same
   moment the lower priority number.
   */
  lemma OrderExactly(ms: seq<Member>, strategy: Strategy, pointer: int, m: Member, i: nat, j: nat)
    ensures var order := OrderMembers(ms, strategy, pointer);
            && multiset(order)[m] == (if m.active then multiset(ms)[m] else 0)
            && (i < j < |order| && strategy in {SIMULTANEOUS, SEQUENTIAL} ==> order[i].priority <= order[j].priority)
            && (i < j < |order| && strategy == LONGEST_IDLE ==>
                  forall t: nat, u: nat :: LastAnswered(order[i], t) && LastAnswered(order[j], u) ==>
                    t < u || (t == u && order[i].priority <= order[j].priority))
  {
    OrderIsPermutation(ms, strategy, pointer);
    ActiveCount(ms, m);
    SortMembers(Active(ms), false);
    SortMembers(Sort(Active(ms), false), true);
    var order := OrderMembers(ms, strategy, pointer);
    if i < j < |order| {
      assert strategy in {SIMULTANEOUS, SEQUENTIAL} ==> AtMost(KeyOf(order[i], false), KeyOf(order[j], false));
      assert strategy == LONGEST_IDLE ==> AtMost(KeyOf(order[i], true), KeyOf(order[j], true));
    }
  }

  /** Round robin rings the members in the order of priority from the pointer's turn on, all the way round. */
  lemma RoundRobinTurns(ms: seq<Member>, pointer: int, i: nat)
    ensures var order, roster := OrderMembers(ms, ROUND_ROBIN, pointer), OrderMembers(ms, SEQUENTIAL, 0);
            |order| == |roster| && (i < |order| ==> order[i] == roster[(pointer + i) % |roster|])
  {
    var roster := OrderMembers(ms, SEQUENTIAL, 0);
    if roster != [] {
      RotationStarts(roster, pointer);
      if i < |roster| {
        TurnIndex(pointer, i, |roster|);
      }
    }
  }

  // ---- longest idle ----

  /** All answered before this moment. */
  ghost predicate Earlier(ms: seq<Member>, now: nat) {
    now > 0 && forall i :: 0 <= i < |ms| && ms[i].answeredAt.Some? ==> ms[i].answeredAt.value < now
  }

  /** Where nobody is touched, the class of a key stays as it is. */
  lemma {:induction false} ClassUntouched(ms: seq<Member>, who: nat, now: nat, k: Key)
    requires k.time != now && forall i :: 0 <= i < |ms| ==> ms[i].id != who
    ensures WithKey(Touched(ms, Some(who), now), k, true) == WithKey(ms, k, true)
  {
    if ms != [] {
      ClassUntouched(ms[..|ms| - 1], who, now, k);
      assert Touched(ms, Some(who), now)[..|ms| - 1] == Touched(ms[..|ms| - 1], Some(who), now);
    }
  }

  /** Answering takes the member out of its class: when it is the first there, the rest remains. */
  lemma ClassLosesHead(ms: seq<Member>, i: nat, now: nat, k: Key)
    requires i < |ms| && DistinctIds(ms) && k.time != now
    requires KeyOf(ms[i], true) == k ==> WithKey(ms, k, true) != [] && WithKey(ms, k, true)[0] == ms[i]
    ensures WithKey(Touched(ms, Some(ms[i].id), now), k, true)
            == if KeyOf(ms[i], true) == k then WithKey(ms, k, true)[1..] else WithKey(ms, k, true)
  {
    var who := ms[i].id;
    var a, m, b := ms[..i], ms[i], ms[i + 1..];
    var a', m', b' := Touched(a, Some(who), now), m.(answeredAt := Some(now)), Touched(b, Some(who), now);
    assert ms == a + [m] + b;
    assert Touched(ms, Some(who), now) == a' + [m'] + b';
    WithKeyOn(a + [m], b, k, true);
    WithKeyOn(a, [m], k, true);
    WithKeyOn(a' + [m'], b', k, true);
    WithKeyOn(a', [m'], k, true);
    assert [m][..0] == [] && [m'][..0] == [];
    ClassUntouched(a, who, now, k);
    ClassUntouched(b, who, now, k);
    if KeyOf(m, true) == k && WithKey(a, k, true) != [] {
      WithKeyMembers(a, k, true, WithKey(a, k, true)[0]);
    }
  }

  /** The class of the present moment is the one who has just answered. */
  lemma {:induction false} ClassOfNow(ms: seq<Member>, who: nat, now: nat, k: Key)
    requires Earlier(ms, now) && k.time == now
    ensures WithKey(ms, k, true) == []
    ensures (forall i :: 0 <= i < |ms| ==> ms[i].id != who) ==> WithKey(Touched(ms, Some(who), now), k, true) == []
  {
    if ms != [] {
      ClassOfNow(ms[..|ms| - 1], who, now, k);
      assert Touched(ms, Some(who), now)[..|ms| - 1] == Touched(ms[..|ms| - 1], Some(who), now);
    }
  }

  lemma ClassGainsLast(ms: seq<Member>, i: nat, now: nat, k: Key)
    requires i < |ms| && DistinctIds(ms) && Earlier(ms, now) && k.time == now
    ensures WithKey(Touched(ms, Some(ms[i].id), now), k, true)
            == if k.priority == ms[i].priority then [ms[i].(answeredAt := Some(now))] else []
  {
    var who := ms[i].id;
    var a, b, m' := ms[..i], ms[i + 1..], ms[i].(answeredAt := Some(now));
    var a', b' := Touched(a, Some(who), now), Touched(b, Some(who), now);
    assert Touched(ms, Some(who), now) == a' + [m'] + b';
    WithKeyOn(a' + [m'], b', k, true);
    WithKeyOn(a', [m'], k, true);
    assert [m'][..0] == [];
    ClassOfNow(a, who, now, k);
    ClassOfNow(b, who, now, k);
  }

  /** The first in the order is the first of its class. */
  lemma HeadOfClass(ms: seq<Member>, k: Key)
    requires ms != []
    ensures WithKey(ms, k, true) == (if KeyOf(ms[0], true) == k then [ms[0]] else []) + WithKey(ms[1..], k, true)
  {
    assert ms == [ms[0]] + ms[1..];
    assert [ms[0]][..0] == [];
    WithKeyOn([ms[0]], ms[1..], k, true);
  }

  /** The members of a key when the head of an order goes to its end, answered. */
  lemma ClassAtEnd(order: seq<Member>, last: Member, k: Key)
    requires order != []
    ensures KeyOf(order[0], true) == k ==> WithKey(order, k, true) != [] && WithKey(order, k, true)[0] == order[0]
    ensures WithKey(order[1..] + [last], k, true)
            == (if KeyOf(order[0], true) == k then WithKey(order, k, true)[1..] else WithKey(order, k, true))
               + if KeyOf(last, true) == k then [last] else []
  {
    HeadOfClass(order, k);
    WithKeyOn(order[1..], [last], k, true);
    assert [last][..0] == [];
  }

  lemma ClassAfterAnswer(ms: seq<Member>, order: seq<Member>, i: nat, now: nat, k: Key)
    requires i < |ms| && DistinctIds(ms) && Earlier(ms, now)
    requires order != [] && order[0] == ms[i] && WithKey(order, k, true) == WithKey(ms, k, true)
    ensures WithKey(order[1..] + [ms[i].(answeredAt := Some(now))], k, true)
            == WithKey(Touched(ms, Some(ms[i].id), now), k, true)
  {
    ClassAtEnd(order, ms[i].(answeredAt := Some(now)), k);
    if k.time == now {
      ClassGainsLast(ms, i, now, k);
      ClassOfNow(ms, ms[i].id, now, k);
    } else {
      ClassLosesHead(ms, i, now, k);
    }
  }

  lemma HeadIsMember(ms: seq<Member>, order: seq<Member>) returns (i: nat)
    requires ms != [] && multiset(order) == multiset(ms)
    ensures order != [] && i < |ms| && ms[i] == order[0]
  {
    assert |multiset(order)| == |multiset(ms)|;
    assert order[0] in multiset(order);
    i :| 0 <= i < |ms| && ms[i] == order[0];
  }

  /** When the member who has idled longest answers, it goes from the head of the order to its end. */
  lemma SortRotates(ms: seq<Member>, now: nat)
    requires ms != [] && DistinctIds(ms) && Earlier(ms, now)
    ensures var order := Sort(ms, true);
            order != [] &&
            Sort(Touched(ms, Some(order[0].id), now), true) == order[1..] + [order[0].(answeredAt := Some(now))]
  {
    SortIsStable(ms, true);
    var order := Sort(ms, true);
    var i := HeadIsMember(ms, order);
    var last := ms[i].(answeredAt := Some(now));
    var touched := Touched(ms, Some(ms[i].id), now);
    LastIsLatest(order, last, ms, now);
    forall k ensures WithKey(order[1..] + [last], k, true) == WithKey(Sort(touched, true), k, true) {
      ClassAfterAnswer(ms, order, i, now, k);
      SortClass(touched, k, true);
    }
    SortMembers(touched, true);
    OneStableOrder(order[1..] + [last], Sort(touched, true), true);
  }

  lemma LastIsLatest(order: seq<Member>, last: Member, ms: seq<Member>, now: nat)
    requires order != [] && Ordered(order, true) && multiset(order) == multiset(ms) && Earlier(ms, now)
    requires last.answeredAt == Some(now)
    ensures Ordered(order[1..] + [last], true)
  {
    forall x | x in order ensures AtMost(KeyOf(x, true), KeyOf(last, true)) {
      assert x in multiset(order);
      assert x in ms;
    }
  }

  ghost predicate Fresh(ms: seq<Member>, id: nat) {
    forall i :: 0 <= i < |ms| ==> ms[i].id != id
  }

  lemma FreshNext(ms: seq<Member>, m: Member, id: nat)
    ensures Fresh(ms + [m], id) <==> Fresh(ms, id) && m.id != id
  {
    assert (ms + [m])[|ms|] == m;
    assert forall i :: 0 <= i < |ms| ==> (ms + [m])[i] == ms[i];
  }

  lemma {:induction false} InsertDistinct(ms: seq<Member>, m: Member)
    requires DistinctIds(ms) && Fresh(ms, m.id)
    ensures DistinctIds(Insert(ms, m, false))
    ensures forall id :: Fresh(Insert(ms, m, false), id) <==> Fresh(ms, id) && m.id != id
  {
    if ms != [] && !AtMost(KeyOf(ms[|ms| - 1], false), KeyOf(m, false)) {
      var front, last := ms[..|ms| - 1], ms[|ms| - 1];
      assert ms == front + [last];
      FreshNext(front, last, m.id);
      InsertDistinct(front, m);
      var r := Insert(front, m, false);
      forall id ensures Fresh(r + [last], id) <==> Fresh(ms, id) && m.id != id {
        FreshNext(front, last, id);
        FreshNext(r, last, id);
      }
      assert Fresh(front, last.id);
      assert DistinctIds(r + [last]);
    } else {
      forall id ensures Fresh(ms + [m], id) <==> Fresh(ms, id) && m.id != id {
        FreshNext(ms, m, id);
      }
    }
  }

  /** The roster has the members' distinct ids, and no answer that is not in the group. */
  lemma {:induction false} RosterDistinct(ms: seq<Member>)
    requires DistinctIds(ms)
    ensures DistinctIds(Sort(Active(ms), false))
    ensures forall id :: Fresh(ms, id) ==> Fresh(Sort(Active(ms), false), id)
  {
    if ms != [] {
      var front, last := ms[..|ms| - 1], ms[|ms| - 1];
      RosterDistinct(front);
      assert ms == front + [last];
      assert Fresh(front, last.id);
      if last.active {
        assert (Active(front) + [last])[..|Active(front)|] == Active(front);
        InsertDistinct(Sort(Active(front), false), last);
      } else {
        assert Active(ms) == Active(front);
      }
      forall id | Fresh(ms, id) ensures Fresh(Sort(Active(ms), false), id) {
        FreshNext(front, last, id);
      }
    }
  }

  lemma {:induction false} ActiveMembers(ms: seq<Member>, m: Member)
    ensures m in Active(ms) <==> m in ms && m.active
  {
    if ms != [] {
      ActiveMembers(ms[..|ms| - 1], m);
      assert ms == ms[..|ms| - 1] + [ms[|ms| - 1]];
    }
  }

  lemma RosterEarlier(ms: seq<Member>, now: nat)
    requires Earlier(ms, now)
    ensures Earlier(Sort(Active(ms), false), now)
  {
    SortMembers(Active(ms), false);
    var roster := Sort(Active(ms), false);
    forall i | 0 <= i < |roster| && roster[i].answeredAt.Some? ensures roster[i].answeredAt.value < now {
      assert roster[i] in multiset(roster);
      ActiveMembers(ms, roster[i]);
    }
  }

  /** Longest idle: the member at the head answers, and is the last of the next call. */
  lemma LongestIdleRotates(g: Group, now: nat)
    requires g.strategy == LONGEST_IDLE && DistinctIds(g.members) && Earlier(g.members, now) && Ring(g) != []
    ensures Ring(RecordAnswered(g, Some(Ring(g)[0].id), now)) == Ring(g)[1..] + [Ring(g)[0].(answeredAt := Some(now))]
  {
    var who := Some(Ring(g)[0].id);
    RosterDistinct(g.members);
    RosterEarlier(g.members, now);
    ActiveTouched(g.members, who, now);
    SortTouched(Active(g.members), who, now);
    SortRotates(Roster(g), now);
  }

  /** Calls at these times, each answered by the member it rings first. */
  function HeadsAnswer(g: Group, times: seq<nat>): Group {
    if times == [] then g
    else
      var r := HeadsAnswer(g, times[..|times| - 1]);
      if Ring(r) == [] then r else RecordAnswered(r, Some(Ring(r)[0].id), times[|times| - 1])
  }

  ghost predicate Increasing(times: seq<nat>) {
    forall i, j :: 0 <= i < j < |times| ==> times[i] < times[j]
  }

  lemma AnsweredLater(g: Group, who: Option<nat>, now: nat, next: nat)
    requires DistinctIds(g.members) && Earlier(g.members, now) && now < next
    ensures DistinctIds(RecordAnswered(g, who, now).members) && Earlier(RecordAnswered(g, who, now).members, next)
  {
  }

  lemma RotateOnce(order: seq<nat>, k: nat)
    requires k < |order|
    ensures var r := order[k..] + order[..k];
            r[1..] + [r[0]] == order[k + 1..] + order[..k + 1]
  {
  }

  lemma IdleTurn(r: Group, at: nat)
    requires r.strategy == LONGEST_IDLE && DistinctIds(r.members) && Earlier(r.members, at) && Ring(r) != []
    ensures Ids(Ring(RecordAnswered(r, Some(Ring(r)[0].id), at))) == Ids(Ring(r))[1..] + [Ids(Ring(r))[0]]
  {
    LongestIdleRotates(r, at);
  }

  /** What a round of head-answered calls has done to the group before the moment `now`. */
  ghost predicate Turned(g: Group, g': Group, k: nat, now: nat)
    requires k <= |Ring(g)|
  {
    && g'.strategy == LONGEST_IDLE && DistinctIds(g'.members) && Earlier(g'.members, now)
    && Ids(Ring(g')) == Ids(Ring(g))[k..] + Ids(Ring(g))[..k]
  }

  lemma TurnOnce(g: Group, r: Group, k: nat, at: nat, now: nat)
    requires k < |Ring(g)| && Turned(g, r, k, at) && at < now
    ensures Ring(r) != []
    ensures Turned(g, RecordAnswered(r, Some(Ring(r)[0].id), at), k + 1, now)
  {
    assert |Ids(Ring(r))| == |Ids(Ring(g))|;
    IdleTurn(r, at);
    RotateOnce(Ids(Ring(g)), k);
    AnsweredLater(r, Some(Ring(r)[0].id), at, now);
  }

  /**
   Longest idle with the head answering each time: after k calls, up to one round, the order of
   the first call has been rotated by k, so every member is rung first once in a round.
   */
  lemma {:induction false} LongestIdleIsFair(g: Group, times: seq<nat>, now: nat)
    requires g.strategy == LONGEST_IDLE && DistinctIds(g.members) && |times| <= |Ring(g)|
    requires Increasing(times) && (times != [] ==> times[|times| - 1] < now)
    requires Earlier(g.members, if times == [] then now else times[0])
    ensures Turned(g, HeadsAnswer(g, times), |times|, now)
  {
    if times != [] {
      var k, last := |times| - 1, times[|times| - 1];
      LongestIdleIsFair(g, times[..k], last);
      TurnOnce(g, HeadsAnswer(g, times[..k]), k, last, now);
    }
  }
}
