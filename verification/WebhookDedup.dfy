/**
 Deduplication of carrier webhooks in memory (lib/telnyxWebhookDedup.js): claims that are pruned at
 every delivery, against the record of all claims ever made.
 */
module WebhookDedup {
  import opened Options

  /** When the prune and the claim read the clock, in milliseconds. */
  datatype Delivery = Delivery(id: nat, prunedAt: nat, at: nat)

  const DEFAULT_TTL_SEC: nat := 86400

  /** `getDedupTtlSec`: a setting of at least a minute counts, up to a week. */
  function TtlSeconds(setting: Option<nat>): (ttl: nat)
    ensures 60 <= ttl <= 604800
    ensures setting.Some? && 60 <= setting.value <= 604800 ==> ttl == setting.value
    ensures setting.Some? && setting.value > 604800 ==> ttl == 604800
    ensures setting.None? || setting.value < 60 ==> ttl == 24 * 60 * 60
  {
    if setting.Some? && setting.value >= 60 then (if setting.value < 604800 then setting.value else 604800)
    else DEFAULT_TTL_SEC
  }

  function Pruned(claims: map<nat, nat>, now: nat, ttl: nat): map<nat, nat> {
    map id | id in claims && now - claims[id] < ttl :: claims[id]
  }

  /** One delivery: prune, then claim unless the id was claimed within the last TTL. */
  function Claim(claims: map<nat, nat>, d: Delivery, ttl: nat): (map<nat, nat>, bool) {
    var kept := Pruned(claims, d.prunedAt, ttl);
    if d.id in kept && d.at - kept[d.id] < ttl then (kept, false) else (kept[d.id := d.at], true)
  }

  function Claims(ds: seq<Delivery>, ttl: nat): map<nat, nat> {
    if ds == [] then map[] else Claim(Claims(ds[..|ds| - 1], ttl), ds[|ds| - 1], ttl).0
  }

  /** Whether the i-th delivery is processed. */
  predicate Processed(ds: seq<Delivery>, i: nat, ttl: nat)
    requires i < |ds|
  {
    Claim(Claims(ds[..i], ttl), ds[i], ttl).1
  }

  /** The clock never goes back, from one reading to the next. */
  ghost predicate Monotone(ds: seq<Delivery>) {
    && (forall i :: 0 <= i < |ds| ==> ds[i].prunedAt <= ds[i].at)
    && (forall i, j :: 0 <= i < j < |ds| ==> ds[i].at <= ds[j].prunedAt)
  }

  // ---- the reference: nothing is ever forgotten ----

  /** When the id was last accepted, by the record of all deliveries. */
  function LastAccepted(ds: seq<Delivery>, id: nat, ttl: nat): Option<nat> {
    if ds == [] then None
    else
      var front, last := ds[..|ds| - 1], ds[|ds| - 1];
      var before := LastAccepted(front, id, ttl);
      if last.id == id && Accepted(before, last.at, ttl) then Some(last.at) else before
  }

  predicate Accepted(before: Option<nat>, at: nat, ttl: nat) {
    before.None? || at - before.value >= ttl
  }

  lemma {:induction false} LastAcceptedEarlier(ds: seq<Delivery>, id: nat, ttl: nat, now: nat)
    requires forall i :: 0 <= i < |ds| ==> ds[i].at <= now
    ensures LastAccepted(ds, id, ttl).Some? ==> LastAccepted(ds, id, ttl).value <= now
  {
    if ds != [] {
      LastAcceptedEarlier(ds[..|ds| - 1], id, ttl, now);
    }
  }

  /** The claims in memory are the record, but for entries as old as the TTL. */
  lemma {:induction false} ClaimsAreRecent(ds: seq<Delivery>, id: nat, ttl: nat, now: nat)
    requires ttl > 0 && Monotone(ds) && (forall i :: 0 <= i < |ds| ==> ds[i].at <= now)
    ensures id in Claims(ds, ttl) ==> LastAccepted(ds, id, ttl) == Some(Claims(ds, ttl)[id])
    ensures id !in Claims(ds, ttl) && LastAccepted(ds, id, ttl).Some? ==> now - LastAccepted(ds, id, ttl).value >= ttl
  {
    if ds != [] {
      var front, last := ds[..|ds| - 1], ds[|ds| - 1];
      ClaimsAreRecent(front, id, ttl, last.prunedAt);
      LastAcceptedEarlier(front, id, ttl, last.prunedAt);
    }
  }

  /** With pruning, every delivery is answered exactly as by the record that forgets nothing. */
  lemma PruningIsInvisible(ds: seq<Delivery>, i: nat, ttl: nat)
    requires ttl > 0 && Monotone(ds) && i < |ds|
    ensures Processed(ds, i, ttl) <==> Accepted(LastAccepted(ds[..i], ds[i].id, ttl), ds[i].at, ttl)
  {
    ClaimsAreRecent(ds[..i], ds[i].id, ttl, ds[i].prunedAt);
  }

  lemma {:induction false} AcceptedSince(ds: seq<Delivery>, i: nat, ttl: nat)
    requires ttl > 0 && Monotone(ds) && i < |ds| && Processed(ds, i, ttl)
    ensures var last := LastAccepted(ds, ds[i].id, ttl);
            last.Some? && last.value >= ds[i].at
  {
    var front := ds[..|ds| - 1];
    if i == |ds| - 1 {
      PruningIsInvisible(ds, i, ttl);
    } else {
      assert front[..i] == ds[..i];
      AcceptedSince(front, i, ttl);
    }
  }

  /** Two deliveries of one event are both processed only if they are at least the TTL apart. */
  lemma ProcessedApart(ds: seq<Delivery>, i: nat, j: nat, ttl: nat)
    requires ttl > 0 && Monotone(ds) && i < j < |ds| && ds[i].id == ds[j].id
    requires Processed(ds, i, ttl) && Processed(ds, j, ttl)
    ensures ds[j].at - ds[i].at >= ttl
  {
    PruningIsInvisible(ds, j, ttl);
    assert ds[..j][..i] == ds[..i];
    AcceptedSince(ds[..j], i, ttl);
  }

  /** A first delivery is processed, and so is one with nothing processed in the TTL before it. */
  lemma NothingLost(ds: seq<Delivery>, j: nat, ttl: nat)
    requires ttl > 0 && Monotone(ds) && j < |ds|
    requires forall i: nat :: i < j && ds[i].id == ds[j].id && Processed(ds, i, ttl) ==> ds[j].at - ds[i].at >= ttl
    ensures Processed(ds, j, ttl)
  {
    PruningIsInvisible(ds, j, ttl);
    var last := LastAccepted(ds[..j], ds[j].id, ttl);
    if last.Some? {
      var i := WhenAccepted(ds[..j], ds[j].id, ttl);
      assert ds[..j][..i] == ds[..i];
    }
  }

  /** The delivery that the record remembers. */
  lemma {:induction false} WhenAccepted(ds: seq<Delivery>, id: nat, ttl: nat) returns (i: nat)
    requires ttl > 0 && Monotone(ds) && LastAccepted(ds, id, ttl).Some?
    ensures i < |ds| && ds[i].id == id && Processed(ds, i, ttl) && LastAccepted(ds, id, ttl) == Some(ds[i].at)
  {
    var front, last := ds[..|ds| - 1], ds[|ds| - 1];
    if last.id == id && Accepted(LastAccepted(front, id, ttl), last.at, ttl) {
      i := |ds| - 1;
      PruningIsInvisible(ds, i, ttl);
    } else {
      i := WhenAccepted(front, id, ttl);
      assert front[..i] == ds[..i];
    }
  }

  // ---- the map as it is updated in place ----

  class Deduplicator {
    const ttl: nat
    var claims: map<nat, nat>

    constructor (setting: Option<nat>)
      ensures claims == map[] && ttl == TtlSeconds(setting) * 1000
    {
      ttl := TtlSeconds(setting) * 1000;
      claims := map[];
    }

    /** `pruneMemoryClaims` */
    method PruneMemoryClaims(now: nat)
      modifies this`claims
      ensures claims == Pruned(old(claims), now, ttl)
      ensures forall id :: id in claims <==> id in old(claims) && now - old(claims)[id] < ttl
      ensures forall id :: id in claims ==> claims[id] == old(claims)[id]
    {
      var rest := claims.Keys;
      while rest != {}
        invariant rest <= old(claims).Keys
        invariant forall id :: id in claims <==> id in old(claims) && (id in rest || now - old(claims)[id] < ttl)
        invariant forall id :: id in claims ==> claims[id] == old(claims)[id]
        decreases |rest|
      {
        var id :| id in rest;
        if now - claims[id] >= ttl {
          claims := claims - {id};
        }
        rest := rest - {id};
      }
      assert claims.Keys == Pruned(old(claims), now, ttl).Keys;
    }

    /** `claimTelnyxWebhookEvent`; an event without an id is always processed. */
    method ClaimEvent(event: Option<nat>, prunedAt: nat, at: nat) returns (process: bool)
      modifies this`claims
      ensures event.None? ==> process && claims == old(claims)
      ensures event.Some? ==> (claims, process) == Claim(old(claims), Delivery(event.value, prunedAt, at), ttl)
    {
      if event.None? {
        return true;
      }
      PruneMemoryClaims(prunedAt);
      if event.value in claims && at - claims[event.value] < ttl {
        return false;
      }
      claims := claims[event.value := at];
      process := true;
    }
  }
}
