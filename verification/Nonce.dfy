/** Single use of signed assertions, on a nonce cache that forgets what has
    expired. Each call reads the clock once for freshness and again to prune. */
module Nonce {
  import opened Schemas

  const MAX_SKEW: real := 5.0

  /** The signed content of a step-up assertion. */
  datatype Assertion = Assertion(
    challengeId: string,
    identityId: string,
    challengeMethod: string,
    result: string,
    issuedAt: real,
    nonce: string,
    exp: real)

  /* ---- The cache ---- */

  /** What survives pruning at `now`. */
  function Kept(seen: map<string, real>, now: real): map<string, real> {
    map n | n in seen && seen[n] >= now :: seen[n]
  }

  class NonceCache {
    var seen: map<string, real>

    constructor ()
      ensures seen == map[]
    {
      seen := map[];
    }

    method Prune(now: real)
      modifies this
      ensures seen == Kept(old(seen), now)
    {
      var todo := seen.Keys;
      while todo != {}
        invariant todo <= seen.Keys <= old(seen).Keys
        invariant forall n :: n in seen ==> seen[n] == old(seen)[n] && (n !in todo ==> seen[n] >= now)
        invariant forall n :: n in old(seen) && old(seen)[n] >= now ==> n in seen
        decreases |todo|
      {
        var n :| n in todo;
        todo := todo - {n};
        if seen[n] < now {
          seen := seen - {n};
        }
      }
    }

    method Seen(nonce: string, now: real) returns (yes: bool)
      modifies this
      ensures seen == Kept(old(seen), now)
      ensures yes <==> nonce in seen
    {
      Prune(now);
      yes := nonce in seen;
    }

    method Add(nonce: string, exp: real)
      modifies this
      ensures seen == old(seen)[nonce := exp]
    {
      seen := seen[nonce := exp];
    }
  }

  /* ---- A use of signed tokens, as both consumers share it ---- */

  /** A signed token as the cache sees it. */
  datatype Ticket = Ticket(key: string, issuedAt: real, exp: real)

  /** One call: whether everything checked before the nonces but the time is in
      order, the tickets it presents, whether what is read after the lookups is
      usable, the clock the tickets are checked against and the last one it
      prunes with. */
  datatype Call = Call(inOrder: bool, tickets: seq<Ticket>, usable: bool, now: real, pruneAt: real)

  predicate Fresh(t: Ticket, now: real) {
    now <= t.exp && t.issuedAt <= now + MAX_SKEW
  }

  /** A ticket is fresh up to its expiry, and from five seconds before its issue. */
  lemma FreshExactly(t: Ticket, now: real)
    ensures Fresh(t, now) <==> t.issuedAt - 5.0 <= now <= t.exp
  {
  }

  predicate Reaches(c: Call) {
    c.inOrder && forall i :: 0 <= i < |c.tickets| ==> Fresh(c.tickets[i], c.now)
  }

  predicate Accepts(seen: map<string, real>, c: Call) {
    Reaches(c) && c.usable && forall i :: 0 <= i < |c.tickets| ==> c.tickets[i].key !in Kept(seen, c.pruneAt)
  }

  function AddAll(seen: map<string, real>, ts: seq<Ticket>): map<string, real> {
    if ts == [] then seen else AddAll(seen, ts[..|ts| - 1])[ts[|ts| - 1].key := ts[|ts| - 1].exp]
  }

  function NextSeen(seen: map<string, real>, c: Call): map<string, real> {
    if Accepts(seen, c) then AddAll(Kept(seen, c.pruneAt), c.tickets)
    else if Reaches(c) then Kept(seen, c.pruneAt)
    else seen
  }

  /** The cache before call `i` of a run. */
  function SeenAt(calls: seq<Call>, i: nat): map<string, real>
    requires i <= |calls|
  {
    if i == 0 then map[] else NextSeen(SeenAt(calls, i - 1), calls[i - 1])
  }

  predicate AcceptedAt(calls: seq<Call>, i: nat)
    requires i < |calls|
  {
    Accepts(SeenAt(calls, i), calls[i])
  }

  /** Clock readings never go back, within a call or from one call to the next. */
  ghost predicate Orderly(calls: seq<Call>) {
    && (forall i :: 0 <= i < |calls| ==> calls[i].now <= calls[i].pruneAt)
    && (forall i, j :: 0 <= i < j < |calls| ==> calls[i].pruneAt <= calls[j].now)
  }

  /** The keys one call presents are distinct. */
  ghost predicate WellKeyed(calls: seq<Call>) {
    forall i :: 0 <= i < |calls| ==> DistinctKeys(calls[i].tickets)
  }

  ghost predicate DistinctKeys(ts: seq<Ticket>) {
    forall i, j :: 0 <= i < j < |ts| ==> ts[i].key != ts[j].key
  }

  lemma {:induction false} AddAllAdds(seen: map<string, real>, ts: seq<Ticket>)
    requires DistinctKeys(ts)
    ensures var after := AddAll(seen, ts);
            && (forall k :: k in after <==> k in seen || exists i :: 0 <= i < |ts| && ts[i].key == k)
            && (forall i :: 0 <= i < |ts| ==> after[ts[i].key] == ts[i].exp)
            && (forall k :: k in seen && (forall i :: 0 <= i < |ts| ==> ts[i].key != k) ==> after[k] == seen[k])
  {
    if ts != [] {
      var init := ts[..|ts| - 1];
      assert forall i :: 0 <= i < |init| ==> init[i] == ts[i];
      AddAllAdds(seen, init);
    }
  }

  /* ---- Whatever the clock does ---- */

  /** Some lookup among calls `i .. j` pruned past the expiry. */
  ghost predicate PrunedPast(calls: seq<Call>, exp: real, i: nat, j: nat)
    requires i <= j <= |calls|
  {
    exists k :: i <= k < j && Reaches(calls[k]) && calls[k].pruneAt > exp
  }

  /** No call among `i .. j` is accepted under this key. */
  ghost predicate Unused(calls: seq<Call>, key: string, i: nat, j: nat)
    requires i <= j <= |calls|
  {
    forall k, n :: i <= k < j && AcceptedAt(calls, k) && 0 <= n < |calls[k].tickets| ==> calls[k].tickets[n].key != key
  }

  /** A ticket whose use was accepted stays in the cache as long as no lookup has
      pruned past its expiry. */
  lemma {:induction false} UsedTicketStays(calls: seq<Call>, i: nat, m: nat, j: nat)
    requires i < j <= |calls| && WellKeyed(calls)
    requires AcceptedAt(calls, i) && m < |calls[i].tickets|
    requires !PrunedPast(calls, calls[i].tickets[m].exp, i + 1, j)
    ensures var t := calls[i].tickets[m];
            t.key in SeenAt(calls, j) && SeenAt(calls, j)[t.key] == t.exp
    decreases j
  {
    var t, c := calls[i].tickets[m], calls[j - 1];
    AddAllAdds(Kept(SeenAt(calls, j - 1), c.pruneAt), c.tickets);
    if i + 1 < j {
      UsedTicketStays(calls, i, m, j - 1);
      assert Reaches(c) ==> t.key in Kept(SeenAt(calls, j - 1), c.pruneAt);
    }
  }

  /** Once a lookup has pruned past it, it is gone for good, unless its key is
      used again. */
  lemma {:induction false} PrunedTicketIsGone(calls: seq<Call>, i: nat, m: nat, j: nat)
    requires i < j <= |calls| && WellKeyed(calls)
    requires AcceptedAt(calls, i) && m < |calls[i].tickets|
    requires PrunedPast(calls, calls[i].tickets[m].exp, i + 1, j) && Unused(calls, calls[i].tickets[m].key, i + 1, j)
    ensures calls[i].tickets[m].key !in SeenAt(calls, j)
    decreases j
  {
    var t, c := calls[i].tickets[m], calls[j - 1];
    AddAllAdds(Kept(SeenAt(calls, j - 1), c.pruneAt), c.tickets);
    if PrunedPast(calls, t.exp, i + 1, j - 1) {
      PrunedTicketIsGone(calls, i, m, j - 1);
    } else {
      UsedTicketStays(calls, i, m, j - 1);
    }
  }

  /** Whatever the clock does, an assertion used before and not since is accepted
      again exactly when it is fresh by the clock it is checked against and some
      lookup since its use, this one included, has pruned past its expiry. */
  lemma ReplayAcceptedExactly(calls: seq<Call>, i: nat, j: nat, t: Ticket)
    requires i < j < |calls| && WellKeyed(calls)
    requires AcceptedAt(calls, i) && t in calls[i].tickets && Unused(calls, t.key, i + 1, j)
    requires calls[j].inOrder && calls[j].usable && calls[j].tickets == [t]
    ensures AcceptedAt(calls, j) <==> Fresh(t, calls[j].now) && PrunedPast(calls, t.exp, i + 1, j + 1)
  {
    var m :| 0 <= m < |calls[i].tickets| && calls[i].tickets[m] == t;
    var c, seen := calls[j], SeenAt(calls, j);
    assert c.tickets[0] == t;
    assert Reaches(c) <==> Fresh(t, c.now);
    assert AcceptedAt(calls, j) <==> Reaches(c) && t.key !in Kept(seen, c.pruneAt);
    if PrunedPast(calls, t.exp, i + 1, j) {
      PrunedTicketIsGone(calls, i, m, j);
    } else {
      UsedTicketStays(calls, i, m, j);
    }
  }

  /** For calls with any number of tickets: a second acceptance needs such a
      lookup while the ticket is fresh. */
  lemma SecondUseNeedsPruning(calls: seq<Call>, i: nat, m: nat, j: nat, n: nat)
    requires i < j < |calls| && WellKeyed(calls)
    requires AcceptedAt(calls, i) && m < |calls[i].tickets|
    requires AcceptedAt(calls, j) && n < |calls[j].tickets|
    requires calls[j].tickets[n] == calls[i].tickets[m]
    ensures Fresh(calls[j].tickets[n], calls[j].now) && PrunedPast(calls, calls[i].tickets[m].exp, i + 1, j + 1)
  {
    assert Reaches(calls[j]);
    if !PrunedPast(calls, calls[i].tickets[m].exp, i + 1, j) {
      UsedTicketStays(calls, i, m, j);
      assert calls[j].pruneAt > calls[i].tickets[m].exp;
    }
  }

  /* ---- With a clock that never goes back ---- */

  /** Then only the later call's own second reading can have passed the expiry. */
  lemma SecondUseNeedsClockGap(calls: seq<Call>, i: nat, m: nat, j: nat, n: nat)
    requires i < j < |calls| && Orderly(calls) && WellKeyed(calls)
    requires AcceptedAt(calls, i) && m < |calls[i].tickets|
    requires AcceptedAt(calls, j) && n < |calls[j].tickets|
    requires calls[j].tickets[n] == calls[i].tickets[m]
    ensures calls[j].now <= calls[i].tickets[m].exp < calls[j].pruneAt
  {
    SecondUseNeedsPruning(calls, i, m, j, n);
  }

  /** With one clock reading per call no signed token is ever accepted twice,
      although the cache forgets: what is pruned is exactly what is rejected as
      expired. */
  lemma SingleUse(calls: seq<Call>, i: nat, m: nat, j: nat, n: nat)
    requires i < j < |calls| && Orderly(calls) && WellKeyed(calls)
    requires calls[j].now == calls[j].pruneAt
    requires AcceptedAt(calls, i) && m < |calls[i].tickets|
    requires n < |calls[j].tickets| && calls[j].tickets[n] == calls[i].tickets[m]
    ensures !AcceptedAt(calls, j)
  {
    if AcceptedAt(calls, j) {
      SecondUseNeedsClockGap(calls, i, m, j, n);
    }
  }

  /** A replay is accepted exactly when its expiry falls between the two readings
      of the clock, whatever was accepted in between. */
  lemma ReplayAcceptedExactlyInClockGap(calls: seq<Call>, i: nat, j: nat, t: Ticket)
    requires i < j < |calls| && Orderly(calls) && WellKeyed(calls)
    requires AcceptedAt(calls, i) && t in calls[i].tickets
    requires calls[j].inOrder && calls[j].usable && calls[j].tickets == [t]
    ensures AcceptedAt(calls, j) <==> calls[j].now <= t.exp < calls[j].pruneAt
  {
    var m :| 0 <= m < |calls[i].tickets| && calls[i].tickets[m] == t;
    assert Fresh(t, calls[i].now) && calls[i].now <= calls[j].now;
    assert calls[j].tickets[0] == t;
    if Unused(calls, t.key, i + 1, j) {
      ReplayAcceptedExactly(calls, i, j, t);
    } else {
      var k, n :| i + 1 <= k < j && AcceptedAt(calls, k) && 0 <= n < |calls[k].tickets| && calls[k].tickets[n].key == t.key;
      assert Reaches(calls[k]);
      if !PrunedPast(calls, t.exp, i + 1, k) {
        UsedTicketStays(calls, i, m, k);
        assert calls[k].pruneAt > t.exp;
      }
    }
  }

  /** The gap is real: with a clock that ticks inside the call, this assertion
      is accepted twice. */
  lemma ReplayInClockGap()
    ensures var t := Ticket("n", 0.0, 10.0);
            var calls := [Call(true, [t], true, 1.0, 1.0), Call(true, [t], true, 10.0, 10.5)];
            Orderly(calls) && WellKeyed(calls) && AcceptedAt(calls, 0) && AcceptedAt(calls, 1)
  {
    var t := Ticket("n", 0.0, 10.0);
    var calls := [Call(true, [t], true, 1.0, 1.0), Call(true, [t], true, 10.0, 10.5)];
    assert AcceptedAt(calls, 0);
    assert AddAll(map[], [t]) == map["n" := 10.0] by {
      assert [t][..0] == [];
    }
    assert Kept(map[], 1.0) == map[];
    assert SeenAt(calls, 1) == map["n" := 10.0] by {
      assert SeenAt(calls, 0) == map[];
    }
  }

  /** So is the other way, with equal readings inside every call: another
      assertion's lookup prunes this one, the clock steps back, and it is
      accepted again. */
  lemma ReplayAfterStepBack()
    ensures var t, u := Ticket("n", 0.0, 10.0), Ticket("m", 0.0, 20.0);
            var calls := [Call(true, [t], true, 1.0, 1.0), Call(true, [u], true, 11.0, 11.0), Call(true, [t], true, 9.0, 9.0)];
            WellKeyed(calls) && AcceptedAt(calls, 0) && AcceptedAt(calls, 2)
            && forall i :: 0 <= i < 3 ==> calls[i].now == calls[i].pruneAt
  {
    var t, u := Ticket("n", 0.0, 10.0), Ticket("m", 0.0, 20.0);
    var calls := [Call(true, [t], true, 1.0, 1.0), Call(true, [u], true, 11.0, 11.0), Call(true, [t], true, 9.0, 9.0)];
    assert SeenAt(calls, 0) == map[] && AcceptedAt(calls, 0);
    assert Reaches(calls[1]) && calls[1].pruneAt > t.exp;
    assert calls[1].tickets[0].key != t.key && calls[0].tickets[0] == t;
    ReplayAcceptedExactly(calls, 0, 2, t);
  }

  /* ---- The step-up validator ---- */

  function TicketOf(a: Assertion): Ticket { Ticket(a.nonce, a.issuedAt, a.exp) }

  class AssertionValidator {
    const cache: NonceCache

    constructor (cache: NonceCache)
      ensures this.cache == cache
    {
      this.cache := cache;
    }

    /** `token` is the verified payload, or why there is none. */
    method Validate(token: Result<Assertion>, expectedId: string, now: real, pruneAt: real)
      returns (r: Result<Assertion>)
      modifies cache
      ensures token.Err? ==> r == token
      ensures token.Ok? ==>
                var a := token.value;
                var c := Call(a.identityId == expectedId, [TicketOf(a)], true, now, pruneAt);
                && cache.seen == NextSeen(old(cache.seen), c)
                && (r == Ok(a) <==> Accepts(old(cache.seen), c))
                && (r.Err? <==> !Accepts(old(cache.seen), c))
                && (r.Err? ==> r.error == if !c.inOrder then IdentityMismatch
                                          else if !Reaches(c) then ExpiredAssertion else ReplayedNonce)
      ensures token.Ok? ==>
                var a := token.value;
                && (r == Err(IdentityMismatch) <==> a.identityId != expectedId)
                && (r == Err(ExpiredAssertion) <==>
                      a.identityId == expectedId && (now > a.exp || now < a.issuedAt - 5.0))
                && (r == Err(ReplayedNonce) <==>
                      a.identityId == expectedId && a.issuedAt - 5.0 <= now <= a.exp
                      && a.nonce in old(cache.seen) && old(cache.seen)[a.nonce] >= pruneAt)
      ensures token.Err? ==> cache.seen == old(cache.seen)
    {
      if token.Err? {
        return token;
      }
      var a := token.value;
      ghost var c := Call(a.identityId == expectedId, [TicketOf(a)], true, now, pruneAt);
      assert c.tickets[0] == TicketOf(a);
      if a.identityId != expectedId {
        return Err(IdentityMismatch);
      }
      if now > a.exp {
        return Err(ExpiredAssertion);
      }
      if a.issuedAt > now + MAX_SKEW {
        return Err(ExpiredAssertion);
      }
      var replayed := cache.Seen(a.nonce, pruneAt);
      if replayed {
        return Err(ReplayedNonce);
      }
      cache.Add(a.nonce, a.exp);
      assert AddAll(Kept(old(cache.seen), pruneAt), [TicketOf(a)]) == cache.seen by {
        assert [TicketOf(a)][..0] == [];
      }
      return Ok(a);
    }
  }

  /* ---- The behaviour resolver ---- */

  const INTEGRITY_PASS: string := "MEETS_DEVICE_INTEGRITY"

  /** Verified payloads; a missing time field makes the payload stale. */
  datatype Attestation = Attestation(kind: string, deviceId: string, verdict: string, nonce: string,
                                     times: Option<(real, real)>)
  datatype Behavior = Behavior(kind: string, deviceId: string, identityId: string, nonce: string,
                               times: Option<(real, real)>, similarity: Option<real>)

  predicate Bound(att: Attestation, beh: Behavior, identityId: string, deviceId: string) {
    && att.kind == "device_attestation" && beh.kind == "behavior_similarity"
    && att.times.Some? && beh.times.Some?
    && att.verdict == INTEGRITY_PASS
    && att.deviceId == deviceId && beh.deviceId == deviceId && beh.identityId == identityId
    && att.nonce != "" && beh.nonce != ""
  }

  /** A pair of attested payloads speaks for one device and one identity only, and
      neither payload can stand in for the other. */
  lemma BoundToOne(att: Attestation, beh: Behavior, id: string, device: string, id': string, device': string)
    requires Bound(att, beh, id, device)
    ensures Bound(att, beh, id', device') <==> id' == id && device' == device
    ensures beh.deviceId == device && att.deviceId == device && beh.identityId == id
    ensures att.kind != beh.kind && att.kind != "behavior_similarity" && beh.kind != "device_attestation"
    ensures !Bound(att.(verdict := ""), beh, id, device)
    ensures !Bound(att.(nonce := ""), beh, id, device) && !Bound(att, beh.(nonce := ""), id, device)
    ensures !Bound(att.(times := None), beh, id, device) && !Bound(att, beh.(times := None), id, device)
  {
    assert "device_attestation"[0] == 'd' && "behavior_similarity"[0] == 'b';
  }

  /** The two nonces live in one cache under separate prefixes. */
  function TicketsOf(att: Attestation, beh: Behavior): seq<Ticket>
    requires att.times.Some? && beh.times.Some?
  {
    [Ticket("att:" + att.nonce, att.times.value.0, att.times.value.1),
     Ticket("beh:" + beh.nonce, beh.times.value.0, beh.times.value.1)]
  }

  /** So an attestation nonce can never pass for a behaviour nonce. */
  lemma NamespacesAreApart(att: Attestation, beh: Behavior)
    requires att.times.Some? && beh.times.Some?
    ensures DistinctKeys(TicketsOf(att, beh))
  {
    assert ("att:" + att.nonce)[0] == 'a' && ("beh:" + beh.nonce)[0] == 'b';
  }

  /** A resolution as a call of a run, whatever comes of it: the clock it last
      prunes with is the first lookup's where that finds its nonce. */
  function Resolution(seen: map<string, real>, att: Option<Attestation>, beh: Option<Behavior>,
                      identityId: string, deviceId: string, now: real, pruneAt: real, pruneAgainAt: real): (c: Call)
    requires pruneAt <= pruneAgainAt
    ensures DistinctKeys(c.tickets) && c.now == now && pruneAt <= c.pruneAt <= pruneAgainAt
  {
    if att.None? || beh.None? || !Bound(att.value, beh.value, identityId, deviceId) then
      Call(false, [], false, now, pruneAt)
    else
      NamespacesAreApart(att.value, beh.value);
      var ts := TicketsOf(att.value, beh.value);
      Call(true, ts, beh.value.similarity.Some?, now, if ts[0].key in Kept(seen, pruneAt) then pruneAt else pruneAgainAt)
  }

  /** What that call accepts and leaves, in terms of the two payloads, so the
      single-use theorem covers both nonces of every resolution in a run. */
  lemma ResolutionIsACall(seen: map<string, real>, att: Option<Attestation>, beh: Option<Behavior>,
                          identityId: string, deviceId: string, now: real, pruneAt: real, pruneAgainAt: real)
    requires pruneAt <= pruneAgainAt
    ensures var c := Resolution(seen, att, beh, identityId, deviceId, now, pruneAt, pruneAgainAt);
            if att.None? || beh.None? || !Bound(att.value, beh.value, identityId, deviceId)
               || (exists t :: t in TicketsOf(att.value, beh.value) && !Fresh(t, now))
            then !Accepts(seen, c) && NextSeen(seen, c) == seen
            else
              var ts := TicketsOf(att.value, beh.value);
              var first, again := ts[0].key in Kept(seen, pruneAt), ts[1].key in Kept(seen, pruneAgainAt);
              && (Accepts(seen, c) <==> !first && !again && beh.value.similarity.Some?)
              && NextSeen(seen, c) == if first then Kept(seen, pruneAt)
                                      else if Accepts(seen, c) then AddAll(Kept(seen, pruneAgainAt), ts)
                                      else Kept(seen, pruneAgainAt)
  {
    var c := Resolution(seen, att, beh, identityId, deviceId, now, pruneAt, pruneAgainAt);
    if c.inOrder {
      var ts := TicketsOf(att.value, beh.value);
      assert c.tickets[0] == ts[0] && c.tickets[1] == ts[1] && ts[0] in ts && ts[1] in ts;
      assert ts[0].key in Kept(seen, pruneAgainAt) ==> ts[0].key in Kept(seen, pruneAt);
    }
  }

  class BehaviorResolver {
    const cache: NonceCache

    constructor (cache: NonceCache)
      ensures this.cache == cache
    {
      this.cache := cache;
    }

    /** Trusted similarity in [0, 1], or None. Both nonces are consumed or
        neither; each lookup prunes at its own reading of the clock. */
    method Resolve(att: Option<Attestation>, beh: Option<Behavior>, identityId: string, deviceId: string,
                   now: real, pruneAt: real, pruneAgainAt: real)
      returns (similarity: Option<real>)
      requires pruneAt <= pruneAgainAt
      modifies cache
      ensures similarity.Some? <==>
                && att.Some? && beh.Some? && Bound(att.value, beh.value, identityId, deviceId)
                && beh.value.similarity.Some?
                && var ts := TicketsOf(att.value, beh.value);
                   && Fresh(ts[0], now) && Fresh(ts[1], now)
                   && ts[0].key !in Kept(old(cache.seen), pruneAt)
                   && ts[1].key !in Kept(old(cache.seen), pruneAgainAt)
      ensures similarity.Some? ==>
                && cache.seen == AddAll(Kept(old(cache.seen), pruneAgainAt), TicketsOf(att.value, beh.value))
                && 0.0 <= similarity.value <= 1.0
                && (0.0 <= beh.value.similarity.value <= 1.0 ==> similarity == beh.value.similarity)
                && (beh.value.similarity.value < 0.0 ==> similarity == Some(0.0))
                && (beh.value.similarity.value > 1.0 ==> similarity == Some(1.0))
      ensures similarity.None? ==>
                cache.seen == old(cache.seen) || cache.seen == Kept(old(cache.seen), pruneAt)
                || cache.seen == Kept(old(cache.seen), pruneAgainAt)
      ensures var c := Resolution(old(cache.seen), att, beh, identityId, deviceId, now, pruneAt, pruneAgainAt);
              cache.seen == NextSeen(old(cache.seen), c) && (similarity.Some? <==> Accepts(old(cache.seen), c))
    {
      ghost var before := cache.seen;
      ResolutionIsACall(before, att, beh, identityId, deviceId, now, pruneAt, pruneAgainAt);
      if att.None? || beh.None? {
        return None;
      }
      var a, b := att.value, beh.value;
      if a.kind != "device_attestation" || b.kind != "behavior_similarity" {
        return None;
      }
      if a.times.None? || now > a.times.value.1 || a.times.value.0 > now + MAX_SKEW {
        return None;
      }
      if b.times.None? || now > b.times.value.1 || b.times.value.0 > now + MAX_SKEW {
        return None;
      }
      if a.verdict != INTEGRITY_PASS || a.deviceId != deviceId || b.deviceId != deviceId || b.identityId != identityId {
        return None;
      }
      if a.nonce == "" || b.nonce == "" {
        return None;
      }
      PruneTwice(before, pruneAt, pruneAgainAt);
      var used := cache.Seen("att:" + a.nonce, pruneAt);
      if used {
        return None;
      }
      used := cache.Seen("beh:" + b.nonce, pruneAgainAt);
      if used {
        return None;
      }
      if b.similarity.None? {
        return None;
      }
      cache.Add("att:" + a.nonce, a.times.value.1);
      cache.Add("beh:" + b.nonce, b.times.value.1);
      AddTwo(Kept(before, pruneAgainAt), TicketsOf(a, b)[0], TicketsOf(a, b)[1]);
      var s := b.similarity.value;
      return Some(if s < 0.0 then 0.0 else if s > 1.0 then 1.0 else s);
    }

    lemma PruneTwice(seen: map<string, real>, first: real, again: real)
      requires first <= again
      ensures Kept(Kept(seen, first), again) == Kept(seen, again)
    {
    }

    lemma AddTwo(seen: map<string, real>, t: Ticket, u: Ticket)
      ensures AddAll(seen, [t, u]) == seen[t.key := t.exp][u.key := u.exp]
    {
      assert [t, u][..1] == [t];
      assert AddAll(seen, [t]) == seen[t.key := t.exp] by {
        assert [t][..0] == [];
      }
    }
  }
}
