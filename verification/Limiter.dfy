/** The step-up endpoint's sliding-window limits. Buckets are pruned and deleted
    as time passes; the specification keeps every event. */
module Limiter {
  const STEPUP_ACCEPTED_MAX: nat := 5
  const STEPUP_FAILURE_MAX: nat := 20
  const STEPUP_WINDOW_SECONDS: real := 300.0

  /** The events that still count at time `now`. */
  function Recent(log: seq<real>, now: real): seq<real> {
    if log == [] then []
    else
      var t := log[|log| - 1];
      Recent(log[..|log| - 1], now) + (if now - t < STEPUP_WINDOW_SECONDS then [t] else [])
  }

  /** Pruning loses nothing a later call could count. */
  lemma {:induction false} PruningIsInvisible(log: seq<real>, pruned: real, now: real)
    requires pruned <= now
    ensures Recent(Recent(log, pruned), now) == Recent(log, now)
  {
    if log != [] {
      var init, t := log[..|log| - 1], log[|log| - 1];
      PruningIsInvisible(init, pruned, now);
      if pruned - t < STEPUP_WINDOW_SECONDS {
        RecentByOne(Recent(init, pruned), t, now);
      } else {
        assert Recent(log, pruned) == Recent(init, pruned);
      }
    }
  }

  /** What counts is exactly what is younger than 300 seconds, each as often as it
      was recorded. */
  lemma {:induction false} RecentExactly(log: seq<real>, now: real, t: real)
    ensures multiset(Recent(log, now))[t] == if now < t + 300.0 then multiset(log)[t] else 0
  {
    if log != [] {
      RecentExactly(log[..|log| - 1], now, t);
      assert log == log[..|log| - 1] + [log[|log| - 1]];
    }
  }

  lemma RecentByOne(log: seq<real>, t: real, now: real)
    ensures Recent(log + [t], now) == Recent(log, now) + (if now - t < STEPUP_WINDOW_SECONDS then [t] else [])
  {
    assert (log + [t])[..|log|] == log;
  }

  /* ---- What the limit means for any window of time ---- */

  /** How many events fall in the window that starts at `a`. */
  function CountIn(log: seq<real>, a: real): nat {
    if log == [] then 0
    else
      var t := log[|log| - 1];
      CountIn(log[..|log| - 1], a) + (if a <= t < a + STEPUP_WINDOW_SECONDS then 1 else 0)
  }

  /** Events in order of time, each let in while fewer than `limit` counted. */
  ghost predicate Admitted(log: seq<real>, limit: nat) {
    forall i :: 0 <= i < |log| ==>
      |Recent(log[..i], log[i])| < limit && forall j :: 0 <= j < i ==> log[j] <= log[i]
  }

  lemma {:induction false} WindowCountsAsRecent(log: seq<real>, a: real, now: real)
    requires a <= now < a + STEPUP_WINDOW_SECONDS
    ensures CountIn(log, a) <= |Recent(log, now)|
  {
    if log != [] {
      WindowCountsAsRecent(log[..|log| - 1], a, now);
    }
  }

  /** Admission one at a time bounds every window of the whole history. */
  lemma {:induction false} NoWindowHoldsMore(log: seq<real>, limit: nat, a: real)
    requires Admitted(log, limit)
    ensures CountIn(log, a) <= limit
  {
    if log != [] {
      var init, t := log[..|log| - 1], log[|log| - 1];
      assert Admitted(init, limit) by {
        assert forall i :: 0 <= i < |init| ==> init[..i] == log[..i] && init[i] == log[i];
      }
      NoWindowHoldsMore(init, limit, a);
      if a <= t < a + STEPUP_WINDOW_SECONDS {
        WindowCountsAsRecent(init, a, t);
      }
    }
  }

  lemma AdmittedByOne(log: seq<real>, limit: nat, now: real)
    requires Admitted(log, limit) && |Recent(log, now)| < limit
    requires forall j :: 0 <= j < |log| ==> log[j] <= now
    ensures Admitted(log + [now], limit)
  {
    var log' := log + [now];
    assert log'[..|log|] == log;
    assert forall i :: 0 <= i < |log| ==> log'[..i] == log[..i];
  }

  /* ---- Buckets ---- */

  function Lookup(m: map<string, seq<real>>, id: string): seq<real> {
    if id in m then m[id] else []
  }

  /** At `clock` the buckets count what the histories count, and nothing is
      from the future. */
  ghost predicate AgreesOn(bucket: seq<real>, history: seq<real>, clock: real) {
    && Recent(bucket, clock) == Recent(history, clock)
    && forall k :: 0 <= k < |history| ==> history[k] <= clock
  }

  ghost predicate Agree(times: map<string, seq<real>>, log: map<string, seq<real>>, clock: real) {
    forall id :: AgreesOn(Lookup(times, id), Lookup(log, id), clock)
  }

  lemma AgreeLater(times: map<string, seq<real>>, log: map<string, seq<real>>, clock: real, now: real)
    requires Agree(times, log, clock) && clock <= now
    ensures Agree(times, log, now)
  {
    forall id ensures AgreesOn(Lookup(times, id), Lookup(log, id), now) {
      assert AgreesOn(Lookup(times, id), Lookup(log, id), clock);
      PruningIsInvisible(Lookup(times, id), clock, now);
      PruningIsInvisible(Lookup(log, id), clock, now);
    }
  }

  /** Pruning one bucket, away altogether if nothing is left. */
  function Prune(times: map<string, seq<real>>, id: string, now: real): map<string, seq<real>> {
    if id !in times then times
    else if Recent(times[id], now) == [] then times - {id}
    else times[id := Recent(times[id], now)]
  }

  lemma AgreePruned(times: map<string, seq<real>>, log: map<string, seq<real>>, id: string, now: real)
    requires Agree(times, log, now)
    ensures Agree(Prune(times, id, now), log, now)
  {
    var pruned := Prune(times, id, now);
    forall i ensures AgreesOn(Lookup(pruned, i), Lookup(log, i), now) {
      assert AgreesOn(Lookup(times, i), Lookup(log, i), now);
      if i == id {
        PruningIsInvisible(Lookup(times, i), now, now);
        assert Lookup(pruned, i) == if i in times then Recent(times[i], now) else [];
      } else {
        assert Lookup(pruned, i) == Lookup(times, i);
      }
    }
  }

  lemma AgreeRecorded(times: map<string, seq<real>>, log: map<string, seq<real>>, id: string, now: real)
    requires Agree(times, log, now)
    ensures Agree(times[id := Lookup(times, id) + [now]], log[id := Lookup(log, id) + [now]], now)
  {
    var times', log' := times[id := Lookup(times, id) + [now]], log[id := Lookup(log, id) + [now]];
    forall i ensures AgreesOn(Lookup(times', i), Lookup(log', i), now) {
      assert AgreesOn(Lookup(times, i), Lookup(log, i), now);
      if i == id {
        AgreesByOne(Lookup(times, i), Lookup(log, i), now);
      } else {
        assert Lookup(times', i) == Lookup(times, i) && Lookup(log', i) == Lookup(log, i);
      }
    }
  }

  lemma AgreesByOne(bucket: seq<real>, history: seq<real>, now: real)
    requires AgreesOn(bucket, history, now)
    ensures AgreesOn(bucket + [now], history + [now], now)
  {
    RecentByOne(bucket, now, now);
    RecentByOne(history, now, now);
  }

  /** Every identity's history was admitted one event at a time. */
  ghost predicate AllAdmitted(log: map<string, seq<real>>, limit: nat) {
    forall id :: Admitted(Lookup(log, id), limit)
  }

  lemma RecordIsAdmitted(times: map<string, seq<real>>, log: map<string, seq<real>>, limit: nat, id: string, now: real)
    requires AllAdmitted(log, limit) && Agree(times, log, now)
    requires |Recent(Lookup(log, id), now)| < limit
    ensures AllAdmitted(log[id := Lookup(log, id) + [now]], limit)
  {
    var log' := log[id := Lookup(log, id) + [now]];
    forall i ensures Admitted(Lookup(log', i), limit) {
      assert Admitted(Lookup(log, i), limit);
      if i == id {
        assert AgreesOn(Lookup(times, id), Lookup(log, id), now);
        AdmittedByOne(Lookup(log, id), limit, now);
        assert Lookup(log', i) == Lookup(log, id) + [now];
      } else {
        assert Lookup(log', i) == Lookup(log, i);
      }
    }
  }

  /** A dictionary of recent event times per identity. */
  class Buckets {
    var times: map<string, seq<real>>
    /** Every event ever recorded, and the latest time seen. */
    ghost var log: map<string, seq<real>>
    ghost var clock: real

    ghost function History(id: string): seq<real>
      reads this
    {
      Lookup(log, id)
    }

    ghost predicate Valid()
      reads this
    {
      Agree(times, log, clock)
    }

    constructor (start: real)
      ensures Valid() && clock == start && log == map[]
    {
      times, log, clock := map[], map[], start;
    }

    /** Prunes one bucket, reclaims it when empty, and counts what is left. */
    method Count(id: string, now: real) returns (n: nat)
      requires Valid() && clock <= now
      modifies this
      ensures Valid() && clock == now && log == old(log)
      ensures n == |Recent(History(id), now)|
      ensures times == Prune(old(times), id, now)
    {
      AgreeLater(times, log, clock, now);
      AgreePruned(times, log, id, now);
      assert AgreesOn(Lookup(times, id), Lookup(log, id), now);
      clock := now;
      if id !in times {
        return 0;
      }
      var q := Recent(times[id], now);
      if q == [] {
        times := times - {id};
        return 0;
      }
      times := times[id := q];
      return |q|;
    }

    method Record(id: string, now: real)
      requires Valid() && clock == now
      modifies this`times, this`log
      ensures Valid()
      ensures log == old(log)[id := old(History(id)) + [now]]
    {
      AgreeRecorded(times, log, id, now);
      times := times[id := Lookup(times, id) + [now]];
      log := log[id := Lookup(log, id) + [now]];
    }
  }

  /* ---- The endpoint ---- */

  datatype Reply = TooManyFailures | Rejected | TooManyAccepted | Accepted

  /** The limits as the full histories state them. */
  function Expected(failed: seq<real>, accepted: seq<real>, now: real, valid: bool): Reply {
    if |Recent(failed, now)| >= STEPUP_FAILURE_MAX then TooManyFailures
    else if !valid then Rejected
    else if |Recent(accepted, now)| >= STEPUP_ACCEPTED_MAX then TooManyAccepted
    else Accepted
  }

  class StepUpGate {
    const accepted: Buckets
    const failures: Buckets

    ghost predicate Valid()
      reads this, accepted, failures
    {
      && accepted != failures
      && accepted.Valid() && failures.Valid()
      && accepted.clock <= failures.clock
      && AllAdmitted(accepted.log, STEPUP_ACCEPTED_MAX)
      && AllAdmitted(failures.log, STEPUP_FAILURE_MAX)
    }

    constructor (start: real)
      ensures Valid() && fresh(accepted) && fresh(failures)
      ensures accepted.log == map[] && failures.log == map[] && failures.clock == start
    {
      accepted := new Buckets(start);
      failures := new Buckets(start);
    }

    /** One submitted assertion; `valid` is the verifier's word on it. */
    method StepUp(id: string, valid: bool, now: real) returns (reply: Reply)
      requires Valid() && failures.clock <= now
      modifies accepted, failures
      ensures Valid() && failures.clock == now
      ensures reply == Expected(old(failures.History(id)), old(accepted.History(id)), now, valid)
      ensures reply.TooManyFailures? <==> |Recent(old(failures.History(id)), now)| >= 20
      ensures |Recent(old(failures.History(id)), now)| < 20 && !valid ==>
                reply.Rejected? && failures.History(id) == old(failures.History(id)) + [now]
      ensures |Recent(old(failures.History(id)), now)| < 20 && valid ==>
                failures.History(id) == old(failures.History(id))
                && (reply.TooManyAccepted? <==> |Recent(old(accepted.History(id)), now)| >= 5)
                && (reply.Accepted? <==> |Recent(old(accepted.History(id)), now)| < 5)
      ensures failures.log == if reply.Rejected? then old(failures.log)[id := old(failures.History(id)) + [now]]
                              else old(failures.log)
      ensures accepted.log == if reply.Accepted? then old(accepted.log)[id := old(accepted.History(id)) + [now]]
                              else old(accepted.log)
    {
      hide Agree, AllAdmitted, Recent, Prune;
      var n := failures.Count(id, now);
      if n >= STEPUP_FAILURE_MAX {
        return TooManyFailures;
      }
      if !valid {
        RecordIsAdmitted(failures.times, failures.log, STEPUP_FAILURE_MAX, id, now);
        failures.Record(id, now);
        return Rejected;
      }
      n := accepted.Count(id, now);
      if n >= STEPUP_ACCEPTED_MAX {
        return TooManyAccepted;
      }
      RecordIsAdmitted(accepted.times, accepted.log, STEPUP_ACCEPTED_MAX, id, now);
      accepted.Record(id, now);
      return Accepted;
    }

    /** At any moment, over any window of 300 seconds. */
    lemma EveryWindowIsBounded(id: string, a: real)
      requires Valid()
      ensures CountIn(accepted.History(id), a) <= 5
      ensures CountIn(failures.History(id), a) <= 20
    {
      NoWindowHoldsMore(accepted.History(id), STEPUP_ACCEPTED_MAX, a);
      NoWindowHoldsMore(failures.History(id), STEPUP_FAILURE_MAX, a);
    }
  }
}
