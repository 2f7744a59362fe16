/** The ingestion endpoint's bounded replay cache, against a specification that
    remembers everything. */
module Idempotency {
  import opened Schemas
  import opened Arithmetic

  const IDEM_MAX: nat := 10000

  /** Caller and idempotency key. */
  type CacheKey = (string, string)

  datatype Entry = Entry(fingerprint: string, response: string)

  datatype Reply = Conflict | Replayed(response: string) | Scored(response: string)

  /* ---- The specification: full history, no eviction ---- */

  /** Every store or hit of a key, in order, and what was last stored under it. */
  datatype History = History(touches: seq<CacheKey>, ledger: map<CacheKey, Entry>)

  /** The keys stored or hit since the last time `k` was. */
  function Since(touches: seq<CacheKey>, k: CacheKey): set<CacheKey> {
    if touches == [] || touches[|touches| - 1] == k then {}
    else Since(touches[..|touches| - 1], k) + {touches[|touches| - 1]}
  }

  predicate Remembered(h: History, k: CacheKey) {
    k in h.touches && |Since(h.touches, k)| < IDEM_MAX && k in h.ledger
  }

  function Expected(h: History, k: CacheKey, fingerprint: string, scored: string): Reply {
    if !Remembered(h, k) then Scored(scored)
    else if h.ledger[k].fingerprint != fingerprint then Conflict
    else Replayed(h.ledger[k].response)
  }

  function Updated(h: History, k: CacheKey, fingerprint: string, reply: Reply): History {
    match reply
    case Conflict => h
    case Replayed(_) => h.(touches := h.touches + [k])
    case Scored(r) => History(h.touches + [k], h.ledger[k := Entry(fingerprint, r)])
  }

  /** A keyed request and the answer the engine would give it. */
  datatype Request = Request(key: CacheKey, fingerprint: string, scored: string)

  function Handle(h: History, r: Request): History {
    Updated(h, r.key, r.fingerprint, Expected(h, r.key, r.fingerprint, r.scored))
  }

  /** A conflicting request leaves no trace, and any other is the latest use of its
      key. */
  lemma ConflictLeavesNoTrace(h: History, r: Request)
    ensures Remembered(h, r.key) && h.ledger[r.key].fingerprint != r.fingerprint ==> Handle(h, r) == h
    ensures !(Remembered(h, r.key) && h.ledger[r.key].fingerprint != r.fingerprint) ==>
              Handle(h, r).touches == h.touches + [r.key]
              && r.key in Handle(h, r).ledger && Handle(h, r).ledger[r.key].fingerprint == r.fingerprint
              && forall k :: k in h.ledger && k != r.key ==> k in Handle(h, r).ledger && Handle(h, r).ledger[k] == h.ledger[k]
  {
  }

  function HandleAll(h: History, rs: seq<Request>): History {
    if rs == [] then h else Handle(HandleAll(h, rs[..|rs| - 1]), rs[|rs| - 1])
  }

  /** The keys other than `k` among the requests. */
  function Others(rs: seq<Request>, k: CacheKey): set<CacheKey> {
    if rs == [] then {} else Others(rs[..|rs| - 1], k) + ({rs[|rs| - 1].key} - {k})
  }

  ghost predicate StillStored(h: History, k: CacheKey, e: Entry, others: set<CacheKey>) {
    k in h.touches && Since(h.touches, k) <= others && k in h.ledger && h.ledger[k] == e
  }

  lemma HandleKeepsStored(h: History, r: Request, k: CacheKey, e: Entry, others: set<CacheKey>)
    requires StillStored(h, k, e, others) && |others| < IDEM_MAX
    ensures StillStored(Handle(h, r), k, e, others + ({r.key} - {k}))
  {
    SubsetSize(Since(h.touches, k), others);
    var t := h.touches + [r.key];
    assert t[..|h.touches|] == h.touches;
  }

  lemma {:induction false} SubsetSize(a: set<CacheKey>, b: set<CacheKey>)
    requires a <= b
    ensures |a| <= |b|
    decreases b
  {
    if a != {} {
      var x :| x in a;
      SubsetSize(a - {x}, b - {x});
    }
  }

  /** Until a cache-full of distinct other keys has been used, replaying a scored
      request returns its first answer and never scores again, and the same key
      with another payload is refused, whatever happened in between. */
  lemma {:induction false} ReplaysReturnTheFirstAnswer(h: History, first: Request, rs: seq<Request>, again: Request)
    requires !Remembered(h, first.key) && again.key == first.key
    requires |Others(rs, first.key)| < 10000
    ensures var later := HandleAll(Handle(h, first), rs);
            && StillStored(later, first.key, Entry(first.fingerprint, first.scored), Others(rs, first.key))
            && Expected(later, again.key, again.fingerprint, again.scored)
               == if again.fingerprint == first.fingerprint then Replayed(first.scored) else Conflict
  {
    var k, e := first.key, Entry(first.fingerprint, first.scored);
    if rs == [] {
      assert (h.touches + [k])[..|h.touches|] == h.touches;
    } else {
      var init, r := rs[..|rs| - 1], rs[|rs| - 1];
      SubsetSize(Others(init, k), Others(rs, k));
      ReplaysReturnTheFirstAnswer(h, first, init, again);
      HandleKeepsStored(HandleAll(Handle(h, first), init), r, k, e, Others(init, k));
    }
    SubsetSize(Since(HandleAll(Handle(h, first), rs).touches, k), Others(rs, k));
  }

  /* ---- Recency order ---- */

  function Without(ks: seq<CacheKey>, k: CacheKey): seq<CacheKey> {
    if ks == [] then []
    else Without(ks[..|ks| - 1], k) + (if ks[|ks| - 1] == k then [] else [ks[|ks| - 1]])
  }

  /** All keys ever touched, the most recently touched last. */
  function Recency(touches: seq<CacheKey>): seq<CacheKey> {
    if touches == [] then []
    else Without(Recency(touches[..|touches| - 1]), touches[|touches| - 1]) + [touches[|touches| - 1]]
  }

  ghost predicate Distinct(ks: seq<CacheKey>) {
    forall i, j :: 0 <= i < j < |ks| ==> ks[i] != ks[j]
  }

  lemma {:induction false} WithoutMembers(ks: seq<CacheKey>, k: CacheKey)
    ensures forall x :: x in Without(ks, k) <==> x in ks && x != k
    ensures k !in ks ==> Without(ks, k) == ks
  {
    if ks != [] {
      WithoutMembers(ks[..|ks| - 1], k);
      assert ks == ks[..|ks| - 1] + [ks[|ks| - 1]];
    }
  }

  /** A list without repetition splits into two such lists with nothing in common. */
  lemma DistinctParts(a: seq<CacheKey>, b: seq<CacheKey>)
    ensures Distinct(a + b) <==> Distinct(a) && Distinct(b) && forall x :: x in a ==> x !in b
  {
    var ks := a + b;
    if Distinct(ks) {
      assert forall i :: 0 <= i < |a| ==> a[i] == ks[i];
      assert forall j :: 0 <= j < |b| ==> b[j] == ks[|a| + j];
      forall i, j | 0 <= i < |a| && 0 <= j < |b| ensures a[i] != b[j] {
        assert ks[i] != ks[|a| + j];
      }
    } else {
      var i, j :| 0 <= i < j < |ks| && ks[i] == ks[j];
      if j < |a| {
        assert a[i] == a[j];
      } else if i >= |a| {
        assert b[i - |a|] == b[j - |a|];
      } else {
        assert a[i] in a && b[j - |a|] in b && a[i] == b[j - |a|];
      }
    }
  }

  lemma {:induction false} WithoutDistinct(ks: seq<CacheKey>, k: CacheKey)
    requires Distinct(ks)
    ensures Distinct(Without(ks, k))
    ensures |Without(ks, k)| == if k in ks then |ks| - 1 else |ks|
  {
    if ks != [] {
      var init, last := ks[..|ks| - 1], ks[|ks| - 1];
      assert Without(ks, k) == Without(init, k) + (if last == k then [] else [last]);
      hide Without;
      assert ks == init + [last];
      DistinctParts(init, [last]);
      WithoutDistinct(init, k);
      WithoutMembers(init, k);
      DistinctParts(Without(init, k), [last]);
      assert Without(init, k) + [] == Without(init, k);
    }
  }

  lemma {:induction false} WithoutConcat(a: seq<CacheKey>, b: seq<CacheKey>, k: CacheKey)
    ensures Without(a + b, k) == Without(a, k) + Without(b, k)
  {
    if b == [] {
      assert a + b == a;
    } else {
      assert (a + b)[..|a + b| - 1] == a + b[..|b| - 1];
      WithoutConcat(a, b[..|b| - 1], k);
    }
  }

  lemma {:induction false} RecencyMembers(touches: seq<CacheKey>)
    ensures forall x :: x in Recency(touches) <==> x in touches
    ensures Distinct(Recency(touches))
  {
    if touches != [] {
      var n := |touches| - 1;
      RecencyMembers(touches[..n]);
      WithoutMembers(Recency(touches[..n]), touches[n]);
      WithoutDistinct(Recency(touches[..n]), touches[n]);
      assert touches == touches[..n] + [touches[n]];
    }
  }

  lemma {:induction false} DistinctCount(ks: seq<CacheKey>)
    requires Distinct(ks)
    ensures |set x | x in ks| == |ks|
  {
    if ks != [] {
      var init, last := ks[..|ks| - 1], ks[|ks| - 1];
      DistinctCount(init);
      assert (set x | x in ks) == (set x | x in init) + {last};
    }
  }

  /** What follows `k` in recency order is what was touched since `k`. */
  lemma {:induction false} RecencySplits(touches: seq<CacheKey>, k: CacheKey) returns (older: seq<CacheKey>, newer: seq<CacheKey>)
    requires k in touches
    ensures Recency(touches) == older + [k] + newer
    ensures forall x :: x in newer <==> x in Since(touches, k)
  {
    var n := |touches| - 1;
    var last := touches[n];
    assert touches == touches[..n] + [last];
    if last == k {
      older, newer := Without(Recency(touches[..n]), k), [];
    } else {
      var o, m := RecencySplits(touches[..n], k);
      older, newer := Without(o, last), Without(m, last) + [last];
      RemoveAround(o, k, m, last);
      WithoutMembers(m, last);
    }
  }

  lemma RemoveAround(o: seq<CacheKey>, k: CacheKey, m: seq<CacheKey>, x: CacheKey)
    requires x != k
    ensures Without(o + [k] + m, x) + [x] == Without(o, x) + [k] + (Without(m, x) + [x])
  {
    WithoutOther(k, x);
    hide Without;
    WithoutConcat(o + [k], m, x);
    WithoutConcat(o, [k], x);
    assert Without(o, x) + [k] + Without(m, x) + [x] == Without(o, x) + [k] + (Without(m, x) + [x]);
  }

  lemma WithoutOther(k: CacheKey, x: CacheKey)
    requires x != k
    ensures Without([k], x) == [k]
  {
    assert [k][..0] == [];
  }

  lemma RecencyRank(touches: seq<CacheKey>, k: CacheKey) returns (older: seq<CacheKey>, newer: seq<CacheKey>)
    requires k in touches
    ensures Recency(touches) == older + [k] + newer
    ensures |newer| == |Since(touches, k)| && k !in newer
  {
    hide Recency;
    older, newer := RecencySplits(touches, k);
    RecencyMembers(touches);
    DistinctParts(older + [k], newer);
    DistinctCount(newer);
    assert (set x | x in newer) == Since(touches, k);
    assert k in older + [k];
  }

  /** The most recent keys, as many as the cache holds, are those with fewer than
      that many distinct keys touched since. */
  lemma RecentMeansFewSince(touches: seq<CacheKey>, k: CacheKey)
    ensures k in LastN(Recency(touches), IDEM_MAX) <==> k in touches && |Since(touches, k)| < 10000
  {
    hide Recency, Since;
    RecencyMembers(touches);
    var d := Recency(touches);
    if k in touches {
      var older, newer := RecencyRank(touches, k);
      DistinctParts(older + [k], newer);
      DistinctParts(older, [k]);
      InLastN(older, k, newer, IDEM_MAX);
    }
  }

  lemma InLastN(a: seq<CacheKey>, k: CacheKey, b: seq<CacheKey>, n: nat)
    requires k !in a && k !in b
    ensures k in LastN(a + [k] + b, n) <==> |b| < n
  {
    var d := a + [k] + b;
    assert d[|a|] == k;
    if |b| < n < |d| {
      assert LastN(d, n)[|a| - (|d| - n)] == k;
    }
    if |b| >= n {
      assert LastN(d, n) == b[|b| - n..];
    }
  }

  lemma LastNOfConcat(a: seq<CacheKey>, b: seq<CacheKey>, n: nat)
    requires |b| == n
    ensures LastN(a + b, n) == b
  {
  }

  lemma EvictedAndCached(d: seq<CacheKey>, k: CacheKey) returns (evicted: seq<CacheKey>)
    requires Distinct(d)
    ensures var cached := LastN(d, IDEM_MAX);
            && d == evicted + cached && Distinct(cached)
            && Without(d, k) == Without(evicted, k) + Without(cached, k)
            && (k in cached ==> Without(evicted, k) == evicted)
            && (evicted == [] || |cached| == IDEM_MAX)
  {
    hide Without;
    var cached := LastN(d, IDEM_MAX);
    evicted := d[..|d| - |cached|];
    assert d == evicted + cached;
    WithoutConcat(evicted, cached, k);
    DistinctParts(evicted, cached);
    WithoutMembers(evicted, k);
  }

  /** Moving a cached key to the end keeps the cache the most recent keys. */
  lemma HitKeepsRecency(d: seq<CacheKey>, k: CacheKey)
    requires Distinct(d) && k in LastN(d, IDEM_MAX)
    ensures Without(LastN(d, IDEM_MAX), k) + [k] == LastN(Without(d, k) + [k], IDEM_MAX)
  {
    hide Without, Distinct;
    var cached := LastN(d, IDEM_MAX);
    var evicted := EvictedAndCached(d, k);
    var kept := Without(cached, k) + [k];
    WithoutDistinct(cached, k);
    assert Without(d, k) + [k] == evicted + kept;
    if evicted == [] {
      assert evicted + kept == kept;
    } else {
      LastNOfConcat(evicted, kept, IDEM_MAX);
    }
  }

  /** Storing a new key and dropping the oldest keeps it so too. */
  lemma StoreKeepsRecency(d: seq<CacheKey>, k: CacheKey)
    requires Distinct(d) && k !in LastN(d, IDEM_MAX)
    ensures LastN(LastN(d, IDEM_MAX) + [k], IDEM_MAX) == LastN(Without(d, k) + [k], IDEM_MAX)
  {
    hide Without, Distinct;
    var cached := LastN(d, IDEM_MAX);
    var evicted := EvictedAndCached(d, k);
    WithoutMembers(cached, k);
    var older := Without(evicted, k);
    assert Without(d, k) + [k] == older + (cached + [k]);
    if evicted == [] {
      assert older + (cached + [k]) == cached + [k];
    } else {
      var kept := cached[1..] + [k];
      assert cached + [k] == [cached[0]] + kept;
      assert older + (cached + [k]) == (older + [cached[0]]) + kept;
      LastNOfConcat([cached[0]], kept, IDEM_MAX);
      LastNOfConcat(older + [cached[0]], kept, IDEM_MAX);
    }
  }

  /* ---- The cache ---- */

  class IngestCache {
    /** Insertion-ordered dictionary: the entries, and the keys oldest first. */
    var entries: map<CacheKey, Entry>
    var order: seq<CacheKey>
    var assessments: nat
    ghost var history: History

    /** The bounded cache is the recent end of the full history. */
    ghost predicate Valid()
      reads this
    {
      && order == LastN(Recency(history.touches), IDEM_MAX)
      && entries.Keys == (set k | k in order)
      && forall k :: k in order ==> k in history.ledger && entries[k] == history.ledger[k]
    }

    constructor ()
      ensures Valid() && history == History([], map[]) && assessments == 0
    {
      entries, order, assessments := map[], [], 0;
      history := History([], map[]);
    }

    lemma HoldsWhatIsRemembered(k: CacheKey)
      requires Valid()
      ensures k in entries <==> Remembered(history, k)
      ensures |order| <= 10000 && |entries| == |order|
    {
      RecentMeansFewSince(history.touches, k);
      RecencyMembers(history.touches);
      DistinctCount(order);
      assert |entries| == |entries.Keys|;
    }

    method MoveToEnd(k: CacheKey)
      requires Valid() && k in entries
      modifies this`order, this`history
      ensures Valid()
      ensures history == old(history).(touches := old(history.touches) + [k])
    {
      hide Recency;
      RecencyMembers(history.touches);
      HitKeepsRecency(Recency(history.touches), k);
      RecencyStep(history.touches, k);
      WithoutMembers(order, k);
      order := Without(order, k) + [k];
      history := history.(touches := history.touches + [k]);
    }

    /** Evicts oldest entries until the bound holds. */
    method Evict()
      requires Distinct(order) && entries.Keys == (set x | x in order)
      modifies this`entries, this`order
      ensures order == LastN(old(order), IDEM_MAX)
      ensures entries.Keys == (set x | x in order)
      ensures forall x :: x in order ==> x in old(entries) && entries[x] == old(entries)[x]
    {
      ghost var full, i := order, 0;
      while |order| > IDEM_MAX
        invariant 0 <= i <= |full| && order == full[i..]
        invariant i == 0 || |order| >= IDEM_MAX
        invariant Distinct(order) && entries.Keys == (set x | x in order)
        invariant forall x :: x in order ==> x in old(entries) && entries[x] == old(entries)[x]
      {
        DropOldest(order);
        entries := entries - {order[0]};
        order := order[1..];
        i := i + 1;
      }
    }

    lemma DropOldest(ks: seq<CacheKey>)
      requires Distinct(ks) && ks != []
      ensures Distinct(ks[1..]) && (set x | x in ks) - {ks[0]} == (set x | x in ks[1..])
    {
      assert ks == [ks[0]] + ks[1..];
      DistinctParts([ks[0]], ks[1..]);
    }

    method Remember(k: CacheKey, e: Entry)
      requires Valid() && k !in entries
      modifies this`entries, this`order, this`history
      ensures Valid()
      ensures history == History(old(history.touches) + [k], old(history.ledger)[k := e])
    {
      hide Recency, Without, Distinct, LastN;
      ghost var d := Recency(history.touches);
      RecencyMembers(history.touches);
      StoreKeepsRecency(d, k);
      RecencyStep(history.touches, k);
      ghost var rest := EvictedAndCached(d, k);
      DistinctAndNew(order, k);
      entries := entries[k := e];
      order := order + [k];
      Evict();
      history := History(history.touches + [k], history.ledger[k := e]);
    }

    lemma DistinctAndNew(ks: seq<CacheKey>, k: CacheKey)
      requires Distinct(ks) && k !in ks
      ensures Distinct(ks + [k]) && (set x | x in ks + [k]) == (set x | x in ks) + {k}
    {
      DistinctParts(ks, [k]);
    }

    lemma RecencyStep(touches: seq<CacheKey>, k: CacheKey)
      ensures Recency(touches + [k]) == Without(Recency(touches), k) + [k]
    {
      assert (touches + [k])[..|touches|] == touches;
    }

    /** One ingestion request; `scored` is what the engine would answer. */
    method Ingest(client: string, key: Option<string>, fingerprint: string, scored: string) returns (reply: Reply)
      requires Valid()
      modifies this
      ensures Valid()
      ensures key.None? || key.value == "" ==> reply == Scored(scored) && history == old(history)
      ensures key.Some? && key.value != "" ==>
                reply == Expected(old(history), (client, key.value), fingerprint, scored)
                && history == Updated(old(history), (client, key.value), fingerprint, reply)
      ensures assessments == old(assessments) + (if reply.Scored? then 1 else 0)
      ensures |entries| <= 10000
    {
      hide Recency, Since, LastN;
      if key.Some? && key.value != "" {
        var k := (client, key.value);
        HoldsWhatIsRemembered(k);
        if k in entries {
          var stored := entries[k];
          if stored.fingerprint != fingerprint {
            return Conflict;
          }
          MoveToEnd(k);
          HoldsWhatIsRemembered(k);
          return Replayed(stored.response);
        }
        assessments := assessments + 1;
        reply := Scored(scored);
        Remember(k, Entry(fingerprint, scored));
        HoldsWhatIsRemembered(k);
      } else {
        assessments := assessments + 1;
        reply := Scored(scored);
        HoldsWhatIsRemembered((client, ""));
      }
    }
  }
}
