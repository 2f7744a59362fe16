/** Choosing the alert threshold of least expected cost from prefix sums over
    the events sorted by descending score. */
module Cost {

  datatype Item = Item(score: real, fraud: bool, loss: real, weight: real)

  /** What one event costs at a threshold: its loss if missed fraud, a challenge
      for everyone it stands for if flagged and genuine. */
  function CostOf(x: Item, fp: real, flagged: bool): real {
    if x.fraud then (if flagged then 0.0 else x.loss) else if flagged then fp * x.weight else 0.0
  }

  /** The direct definition, over the first `n` events. */
  function Expected(items: seq<Item>, fp: real, threshold: real, n: nat): real
    requires n <= |items|
  {
    if n == 0 then 0.0
    else
      Expected(items, fp, threshold, n - 1) + CostOf(items[n - 1], fp, items[n - 1].score >= threshold)
  }

  /** Fraud loss and genuine weight among the first `n` events. */
  function Caught(items: seq<Item>, n: nat): real
    requires n <= |items|
  {
    if n == 0 then 0.0 else Caught(items, n - 1) + (if items[n - 1].fraud then items[n - 1].loss else 0.0)
  }

  function Challenged(items: seq<Item>, n: nat): real
    requires n <= |items|
  {
    if n == 0 then 0.0 else Challenged(items, n - 1) + (if items[n - 1].fraud then 0.0 else items[n - 1].weight)
  }

  /** The cost of flagging the first `k + 1` events, from the prefix sums. */
  function Total(items: seq<Item>, fp: real, k: nat): real
    requires k < |items|
  {
    Caught(items, |items|) - Caught(items, k + 1) + fp * Challenged(items, k + 1)
  }

  predicate Descending(items: seq<Item>) {
    forall i, j :: 0 <= i < j < |items| ==> items[i].score >= items[j].score
  }

  /** Event `k` is the last one a threshold flags. */
  predicate LastFlagged(items: seq<Item>, threshold: real, k: nat)
    requires k < |items|
  {
    items[k].score >= threshold && (k + 1 < |items| ==> items[k + 1].score < threshold)
  }

  lemma {:induction false} FlaggedPrefix(items: seq<Item>, fp: real, threshold: real, k: nat, n: nat)
    requires k < |items| && n <= |items| && Descending(items) && LastFlagged(items, threshold, k)
    ensures n <= k + 1 ==> Expected(items, fp, threshold, n) == fp * Challenged(items, n)
    ensures n > k ==> Expected(items, fp, threshold, n)
                      == Caught(items, n) - Caught(items, k + 1) + fp * Challenged(items, k + 1)
  {
    if n > 0 {
      FlaggedPrefix(items, fp, threshold, k, n - 1);
      var x := items[n - 1];
      if n <= k + 1 {
        assert x.score >= threshold;
        assert fp * (Challenged(items, n - 1) + x.weight) == fp * Challenged(items, n - 1) + fp * x.weight;
      } else {
        assert x.score < threshold;
      }
    }
  }

  /** The prefix-sum total is the expected cost of any threshold that flags
      exactly those events. */
  lemma TotalIsExpected(items: seq<Item>, fp: real, threshold: real, k: nat)
    requires k < |items| && Descending(items) && LastFlagged(items, threshold, k)
    ensures Total(items, fp, k) == Expected(items, fp, threshold, |items|)
  {
    FlaggedPrefix(items, fp, threshold, k, |items|);
  }

  lemma {:induction false} FindLastFlagged(items: seq<Item>, threshold: real, n: nat) returns (k: nat)
    requires Descending(items) && 0 < n <= |items| && items[0].score >= threshold
    requires n < |items| ==> items[n].score < threshold
    ensures k < n && LastFlagged(items, threshold, k)
  {
    if items[n - 1].score >= threshold {
      k := n - 1;
    } else {
      k := FindLastFlagged(items, threshold, n - 1);
    }
  }

  /** Running sums, totals and the first minimum, as arrays computed in passes. */
  method CostAnalysis(items: seq<Item>, fp: real) returns (k: nat, threshold: real, minCost: real)
    requires items != []
    ensures k < |items| && threshold == items[k].score && minCost == Total(items, fp, k)
    ensures forall j :: 0 <= j < |items| ==> minCost <= Total(items, fp, j)
    ensures forall j :: 0 <= j < k ==> minCost < Total(items, fp, j)
  {
    var lost := 0.0;
    for i := 0 to |items|
      invariant lost == Caught(items, i)
    {
      lost := lost + (if items[i].fraud then items[i].loss else 0.0);
    }
    var caught, challenged := 0.0, 0.0;
    k, minCost := 0, 0.0;
    for i := 0 to |items|
      invariant caught == Caught(items, i) && challenged == Challenged(items, i)
      invariant k < |items| && (i == 0 ==> k == 0)
      invariant i > 0 ==> k < i && minCost == Total(items, fp, k)
      invariant forall j :: 0 <= j < i ==> minCost <= Total(items, fp, j)
      invariant forall j :: 0 <= j < k ==> minCost < Total(items, fp, j)
    {
      caught := caught + (if items[i].fraud then items[i].loss else 0.0);
      challenged := challenged + (if items[i].fraud then 0.0 else items[i].weight);
      var total := lost - caught + fp * challenged;
      assert caught == Caught(items, i + 1) && challenged == Challenged(items, i + 1) && lost == Caught(items, |items|);
      assert total == Total(items, fp, i);
      if i == 0 || total < minCost {
        k, minCost := i, total;
      }
    }
    threshold := items[k].score;
  }

  /** With distinct scores the chosen threshold is optimal among all thresholds
      that flag anything, and the reported cost is its cost. */
  lemma ChosenThresholdIsOptimal(items: seq<Item>, fp: real, k: nat, threshold: real)
    requires Descending(items) && k < |items|
    requires forall j :: 0 <= j < |items| ==> Total(items, fp, k) <= Total(items, fp, j)
    requires forall i, j :: 0 <= i < j < |items| ==> items[i].score != items[j].score
    requires items[0].score >= threshold
    ensures Total(items, fp, k) == Expected(items, fp, items[k].score, |items|)
    ensures Expected(items, fp, items[k].score, |items|) <= Expected(items, fp, threshold, |items|)
  {
    TotalIsExpected(items, fp, items[k].score, k);
    var m := FindLastFlagged(items, threshold, |items|);
    TotalIsExpected(items, fp, threshold, m);
  }

  /** With ties the reported cost is that of the threshold exactly when what the
      rest of the tie adds in challenges is what it saves in losses. */
  lemma TiesShiftTheCost(items: seq<Item>, fp: real, k: nat, last: nat)
    requires Descending(items) && k <= last < |items| && LastFlagged(items, items[k].score, last)
    ensures Total(items, fp, k) == Expected(items, fp, items[k].score, |items|)
            <==> fp * (Challenged(items, last + 1) - Challenged(items, k + 1))
                 == Caught(items, last + 1) - Caught(items, k + 1)
  {
    TotalIsExpected(items, fp, items[k].score, last);
    assert fp * (Challenged(items, last + 1) - Challenged(items, k + 1))
           == fp * Challenged(items, last + 1) - fp * Challenged(items, k + 1);
  }

  /** For instance: a fraud and a genuine event of one score. The minimum is
      reported after the fraud alone, which no threshold can flag alone. */
  lemma TieWitness()
    ensures var items := [Item(0.5, true, 10.0, 1.0), Item(0.5, false, 0.0, 1.0)];
            && Descending(items)
            && Total(items, 1.0, 0) == 0.0 && Total(items, 1.0, 1) == 1.0
            && Expected(items, 1.0, 0.5, 2) == 1.0
  {
    var items := [Item(0.5, true, 10.0, 1.0), Item(0.5, false, 0.0, 1.0)];
    assert Caught(items, 1) == 10.0 && Caught(items, 2) == 10.0;
    assert Challenged(items, 1) == 0.0 && Challenged(items, 2) == 1.0;
    assert Expected(items, 1.0, 0.5, 1) == 0.0;
  }
}
