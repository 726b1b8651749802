/**
 A weighted median kept in a histogram: chunk means, weighted by their sample counts, in bins a
 thousandth of full scale wide.
 */
module OffsetMedian {
  import opened Prelude

  const BINS: nat := 2001

  /** The bin a mean rounds to, halves up. */
  function BinOf(mean: real): int {
    ((mean + 1.0) * 1000.0 + 0.5).Floor
  }

  function Mean(sum: real, count: nat): real
    requires count > 0
  {
    sum / count as real
  }

  /** A sum that `count` samples between -1 and 1 can have. */
  predicate S16(sum: real, count: nat) {
    -(count as real) <= sum <= count as real
  }

  /** One non-empty chunk as the tap files it. */
  datatype Tally = Tally(bin: int, sum: real, count: nat)

  ghost predicate Filed(t: Tally) {
    t.count > 0 && S16(t.sum, t.count) && t.bin == BinOf(Mean(t.sum, t.count))
  }

  ghost predicate AllFiled(ts: seq<Tally>) {
    forall i :: 0 <= i < |ts| ==> Filed(ts[i])
  }

  // ---------------------------------------------------------------------------------------------
  // Real arithmetic

  lemma QuotientWithin(sum: real, w: real, lo: real, hi: real)
    requires w > 0.0
    ensures lo * w <= sum <==> lo <= sum / w
    ensures sum <= hi * w <==> sum / w <= hi
    ensures sum < hi * w <==> sum / w < hi
  {
    var q := sum / w;
    assert q * w == sum;
    Scale(q - lo, w);
    Scale(q - hi, w);
    assert (q - lo) * w == q * w - lo * w;
    assert (q - hi) * w == q * w - hi * w;
  }

  lemma Scale(x: real, w: real)
    requires w > 0.0
    ensures x > 0.0 <==> x * w > 0.0
    ensures x < 0.0 <==> x * w < 0.0
  {
  }

  lemma MeanWithin(sum: real, count: nat, lo: real, hi: real)
    requires count > 0
    ensures Scaled(lo, count) <= sum <==> lo <= Mean(sum, count)
    ensures sum <= Scaled(hi, count) <==> Mean(sum, count) <= hi
    ensures sum < Scaled(hi, count) <==> Mean(sum, count) < hi
  {
    ScaledIsProduct(lo, count);
    ScaledIsProduct(hi, count);
    QuotientWithin(sum, count as real, lo, hi);
  }

  /** Half a bin either side of its centre. */
  function Low(b: int): real { (b as real - 0.5) / 1000.0 - 1.0 }

  lemma BinHolds(mean: real, b: int)
    ensures BinOf(mean) == b <==> Low(b) <= mean < Low(b + 1)
  {
  }

  /** An S16 mean always has a bin. */
  lemma MeanHasBin(sum: real, count: nat)
    requires S16(sum, count) && count > 0
    ensures 0 <= BinOf(Mean(sum, count)) < BINS
  {
    QuotientWithin(sum, count as real, -1.0, 1.0);
  }

  // ---------------------------------------------------------------------------------------------
  // The bins, read off the chunks filed

  /** Sample weight in bins `lo` through `hi`. */
  ghost function Weight(ts: seq<Tally>, lo: int, hi: int): nat {
    if ts == [] then 0
    else Weight(ts[..|ts| - 1], lo, hi) + if lo <= ts[|ts| - 1].bin <= hi then ts[|ts| - 1].count else 0
  }

  /** Sum of the samples in bin `b`. */
  ghost function Sum(ts: seq<Tally>, b: int): real {
    if ts == [] then 0.0
    else Sum(ts[..|ts| - 1], b) + if ts[|ts| - 1].bin == b then ts[|ts| - 1].sum else 0.0
  }

  ghost function TotalWeight(ts: seq<Tally>): nat {
    if ts == [] then 0 else TotalWeight(ts[..|ts| - 1]) + ts[|ts| - 1].count
  }

  lemma {:induction false} WeightSplits(ts: seq<Tally>, lo: int, mid: int, hi: int)
    requires lo <= mid + 1 <= hi + 1
    ensures Weight(ts, lo, hi) == Weight(ts, lo, mid) + Weight(ts, mid + 1, hi)
  {
    if ts != [] {
      WeightSplits(ts[..|ts| - 1], lo, mid, hi);
    }
  }

  lemma {:induction false} WeightNowhere(ts: seq<Tally>, b: int)
    ensures Weight(ts, b, b - 1) == 0
  {
    if ts != [] {
      WeightNowhere(ts[..|ts| - 1], b);
    }
  }

  lemma {:induction false} WeightOfAllBins(ts: seq<Tally>)
    requires forall i :: 0 <= i < |ts| ==> 0 <= ts[i].bin < BINS
    ensures Weight(ts, 0, BINS - 1) == TotalWeight(ts)
  {
    if ts != [] {
      WeightOfAllBins(ts[..|ts| - 1]);
    }
  }

  lemma FiledBinsInRange(ts: seq<Tally>)
    requires AllFiled(ts)
    ensures forall i :: 0 <= i < |ts| ==> 0 <= ts[i].bin < BINS
  {
    forall i | 0 <= i < |ts|
      ensures 0 <= ts[i].bin < BINS
    {
      assert Filed(ts[i]);
      MeanHasBin(ts[i].sum, ts[i].count);
    }
  }

  /** The bin where half of the weight has been seen, counting up. */
  ghost predicate IsMedianBin(ts: seq<Tally>, b: int) {
    && 0 <= b < BINS
    && Weight(ts, b, b) > 0
    && 2 * Weight(ts, 0, b) >= TotalWeight(ts)
    && 2 * Weight(ts, 0, b - 1) < TotalWeight(ts)
  }

  /** A few thumps cannot move the offset: with more than half of the weight in bins `lo` to `hi`,
      the median is there too, whatever the other chunks and in whatever order. */
  lemma MajorityHoldsTheMedian(ts: seq<Tally>, b: int, lo: int, hi: int)
    requires AllFiled(ts) && IsMedianBin(ts, b) && 0 <= lo <= hi < BINS
    requires 2 * Weight(ts, lo, hi) > TotalWeight(ts)
    ensures lo <= b <= hi
  {
    FiledBinsInRange(ts);
    WeightOfAllBins(ts);
    WeightSplits(ts, 0, lo - 1, BINS - 1);
    WeightSplits(ts, lo, hi, BINS - 1);
    if b < lo {
      WeightSplits(ts, 0, b, lo - 1);
    } else if b > hi {
      WeightSplits(ts, 0, hi, b - 1);
      WeightSplits(ts, 0, lo - 1, hi);
    }
  }

  /** No other bin is the median. */
  lemma MedianBinIsUnique(ts: seq<Tally>, a: int, b: int)
    requires IsMedianBin(ts, a) && IsMedianBin(ts, b)
    ensures a == b
  {
    if a < b {
      WeightSplits(ts, 0, a, b - 1);
    } else if b < a {
      WeightSplits(ts, 0, b, a - 1);
    }
  }

  /** Every chunk of bin `b` sums to between `lo` and `hi` a sample, strictly below if asked. */
  ghost predicate Between(t: Tally, b: int, lo: real, hi: real, strict: bool) {
    t.bin == b ==>
      && Scaled(lo, t.count) <= t.sum <= Scaled(hi, t.count)
      && (strict ==> t.sum < Scaled(hi, t.count))
  }

  lemma {:induction false} SumBetween(ts: seq<Tally>, b: int, lo: real, hi: real, strict: bool)
    requires forall i :: 0 <= i < |ts| ==> Between(ts[i], b, lo, hi, strict)
    ensures Scaled(lo, Weight(ts, b, b)) <= Sum(ts, b) <= Scaled(hi, Weight(ts, b, b))
    ensures strict && Weight(ts, b, b) > 0 ==> Sum(ts, b) < Scaled(hi, Weight(ts, b, b))
  {
    if ts != [] {
      var front, t := ts[..|ts| - 1], ts[|ts| - 1];
      SumBetween(front, b, lo, hi, strict);
      assert Between(t, b, lo, hi, strict);
      if t.bin == b {
        ScaledAdds(lo, Weight(front, b, b), t.count);
        ScaledAdds(hi, Weight(front, b, b), t.count);
      }
    }
  }

  /** The mean of every chunk in bin `b` lies from `lo` to `hi`. */
  ghost predicate MeansWithin(ts: seq<Tally>, b: int, lo: real, hi: real)
    requires AllFiled(ts)
  {
    forall i :: 0 <= i < |ts| && ts[i].bin == b ==>
      assert Filed(ts[i]);
      lo <= Mean(ts[i].sum, ts[i].count) <= hi
  }

  ghost function Average(ts: seq<Tally>, b: int): real
    requires Weight(ts, b, b) > 0
  {
    Mean(Sum(ts, b), Weight(ts, b, b))
  }

  /** A bin's average lies within the means of its chunks. */
  lemma AverageWithinMeans(ts: seq<Tally>, b: int, lo: real, hi: real)
    requires AllFiled(ts) && Weight(ts, b, b) > 0 && MeansWithin(ts, b, lo, hi)
    ensures lo <= Average(ts, b) <= hi
  {
    forall i | 0 <= i < |ts|
      ensures Between(ts[i], b, lo, hi, false)
    {
      assert Filed(ts[i]);
      MeanWithin(ts[i].sum, ts[i].count, lo, hi);
    }
    SumBetween(ts, b, lo, hi, false);
    MeanWithin(Sum(ts, b), Weight(ts, b, b), lo, hi);
  }

  /** A bin's average rounds to that very bin. */
  lemma AverageStaysInBin(ts: seq<Tally>, b: int)
    requires AllFiled(ts) && Weight(ts, b, b) > 0
    ensures BinOf(Average(ts, b)) == b
  {
    var lo, hi := Low(b), Low(b + 1);
    forall i | 0 <= i < |ts|
      ensures Between(ts[i], b, lo, hi, true)
    {
      assert Filed(ts[i]);
      BinHolds(Mean(ts[i].sum, ts[i].count), b);
      MeanWithin(ts[i].sum, ts[i].count, lo, hi);
    }
    SumBetween(ts, b, lo, hi, true);
    MeanWithin(Sum(ts, b), Weight(ts, b, b), lo, hi);
    BinHolds(Average(ts, b), b);
  }

  // ---------------------------------------------------------------------------------------------
  // The tap itself

  class OffsetMedian {
    const weights: array<nat>
    const sums: array<real>
    var total: nat
    ghost var filed: seq<Tally>

    ghost predicate Valid()
      reads this, weights, sums
    {
      && weights.Length == sums.Length == BINS
      && AllFiled(filed)
      && total == TotalWeight(filed)
      && (forall b :: 0 <= b < BINS ==> weights[b] == Weight(filed, b, b))
      && (forall b :: 0 <= b < BINS ==> sums[b] == Sum(filed, b))
    }

    constructor ()
      ensures Valid() && filed == [] && fresh(weights) && fresh(sums)
    {
      weights := new nat[BINS](_ => 0);
      sums := new real[BINS](_ => 0.0);
      total := 0;
      filed := [];
    }

    /** File a chunk; the bin always exists, and an empty chunk counts for nothing. */
    method Observe(sum: real, count: nat)
      requires Valid() && S16(sum, count)
      modifies this`total, this`filed, weights, sums
      ensures Valid()
      ensures filed == old(filed) + if count == 0 then [] else [Tally(BinOf(Mean(sum, count)), sum, count)]
    {
      if count == 0 {
        return;
      }
      MeanHasBin(sum, count);
      var bin := BinOf(Mean(sum, count));
      weights[bin] := weights[bin] + count;
      sums[bin] := sums[bin] + sum;
      total := total + count;
      ghost var t := Tally(bin, sum, count);
      filed := filed + [t];
      FiledOneMore(old(filed), t);
    }

    /** The average of the median bin, which lies in that bin and within the means of its chunks;
        zero before any audio. */
    method Median() returns (offset: real)
      requires Valid()
      ensures total == 0 ==> offset == 0.0
      ensures total > 0 ==>
        && IsMedianBin(filed, BinOf(offset))
        && forall lo, hi :: MeansWithin(filed, BinOf(offset), lo, hi) ==> lo <= offset <= hi
    {
      var half := (total + 1) / 2;
      var counted := 0;
      FiledBinsInRange(filed);
      WeightOfAllBins(filed);
      WeightNowhere(filed, 0);
      for b := 0 to BINS
        invariant counted == Weight(filed, 0, b - 1)
        invariant total > 0 ==> counted < half
      {
        counted := counted + weights[b];
        WeightSplits(filed, 0, b - 1, b);
        if weights[b] > 0 && counted >= half {
          AverageStaysInBin(filed, b);
          offset := Mean(sums[b], weights[b]);
          forall lo, hi | MeansWithin(filed, b, lo, hi)
            ensures lo <= offset <= hi
          {
            AverageWithinMeans(filed, b, lo, hi);
          }
          return;
        }
      }
      return 0.0;
    }
  }

  lemma FiledOneMore(ts: seq<Tally>, t: Tally)
    ensures TotalWeight(ts + [t]) == TotalWeight(ts) + t.count
    ensures forall b :: Weight(ts + [t], b, b) == Weight(ts, b, b) + if t.bin == b then t.count else 0
    ensures forall b :: Sum(ts + [t], b) == Sum(ts, b) + if t.bin == b then t.sum else 0.0
  {
    assert (ts + [t])[..|ts|] == ts;
  }
}
