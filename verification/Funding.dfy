/** Funding paid over a holding interval (core/funding.py). */
module Funding {
  import opened Prelude
  import opened RealArith
  import opened Models
  import opened Sorting

  datatype FundingSample = FundingSample(fundingTime: int, fundingRate: real)

  /** A row as stored: the time may be missing, a missing rate counts as zero. */
  datatype RawFunding = RawFunding(fundingTime: Option<int>, fundingRate: Option<real>)

  function RateOf(row: RawFunding): real {
    match row.fundingRate
    case None => 0.0
    case Some(rate) => rate
  }

  /** The rows that carry a time, in input order. */
  function Stamped(rows: seq<RawFunding>): seq<FundingSample> {
    if |rows| == 0 then []
    else
      var last := rows[|rows| - 1];
      var init := Stamped(rows[..|rows| - 1]);
      if last.fundingTime.None? then init
      else init + [FundingSample(last.fundingTime.value, RateOf(last))]
  }

  /** The rate of a sample inside the half-open interval (lo, hi], zero outside. */
  function RateWithin(lo: int, hi: int): FundingSample -> real {
    (s: FundingSample) => if lo < s.fundingTime <= hi then s.fundingRate else 0.0
  }

  function Owed(direction: Direction, notional: real, totalRate: real): real {
    direction.Signed(notional * totalRate)
  }

  /** Funding owed on a constant notional held from `since` to `until`: each sample counted
      once, in whatever order the rows come. */
  function FundingPaid(direction: Direction, notional: real, since: int, until: int, rows: seq<RawFunding>): real {
    if notional <= 0.0 || until <= since then 0.0
    else Owed(direction, notional, SumBy(Stamped(rows), RateWithin(since, until)))
  }

  function EarlierOrEqual(a: FundingSample, b: FundingSample): bool {
    a.fundingTime <= b.fundingTime
  }

  method NormalizeFundingSamples(rows: seq<RawFunding>) returns (normalized: seq<FundingSample>)
    ensures multiset(normalized) == multiset(Stamped(rows))
    ensures SortedBy(normalized, EarlierOrEqual)
  {
    normalized := [];
    for i := 0 to |rows|
      invariant normalized == Stamped(rows[..i])
    {
      assert rows[..i + 1][..i] == rows[..i];
      if rows[i].fundingTime.Some? {
        normalized := normalized + [FundingSample(rows[i].fundingTime.value, RateOf(rows[i]))];
      }
    }
    assert rows[..|rows|] == rows;
    SortIsSortedPermutation(normalized, EarlierOrEqual);
    normalized := StableSort(normalized, EarlierOrEqual);
  }

  method ComputeFundingPaid(direction: Direction, notional: real, since: int, until: int, rows: seq<RawFunding>)
    returns (paid: real)
    ensures paid == FundingPaid(direction, notional, since, until, rows)
  {
    if notional <= 0.0 {
      return 0.0;
    }
    if until <= since {
      return 0.0;
    }
    var samples := NormalizeFundingSamples(rows);
    var totalRate := TotalRate(samples, since, until);
    SumByPermutation(samples, Stamped(rows), RateWithin(since, until));
    paid := Owed(direction, notional, totalRate);
  }

  method TotalRate(samples: seq<FundingSample>, since: int, until: int) returns (totalRate: real)
    ensures totalRate == SumBy(samples, RateWithin(since, until))
  {
    totalRate := 0.0;
    for i := 0 to |samples|
      invariant totalRate == SumBy(samples[..i], RateWithin(since, until))
    {
      assert samples[..i + 1][..i] == samples[..i];
      if since < samples[i].fundingTime <= until {
        totalRate := totalRate + samples[i].fundingRate;
      }
    }
    assert samples[..|samples|] == samples;
  }

  /** Funding over adjoining intervals adds up: no sample is charged twice or skipped. */
  lemma FundingSplits(direction: Direction, notional: real, since: int, mid: int, until: int, rows: seq<RawFunding>)
    requires since <= mid <= until
    ensures FundingPaid(direction, notional, since, until, rows)
         == FundingPaid(direction, notional, since, mid, rows) + FundingPaid(direction, notional, mid, until, rows)
  {
    var s := Stamped(rows);
    SumByPlus(s, RateWithin(since, mid), RateWithin(mid, until), RateWithin(since, until));
    if notional > 0.0 {
      var first, second := SumBy(s, RateWithin(since, mid)), SumBy(s, RateWithin(mid, until));
      assert notional * (first + second) == notional * first + notional * second;
      if since == mid {
        NothingWithin(s, since);
      }
      if mid == until {
        NothingWithin(s, mid);
      }
    }
  }

  lemma {:induction false} NothingWithin(s: seq<FundingSample>, t: int)
    ensures SumBy(s, RateWithin(t, t)) == 0.0
  {
    if |s| > 0 {
      NothingWithin(s[..|s| - 1], t);
    }
  }

  /** Reordering the stored rows changes nothing. */
  lemma FundingIgnoresOrder(direction: Direction, notional: real, since: int, until: int,
                            rows: seq<RawFunding>, rows': seq<RawFunding>)
    requires multiset(rows) == multiset(rows')
    ensures FundingPaid(direction, notional, since, until, rows)
            == FundingPaid(direction, notional, since, until, rows')
  {
    StampedAsSum(rows, since, until);
    StampedAsSum(rows', since, until);
    SumByPermutation(rows, rows', RawRateWithin(since, until));
  }

  function RawRateWithin(lo: int, hi: int): RawFunding -> real {
    (row: RawFunding) => if row.fundingTime.Some? && lo < row.fundingTime.value <= hi then RateOf(row) else 0.0
  }

  lemma {:induction false} StampedAsSum(rows: seq<RawFunding>, lo: int, hi: int)
    ensures SumBy(Stamped(rows), RateWithin(lo, hi)) == SumBy(rows, RawRateWithin(lo, hi))
  {
    if |rows| > 0 {
      StampedAsSum(rows[..|rows| - 1], lo, hi);
      var init := Stamped(rows[..|rows| - 1]);
      var last := rows[|rows| - 1];
      if last.fundingTime.Some? {
        var x := FundingSample(last.fundingTime.value, RateOf(last));
        assert (init + [x])[..|init + [x]| - 1] == init;
      }
    }
  }

  // ---------------------------------------------------------------- who pays

  /** What one stored row costs: a long pays its rate on the notional, a short receives it, if the row is stamped
      after the beginning of the interval and not after its end; otherwise nothing. */
  lemma RowCosts(direction: Direction, notional: real, since: int, until: int, row: RawFunding)
    requires notional > 0.0 && since < until
    ensures var rate := if row.fundingRate.Some? then row.fundingRate.value else 0.0;
            FundingPaid(direction, notional, since, until, [row])
            == if row.fundingTime.None? || row.fundingTime.value <= since || row.fundingTime.value > until then 0.0
               else if direction.Long? then notional * rate else -(notional * rate)
  {
    assert [row][..0] == [];
    StampedAsSum([row], since, until);
    OneRow(row, since, until);
  }

  lemma OneRow(row: RawFunding, since: int, until: int)
    ensures SumBy([row], RawRateWithin(since, until)) == RawRateWithin(since, until)(row)
  {
    assert [row][..0] == [];
  }

  /** One more row adds exactly its own cost, and no rows cost nothing. */
  lemma RowAdds(direction: Direction, notional: real, since: int, until: int, rows: seq<RawFunding>, row: RawFunding)
    ensures FundingPaid(direction, notional, since, until, rows + [row])
         == FundingPaid(direction, notional, since, until, rows) + FundingPaid(direction, notional, since, until, [row])
    ensures FundingPaid(direction, notional, since, until, []) == 0.0
    ensures notional <= 0.0 || until <= since ==> FundingPaid(direction, notional, since, until, rows) == 0.0
  {
    StampedAsSum(rows + [row], since, until);
    StampedAsSum(rows, since, until);
    StampedAsSum([row], since, until);
    SumByAppend(rows, [row], RawRateWithin(since, until));
    hide Stamped, RateWithin, RawRateWithin;
    OwedAdds(direction, notional, SumBy(rows, RawRateWithin(since, until)), SumBy([row], RawRateWithin(since, until)));
    NothingStamped(since, until);
    hide SumBy, Owed;
  }

  lemma OwedAdds(direction: Direction, notional: real, a: real, b: real)
    ensures Owed(direction, notional, a + b) == Owed(direction, notional, a) + Owed(direction, notional, b)
    ensures Owed(direction, notional, 0.0) == 0.0
  {
  }

  lemma NothingStamped(since: int, until: int)
    ensures SumBy(Stamped([]), RateWithin(since, until)) == 0.0
  {
  }

  ghost predicate NoNegativeRate(rows: seq<RawFunding>) {
    forall i | 0 <= i < |rows| && rows[i].fundingRate.Some? :: rows[i].fundingRate.value >= 0.0
  }

  /** While no rate is negative, longs pay and shorts receive. */
  lemma {:induction false} FundingSign(direction: Direction, notional: real, since: int, until: int,
                                       rows: seq<RawFunding>)
    requires NoNegativeRate(rows)
    ensures if direction.Long? then FundingPaid(direction, notional, since, until, rows) >= 0.0
            else FundingPaid(direction, notional, since, until, rows) <= 0.0
  {
    if |rows| > 0 {
      var init, row := rows[..|rows| - 1], rows[|rows| - 1];
      assert rows == init + [row];
      FundingSign(direction, notional, since, until, init);
      RowAdds(direction, notional, since, until, init, row);
      RowSign(direction, notional, since, until, row);
      hide FundingPaid;
    } else {
      RowAdds(direction, notional, since, until, rows, RawFunding(None, None));
      assert rows == [];
      hide FundingPaid;
    }
  }

  lemma RowSign(direction: Direction, notional: real, since: int, until: int, row: RawFunding)
    requires row.fundingRate.Some? ==> row.fundingRate.value >= 0.0
    ensures if direction.Long? then FundingPaid(direction, notional, since, until, [row]) >= 0.0
            else FundingPaid(direction, notional, since, until, [row]) <= 0.0
  {
    if notional > 0.0 && since < until {
      RowCosts(direction, notional, since, until, row);
      ProductNonNegative(notional, if row.fundingRate.Some? then row.fundingRate.value else 0.0);
      hide FundingPaid;
    }
  }
}
