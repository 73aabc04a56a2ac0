/** Splitting an order line into transfer batches, and what the split costs in rounding. */
module TransferBatches {
  import opened Minutes
  import opened Bundle
  import opened Eligibility

  /** How many transfer batches a quantity makes; only whole pieces are counted. */
  function BatchCount(total: real, size: nat): nat
    requires size >= 1
  {
    var n := (total.Floor + size - 1) / size;
    if n >= 1 then n else 1
  }

  function BatchQty(total: real, size: nat, k: nat): real {
    var rest := total - (k * size) as real;
    if (size as real) <= rest then size as real else rest
  }

  /** The quantity of the first n batches. */
  ghost function SumQty(total: real, size: nat, n: nat): real {
    if n == 0 then 0.0 else SumQty(total, size, n - 1) + BatchQty(total, size, n - 1)
  }

  lemma MulAtLeast(k: int, size: int)
    requires k >= 1 && size >= 1
    ensures k * size >= size
  {
  }

  lemma MulMinus(a: int, b: int, size: int)
    ensures (a - b) * size == a * size - b * size
  {
  }

  lemma MulOrder(a: int, b: int, size: int)
    requires a <= b && size >= 0
    ensures a * size <= b * size
  {
  }

  lemma QuotientIs(x: int, size: int, d: int, m: int)
    requires size >= 1 && x == d * size + m && 0 <= m < size
    ensures x / size == d
  {
    var q, r := x / size, x % size;
    assert x == q * size + r && 0 <= r < size;
    MulMinus(q, d, size);
    MulMinus(d, q, size);
    if q > d {
      MulAtLeast(q - d, size);
    } else if q < d {
      MulAtLeast(d - q, size);
    }
  }

  /** Rounded-up division. */
  lemma DivideUp(f: int, size: int, q: int)
    requires f >= 0 && size >= 1 && q == (f + size - 1) / size
    ensures f <= q * size < f + size && q >= 0
    ensures f % size == 0 ==> q * size == f
    ensures f % size != 0 ==> f < q * size
    ensures q == 0 <==> f == 0
  {
    var d, m := f / size, f % size;
    assert f == d * size + m && 0 <= m < size;
    if m == 0 {
      QuotientIs(f + size - 1, size, d, size - 1);
    } else {
      MulMinus(d + 1, d, size);
      QuotientIs(f + size - 1, size, d + 1, m - 1);
    }
    if f == 0 {
      QuotientIs(0, size, 0, 0);
    }
  }

  lemma BatchCountBounds(total: real, size: nat, n: nat, f: int)
    requires size >= 1 && total > 0.0 && n == BatchCount(total, size) && f == total.Floor
    ensures n >= 1 && 0 <= f <= n * size && (n - 1) * size <= f
    ensures f > 0 ==> (n - 1) * size < f
    ensures f == 0 ==> n == 1
    ensures f > 0 && f % size == 0 ==> n * size == f
    ensures f % size != 0 ==> f < n * size
  {
    var q := (f + size - 1) / size;
    DivideUp(f, size, q);
    MulMinus(n, 1, size);
  }

  /** Each batch is positive and at most one transfer batch. */
  lemma BatchQtyBounds(total: real, size: nat, k: nat)
    requires size >= 1 && total > 0.0 && k < BatchCount(total, size)
    ensures 0.0 < BatchQty(total, size, k) <= size as real
  {
    var n := BatchCount(total, size);
    BatchCountBounds(total, size, n, total.Floor);
    MulOrder(k, n - 1, size);
  }

  lemma {:induction false} SumQtyWhole(total: real, size: nat, j: nat)
    requires size >= 1 && total > 0.0 && j < BatchCount(total, size)
    ensures SumQty(total, size, j) == (j * size) as real
  {
    if j > 0 {
      SumQtyWhole(total, size, j - 1);
      var n := BatchCount(total, size);
      BatchCountBounds(total, size, n, total.Floor);
      MulOrder(j, n - 1, size);
      MulMinus(j, 1, size);
      var done, now := (j - 1) * size, j * size;
      assert now == done + size && now <= total.Floor;
      assert BatchQty(total, size, j - 1) == size as real;
    }
  }

  /** The batches are worth the line's quantity exactly when it is whole, or its whole pieces
      do not fill the last batch; otherwise the fraction of a piece is lost. */
  lemma BatchesConserveIff(total: real, size: nat)
    requires size >= 1 && total > 0.0
    ensures SumQty(total, size, BatchCount(total, size)) == total
            <==> total == total.Floor as real || total.Floor % size != 0 || total.Floor == 0
  {
    var n, f := BatchCount(total, size), total.Floor;
    BatchCountBounds(total, size, n, f);
    SumQtyWhole(total, size, n - 1);
    MulMinus(n, 1, size);
    var done, all := (n - 1) * size, n * size;
    assert SumQty(total, size, n) == done as real + BatchQty(total, size, n - 1);
    assert all == done + size;
  }

  /** Two and a half pieces in batches of two make one batch: half a piece is never made. */
  lemma FractionLost()
    ensures SumQty(2.5, 2, BatchCount(2.5, 2)) == 2.0
  {
    assert 2.5.Floor == 2;
    assert BatchCount(2.5, 2) == 1;
    assert SumQty(2.5, 2, 1) == SumQty(2.5, 2, 0) + BatchQty(2.5, 2, 0);
  }

  // ------------------------------------------------------------ rounding cost

  function Unrounded(qty: real, rate: real): real {
    qty * rate
  }

  function RoundedUp(qty: real, rate: real): int {
    Ceil(Unrounded(qty, rate))
  }

  lemma RoundedUpBounds(qty: real, rate: real)
    ensures Unrounded(qty, rate) <= RoundedUp(qty, rate) as real < Unrounded(qty, rate) + 1.0
  {
    CeilBounds(qty * rate);
  }

  /** Working minutes of the first n batches, each rounded up, at `rate` minutes a piece. */
  ghost function SumMinutes(total: real, size: nat, rate: real, n: nat): int {
    if n == 0 then 0 else SumMinutes(total, size, rate, n - 1) + RoundedUp(BatchQty(total, size, n - 1), rate)
  }

  lemma CeilBounds(x: real)
    ensures x <= Ceil(x) as real < x + 1.0
  {
  }

  lemma Distribute(x: real, y: real, r: real)
    ensures Unrounded(x + y, r) == Unrounded(x, r) + Unrounded(y, r)
  {
  }

  /** Working minutes of the first n batches before rounding. */
  ghost function SumWork(total: real, size: nat, rate: real, n: nat): real {
    if n == 0 then 0.0 else SumWork(total, size, rate, n - 1) + Unrounded(BatchQty(total, size, n - 1), rate)
  }

  lemma {:induction false} SumWorkIsQty(total: real, size: nat, rate: real, n: nat)
    ensures SumWork(total, size, rate, n) == Unrounded(SumQty(total, size, n), rate)
  {
    if n > 0 {
      hide Unrounded, BatchQty;
      SumWorkIsQty(total, size, rate, n - 1);
      Distribute(SumQty(total, size, n - 1), BatchQty(total, size, n - 1), rate);
    }
  }

  lemma {:induction false} SumMinutesBounds(total: real, size: nat, rate: real, n: nat)
    ensures SumWork(total, size, rate, n) <= SumMinutes(total, size, rate, n) as real
    ensures (SumMinutes(total, size, rate, n) as real) <= SumWork(total, size, rate, n) + n as real
    ensures n > 0 ==> (SumMinutes(total, size, rate, n) as real) < SumWork(total, size, rate, n) + n as real
  {
    if n > 0 {
      SumMinutesBounds(total, size, rate, n - 1);
      RoundedUpBounds(BatchQty(total, size, n - 1), rate);
      hide Unrounded, RoundedUp, BatchQty;
    }
  }

  /** Rounding each batch up costs at most one minute a batch, less one: the minutes of all
      batches lie between the unsplit minutes and those plus n - 1. */
  lemma SplitCost(total: real, size: nat, rate: real)
    requires size >= 1 && total > 0.0
    requires SumQty(total, size, BatchCount(total, size)) == total
    ensures var n := BatchCount(total, size);
      RoundedUp(total, rate) <= SumMinutes(total, size, rate, n) <= RoundedUp(total, rate) + n - 1
  {
    var n := BatchCount(total, size);
    BatchCountBounds(total, size, n, total.Floor);
    SumMinutesBounds(total, size, rate, n);
    SumWorkIsQty(total, size, rate, n);
    CeilBounds(total * rate);
    var s := SumMinutes(total, size, rate, n);
    assert (s as real) < (Ceil(total * rate) + n) as real;
    assert (Ceil(total * rate) - 1) as real < s as real;
  }

  lemma Divide(q: real, y: real)
    requires y > 0.0
    ensures q / y == q * (1.0 / y)
  {
  }

  lemma Regroup(q: real, a: real, b: real)
    ensures q * a * b == q * (a * b)
  {
  }

  lemma SameFactor(a: real, b: real, f: real)
    requires a == b
    ensures a * f == b * f
  {
  }

  lemma GrossLinear(op: Operation, qty: real)
    requires op.quantityBasis >= 1 && YieldRateOk(op)
    ensures GrossMinutes(op, qty) == qty * GrossMinutes(op, 1.0)
  {
    var y := YieldOf(op);
    var basis := op.quantityBasis as real;
    var u := 1.0 / y;
    Divide(qty, y);
    Divide(qty * u, basis);
    Divide(u, basis);
    Regroup(qty, u, 1.0 / basis);
    Regroup(qty, u / basis, op.standardMinutes);
  }

  /** The work on a machine is the quantity times the work of one piece. */
  lemma WorkLinear(op: Operation, qty: real, equipment: Option<Equipment>)
    requires op.quantityBasis >= 1 && YieldRateOk(op)
    requires equipment.Some? ==> equipment.value.capacityPerHour > 0.0 && equipment.value.efficiency > 0.0
    ensures WorkOn(op, qty, equipment) == qty * WorkOn(op, 1.0, equipment)
  {
    GrossLinear(op, qty);
    hide GrossMinutes, SpeedFactor;
    if equipment.Some? {
      var g, f := GrossMinutes(op, 1.0), SpeedFactor(equipment.value);
      Regroup(qty, g, f);
      SameFactor(GrossMinutes(op, qty), qty * g, f);
    }
  }

  lemma MinutesAtRate(op: Operation, qty: real, equipment: Option<Equipment>)
    requires op.quantityBasis >= 1 && YieldRateOk(op)
    requires equipment.Some? ==> equipment.value.capacityPerHour > 0.0 && equipment.value.efficiency > 0.0
    ensures ProcessingMinutes(op, qty, equipment) == Some(RoundedUp(qty, WorkOn(op, 1.0, equipment)))
  {
    WorkLinear(op, qty, equipment);
    hide WorkOn, Ceil;
  }

  /** So an operation split over one machine costs between its unsplit minutes and those plus
      one less than the number of batches. */
  lemma SplitCostOnMachine(op: Operation, total: real, size: nat, equipment: Option<Equipment>)
    requires size >= 1 && total > 0.0 && op.quantityBasis >= 1 && YieldRateOk(op)
    requires equipment.Some? ==> equipment.value.capacityPerHour > 0.0 && equipment.value.efficiency > 0.0
    requires total == total.Floor as real
    ensures ProcessingMinutes(op, total, equipment).Some?
    ensures var n := BatchCount(total, size);
      ProcessingMinutes(op, total, equipment).value <= BatchMinutes(op, total, size, equipment, n)
        <= ProcessingMinutes(op, total, equipment).value + n - 1
  {
    var n, rate := BatchCount(total, size), WorkOn(op, 1.0, equipment);
    hide WorkOn, SumMinutes, BatchMinutes, ProcessingMinutes, RoundedUp, SumQty, BatchCount, YieldRateOk;
    BatchesConserveIff(total, size);
    SplitCost(total, size, rate);
    MinutesAtRate(op, total, equipment);
    BatchMinutesAtRate(op, total, size, equipment, n);
  }

  /** Processing minutes of the first n batches of an operation on one machine. */
  ghost function BatchMinutes(op: Operation, total: real, size: nat, equipment: Option<Equipment>, n: nat): int
    requires op.quantityBasis >= 1 && YieldRateOk(op)
    requires equipment.Some? ==> equipment.value.capacityPerHour > 0.0 && equipment.value.efficiency > 0.0
  {
    if n == 0 then 0
    else BatchMinutes(op, total, size, equipment, n - 1)
         + ProcessingMinutes(op, BatchQty(total, size, n - 1), equipment).value
  }

  lemma {:induction false} BatchMinutesAtRate(op: Operation, total: real, size: nat, equipment: Option<Equipment>,
                                              n: nat)
    requires op.quantityBasis >= 1 && YieldRateOk(op)
    requires equipment.Some? ==> equipment.value.capacityPerHour > 0.0 && equipment.value.efficiency > 0.0
    ensures BatchMinutes(op, total, size, equipment, n) == SumMinutes(total, size, WorkOn(op, 1.0, equipment), n)
  {
    if n > 0 {
      BatchMinutesAtRate(op, total, size, equipment, n - 1);
      hide WorkOn, ProcessingMinutes, RoundedUp, BatchQty, YieldRateOk;
      MinutesAtRate(op, BatchQty(total, size, n - 1), equipment);
    }
  }
}
