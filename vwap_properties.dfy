/**
 * What the cost-basis engine of `calculate_vwap` promises: the effect of each
 * kind of row, the position invariant, one snapshot per row, the weighted
 * mean of a run of buys, the reset of a closed position, and the meaning of
 * the per-product result.
 */
module VwapProperties {
  import opened Wrappers
  import opened Vwap

  /** Net quantity of product `p` over `txs`: the sum of its signed quantities. */
  function NetQuantity(txs: seq<Tx>, p: string): real
    decreases |txs|
  {
    if txs == [] then 0.0
    else
      var t := txs[|txs| - 1];
      NetQuantity(txs[..|txs| - 1], p) + (if t.product == p then t.quantity else 0.0)
  }

  /** Total bought value over `txs`: the sum of price times quantity. */
  function BoughtValue(txs: seq<Tx>): real
    decreases |txs|
  {
    if txs == [] then 0.0
    else BoughtValue(txs[..|txs| - 1]) + txs[|txs| - 1].price * txs[|txs| - 1].quantity
  }

  /** True when every row of `txs` is a buy of product `p`. */
  predicate AllBuysOf(txs: seq<Tx>, p: string) {
    forall k :: 0 <= k < |txs| ==> txs[k].product == p && txs[k].quantity > 0.0
  }

  // ---------------------------------------------------------------------------
  // One row at a time

  /**
   * A buy while flat restarts the cost basis at the buy price and the position
   * at the bought quantity, whatever the product's history.
   */
  lemma BuyWhileFlat(e: Engine, t: Tx)
    requires PositionOf(e, t.product) == 0.0 && t.quantity > 0.0
    ensures Step(e, t).Ok?
    ensures CostBasis(Step(e, t).value, t.product) == Some(t.price)
    ensures PositionOf(Step(e, t).value, t.product) == t.quantity
  {
  }

  /**
   * A buy on a non-zero position with a defined cost basis, which does not
   * bring the position to zero, adds the bought quantity to the position and
   * moves the cost basis to the quantity-weighted mean of the old cost basis
   * and the buy price.
   */
  lemma BuyOnOpenPosition(e: Engine, t: Tx)
    requires t.quantity > 0.0
    requires PositionOf(e, t.product) != 0.0 && CostBasis(e, t.product).Some?
    requires PositionOf(e, t.product) + t.quantity != 0.0
    ensures Step(e, t).Ok?
    ensures PositionOf(Step(e, t).value, t.product) == PositionOf(e, t.product) + t.quantity
    ensures CostBasis(Step(e, t).value, t.product) == Some(Average(
      TotalValue(CostBasis(e, t.product).value, PositionOf(e, t.product), t.price, t.quantity),
      PositionOf(e, t.product) + t.quantity))
  {
  }

  /**
   * Such a buy keeps the books: the value of the position held at its cost
   * basis grows by exactly the value bought.
   */
  lemma BuyAddsBoughtValue(e: Engine, t: Tx)
    requires t.quantity > 0.0
    requires PositionOf(e, t.product) != 0.0 && CostBasis(e, t.product).Some?
    requires PositionOf(e, t.product) + t.quantity != 0.0
    ensures Step(e, t).Ok?
    ensures CostBasis(Step(e, t).value, t.product).value * PositionOf(Step(e, t).value, t.product)
      == CostBasis(e, t.product).value * PositionOf(e, t.product) + t.price * t.quantity
  {
    BuyOnOpenPosition(e, t);
    var pos := PositionOf(e, t.product);
    DivMulCancel(TotalValue(CostBasis(e, t.product).value, pos, t.price, t.quantity), pos + t.quantity);
  }

  /**
   * A sell on a non-zero position leaves the cost basis as it was and lowers
   * the position by the sold quantity; a sell that lands exactly on zero
   * leaves a defined cost basis defined.
   */
  lemma SellOnOpenPosition(e: Engine, t: Tx)
    requires PositionOf(e, t.product) != 0.0 && t.quantity < 0.0
    ensures Step(e, t).Ok?
    ensures CostBasis(Step(e, t).value, t.product) == CostBasis(e, t.product)
    ensures PositionOf(Step(e, t).value, t.product) == PositionOf(e, t.product) - Abs(t.quantity)
  {
  }

  /** A sell while flat clears the cost basis and opens a short of the sold quantity. */
  lemma SellWhileFlat(e: Engine, t: Tx)
    requires PositionOf(e, t.product) == 0.0 && t.quantity < 0.0
    ensures Step(e, t).Ok?
    ensures CostBasis(Step(e, t).value, t.product) == None
    ensures PositionOf(Step(e, t).value, t.product) == -Abs(t.quantity)
  {
  }

  /** A row of quantity zero changes no product's position or cost basis. */
  lemma ZeroQuantityRow(e: Engine, t: Tx)
    requires t.quantity == 0.0
    ensures Step(e, t).Ok?
    ensures forall p :: PositionOf(Step(e, t).value, p) == PositionOf(e, p)
    ensures forall p :: CostBasis(Step(e, t).value, p) == CostBasis(e, p)
  {
  }

  // ---------------------------------------------------------------------------
  // Whole runs

  /** Running `a` and then `b` is running `a + b`; the snapshots concatenate. */
  lemma {:induction false} RunFromAppend(e: Engine, a: seq<Tx>, b: seq<Tx>)
    requires RunFrom(e, a).Ok?
    ensures RunFrom(e, a + b) ==
      match RunFrom(RunFrom(e, a).value.engine, b)
      case Err(f) => Err(f)
      case Ok(tr) => Ok(Trace(tr.engine, RunFrom(e, a).value.snapshots + tr.snapshots))
    decreases |b|
  {
    var first := RunFrom(e, a).value;
    if b == [] {
      assert a + b == a;
      assert first.snapshots + [] == first.snapshots;
    } else {
      var b' := b[..|b| - 1];
      assert (a + b)[..|a + b| - 1] == a + b';
      assert (a + b)[|a + b| - 1] == b[|b| - 1];
      RunFromAppend(e, a, b');
      var s1 := RunFrom(e, a).value.snapshots;
      match RunFrom(RunFrom(e, a).value.engine, b')
      case Err(f) =>
      case Ok(tr) =>
        match Step(tr.engine, b[|b| - 1])
        case Err(f) =>
        case Ok(e') =>
          var x := CostBasis(e', b[|b| - 1].product);
          assert s1 + tr.snapshots + [x] == s1 + (tr.snapshots + [x]);
    }
  }

  /**
   * The position invariant: after a run, each product's position is its
   * position before the run plus the sum of its signed quantities in the run.
   */
  lemma {:induction false} PositionIsNetQuantityFrom(e: Engine, txs: seq<Tx>, p: string)
    requires RunFrom(e, txs).Ok?
    ensures PositionOf(RunFrom(e, txs).value.engine, p) == PositionOf(e, p) + NetQuantity(txs, p)
    decreases |txs|
  {
    if txs != [] {
      PositionIsNetQuantityFrom(e, txs[..|txs| - 1], p);
    }
  }

  /** After any successful run, each product's position is its net quantity. */
  lemma PositionIsNetQuantity(txs: seq<Tx>, p: string)
    requires Run(txs).Ok?
    ensures PositionOf(Run(txs).value.engine, p) == NetQuantity(txs, p)
  {
    PositionIsNetQuantityFrom(Initial, txs, p);
  }

  /**
   * The half of the position invariant that holds: after a successful run
   * from empty dictionaries, every product with a positive position has a
   * defined cost basis (only a sell while flat clears it, and that opens a
   * short).
   */
  lemma {:induction false} LongPositionHasVwap(txs: seq<Tx>)
    requires Run(txs).Ok?
    ensures forall p :: PositionOf(Run(txs).value.engine, p) > 0.0 ==> CostBasis(Run(txs).value.engine, p).Some?
    decreases |txs|
  {
    if txs != [] {
      LongPositionHasVwap(txs[..|txs| - 1]);
    }
  }

  /**
   * So a buy of a product held long never meets an undefined cost basis or a
   * zero position: the raising paths of the loop are reached only from shorts.
   */
  lemma BuyOnLongPositionSucceeds(txs: seq<Tx>, t: Tx)
    requires Run(txs).Ok?
    requires t.quantity > 0.0 && PositionOf(Run(txs).value.engine, t.product) > 0.0
    ensures Run(txs + [t]).Ok?
  {
    LongPositionHasVwap(txs);
    RunFromSnoc(Initial, txs, t);
  }

  /** A successful run succeeds on every prefix, whose snapshots are a prefix of its own. */
  lemma {:induction false} RunPrefix(e: Engine, txs: seq<Tx>, i: nat)
    requires i <= |txs|
    requires RunFrom(e, txs).Ok?
    ensures RunFrom(e, txs[..i]).Ok?
    ensures RunFrom(e, txs[..i]).value.snapshots == RunFrom(e, txs).value.snapshots[..i]
    decreases |txs| - i
  {
    if i == |txs| {
      assert txs[..i] == txs;
    } else {
      var n := |txs|;
      var s := RunFrom(e, txs).value.snapshots;
      assert RunFrom(e, txs[..n - 1]).Ok?;
      assert s[..n - 1] == RunFrom(e, txs[..n - 1]).value.snapshots;
      RunPrefix(e, txs[..n - 1], i);
      assert txs[..n - 1][..i] == txs[..i];
      assert s[..n - 1][..i] == s[..i];
    }
  }

  /**
   * Exactly one snapshot per row, in row order, and the snapshot of row `k`
   * is the cost basis of that row's product in the state right after row `k`.
   */
  lemma SnapshotPerRow(txs: seq<Tx>, k: nat)
    requires Run(txs).Ok? && k < |txs|
    ensures |Run(txs).value.snapshots| == |txs|
    ensures Run(txs[..k + 1]).Ok?
    ensures Run(txs).value.snapshots[k] == CostBasis(Run(txs[..k + 1]).value.engine, txs[k].product)
  {
    RunPrefix(Initial, txs, k + 1);
    var prefix := txs[..k + 1];
    assert prefix[..k] == txs[..k] && prefix[k] == txs[k];
    var before := RunFrom(Initial, txs[..k]).value;
    var after := Run(prefix).value;
    assert after.snapshots == before.snapshots + [CostBasis(after.engine, txs[k].product)];
  }

  /**
   * From a flat position, a run of buys of one product ends with the position
   * at the total bought quantity and the cost basis at the total bought value
   * divided by that quantity: the quantity-weighted mean of the buy prices.
   */
  lemma {:induction false} BuysFromFlat(e: Engine, p: string, buys: seq<Tx>)
    requires PositionOf(e, p) == 0.0
    requires |buys| > 0 && AllBuysOf(buys, p)
    ensures RunFrom(e, buys).Ok?
    ensures PositionOf(RunFrom(e, buys).value.engine, p) == NetQuantity(buys, p) > 0.0
    ensures CostBasis(RunFrom(e, buys).value.engine, p) == Some(BoughtValue(buys) / NetQuantity(buys, p))
    decreases |buys|
  {
    var n := |buys|;
    var init := buys[..n - 1];
    if n == 1 {
      FirstBuy(e, p, buys);
    } else {
      BuysFromFlat(e, p, init);
      NextBuy(e, p, buys);
    }
  }

  /** The first step of `BuysFromFlat`: a single buy from flat. */
  lemma FirstBuy(e: Engine, p: string, buys: seq<Tx>)
    requires PositionOf(e, p) == 0.0
    requires |buys| == 1 && AllBuysOf(buys, p)
    ensures RunFrom(e, buys).Ok?
    ensures PositionOf(RunFrom(e, buys).value.engine, p) == NetQuantity(buys, p) > 0.0
    ensures CostBasis(RunFrom(e, buys).value.engine, p) == Some(BoughtValue(buys) / NetQuantity(buys, p))
  {
    var t := buys[0];
    assert buys[..0] == [];
    assert RunFrom(e, buys[..0]) == Ok(Trace(e, []));
    assert BoughtValue(buys) == t.price * t.quantity;
    assert NetQuantity(buys, p) == t.quantity;
    BuyWhileFlat(e, t);
    assert RunFrom(e, buys).value.engine == Step(e, t).value;
    assert t.product == p;
    assert CostBasis(RunFrom(e, buys).value.engine, p) == Some(t.price);
    MulDivCancel(t.price, t.quantity);
    assert BoughtValue(buys) / NetQuantity(buys, p) == t.price * t.quantity / t.quantity;
    assert BoughtValue(buys) / NetQuantity(buys, p) == t.price;
    assert CostBasis(RunFrom(e, buys).value.engine, p) == Some(BoughtValue(buys) / NetQuantity(buys, p));
  }

  /** The inductive step of `BuysFromFlat`: one more buy on the open position. */
  lemma NextBuy(e: Engine, p: string, buys: seq<Tx>)
    requires |buys| > 1 && AllBuysOf(buys, p)
    requires RunFrom(e, buys[..|buys| - 1]).Ok?
    requires PositionOf(RunFrom(e, buys[..|buys| - 1]).value.engine, p) == NetQuantity(buys[..|buys| - 1], p) > 0.0
    requires CostBasis(RunFrom(e, buys[..|buys| - 1]).value.engine, p)
      == Some(BoughtValue(buys[..|buys| - 1]) / NetQuantity(buys[..|buys| - 1], p))
    ensures RunFrom(e, buys).Ok?
    ensures PositionOf(RunFrom(e, buys).value.engine, p) == NetQuantity(buys, p) > 0.0
    ensures CostBasis(RunFrom(e, buys).value.engine, p) == Some(BoughtValue(buys) / NetQuantity(buys, p))
  {
    var n := |buys|;
    var t, init := buys[n - 1], buys[..n - 1];
    var before := RunFrom(e, init).value.engine;
    assert t.product == p;
    BuyOnOpenPosition(before, t);
    assert RunFrom(e, buys).value.engine == Step(before, t).value;
    MeanStep(BoughtValue(init), NetQuantity(init, p), t.price, t.quantity, BoughtValue(buys), NetQuantity(buys, p));
  }

  /** `MeanUpdate` with the new totals named: the updated mean is the new total value over the new quantity. */
  lemma MeanStep(v: real, q: real, price: real, quantity: real, value: real, total: real)
    requires q > 0.0 && quantity > 0.0
    requires value == v + price * quantity && total == q + quantity
    ensures Average(TotalValue(v / q, q, price, quantity), q + quantity) == value / total
  {
    MeanUpdate(v, q, price, quantity);
  }

  /** Adding a buy to a holding valued `v` of size `q` held at its mean `v / q`. */
  lemma MeanUpdate(v: real, q: real, price: real, quantity: real)
    requires q > 0.0 && quantity > 0.0
    ensures Average(TotalValue(v / q, q, price, quantity), q + quantity) == (v + price * quantity) / (q + quantity)
  {
    DivMulCancel(v, q);
  }

  lemma MulDivCancel(a: real, b: real)
    requires b != 0.0
    ensures a * b / b == a
  {
  }

  lemma DivMulCancel(a: real, b: real)
    requires b != 0.0
    ensures a / b * b == a
  {
  }

  /** For a history made only of buys of one product, the cost basis is Σ(price·qty) / Σqty. */
  lemma BuyOnlyHistory(p: string, buys: seq<Tx>)
    requires |buys| > 0 && AllBuysOf(buys, p)
    ensures Run(buys).Ok? && NetQuantity(buys, p) > 0.0
    ensures CostBasis(Run(buys).value.engine, p) == Some(BoughtValue(buys) / NetQuantity(buys, p))
  {
    BuysFromFlat(Initial, p, buys);
  }

  /**
   * A position that is flat after some history and is then reopened by buys
   * takes its cost basis from those buys alone: the history is forgotten.
   */
  lemma ReopenedPositionRestarts(history: seq<Tx>, p: string, buys: seq<Tx>)
    requires Run(history).Ok? && PositionOf(Run(history).value.engine, p) == 0.0
    requires |buys| > 0 && AllBuysOf(buys, p)
    ensures Run(history + buys).Ok? && NetQuantity(buys, p) > 0.0
    ensures PositionOf(Run(history + buys).value.engine, p) == NetQuantity(buys, p)
    ensures CostBasis(Run(history + buys).value.engine, p) == Some(BoughtValue(buys) / NetQuantity(buys, p))
  {
    BuysFromFlat(Run(history).value.engine, p, buys);
    RunFromAppend(Initial, history, buys);
  }

  /**
   * Once a product's cost basis is undefined, it stays undefined until a buy
   * of that product, whatever rows of other products come in between: the
   * product's sells and zero-quantity rows never fail, a failure of the run
   * belongs to another product, and every snapshot of the product is `None`.
   * When all the rows are of that product, the run does not fail at all.
   */
  lemma {:induction false} UndefinedUntilBuy(e: Engine, p: string, rows: seq<Tx>)
    requires CostBasis(e, p) == None
    requires forall k :: 0 <= k < |rows| ==> rows[k].product == p ==> rows[k].quantity <= 0.0
    ensures (forall k :: 0 <= k < |rows| ==> rows[k].product == p) ==> RunFrom(e, rows).Ok?
    ensures RunFrom(e, rows).Err? ==> RunFrom(e, rows).error.product != p
    ensures RunFrom(e, rows).Ok? ==> CostBasis(RunFrom(e, rows).value.engine, p) == None
    ensures RunFrom(e, rows).Ok? ==>
      forall k :: 0 <= k < |rows| && rows[k].product == p ==> RunFrom(e, rows).value.snapshots[k] == None
    decreases |rows|
  {
    if rows != [] {
      var n := |rows|;
      var init, t := rows[..n - 1], rows[n - 1];
      UndefinedUntilBuy(e, p, init);
      var prefix := RunFrom(e, init);
      if prefix.Ok? {
        var before := prefix.value.engine;
        if t.product == p {
          assert !Fails(before, t);
        }
        var step := Step(before, t);
        if step.Ok? {
          var snaps := prefix.value.snapshots + [CostBasis(step.value, t.product)];
          assert RunFrom(e, rows) == Ok(Trace(step.value, snaps));
          assert CostBasis(step.value, p) == None;
          forall k | 0 <= k < n && rows[k].product == p ensures snaps[k] == None {
            if k < n - 1 {
              assert init[k].product == p;
            }
          }
        }
      }
    }
  }

  // ---------------------------------------------------------------------------
  // Each product on its own

  /** The rows of product `p`, in order. */
  function RowsOf(txs: seq<Tx>, p: string): seq<Tx>
    decreases |txs|
  {
    if txs == [] then []
    else
      var t := txs[|txs| - 1];
      RowsOf(txs[..|txs| - 1], p) + (if t.product == p then [t] else [])
  }

  /** Two engines that agree on product `p`. */
  predicate AgreeOn(e1: Engine, e2: Engine, p: string) {
    PositionOf(e1, p) == PositionOf(e2, p) && CostBasis(e1, p) == CostBasis(e2, p)
  }

  /** A row of `p` has the same effect on `p` in any two states that agree on `p`. */
  lemma StepIsLocal(e1: Engine, e2: Engine, t: Tx)
    requires AgreeOn(e1, e2, t.product)
    ensures Step(e1, t).Ok? == Step(e2, t).Ok?
    ensures Step(e1, t).Ok? ==> AgreeOn(Step(e1, t).value, Step(e2, t).value, t.product)
  {
  }

  /**
   * Products are independent: when the whole run succeeds, running only the
   * rows of `p` succeeds too and leaves `p` in the same state.
   */
  lemma {:induction false} ProductsAreIndependent(e: Engine, txs: seq<Tx>, p: string)
    requires RunFrom(e, txs).Ok?
    ensures RunFrom(e, RowsOf(txs, p)).Ok?
    ensures AgreeOn(RunFrom(e, txs).value.engine, RunFrom(e, RowsOf(txs, p)).value.engine, p)
    decreases |txs|
  {
    if txs != [] {
      var n := |txs|;
      var t := txs[n - 1];
      ProductsAreIndependent(e, txs[..n - 1], p);
      var whole := RunFrom(e, txs[..n - 1]).value.engine;
      var own := RunFrom(e, RowsOf(txs[..n - 1], p)).value.engine;
      if t.product == p {
        StepIsLocal(whole, own, t);
      } else {
        assert RowsOf(txs, p) == RowsOf(txs[..n - 1], p);
      }
    }
  }

  // ---------------------------------------------------------------------------
  // The per-product result

  /** No row of `p` after row `k` has a defined snapshot. */
  predicate NoneDefinedAfter(txs: seq<Tx>, snaps: seq<Option<real>>, p: string, k: int)
    requires |snaps| == |txs|
  {
    forall j :: 0 <= j < |txs| && k < j ==> txs[j].product == p ==> snaps[j].None?
  }

  /**
   * `LastDefined` is the last non-`None` snapshot of the product: it is `None`
   * exactly when all the product's snapshots are `None`, and otherwise it is
   * the snapshot of some row of the product after which every snapshot of the
   * product is `None`.
   */
  lemma {:induction false} LastDefinedIsLastNonNone(txs: seq<Tx>, snaps: seq<Option<real>>, p: string)
    requires |snaps| == |txs|
    ensures LastDefined(txs, snaps, p).None? <==> NoneDefinedAfter(txs, snaps, p, -1)
    ensures LastDefined(txs, snaps, p).Some? ==>
      exists k :: 0 <= k < |txs| && txs[k].product == p && snaps[k] == LastDefined(txs, snaps, p) &&
        NoneDefinedAfter(txs, snaps, p, k)
    decreases |txs|
  {
    if txs != [] {
      var n := |txs|;
      var txs', snaps' := txs[..n - 1], snaps[..n - 1];
      LastDefinedIsLastNonNone(txs', snaps', p);
      if txs[n - 1].product == p && snaps[n - 1].Some? {
        assert NoneDefinedAfter(txs, snaps, p, n - 1);
      } else {
        NoneDefinedAfterSnoc(txs, snaps, p, -1);
        if LastDefined(txs, snaps, p).Some? {
          var k :| 0 <= k < n - 1 && txs'[k].product == p && snaps'[k] == LastDefined(txs', snaps', p) &&
            NoneDefinedAfter(txs', snaps', p, k);
          assert txs[k].product == p && snaps[k] == LastDefined(txs, snaps, p);
          NoneDefinedAfterSnoc(txs, snaps, p, k);
        }
      }
    }
  }

  /** A last row that is not a defined snapshot of `p` does not change `NoneDefinedAfter`. */
  lemma NoneDefinedAfterSnoc(txs: seq<Tx>, snaps: seq<Option<real>>, p: string, k: int)
    requires |snaps| == |txs| > 0 && -1 <= k < |txs| - 1
    requires !(txs[|txs| - 1].product == p && snaps[|txs| - 1].Some?)
    ensures NoneDefinedAfter(txs, snaps, p, k)
      <==> NoneDefinedAfter(txs[..|txs| - 1], snaps[..|snaps| - 1], p, k)
  {
  }

  /**
   * The result of `calculate_vwap` has one entry per product of the input, and
   * each entry is the product's last non-`None` snapshot.
   */
  lemma VwapPerProductMeaning(txs: seq<Tx>, p: string)
    requires Run(txs).Ok?
    ensures VwapPerProduct(txs).Ok?
    ensures p in VwapPerProduct(txs).value <==> exists k :: 0 <= k < |txs| && txs[k].product == p
    ensures p in VwapPerProduct(txs).value ==>
      (VwapPerProduct(txs).value[p].None? <==> NoneDefinedAfter(txs, Run(txs).value.snapshots, p, -1))
  {
    var snaps := Run(txs).value.snapshots;
    LastDefinedIsLastNonNone(txs, snaps, p);
    if exists k :: 0 <= k < |txs| && txs[k].product == p {
      var k :| 0 <= k < |txs| && txs[k].product == p;
      assert txs[k] in txs;
    }
  }

  // ---------------------------------------------------------------------------
  // Worked examples and the two failing inputs

  function Buy(p: string, quantity: real, price: real): Tx {
    Tx(p, "", "", quantity, price, None, None)
  }

  function Sell(p: string, quantity: real): Tx {
    Tx(p, "", "", -quantity, 0.0, None, None)
  }

  /** Running one more row: the definition of `RunFrom`, read on `txs + [t]`. */
  lemma RunFromSnoc(e: Engine, txs: seq<Tx>, t: Tx)
    ensures RunFrom(e, txs + [t]) ==
      match RunFrom(e, txs)
      case Err(f) => Err(f)
      case Ok(tr) =>
        match Step(tr.engine, t)
        case Err(f) => Err(f)
        case Ok(e') => Ok(Trace(e', tr.snapshots + [CostBasis(e', t.product)]))
  {
    assert (txs + [t])[..|txs|] == txs;
  }

  /** Buys of 10 at 100 and 10 at 200 then a sell of 15: snapshots 100, 150, 150; 5 left. */
  lemma WorkedExample()
    ensures Run([Buy("X", 10.0, 100.0), Buy("X", 10.0, 200.0), Sell("X", 15.0)]).Ok?
    ensures Run([Buy("X", 10.0, 100.0), Buy("X", 10.0, 200.0), Sell("X", 15.0)]).value.snapshots
      == [Some(100.0), Some(150.0), Some(150.0)]
    ensures PositionOf(Run([Buy("X", 10.0, 100.0), Buy("X", 10.0, 200.0), Sell("X", 15.0)]).value.engine, "X") == 5.0
  {
    var t0, t1, t2 := Buy("X", 10.0, 100.0), Buy("X", 10.0, 200.0), Sell("X", 15.0);
    RunFromSnoc(Initial, [], t0);
    assert [] + [t0] == [t0];
    BuyWhileFlat(Initial, t0);
    var e1 := Step(Initial, t0).value;
    RunFromSnoc(Initial, [t0], t1);
    assert [t0] + [t1] == [t0, t1];
    BuyOnOpenPosition(e1, t1);
    assert Average(TotalValue(100.0, 10.0, 200.0, 10.0), 20.0) == 150.0;
    var e2 := Step(e1, t1).value;
    assert CostBasis(e2, "X") == Some(150.0);
    RunFromSnoc(Initial, [t0, t1], t2);
    assert [t0, t1] + [t2] == [t0, t1, t2];
    SellOnOpenPosition(e2, t2);
  }

  /** A sell while flat: the snapshot is `None` and the position is -5. */
  lemma ShortFromFlatExample()
    ensures Run([Sell("Y", 5.0)]).Ok?
    ensures Run([Sell("Y", 5.0)]).value.snapshots == [None]
    ensures PositionOf(Run([Sell("Y", 5.0)]).value.engine, "Y") == -5.0
  {
    assert [Sell("Y", 5.0)][..0] == [];
  }

  /** A buy after a sell while flat meets an undefined cost basis on a short position. */
  lemma BuyWhileShortFails()
    ensures Run([Sell("Y", 5.0), Buy("Y", 2.0, 10.0)]) == Err(NoCostBasis("Y"))
  {
    assert [Sell("Y", 5.0), Buy("Y", 2.0, 10.0)][..1] == [Sell("Y", 5.0)];
    assert [Sell("Y", 5.0)][..0] == [];
  }

  /** A buy that brings a short with a defined cost basis back to exactly zero. */
  lemma CoverToZeroFails()
    ensures Run([Buy("X", 10.0, 100.0), Sell("X", 15.0), Buy("X", 5.0, 90.0)]) == Err(ZeroPosition("X"))
  {
    var t0, t1, t2 := Buy("X", 10.0, 100.0), Sell("X", 15.0), Buy("X", 5.0, 90.0);
    RunFromSnoc(Initial, [], t0);
    assert [] + [t0] == [t0];
    BuyWhileFlat(Initial, t0);
    var e1 := Step(Initial, t0).value;
    RunFromSnoc(Initial, [t0], t1);
    assert [t0] + [t1] == [t0, t1];
    SellOnOpenPosition(e1, t1);
    RunFromSnoc(Initial, [t0, t1], t2);
    assert [t0, t1] + [t2] == [t0, t1, t2];
  }
}
