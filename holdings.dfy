/**
 * The holdings aggregation of `calculate_holdings`
 * (data_processing.py:108-138): default-fill the missing fx rates and
 * transaction costs, sum quantity and transaction cost per
 * (product, isin, currency) group, drop the groups whose total quantity is
 * zero, and attach to each remaining group its product's VWAP.
 */
module Holdings {
  import opened Wrappers
  import opened Vwap
  import VwapProperties

  /** The grouping key of `calculate_holdings`. */
  datatype GroupKey = GroupKey(product: string, isin: string, currency: string)

  /** The running sums kept per group while aggregating. */
  datatype Totals = Totals(quantity: real, transactionCost: real)

  /** One output row; its key is the group it belongs to. */
  datatype Holding = Holding(totalQuantity: real, totalTransactionCost: real, vwap: Option<real>)

  function KeyOf(t: Tx): GroupKey {
    GroupKey(t.product, t.isin, t.currency)
  }

  /** The groups that occur in `txs`. */
  function GroupKeys(txs: seq<Tx>): set<GroupKey> {
    set t | t in txs :: KeyOf(t)
  }

  // ---------------------------------------------------------------------------
  // Defaulting

  function FillRow(t: Tx): Tx {
    t.(fxRate := Some(t.fxRate.GetOr(1.0)), cost := Some(t.cost.GetOr(0.0)))
  }

  /**
   * The two `fillna` calls: a missing fx rate becomes 1 and a missing
   * transaction cost becomes 0; present values and every other field are kept.
   */
  function FillDefaults(txs: seq<Tx>): (r: seq<Tx>)
    ensures |r| == |txs|
    ensures forall k :: 0 <= k < |r| ==> r[k].fxRate.Some? && r[k].cost.Some?
    ensures forall k :: 0 <= k < |r| ==> txs[k].fxRate.Some? ==> r[k].fxRate == txs[k].fxRate
    ensures forall k :: 0 <= k < |r| ==> txs[k].cost.Some? ==> r[k].cost == txs[k].cost
    ensures forall k :: 0 <= k < |r| ==> txs[k].fxRate.None? ==> r[k].fxRate == Some(1.0)
    ensures forall k :: 0 <= k < |r| ==> txs[k].cost.None? ==> r[k].cost == Some(0.0)
    ensures forall k :: 0 <= k < |r| ==> r[k].(fxRate := txs[k].fxRate, cost := txs[k].cost) == txs[k]
  {
    seq(|txs|, k requires 0 <= k < |txs| => FillRow(txs[k]))
  }

  /** Defaulting twice is defaulting once. */
  lemma FillDefaultsIdempotent(txs: seq<Tx>)
    ensures FillDefaults(FillDefaults(txs)) == FillDefaults(txs)
  {
  }

  // ---------------------------------------------------------------------------
  // Reference sums per group

  /** Sum of the quantities of the rows of group `g`. */
  function TotalQuantity(txs: seq<Tx>, g: GroupKey): real
    decreases |txs|
  {
    if txs == [] then 0.0
    else
      var t := txs[|txs| - 1];
      TotalQuantity(txs[..|txs| - 1], g) + (if KeyOf(t) == g then t.quantity else 0.0)
  }

  /** Sum of the transaction costs of the rows of group `g`, a missing cost counting as 0. */
  function TotalCost(txs: seq<Tx>, g: GroupKey): real
    decreases |txs|
  {
    if txs == [] then 0.0
    else
      var t := txs[|txs| - 1];
      TotalCost(txs[..|txs| - 1], g) + (if KeyOf(t) == g then t.cost.GetOr(0.0) else 0.0)
  }

  // ---------------------------------------------------------------------------
  // Aggregation

  /**
   * The `groupby(...).agg(sum)` step, as one pass that adds each row into its
   * group's running totals. It yields exactly the groups of `txs`, each with
   * the sum of its quantities and the sum of its transaction costs.
   */
  function GroupSums(txs: seq<Tx>): (r: map<GroupKey, Totals>)
    ensures r.Keys == GroupKeys(txs)
    ensures forall g :: g in r ==> r[g] == Totals(TotalQuantity(txs, g), TotalCost(txs, g))
    decreases |txs|
  {
    if txs == [] then map[]
    else
      var init, t := txs[..|txs| - 1], txs[|txs| - 1];
      assert txs == init + [t];
      var acc := GroupSums(init);
      var g := KeyOf(t);
      var sofar := if g in acc then acc[g] else Totals(0.0, 0.0);
      AbsentGroupSumsToZero(init, g);
      acc[g := Totals(sofar.quantity + t.quantity, sofar.transactionCost + t.cost.GetOr(0.0))]
  }

  /**
   * `calculate_holdings` on rows already sorted by datetime: one holding per
   * group whose total quantity is not zero, carrying the group's totals and
   * its product's VWAP as `calculate_vwap` returns it. The VWAP engine's
   * failures propagate.
   */
  function CalculateHoldings(txs: seq<Tx>): (r: Result<map<GroupKey, Holding>, Failure>)
    ensures r.Err? <==> Run(txs).Err?
    ensures r.Err? ==> r.error == Run(txs).error
    ensures r.Ok? ==> forall g :: g in r.value <==> g in GroupKeys(txs) && TotalQuantity(txs, g) != 0.0
    ensures r.Ok? ==> forall g :: g in r.value ==>
      && r.value[g].totalQuantity == TotalQuantity(txs, g)
      && r.value[g].totalTransactionCost == TotalCost(txs, g)
      && g.product in VwapPerProduct(txs).value
      && r.value[g].vwap == VwapPerProduct(txs).value[g.product]
  {
    var filled := FillDefaults(txs);
    var sums := GroupSums(filled);
    var kept := map g | g in sums && sums[g].quantity != 0.0 :: sums[g];
    VwapIgnoresDefaults(txs);
    TotalsIgnoreDefaults(txs);
    match VwapPerProduct(filled)
    case Err(f) => Err(f)
    case Ok(vwaps) =>
      assert forall g :: g in kept ==> g.product in vwaps by {
        forall g | g in kept ensures g.product in vwaps {
          GroupProductIsAProduct(filled, g);
        }
      }
      Ok(map g | g in kept :: Holding(kept[g].quantity, kept[g].transactionCost, vwaps[g.product]))
  }

  // ---------------------------------------------------------------------------
  // Lemmas behind the contract

  /** A group with no rows sums to zero. */
  lemma {:induction false} AbsentGroupSumsToZero(txs: seq<Tx>, g: GroupKey)
    ensures g !in GroupKeys(txs) ==> TotalQuantity(txs, g) == 0.0 && TotalCost(txs, g) == 0.0
    decreases |txs|
  {
    if txs != [] && g !in GroupKeys(txs) {
      var init := txs[..|txs| - 1];
      assert GroupKeys(init) <= GroupKeys(txs) by {
        forall h | h in GroupKeys(init) ensures h in GroupKeys(txs) {
          var t :| t in init && KeyOf(t) == h;
          assert t in txs;
        }
      }
      AbsentGroupSumsToZero(init, g);
      assert txs[|txs| - 1] in txs;
    }
  }

  /** The product of every group of `txs` is a product of `txs`. */
  lemma GroupProductIsAProduct(txs: seq<Tx>, g: GroupKey)
    requires g in GroupKeys(txs)
    ensures g.product in Products(txs)
  {
    var t :| t in txs && KeyOf(t) == g;
  }

  /** The defaulted rows have the same groups and sums as the raw ones. */
  lemma {:induction false} TotalsIgnoreDefaults(txs: seq<Tx>)
    ensures GroupKeys(FillDefaults(txs)) == GroupKeys(txs)
    ensures forall g :: TotalQuantity(FillDefaults(txs), g) == TotalQuantity(txs, g)
    ensures forall g :: TotalCost(FillDefaults(txs), g) == TotalCost(txs, g)
    decreases |txs|
  {
    var filled := FillDefaults(txs);
    if txs != [] {
      var n := |txs|;
      assert filled[..n - 1] == FillDefaults(txs[..n - 1]);
      TotalsIgnoreDefaults(txs[..n - 1]);
    }
    forall g | g in GroupKeys(txs) ensures g in GroupKeys(filled) {
      var t :| t in txs && KeyOf(t) == g;
      var k :| 0 <= k < |txs| && txs[k] == t;
      assert KeyOf(filled[k]) == g;
    }
    forall g | g in GroupKeys(filled) ensures g in GroupKeys(txs) {
      var t :| t in filled && KeyOf(t) == g;
      var k :| 0 <= k < |filled| && filled[k] == t;
      assert KeyOf(txs[k]) == g;
    }
  }

  /** The engine reads only product, quantity and price: defaulting does not change its run. */
  lemma {:induction false} RunIgnoresDefaults(e: Engine, txs: seq<Tx>)
    ensures RunFrom(e, FillDefaults(txs)) == RunFrom(e, txs)
    decreases |txs|
  {
    if txs != [] {
      var n := |txs|;
      var filled := FillDefaults(txs);
      assert filled[..n - 1] == FillDefaults(txs[..n - 1]);
      RunIgnoresDefaults(e, txs[..n - 1]);
      var prefix := RunFrom(e, txs[..n - 1]);
      if prefix.Ok? {
        StepReadsTrade(prefix.value.engine, filled[n - 1], txs[n - 1]);
      }
    }
  }

  /** A step reads only the row's product, quantity and price. */
  lemma StepReadsTrade(e: Engine, a: Tx, b: Tx)
    requires a.product == b.product && a.quantity == b.quantity && a.price == b.price
    ensures Step(e, a) == Step(e, b)
  {
  }

  /** `LastDefined` reads only the products of the rows. */
  lemma {:induction false} LastDefinedReadsProducts(a: seq<Tx>, b: seq<Tx>, snaps: seq<Option<real>>, p: string)
    requires |a| == |b| == |snaps|
    requires forall k :: 0 <= k < |a| ==> a[k].product == b[k].product
    ensures LastDefined(a, snaps, p) == LastDefined(b, snaps, p)
    decreases |a|
  {
    if a != [] {
      var n := |a|;
      LastDefinedReadsProducts(a[..n - 1], b[..n - 1], snaps[..n - 1], p);
    }
  }

  /** Defaulting keeps the set of products. */
  lemma ProductsIgnoreDefaults(txs: seq<Tx>)
    ensures Products(FillDefaults(txs)) == Products(txs)
  {
    var filled := FillDefaults(txs);
    forall p | p in Products(txs) ensures p in Products(filled) {
      var t :| t in txs && t.product == p;
      var k :| 0 <= k < |txs| && txs[k] == t;
      assert filled[k].product == p;
    }
    forall p | p in Products(filled) ensures p in Products(txs) {
      var t :| t in filled && t.product == p;
      var k :| 0 <= k < |filled| && filled[k] == t;
      assert txs[k].product == p;
    }
  }

  /** `calculate_vwap` gives the same answer on the defaulted rows as on the raw ones. */
  lemma VwapIgnoresDefaults(txs: seq<Tx>)
    ensures VwapPerProduct(FillDefaults(txs)) == VwapPerProduct(txs)
  {
    var filled := FillDefaults(txs);
    RunIgnoresDefaults(Initial, txs);
    ProductsIgnoreDefaults(txs);
    if Run(txs).Ok? {
      var snaps := Run(txs).value.snapshots;
      forall p | p in Products(txs) ensures LastDefined(filled, snaps, p) == LastDefined(txs, snaps, p) {
        LastDefinedReadsProducts(filled, txs, snaps, p);
      }
      assert LastPerProduct(filled, snaps) == LastPerProduct(txs, snaps);
    }
  }

  // ---------------------------------------------------------------------------
  // Properties of the holdings

  /** Rows already defaulted give the same holdings: defaulting is idempotent. */
  lemma HoldingsOfDefaultedRows(txs: seq<Tx>)
    ensures CalculateHoldings(FillDefaults(txs)) == CalculateHoldings(txs)
  {
    FillDefaultsIdempotent(txs);
  }

  /**
   * The same product and isin traded in two currencies gives two separate
   * holdings (when neither group nets to zero), not an error.
   */
  lemma MixedCurrenciesAreSeparateRows(txs: seq<Tx>, a: Tx, b: Tx)
    requires a in txs && b in txs
    requires a.product == b.product && a.isin == b.isin && a.currency != b.currency
    requires TotalQuantity(txs, KeyOf(a)) != 0.0 && TotalQuantity(txs, KeyOf(b)) != 0.0
    requires Run(txs).Ok?
    ensures CalculateHoldings(txs).Ok?
    ensures KeyOf(a) in CalculateHoldings(txs).value && KeyOf(b) in CalculateHoldings(txs).value
    ensures KeyOf(a) != KeyOf(b)
  {
  }

  /** When all the rows of product `p` fall in one group, they sum to the product's net quantity. */
  lemma {:induction false} SingleGroupSumsNetQuantity(txs: seq<Tx>, g: GroupKey)
    requires forall k :: 0 <= k < |txs| ==> txs[k].product == g.product ==> KeyOf(txs[k]) == g
    ensures TotalQuantity(txs, g) == VwapProperties.NetQuantity(txs, g.product)
    decreases |txs|
  {
    if txs != [] {
      SingleGroupSumsNetQuantity(txs[..|txs| - 1], g);
    }
  }

  /**
   * When a product trades in one (isin, currency) group only, its holding's
   * total quantity is the position the VWAP engine ends with.
   */
  lemma HoldingQuantityIsEnginePosition(txs: seq<Tx>, g: GroupKey)
    requires forall k :: 0 <= k < |txs| ==> txs[k].product == g.product ==> KeyOf(txs[k]) == g
    requires Run(txs).Ok?
    ensures TotalQuantity(txs, g) == PositionOf(Run(txs).value.engine, g.product)
  {
    SingleGroupSumsNetQuantity(txs, g);
    VwapProperties.PositionIsNetQuantity(txs, g.product);
  }

  /** Buys of 10 at 100 and 10 at 200 then a sell of 15, in one group and without transaction costs. */
  function WorkedRows(): seq<Tx> {
    [VwapProperties.Buy("X", 10.0, 100.0), VwapProperties.Buy("X", 10.0, 200.0), VwapProperties.Sell("X", 15.0)]
  }

  lemma WorkedRowsTotals()
    ensures GroupKeys(WorkedRows()) == {GroupKey("X", "", "")}
    ensures TotalQuantity(WorkedRows(), GroupKey("X", "", "")) == 5.0
    ensures TotalCost(WorkedRows(), GroupKey("X", "", "")) == 0.0
  {
    var rows, g := WorkedRows(), GroupKey("X", "", "");
    assert rows[..2][..1] == rows[..1] && rows[..1][..0] == [];
    assert TotalQuantity(rows[..1], g) == 10.0 && TotalCost(rows[..1], g) == 0.0;
    assert TotalQuantity(rows[..2], g) == 20.0 && TotalCost(rows[..2], g) == 0.0;
    assert GroupKeys(rows) == {g} by {
      assert rows[0] in rows;
    }
  }

  lemma WorkedRowsVwap()
    ensures VwapPerProduct(WorkedRows()) == Ok(map["X" := Some(150.0)])
  {
    var rows := WorkedRows();
    VwapProperties.WorkedExample();
    var snaps := Run(rows).value.snapshots;
    assert LastDefined(rows, snaps, "X") == Some(150.0);
    assert Products(rows) == {"X"} by {
      assert rows[0] in rows;
    }
    assert VwapPerProduct(rows) == Ok(LastPerProduct(rows, snaps));
    assert LastPerProduct(rows, snaps) == map["X" := Some(150.0)];
  }

  lemma OnlyGroupHeld(txs: seq<Tx>, g: GroupKey, k: GroupKey)
    requires Run(txs).Ok? && GroupKeys(txs) == {g}
    requires k in CalculateHoldings(txs).value
    ensures k == g
  {
    assert k in GroupKeys(txs);
  }

  /** Rows that form a single group with a non-zero total leave a holding for that group only. */
  lemma OneGroupKeys(txs: seq<Tx>, g: GroupKey)
    requires Run(txs).Ok? && GroupKeys(txs) == {g} && TotalQuantity(txs, g) != 0.0
    ensures CalculateHoldings(txs).Ok? && CalculateHoldings(txs).value.Keys == {g}
  {
    assert g in GroupKeys(txs);
    forall k | k in CalculateHoldings(txs).value ensures k == g {
      OnlyGroupHeld(txs, g, k);
    }
  }

  lemma HeldGroup(txs: seq<Tx>, g: GroupKey)
    requires CalculateHoldings(txs).Ok? && g in CalculateHoldings(txs).value
    ensures g.product in VwapPerProduct(txs).value
    ensures CalculateHoldings(txs).value[g]
      == Holding(TotalQuantity(txs, g), TotalCost(txs, g), VwapPerProduct(txs).value[g.product])
  {
  }

  /** Rows that form a single group with a non-zero total leave exactly one holding. */
  lemma OneGroupHoldings(txs: seq<Tx>, g: GroupKey)
    requires Run(txs).Ok? && GroupKeys(txs) == {g} && TotalQuantity(txs, g) != 0.0
    ensures CalculateHoldings(txs).Ok? && g.product in VwapPerProduct(txs).value
    ensures CalculateHoldings(txs).value
      == map[g := Holding(TotalQuantity(txs, g), TotalCost(txs, g), VwapPerProduct(txs).value[g.product])]
  {
    OneGroupKeys(txs, g);
    HeldGroup(txs, g);
    SingletonMap(CalculateHoldings(txs).value, g,
      Holding(TotalQuantity(txs, g), TotalCost(txs, g), VwapPerProduct(txs).value[g.product]));
  }

  lemma SingletonMap<K, V>(m: map<K, V>, k: K, v: V)
    requires m.Keys == {k} && m[k] == v
    ensures m == map[k := v]
  {
  }

  /** The worked example leaves one holding: 5 units at a VWAP of 150, with no transaction cost. */
  lemma WorkedHoldingExample()
    ensures CalculateHoldings(WorkedRows()) == Ok(map[GroupKey("X", "", "") := Holding(5.0, 0.0, Some(150.0))])
  {
    WorkedRowsTotals();
    WorkedRowsVwap();
    OneGroupHoldings(WorkedRows(), GroupKey("X", "", ""));
  }
}
