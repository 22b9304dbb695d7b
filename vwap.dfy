/**
 * The per-product running cost-basis engine of `calculate_vwap`
 * (data_processing.py:55-104).
 *
 * Transactions are processed in the order given (the caller sorts them by
 * datetime). For each product the engine keeps the running volume-weighted
 * average price (VWAP) and the net position; one VWAP snapshot is emitted per
 * row, and the result per product is the last snapshot that is not `None`.
 */
module Vwap {
  import opened Wrappers

  /** One transaction row. A positive quantity is a buy, a negative one a sell. */
  datatype Tx = Tx(
    product: string,
    isin: string,
    currency: string,
    quantity: real,
    price: real,
    fxRate: Option<real>,
    cost: Option<real>)

  /**
   * The two dictionaries of the source, both keyed by product name:
   * `vwap` maps a product to its running VWAP (`None` when undefined, absent
   * when the product never had one), `position` to its net quantity.
   */
  datatype Engine = Engine(vwap: map<string, Option<real>>, position: map<string, real>)

  /** The engine's state and the snapshots it emitted so far, one per row. */
  datatype Trace = Trace(engine: Engine, snapshots: seq<Option<real>>)

  /**
   * The ways the source's loop raises. `NoCostBasis`: a buy on a non-zero
   * position whose VWAP is `None` (the source multiplies `None` by the
   * position). `ZeroPosition`: a buy that brings a short position to exactly
   * zero (the source divides by the new position).
   */
  datatype Failure = NoCostBasis(product: string) | ZeroPosition(product: string)

  const Initial := Engine(map[], map[])

  function Abs(x: real): real {
    if x < 0.0 then -x else x
  }

  /** The value of a position held at `vwap` plus that of a buy of `quantity` at `price`. */
  function TotalValue(vwap: real, position: real, price: real, quantity: real): real {
    vwap * position + price * quantity
  }

  /** Value per unit: the total value of a position divided by its size. */
  function Average(totalValue: real, position: real): real
    requires position != 0.0
  {
    totalValue / position
  }

  /** The net position of `p`; a product not seen yet is flat. */
  function PositionOf(e: Engine, p: string): real {
    if p in e.position then e.position[p] else 0.0
  }

  /** The running VWAP of `p`, as `vwap_per_isin.get(product, None)` reads it. */
  function CostBasis(e: Engine, p: string): Option<real> {
    if p in e.vwap then e.vwap[p] else None
  }

  /** True when `t` would make the source raise. */
  predicate Fails(e: Engine, t: Tx) {
    var pos := PositionOf(e, t.product);
    t.quantity > 0.0 && pos != 0.0 && (CostBasis(e, t.product).None? || pos + t.quantity == 0.0)
  }

  /**
   * The effect of one row on the engine (one iteration of the source's loop).
   * Its contract is the position invariant: the row's product moves by the
   * row's signed quantity, no other product changes, and the step fails
   * exactly in the two cases where the source raises.
   */
  function Step(e: Engine, t: Tx): (r: Result<Engine, Failure>)
    ensures r.Err? <==> Fails(e, t)
    ensures r.Err? ==> r.error.product == t.product
    ensures r.Ok? ==> PositionOf(r.value, t.product) == PositionOf(e, t.product) + t.quantity
    ensures r.Ok? ==> forall p :: p != t.product ==>
      PositionOf(r.value, p) == PositionOf(e, p) && CostBasis(r.value, p) == CostBasis(e, p)
  {
    var p, q := t.product, t.quantity;
    var pos := PositionOf(e, p);
    if pos == 0.0 && q < 0.0 then
      Ok(Engine(e.vwap[p := None], e.position[p := 0.0 - Abs(q)]))
    else if q > 0.0 then
      if pos == 0.0 then
        Ok(Engine(e.vwap[p := Some(t.price)], e.position[p := q]))
      else if CostBasis(e, p).None? then
        Err(NoCostBasis(p))
      else if pos + q == 0.0 then
        Err(ZeroPosition(p))
      else
        var totalValue := TotalValue(CostBasis(e, p).value, pos, t.price, q);
        Ok(Engine(e.vwap[p := Some(Average(totalValue, pos + q))], e.position[p := pos + q]))
    else if q < 0.0 then
      Ok(Engine(e.vwap, e.position[p := pos - Abs(q)]))
    else
      Ok(Engine(e.vwap, e.position[p := pos]))
  }

  /**
   * Runs the rows of `txs` in order from the state `e`, stopping at the first
   * failure; on success one snapshot per row, each the VWAP of that row's
   * product after the row.
   */
  function RunFrom(e: Engine, txs: seq<Tx>): (r: Result<Trace, Failure>)
    ensures r.Ok? ==> |r.value.snapshots| == |txs|
    decreases |txs|
  {
    if txs == [] then Ok(Trace(e, []))
    else
      var t := txs[|txs| - 1];
      match RunFrom(e, txs[..|txs| - 1])
      case Err(f) => Err(f)
      case Ok(tr) =>
        match Step(tr.engine, t)
        case Err(f) => Err(f)
        case Ok(e') => Ok(Trace(e', tr.snapshots + [CostBasis(e', t.product)]))
  }

  /** The whole loop of `calculate_vwap`, from empty dictionaries: on success one snapshot per row. */
  function Run(txs: seq<Tx>): (r: Result<Trace, Failure>)
    ensures r.Ok? ==> |r.value.snapshots| == |txs|
  {
    RunFrom(Initial, txs)
  }

  /** A run adds a position entry for every product it sees, and a failure names one of them. */
  lemma {:induction false} RunFromKeys(e: Engine, txs: seq<Tx>)
    ensures RunFrom(e, txs).Ok? ==> RunFrom(e, txs).value.engine.position.Keys == e.position.Keys + Products(txs)
    ensures RunFrom(e, txs).Err? ==> RunFrom(e, txs).error.product in Products(txs)
    decreases |txs|
  {
    if txs != [] {
      RunFromKeys(e, txs[..|txs| - 1]);
      ProductsOfSnoc(txs);
    }
  }

  /** The products that occur in `txs`. */
  function Products(txs: seq<Tx>): set<string> {
    set t | t in txs :: t.product
  }

  /** The products of a non-empty sequence: those of all but its last row, and the last row's. */
  lemma ProductsOfSnoc(txs: seq<Tx>)
    requires txs != []
    ensures Products(txs) == Products(txs[..|txs| - 1]) + {txs[|txs| - 1].product}
  {
    var init := txs[..|txs| - 1];
    assert txs == init + [txs[|txs| - 1]];
    forall p | p in Products(txs) ensures p in Products(init) + {txs[|txs| - 1].product} {
      var t :| t in txs && t.product == p;
      if t != txs[|txs| - 1] {
        assert t in init;
      }
    }
  }

  /**
   * The last snapshot of product `p` that is not `None`, or `None` when there
   * is none: what pandas' `groupby(...).last()` yields, since it skips nulls.
   */
  function LastDefined(txs: seq<Tx>, snaps: seq<Option<real>>, p: string): (r: Option<real>)
    requires |snaps| == |txs|
    ensures r.Some? ==> r in snaps
    decreases |txs|
  {
    if txs == [] then None
    else if txs[|txs| - 1].product == p && snaps[|txs| - 1].Some? then snaps[|txs| - 1]
    else LastDefined(txs[..|txs| - 1], snaps[..|snaps| - 1], p)
  }

  /** One entry per product of `txs`: its last defined snapshot. */
  function LastPerProduct(txs: seq<Tx>, snaps: seq<Option<real>>): (r: map<string, Option<real>>)
    requires |snaps| == |txs|
    ensures r.Keys == Products(txs)
  {
    map p | p in Products(txs) :: LastDefined(txs, snaps, p)
  }

  /**
   * What `calculate_vwap` returns for rows already sorted by datetime: the
   * loop's error when it raises, otherwise one entry per product of the input.
   */
  function VwapPerProduct(txs: seq<Tx>): (r: Result<map<string, Option<real>>, Failure>)
    ensures r.Err? <==> Run(txs).Err?
    ensures r.Err? ==> r.error == Run(txs).error
    ensures r.Ok? ==> r.value.Keys == Products(txs)
  {
    match Run(txs)
    case Err(f) => Err(f)
    case Ok(tr) => Ok(LastPerProduct(txs, tr.snapshots))
  }

  /** Once a prefix fails, the whole run fails with the same error. */
  lemma {:induction false} RunErrorPersists(e: Engine, txs: seq<Tx>, i: nat)
    requires i <= |txs|
    requires RunFrom(e, txs[..i]).Err?
    ensures RunFrom(e, txs) == RunFrom(e, txs[..i])
    decreases |txs| - i
  {
    if i == |txs| {
      assert txs[..i] == txs;
    } else {
      var n := |txs|;
      assert txs[..n][..n - 1] == txs[..n - 1];
      assert txs[..n - 1][..i] == txs[..i];
      RunErrorPersists(e, txs[..n - 1], i);
      assert txs[..n] == txs;
    }
  }

  /**
   * One iteration of the loop of `calculate_vwap` on the two dictionaries:
   * it updates them as `Step` says, or reports the failure where the source
   * raises.
   */
  method ProcessRow(vwapPerProduct: map<string, Option<real>>, positionPerProduct: map<string, real>, t: Tx)
    returns (newVwap: map<string, Option<real>>, newPosition: map<string, real>, failure: Option<Failure>)
    ensures Step(Engine(vwapPerProduct, positionPerProduct), t)
      == if failure.Some? then Err(failure.value) else Ok(Engine(newVwap, newPosition))
  {
    var product, quantity, price := t.product, t.quantity, t.price;
    ghost var before := Engine(vwapPerProduct, positionPerProduct);
    ghost var pos := PositionOf(before, product);
    newVwap, newPosition, failure := vwapPerProduct, positionPerProduct, None;
    if product !in newPosition {
      newPosition := newPosition[product := 0.0];
    }
    if newPosition[product] == 0.0 && quantity < 0.0 {
      newVwap := newVwap[product := None];
      newPosition := newPosition[product := 0.0];
      assert newPosition[product := 0.0 - Abs(quantity)] == positionPerProduct[product := 0.0 - Abs(quantity)];
      assert Step(before, t) == Ok(Engine(newVwap, newPosition[product := 0.0 - Abs(quantity)]));
    } else if quantity > 0.0 {
      if newPosition[product] == 0.0 {
        newVwap := newVwap[product := Some(price)];
        newPosition := newPosition[product := quantity];
        assert newPosition == positionPerProduct[product := quantity];
        assert Step(before, t) == Ok(Engine(newVwap, newPosition));
      } else {
        if product !in newVwap || newVwap[product].None? {
          return newVwap, newPosition, Some(NoCostBasis(product));
        }
        var totalValue := TotalValue(newVwap[product].value, newPosition[product], price, quantity);
        newPosition := newPosition[product := newPosition[product] + quantity];
        if newPosition[product] == 0.0 {
          return newVwap, newPosition, Some(ZeroPosition(product));
        }
        newVwap := newVwap[product := Some(Average(totalValue, newPosition[product]))];
        assert newPosition == positionPerProduct[product := pos + quantity];
        assert Step(before, t) == Ok(Engine(newVwap, newPosition));
      }
    } else if quantity == 0.0 {
      assert newPosition == positionPerProduct[product := pos];
      assert Step(before, t) == Ok(Engine(newVwap, newPosition));
    } else {
      assert Step(before, t) == Ok(Engine(newVwap, newPosition[product := newPosition[product] - Abs(quantity)]));
    }
    if quantity < 0.0 {
      newPosition := newPosition[product := newPosition[product] - Abs(quantity)];
    }
  }

  /**
   * The loop of `calculate_vwap`: it updates the two dictionaries row by row
   * and appends one snapshot per row, then keeps the last defined snapshot
   * per product. It returns what the specification `VwapPerProduct` says.
   */
  method CalculateVwap(txs: seq<Tx>) returns (r: Result<map<string, Option<real>>, Failure>)
    ensures r == VwapPerProduct(txs)
  {
    var vwapPerProduct: map<string, Option<real>> := map[];
    var positionPerProduct: map<string, real> := map[];
    var vwapResults: seq<Option<real>> := [];
    for i := 0 to |txs|
      invariant RunFrom(Initial, txs[..i]) == Ok(Trace(Engine(vwapPerProduct, positionPerProduct), vwapResults))
    {
      assert txs[..i + 1][..i] == txs[..i];
      var failure;
      vwapPerProduct, positionPerProduct, failure := ProcessRow(vwapPerProduct, positionPerProduct, txs[i]);
      if failure.Some? {
        RunErrorPersists(Initial, txs, i + 1);
        return Err(failure.value);
      }
      var product := txs[i].product;
      vwapResults := vwapResults + [if product in vwapPerProduct then vwapPerProduct[product] else None];
    }
    assert txs[..|txs|] == txs;
    r := Ok(LastPerProduct(txs, vwapResults));
  }
}
