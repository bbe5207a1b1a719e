/** The collector's accounting: which orders it has seen, set aside or ignored, and the aggregates
    it keeps per series family, over passes and across restarts. */
module Collector {
  import opened Json
  import opened EntryCapture

  // ------------------------------------------------------------- sums over dictionaries

  ghost function Sum<V>(m: map<string, V>, f: V -> real): real
    decreases |m|
  {
    if m == map[] then 0.0
    else
      var k :| k in m;
      f(m[k]) + Sum(m - {k}, f)
  }

  lemma {:induction false} SumRemove<V>(m: map<string, V>, f: V -> real, k: string)
    requires k in m
    ensures Sum(m, f) == f(m[k]) + Sum(m - {k}, f)
    decreases |m|
  {
    var first :| first in m && Sum(m, f) == f(m[first]) + Sum(m - {first}, f);
    if first != k {
      SumRemove(m - {first}, f, k);
      SumRemove(m - {k}, f, first);
      assert m - {first} - {k} == m - {k} - {first};
    }
  }

  lemma SumUpdate<V>(m: map<string, V>, f: V -> real, k: string, v: V)
    ensures Sum(m[k := v], f) == Sum(m, f) + f(v) - if k in m then f(m[k]) else 0.0
  {
    SumRemove(m[k := v], f, k);
    assert m[k := v] - {k} == m - {k};
    if k in m {
      SumRemove(m, f, k);
    } else {
      assert m - {k} == m;
    }
  }

  // ------------------------------------------------------------- the aggregates

  datatype Cell = Cell(orders: nat, quotes: nat, stale: nat, after: nat, none: nat, oneSided: nat,
                       freshSpread: real, freshPaidVsAsk: real, freshPaidVsMid: real)

  const EMPTY_CELL := Cell(0, 0, 0, 0, 0, 0, 0.0, 0.0, 0.0)

  datatype Game = Game(paidVsAsk: real, quotes: nat)

  datatype Aggregates = Aggregates(seen: set<string>, cells: map<string, Cell>, games: map<string, map<string, Game>>)

  const NOTHING_SEEN := Aggregates({}, map[], map[])

  /** An entry quote carries its numbers. */
  predicate Complete(row: EntryRow) {
    row.status == ENTRY_FRESH ==> row.spread.Some? && row.paidVsAsk.Some? && row.paidVsMid.Some?
  }

  function CellOf(a: Aggregates, family: string): Cell {
    if family in a.cells then a.cells[family] else EMPTY_CELL
  }

  function GamesOf(a: Aggregates, family: string): map<string, Game> {
    if family in a.games then a.games[family] else map[]
  }

  function Counted(c: Cell, row: EntryRow): Cell
    requires Complete(row)
  {
    var d := c.(orders := c.orders + 1);
    match row.status
    case ENTRY_FRESH => d.(quotes := d.quotes + 1, freshSpread := d.freshSpread + row.spread.value,
                           freshPaidVsAsk := d.freshPaidVsAsk + row.paidVsAsk.value,
                           freshPaidVsMid := d.freshPaidVsMid + row.paidVsMid.value)
    case STALE_NOT_ENTRY => d.(stale := d.stale + 1)
    case SNAPSHOT_AFTER_ORDER => d.(after := d.after + 1)
    case NO_SNAPSHOT => d.(none := d.none + 1)
    case ONE_SIDED => d.(oneSided := d.oneSided + 1)
  }

  function AddGame(games: map<string, Game>, game: string, paid: real): map<string, Game> {
    var g := if game in games then games[game] else Game(0.0, 0);
    games[game := Game(g.paidVsAsk + paid, g.quotes + 1)]
  }

  /** One order's row, unless the order was seen before. */
  function AddRow(a: Aggregates, order: string, family: string, game: string, row: EntryRow): Aggregates
    requires Complete(row)
  {
    if order in a.seen then a
    else Aggregates(
      a.seen + {order},
      a.cells[family := Counted(CellOf(a, family), row)],
      if row.status == ENTRY_FRESH then a.games[family := AddGame(GamesOf(a, family), game, row.paidVsAsk.value)] else a.games)
  }

  class Aggregator {
    var seen: set<string>
    var cells: map<string, Cell>
    var games: map<string, map<string, Game>>

    constructor (a: Aggregates)
      ensures View() == a
    {
      seen, cells, games := a.seen, a.cells, a.games;
    }

    function View(): Aggregates
      reads this
    {
      Aggregates(seen, cells, games)
    }

    method Add(order: string, family: string, game: string, row: EntryRow)
      requires Complete(row)
      modifies this
      ensures View() == AddRow(old(View()), order, family, game, row)
    {
      if order in seen {
        return;
      }
      seen := seen + {order};
      var c := if family in cells then cells[family] else EMPTY_CELL;
      c := c.(orders := c.orders + 1);
      match row.status {
        case ENTRY_FRESH =>
          c := c.(quotes := c.quotes + 1, freshSpread := c.freshSpread + row.spread.value,
                  freshPaidVsAsk := c.freshPaidVsAsk + row.paidVsAsk.value, freshPaidVsMid := c.freshPaidVsMid + row.paidVsMid.value);
          var byGame := if family in games then games[family] else map[];
          var g := if game in byGame then byGame[game] else Game(0.0, 0);
          games := games[family := byGame[game := Game(g.paidVsAsk + row.paidVsAsk.value, g.quotes + 1)]];
        case STALE_NOT_ENTRY => c := c.(stale := c.stale + 1);
        case SNAPSHOT_AFTER_ORDER => c := c.(after := c.after + 1);
        case NO_SNAPSHOT => c := c.(none := c.none + 1);
        case ONE_SIDED => c := c.(oneSided := c.oneSided + 1);
      }
      cells := cells[family := c];
    }
  }

  // ------------------------------------------------------------- what the aggregates always say

  ghost predicate FamilyBalances(a: Aggregates, family: string) {
    var c := CellOf(a, family);
    && c.quotes + c.stale + c.after + c.none + c.oneSided == c.orders
    && Sum(GamesOf(a, family), (g: Game) => g.quotes as real) == c.quotes as real
    && Sum(GamesOf(a, family), (g: Game) => g.paidVsAsk) == c.freshPaidVsAsk
  }

  /** Per family the statuses sum to the orders, the games count the entry quotes and sum to what
      was paid against the ask; and all cells together count every seen order once. */
  ghost predicate Balanced(a: Aggregates) {
    && (forall family :: FamilyBalances(a, family))
    && Sum(a.cells, (c: Cell) => c.orders as real) == |a.seen| as real
  }

  lemma GameSums(games: map<string, Game>, game: string, paid: real)
    ensures Sum(AddGame(games, game, paid), (g: Game) => g.quotes as real) == Sum(games, (g: Game) => g.quotes as real) + 1.0
    ensures Sum(AddGame(games, game, paid), (g: Game) => g.paidVsAsk) == Sum(games, (g: Game) => g.paidVsAsk) + paid
  {
    var g := if game in games then games[game] else Game(0.0, 0);
    var more := Game(g.paidVsAsk + paid, g.quotes + 1);
    SumUpdate(games, (g: Game) => g.quotes as real, game, more);
    SumUpdate(games, (g: Game) => g.paidVsAsk, game, more);
  }

  lemma FamilyKeepsBalance(a: Aggregates, order: string, family: string, game: string, row: EntryRow, f: string)
    requires FamilyBalances(a, f) && Complete(row)
    ensures FamilyBalances(AddRow(a, order, family, game, row), f)
  {
    if f == family && order !in a.seen && row.status == ENTRY_FRESH {
      GameSums(GamesOf(a, family), game, row.paidVsAsk.value);
    }
  }

  lemma AddKeepsBalance(a: Aggregates, order: string, family: string, game: string, row: EntryRow)
    requires Balanced(a) && Complete(row)
    ensures Balanced(AddRow(a, order, family, game, row))
  {
    var a' := AddRow(a, order, family, game, row);
    forall f ensures FamilyBalances(a', f) {
      FamilyKeepsBalance(a, order, family, game, row, f);
    }
    if order !in a.seen {
      SumUpdate(a.cells, (c: Cell) => c.orders as real, family, CellOf(a', family));
      assert |a'.seen| == |a.seen| + 1;
    }
  }

  // ------------------------------------------------------------- orders

  datatype Fill = Fill(orderId: string, ticker: string, side: string, isBuy: bool, count: Option<real>, price: Option<real>)

  datatype RawOrder = RawOrder(orderId: Option<string>, ticker: Option<string>, placedAt: Option<real>)

  /** One-way digests of an order and of a game, and the series family of a ticker. */
  datatype Names = Names(order: string -> string, game: string -> string, family: string -> string)

  datatype Tallies = Tallies(historical: nat, mixed: nat, nonBuy: nat, orderErrors: nat)

  datatype Books = Books(agg: Aggregates, historical: set<string>, ignored: set<string>, tallies: Tallies)

  function FillsOf(fills: seq<Fill>, orderId: string): seq<Fill> {
    if fills == [] then []
    else FillsOf(fills[..|fills| - 1], orderId) +
         if orderId != "" && fills[|fills| - 1].orderId == orderId then [fills[|fills| - 1]] else []
  }

  function Quantity(fills: seq<Fill>): real {
    if fills == [] then 0.0
    else Quantity(fills[..|fills| - 1]) + if fills[|fills| - 1].count.Some? then fills[|fills| - 1].count.value else 0.0
  }

  predicate Priced(fills: seq<Fill>) {
    forall i | 0 <= i < |fills| :: fills[i].price.Some? && fills[i].count.Some?
  }

  function Paid(fills: seq<Fill>): real
    requires Priced(fills)
  {
    if fills == [] then 0.0
    else Paid(fills[..|fills| - 1]) + Amount(fills[|fills| - 1])
  }

  function Amount(f: Fill): real
    requires f.price.Some? && f.count.Some?
  {
    f.price.value * f.count.value
  }

  predicate Mixed(fills: seq<Fill>, ticker: string) {
    exists i | 0 <= i < |fills| :: fills[i].ticker != ticker || fills[i].side != fills[0].side
  }

  predicate SomeNotBought(fills: seq<Fill>) {
    exists i | 0 <= i < |fills| :: !fills[i].isBuy
  }

  predicate Known(b: Books, order: string) {
    order in b.agg.seen || order in b.historical || order in b.ignored
  }

  /** One order of a pass: passed over, set aside as historical, ignored, left for the next pass, or
      joined and counted. */
  function Process(n: Names, rings: map<string, seq<Snap>>, startedAt: real, fills: seq<Fill>, b: Books,
                   o: RawOrder): Books {
    if o.orderId.None? || o.ticker.None? || o.placedAt.None? then b
    else
      var order, ticker, placed := n.order(o.orderId.value), o.ticker.value, o.placedAt.value;
      var fl := FillsOf(fills, o.orderId.value);
      if Known(b, order) || fl == [] then b
      else if placed < startedAt then
        b.(historical := b.historical + {order}, tallies := b.tallies.(historical := b.tallies.historical + 1))
      else if Mixed(fl, ticker) then
        b.(ignored := b.ignored + {order}, tallies := b.tallies.(mixed := b.tallies.mixed + 1))
      else if SomeNotBought(fl) then
        b.(ignored := b.ignored + {order}, tallies := b.tallies.(nonBuy := b.tallies.nonBuy + 1))
      else if Quantity(fl) <= 0.0 || !Priced(fl) then b
      else
        var row := Join(Queue(rings, ticker), fl[0].side == "yes", placed, Paid(fl) / Quantity(fl), Quantity(fl));
        b.(agg := AddRow(b.agg, order, n.family(ticker), n.game(ticker), row))
  }

  function ProcessAll(n: Names, rings: map<string, seq<Snap>>, startedAt: real, fills: seq<Fill>, b: Books,
                      orders: seq<RawOrder>): Books {
    if orders == [] then b
    else Process(n, rings, startedAt, fills, ProcessAll(n, rings, startedAt, fills, b, orders[..|orders| - 1]), orders[|orders| - 1])
  }

  /** A pass whose orders could not be read. */
  function FailedOnce(b: Books): Books {
    b.(tallies := b.tallies.(orderErrors := b.tallies.orderErrors + 1))
  }

  // ------------------------------------------------------------- what becomes of one order

  /** The i-th of all fills is one of this order's. */
  ghost predicate Own(fills: seq<Fill>, id: string, i: int) {
    0 <= i < |fills| && id != "" && fills[i].orderId == id
  }

  /** The contracts this order's fills state, and what those came to. */
  ghost function Contracts(fills: seq<Fill>, id: string): real {
    if fills == [] then 0.0
    else (if Own(fills, id, 0) && fills[0].count.Some? then fills[0].count.value else 0.0) + Contracts(fills[1..], id)
  }

  ghost function Cost(fills: seq<Fill>, id: string): real {
    if fills == [] then 0.0
    else (if Own(fills, id, 0) && fills[0].count.Some? && fills[0].price.Some?
          then fills[0].count.value * fills[0].price.value else 0.0) + Cost(fills[1..], id)
  }

  ghost predicate HasFills(fills: seq<Fill>, id: string) {
    exists i :: Own(fills, id, i)
  }

  ghost predicate OtherTicker(fills: seq<Fill>, id: string, ticker: string) {
    exists i :: Own(fills, id, i) && fills[i].ticker != ticker
  }

  ghost predicate TwoSides(fills: seq<Fill>, id: string) {
    exists i, j :: Own(fills, id, i) && Own(fills, id, j) && fills[i].side != fills[j].side
  }

  ghost predicate Sold(fills: seq<Fill>, id: string) {
    exists i :: Own(fills, id, i) && !fills[i].isBuy
  }

  /** One of them states no count, or no price. */
  ghost predicate Unstated(fills: seq<Fill>, id: string) {
    exists i :: Own(fills, id, i) && (fills[i].count.None? || fills[i].price.None?)
  }

  datatype Fate = PASSED_OVER | HISTORICAL | MIXED | NOT_BOUGHT | LEFT_FOR_LATER | COUNTED

  /** What becomes of an order in a pass, in terms of all the fills the exchange reported. */
  ghost function FateOf(n: Names, startedAt: real, fills: seq<Fill>, b: Books, o: RawOrder): Fate {
    if o.orderId.None? || o.ticker.None? || o.placedAt.None? then PASSED_OVER
    else
      var id := o.orderId.value;
      if n.order(id) in b.agg.seen + b.historical + b.ignored || !HasFills(fills, id) then PASSED_OVER
      else if o.placedAt.value < startedAt then HISTORICAL
      else if OtherTicker(fills, id, o.ticker.value) || TwoSides(fills, id) then MIXED
      else if Sold(fills, id) then NOT_BOUGHT
      else if Unstated(fills, id) || Contracts(fills, id) <= 0.0 then LEFT_FOR_LATER
      else COUNTED
  }

  /** Bought YES rather than NO. */
  ghost predicate BoughtYes(fills: seq<Fill>, id: string) {
    exists i :: Own(fills, id, i) && fills[i].side == "yes"
  }

  lemma {:induction false} FillsOfAre(fills: seq<Fill>, id: string)
    ensures forall f :: f in FillsOf(fills, id) <==> exists i :: Own(fills, id, i) && fills[i] == f
  {
    if fills != [] {
      var n := |fills| - 1;
      FillsOfAre(fills[..n], id);
      assert forall i | 0 <= i < n :: Own(fills[..n], id, i) <==> Own(fills, id, i);
      forall f ensures f in FillsOf(fills, id) <==> exists i :: Own(fills, id, i) && fills[i] == f {
        if f in FillsOf(fills[..n], id) {
          var i :| Own(fills[..n], id, i) && fills[..n][i] == f;
          assert Own(fills, id, i) && fills[i] == f;
        }
        if i :| Own(fills, id, i) && fills[i] == f {
          if i < n { assert Own(fills[..n], id, i) && fills[..n][i] == f; }
        }
      }
    }
  }

  lemma {:induction false} ContractsNext(fills: seq<Fill>, f: Fill, id: string)
    ensures Contracts(fills + [f], id) == Contracts(fills, id) + Contracts([f], id)
    ensures Cost(fills + [f], id) == Cost(fills, id) + Cost([f], id)
  {
    if fills == [] {
      assert [] + [f] == [f];
    } else {
      ContractsNext(fills[1..], f, id);
      assert (fills + [f])[1..] == fills[1..] + [f];
    }
  }

  lemma FillsOfNext(fills: seq<Fill>, f: Fill, id: string)
    ensures FillsOf(fills + [f], id) == FillsOf(fills, id) + if id != "" && f.orderId == id then [f] else []
  {
    assert (fills + [f])[..|fills|] == fills;
  }

  lemma OneFill(f: Fill, id: string)
    ensures Contracts([f], id) == if id != "" && f.orderId == id && f.count.Some? then f.count.value else 0.0
    ensures Cost([f], id) == if id != "" && f.orderId == id && f.count.Some? && f.price.Some? then Amount(f) else 0.0
  {
    assert [f][1..] == [];
  }

  lemma QuantityNext(earlier: seq<Fill>, f: Fill)
    ensures Quantity(earlier + [f]) == Quantity(earlier) + if f.count.Some? then f.count.value else 0.0
  {
    assert (earlier + [f])[..|earlier|] == earlier;
  }

  lemma PaidNext(earlier: seq<Fill>, f: Fill)
    ensures Priced(earlier + [f]) <==> Priced(earlier) && f.price.Some? && f.count.Some?
    ensures Priced(earlier + [f]) ==> Paid(earlier + [f]) == Paid(earlier) + Amount(f)
  {
    var more := earlier + [f];
    assert more[..|earlier|] == earlier && more[|earlier|] == f;
    assert forall i | 0 <= i < |earlier| :: more[i] == earlier[i];
  }

  /** Gathering an order's fills first and adding up afterwards loses nothing. */
  lemma {:induction false} GatheredTotals(fills: seq<Fill>, id: string)
    ensures Quantity(FillsOf(fills, id)) == Contracts(fills, id)
    ensures Priced(FillsOf(fills, id)) ==> Paid(FillsOf(fills, id)) == Cost(fills, id)
  {
    if fills != [] {
      var n := |fills| - 1;
      assert fills == fills[..n] + [fills[n]];
      GatheredTotals(fills[..n], id);
      GatheredStep(fills[..n], fills[n], id);
    }
  }

  lemma GatheredStep(fills: seq<Fill>, f: Fill, id: string)
    requires Quantity(FillsOf(fills, id)) == Contracts(fills, id)
    requires Priced(FillsOf(fills, id)) ==> Paid(FillsOf(fills, id)) == Cost(fills, id)
    ensures Quantity(FillsOf(fills + [f], id)) == Contracts(fills + [f], id)
    ensures Priced(FillsOf(fills + [f], id)) ==> Paid(FillsOf(fills + [f], id)) == Cost(fills + [f], id)
  {
    FillsOfNext(fills, f, id);
    ContractsNext(fills, f, id);
    OneFill(f, id);
    if id != "" && f.orderId == id {
      QuantityNext(FillsOf(fills, id), f);
      PaidNext(FillsOf(fills, id), f);
    } else {
      assert FillsOf(fills + [f], id) == FillsOf(fills, id);
    }
  }

  lemma NoneOwn(fills: seq<Fill>, id: string)
    ensures FillsOf(fills, id) == [] <==> !HasFills(fills, id)
  {
    FillsOfAre(fills, id);
    var fl := FillsOf(fills, id);
    assert fl != [] ==> fl[0] in fl;
    assert forall i :: Own(fills, id, i) ==> fills[i] in fl;
  }

  lemma MixedIs(fills: seq<Fill>, id: string, ticker: string)
    requires FillsOf(fills, id) != []
    ensures Mixed(FillsOf(fills, id), ticker) <==> OtherTicker(fills, id, ticker) || TwoSides(fills, id)
  {
    FillsOfAre(fills, id);
    var fl := FillsOf(fills, id);
    assert fl[0] in fl;
    var first :| Own(fills, id, first) && fills[first] == fl[0];
    if Mixed(fl, ticker) {
      var k :| 0 <= k < |fl| && (fl[k].ticker != ticker || fl[k].side != fl[0].side);
      assert fl[k] in fl;
      var i :| Own(fills, id, i) && fills[i] == fl[k];
    }
    if OtherTicker(fills, id, ticker) {
      var i :| Own(fills, id, i) && fills[i].ticker != ticker;
      var k := GatheredAt(fills, id, i);
    }
    if TwoSides(fills, id) {
      var i, j :| Own(fills, id, i) && Own(fills, id, j) && fills[i].side != fills[j].side;
      var k := GatheredAt(fills, id, i);
      var l := GatheredAt(fills, id, j);
      assert fl[k].side != fl[0].side || fl[l].side != fl[0].side;
    }
  }

  lemma GatheredAt(fills: seq<Fill>, id: string, i: int) returns (k: int)
    requires Own(fills, id, i)
    ensures 0 <= k < |FillsOf(fills, id)| && FillsOf(fills, id)[k] == fills[i]
  {
    FillsOfAre(fills, id);
    var fl := FillsOf(fills, id);
    assert fills[i] in fl;
    k :| 0 <= k < |fl| && fl[k] == fills[i];
  }

  lemma GatheredFrom(fills: seq<Fill>, id: string, k: int) returns (i: int)
    requires 0 <= k < |FillsOf(fills, id)|
    ensures Own(fills, id, i) && fills[i] == FillsOf(fills, id)[k]
  {
    FillsOfAre(fills, id);
    var fl := FillsOf(fills, id);
    assert fl[k] in fl;
    i :| Own(fills, id, i) && fills[i] == fl[k];
  }

  lemma NotBoughtIs(fills: seq<Fill>, id: string)
    ensures SomeNotBought(FillsOf(fills, id)) <==> Sold(fills, id)
  {
    var fl := FillsOf(fills, id);
    if SomeNotBought(fl) {
      var k :| 0 <= k < |fl| && !fl[k].isBuy;
      var i := GatheredFrom(fills, id, k);
    }
    if i :| Own(fills, id, i) && !fills[i].isBuy {
      var k := GatheredAt(fills, id, i);
    }
  }

  lemma PricedIs(fills: seq<Fill>, id: string)
    ensures !Priced(FillsOf(fills, id)) <==> Unstated(fills, id)
  {
    var fl := FillsOf(fills, id);
    if !Priced(fl) {
      var k :| 0 <= k < |fl| && (fl[k].count.None? || fl[k].price.None?);
      var i := GatheredFrom(fills, id, k);
    }
    if i :| Own(fills, id, i) && (fills[i].count.None? || fills[i].price.None?) {
      var k := GatheredAt(fills, id, i);
    }
  }

  lemma FateIs(n: Names, startedAt: real, fills: seq<Fill>, b: Books, o: RawOrder)
    requires o.orderId.Some? && o.ticker.Some? && o.placedAt.Some?
    ensures var fl := FillsOf(fills, o.orderId.value);
      FateOf(n, startedAt, fills, b, o) ==
      if Known(b, n.order(o.orderId.value)) || fl == [] then PASSED_OVER
      else if o.placedAt.value < startedAt then HISTORICAL
      else if Mixed(fl, o.ticker.value) then MIXED
      else if SomeNotBought(fl) then NOT_BOUGHT
      else if !Priced(fl) || Quantity(fl) <= 0.0 then LEFT_FOR_LATER
      else COUNTED
  {
    var id := o.orderId.value;
    NoneOwn(fills, id);
    if FillsOf(fills, id) != [] {
      MixedIs(fills, id, o.ticker.value);
      NotBoughtIs(fills, id);
      PricedIs(fills, id);
      GatheredTotals(fills, id);
    }
  }

  /** So many contracts at this price come to this cost. */
  ghost predicate Comes(price: real, contracts: real, cost: real) {
    price * contracts == cost
  }

  /** The row of a counted order: the quote of its ticker on the side it bought, at the
      contract-weighted price of its own fills. */
  ghost predicate OwnRow(rings: map<string, seq<Snap>>, fills: seq<Fill>, o: RawOrder, row: EntryRow) {
    && o.orderId.Some? && o.ticker.Some? && o.placedAt.Some?
    && exists price :: Comes(price, Contracts(fills, o.orderId.value), Cost(fills, o.orderId.value))
         && row == Join(Queue(rings, o.ticker.value), BoughtYes(fills, o.orderId.value), o.placedAt.value, price,
                        Contracts(fills, o.orderId.value))
  }

  /** What a pass records of one order, exactly. */
  lemma ProcessIs(n: Names, rings: map<string, seq<Snap>>, startedAt: real, fills: seq<Fill>, b: Books, o: RawOrder)
    ensures var b' := Process(n, rings, startedAt, fills, b, o);
      match FateOf(n, startedAt, fills, b, o)
      case PASSED_OVER => b' == b
      case LEFT_FOR_LATER => b' == b
      case HISTORICAL =>
        b' == b.(historical := b.historical + {n.order(o.orderId.value)},
                 tallies := b.tallies.(historical := b.tallies.historical + 1))
      case MIXED =>
        b' == b.(ignored := b.ignored + {n.order(o.orderId.value)}, tallies := b.tallies.(mixed := b.tallies.mixed + 1))
      case NOT_BOUGHT =>
        b' == b.(ignored := b.ignored + {n.order(o.orderId.value)}, tallies := b.tallies.(nonBuy := b.tallies.nonBuy + 1))
      case COUNTED =>
        n.order(o.orderId.value) !in b.agg.seen &&
        exists row :: OwnRow(rings, fills, o, row) && Complete(row) &&
          b' == b.(agg := AddRow(b.agg, n.order(o.orderId.value), n.family(o.ticker.value), n.game(o.ticker.value), row))
  {
    if o.orderId.Some? && o.ticker.Some? && o.placedAt.Some? {
      FateIs(n, startedAt, fills, b, o);
      if FateOf(n, startedAt, fills, b, o) == COUNTED {
        var row := CountedRow(rings, fills, o);
      }
    }
  }

  lemma CountedRow(rings: map<string, seq<Snap>>, fills: seq<Fill>, o: RawOrder) returns (row: EntryRow)
    requires o.orderId.Some? && o.ticker.Some? && o.placedAt.Some?
    requires var fl := FillsOf(fills, o.orderId.value); fl != [] && !Mixed(fl, o.ticker.value) && Priced(fl) && Quantity(fl) > 0.0
    ensures OwnRow(rings, fills, o, row) && Complete(row)
    ensures var fl := FillsOf(fills, o.orderId.value);
            row == Join(Queue(rings, o.ticker.value), fl[0].side == "yes", o.placedAt.value, Paid(fl) / Quantity(fl), Quantity(fl))
  {
    var id := o.orderId.value;
    var fl := FillsOf(fills, id);
    MixedIs(fills, id, o.ticker.value);
    SideIs(fills, id);
    GatheredTotals(fills, id);
    var price := PriceIs(Quantity(fl), Paid(fl));
    row := Join(Queue(rings, o.ticker.value), BoughtYes(fills, id), o.placedAt.value, price, Contracts(fills, id));
  }

  lemma SideIs(fills: seq<Fill>, id: string)
    requires FillsOf(fills, id) != [] && !TwoSides(fills, id)
    ensures BoughtYes(fills, id) <==> FillsOf(fills, id)[0].side == "yes"
  {
    var i := GatheredFrom(fills, id, 0);
  }

  lemma PriceIs(quantity: real, cost: real) returns (price: real)
    requires quantity > 0.0
    ensures price == cost / quantity && Comes(price, quantity, cost)
  {
    price := cost / quantity;
  }

  // ------------------------------------------------------------- the aggregates against a log

  /** One counted order. */
  datatype Entry = Entry(order: string, family: string, game: string, row: EntryRow)

  datatype Measure = Orders | Of(status: Status) | Spread | PaidVsAsk | PaidVsMid

  /** What one row adds to a measure; only entry quotes add to the sums. */
  ghost function Worth(row: EntryRow, m: Measure): real {
    match m
    case Orders => 1.0
    case Of(status) => if row.status == status then 1.0 else 0.0
    case Spread => if row.status == ENTRY_FRESH && row.spread.Some? then row.spread.value else 0.0
    case PaidVsAsk => if row.status == ENTRY_FRESH && row.paidVsAsk.Some? then row.paidVsAsk.value else 0.0
    case PaidVsMid => if row.status == ENTRY_FRESH && row.paidVsMid.Some? then row.paidVsMid.value else 0.0
  }

  ghost function Total(log: seq<Entry>, family: string, m: Measure): real {
    if log == [] then 0.0
    else Total(log[..|log| - 1], family, m) + if log[|log| - 1].family == family then Worth(log[|log| - 1].row, m) else 0.0
  }

  ghost function GameTotal(log: seq<Entry>, family: string, game: string, m: Measure): real {
    if log == [] then 0.0
    else GameTotal(log[..|log| - 1], family, game, m) +
         if log[|log| - 1].family == family && log[|log| - 1].game == game then Worth(log[|log| - 1].row, m) else 0.0
  }

  function GameOf(a: Aggregates, family: string, game: string): Game {
    if game in GamesOf(a, family) then GamesOf(a, family)[game] else Game(0.0, 0)
  }

  ghost predicate Logged(log: seq<Entry>, order: string) {
    exists i :: 0 <= i < |log| && log[i].order == order
  }

  ghost predicate CellTells(c: Cell, log: seq<Entry>, family: string) {
    && c.orders as real == Total(log, family, Orders)
    && c.quotes as real == Total(log, family, Of(ENTRY_FRESH))
    && c.stale as real == Total(log, family, Of(STALE_NOT_ENTRY))
    && c.after as real == Total(log, family, Of(SNAPSHOT_AFTER_ORDER))
    && c.none as real == Total(log, family, Of(NO_SNAPSHOT))
    && c.oneSided as real == Total(log, family, Of(ONE_SIDED))
    && c.freshSpread == Total(log, family, Spread)
    && c.freshPaidVsAsk == Total(log, family, PaidVsAsk)
    && c.freshPaidVsMid == Total(log, family, PaidVsMid)
  }

  ghost predicate GameTells(g: Game, log: seq<Entry>, family: string, game: string) {
    && g.quotes as real == GameTotal(log, family, game, Of(ENTRY_FRESH))
    && g.paidVsAsk == GameTotal(log, family, game, PaidVsAsk)
  }

  /** The aggregates are what these counted orders add up to, no order twice. */
  ghost predicate Tells(a: Aggregates, log: seq<Entry>) {
    && (forall order :: order in a.seen <==> Logged(log, order))
    && (forall i, j | 0 <= i < j < |log| :: log[i].order != log[j].order)
    && (forall family :: CellTells(CellOf(a, family), log, family))
    && (forall family, game :: GameTells(GameOf(a, family, game), log, family, game))
  }

  lemma AddTellsOrders(a: Aggregates, log: seq<Entry>, e: Entry)
    requires Tells(a, log) && Complete(e.row) && e.order !in a.seen
    ensures forall order :: order in AddRow(a, e.order, e.family, e.game, e.row).seen <==> Logged(log + [e], order)
    ensures forall i, j | 0 <= i < j < |log| + 1 :: (log + [e])[i].order != (log + [e])[j].order
  {
    var more := log + [e];
    assert more[|log|] == e;
    assert forall i | 0 <= i < |log| :: more[i] == log[i] && Logged(log, more[i].order);
    forall order ensures order in a.seen + {e.order} <==> Logged(more, order) {
      if Logged(log, order) {
        var i :| 0 <= i < |log| && log[i].order == order;
        assert more[i].order == order;
      }
    }
  }

  lemma TotalNext(log: seq<Entry>, e: Entry, family: string, game: string, m: Measure)
    ensures Total(log + [e], family, m) == Total(log, family, m) + if e.family == family then Worth(e.row, m) else 0.0
    ensures GameTotal(log + [e], family, game, m) ==
            GameTotal(log, family, game, m) + if e.family == family && e.game == game then Worth(e.row, m) else 0.0
  {
    assert (log + [e])[..|log|] == log;
  }

  /** What one more row adds to every measure of its own cell. */
  lemma CountedTells(c: Cell, log: seq<Entry>, e: Entry)
    requires CellTells(c, log, e.family) && Complete(e.row)
    ensures CellTells(Counted(c, e.row), log + [e], e.family)
  {
    TotalNext(log, e, e.family, e.game, Orders);
    TotalNext(log, e, e.family, e.game, Of(ENTRY_FRESH));
    TotalNext(log, e, e.family, e.game, Of(STALE_NOT_ENTRY));
    TotalNext(log, e, e.family, e.game, Of(SNAPSHOT_AFTER_ORDER));
    TotalNext(log, e, e.family, e.game, Of(NO_SNAPSHOT));
    TotalNext(log, e, e.family, e.game, Of(ONE_SIDED));
    TotalNext(log, e, e.family, e.game, Spread);
    TotalNext(log, e, e.family, e.game, PaidVsAsk);
    TotalNext(log, e, e.family, e.game, PaidVsMid);
  }

  lemma OtherCellTells(c: Cell, log: seq<Entry>, e: Entry, family: string)
    requires CellTells(c, log, family) && e.family != family
    ensures CellTells(c, log + [e], family)
  {
    forall m: Measure ensures Total(log + [e], family, m) == Total(log, family, m) {
      TotalNext(log, e, family, e.game, m);
    }
  }

  lemma AddTellsCell(a: Aggregates, log: seq<Entry>, e: Entry, family: string)
    requires CellTells(CellOf(a, family), log, family) && Complete(e.row) && e.order !in a.seen
    ensures CellTells(CellOf(AddRow(a, e.order, e.family, e.game, e.row), family), log + [e], family)
  {
    if family == e.family {
      assert CellOf(AddRow(a, e.order, e.family, e.game, e.row), family) == Counted(CellOf(a, family), e.row);
      CountedTells(CellOf(a, family), log, e);
    } else {
      OtherCellTells(CellOf(a, family), log, e, family);
    }
  }

  lemma GameNext(a: Aggregates, e: Entry, family: string, game: string)
    requires Complete(e.row) && e.order !in a.seen
    ensures GameOf(AddRow(a, e.order, e.family, e.game, e.row), family, game) ==
            var g := GameOf(a, family, game);
            if e.row.status == ENTRY_FRESH && family == e.family && game == e.game
            then Game(g.paidVsAsk + e.row.paidVsAsk.value, g.quotes + 1) else g
  {
    var a' := AddRow(a, e.order, e.family, e.game, e.row);
    if e.row.status == ENTRY_FRESH && family == e.family {
      assert GamesOf(a', family) == AddGame(GamesOf(a, family), e.game, e.row.paidVsAsk.value);
    } else {
      assert GamesOf(a', family) == GamesOf(a, family);
    }
  }

  lemma AddTellsGame(a: Aggregates, log: seq<Entry>, e: Entry, family: string, game: string)
    requires GameTells(GameOf(a, family, game), log, family, game) && Complete(e.row) && e.order !in a.seen
    ensures GameTells(GameOf(AddRow(a, e.order, e.family, e.game, e.row), family, game), log + [e], family, game)
  {
    GameNext(a, e, family, game);
    TotalNext(log, e, family, game, Of(ENTRY_FRESH));
    TotalNext(log, e, family, game, PaidVsAsk);
  }

  lemma AddTells(a: Aggregates, log: seq<Entry>, e: Entry)
    requires Tells(a, log) && Complete(e.row) && e.order !in a.seen
    ensures Tells(AddRow(a, e.order, e.family, e.game, e.row), log + [e])
  {
    var (a', more) := (AddRow(a, e.order, e.family, e.game, e.row), log + [e]);
    AddTellsOrders(a, log, e);
    forall family ensures CellTells(CellOf(a', family), more, family) {
      AddTellsCell(a, log, e, family);
    }
    forall family, game ensures GameTells(GameOf(a', family, game), more, family, game) {
      AddTellsGame(a, log, e, family, game);
    }
  }

  /** One order adds its own row to the log, exactly when it is counted. */
  lemma ProcessTells(n: Names, rings: map<string, seq<Snap>>, startedAt: real, fills: seq<Fill>, b: Books, o: RawOrder,
                     log: seq<Entry>) returns (more: seq<Entry>)
    requires Tells(b.agg, log)
    ensures Tells(Process(n, rings, startedAt, fills, b, o).agg, more)
    ensures FateOf(n, startedAt, fills, b, o) != COUNTED ==> more == log
    ensures FateOf(n, startedAt, fills, b, o) == COUNTED ==>
      exists row :: OwnRow(rings, fills, o, row) &&
        more == log + [Entry(n.order(o.orderId.value), n.family(o.ticker.value), n.game(o.ticker.value), row)]
  {
    ProcessIs(n, rings, startedAt, fills, b, o);
    if FateOf(n, startedAt, fills, b, o) == COUNTED {
      var order, family, game := n.order(o.orderId.value), n.family(o.ticker.value), n.game(o.ticker.value);
      var row :| OwnRow(rings, fills, o, row) && Complete(row)
                 && Process(n, rings, startedAt, fills, b, o) == b.(agg := AddRow(b.agg, order, family, game, row));
      AddTells(b.agg, log, Entry(order, family, game, row));
      more := log + [Entry(order, family, game, row)];
    } else {
      more := log;
    }
  }

  // ------------------------------------------------------------- saving and restarting

  const METRICS_VERSION := "purchased_leg_v2"

  datatype Legacy = Legacy(orders: nat, freshEntryQuotes: real)

  datatype Saved = Saved(books: Books, metricsVersion: string, legacy: Option<Legacy>)

  /** What a restarted collector starts from. Aggregates of an older version are set aside whole:
      their orders are ignored from now on, and never counted again. */
  function Restored(saved: Option<Saved>): Books {
    match saved
    case None => Books(NOTHING_SEEN, {}, {}, Tallies(0, 0, 0, 0))
    case Some(st) =>
      if st.metricsVersion == METRICS_VERSION then st.books
      else st.books.(agg := NOTHING_SEEN, ignored := st.books.ignored + st.books.agg.seen)
  }

  class Collector {
    const names: Names
    const ring: Ring
    const startedAt: real
    const agg: Aggregator
    var historical: set<string>
    var ignored: set<string>
    var tallies: Tallies

    constructor (names: Names, saved: Option<Saved>, now: real)
      ensures View() == Restored(saved) && startedAt == now && this.names == names
      ensures fresh(agg) && fresh(ring) && ring.byTicker == map[] && ring.horizon == 1800.0
    {
      var b := Restored(saved);
      this.names, this.startedAt := names, now;
      this.agg := new Aggregator(b.agg);
      this.ring := new Ring(HORIZON_SECONDS);
      this.historical, this.ignored, this.tallies := b.historical, b.ignored, b.tallies;
    }

    function View(): Books
      reads this, agg
    {
      Books(agg.View(), historical, ignored, tallies)
    }

    /** One round of sampling: per watched series its rows, or nothing if it could not be read. The
        ring then holds, per ticker, the kept part of everything that ever arrived. */
    method SampleMarkets(answers: seq<Option<seq<Quote>>>, ghost earlier: seq<Quote>) returns (sampled: nat, errors: nat)
      requires HoldsHistory(ring.byTicker, ring.horizon, earlier)
      modifies ring
      ensures HoldsHistory(ring.byTicker, ring.horizon, earlier + Arrived(answers))
      ensures sampled == |Arrived(answers)| && errors == Unread(answers)
    {
      sampled, errors := 0, 0;
      ghost var seen := earlier;
      assert answers[..0] == [];
      for i := 0 to |answers|
        invariant seen == earlier + Arrived(answers[..i]) && HoldsHistory(ring.byTicker, ring.horizon, seen)
        invariant |earlier| + sampled == |seen| && errors == Unread(answers[..i])
      {
        ArrivedNext(earlier, answers, i);
        if answers[i].None? {
          errors := errors + 1;
        } else {
          var n := SampleSeries(answers[i].value, seen);
          sampled := sampled + n;
          seen := seen + WithTicker(answers[i].value);
        }
      }
      assert answers[..|answers|] == answers;
    }

    method SampleSeries(rows: seq<Quote>, ghost earlier: seq<Quote>) returns (sampled: nat)
      requires HoldsHistory(ring.byTicker, ring.horizon, earlier)
      modifies ring
      ensures HoldsHistory(ring.byTicker, ring.horizon, earlier + WithTicker(rows))
      ensures sampled == |WithTicker(rows)|
    {
      sampled := 0;
      ghost var seen := earlier;
      assert rows[..0] == [];
      for i := 0 to |rows|
        invariant seen == earlier + WithTicker(rows[..i]) && HoldsHistory(ring.byTicker, ring.horizon, seen)
        invariant |earlier| + sampled == |seen|
      {
        WithTickerNext(earlier, rows, i);
        if rows[i].ticker.Some? {
          HistoryNext(ring.byTicker, ring.horizon, seen, rows[i]);
          ring.Add(rows[i].ticker.value, rows[i].snap);
          sampled := sampled + 1;
          seen := seen + [rows[i]];
        }
      }
      assert rows[..|rows|] == rows;
    }

    /** One order, step by step. */
    method ProcessOne(o: RawOrder, fills: seq<Fill>)
      modifies this, agg
      ensures View() == Process(names, ring.byTicker, startedAt, fills, old(View()), o)
    {
      if o.orderId.None? || o.ticker.None? || o.placedAt.None? {
        return;
      }
      var order, ticker, placed := names.order(o.orderId.value), o.ticker.value, o.placedAt.value;
      if order in agg.seen || order in historical || order in ignored {
        return;
      }
      var fl := FillsOf(fills, o.orderId.value);
      if fl == [] {
        return;
      }
      if placed < startedAt {
        historical := historical + {order};
        tallies := tallies.(historical := tallies.historical + 1);
        return;
      }
      if exists i | 0 <= i < |fl| :: fl[i].ticker != ticker || fl[i].side != fl[0].side {
        ignored := ignored + {order};
        tallies := tallies.(mixed := tallies.mixed + 1);
        return;
      }
      if exists i | 0 <= i < |fl| :: !fl[i].isBuy {
        ignored := ignored + {order};
        tallies := tallies.(nonBuy := tallies.nonBuy + 1);
        return;
      }
      var qty := Quantity(fl);
      if qty <= 0.0 || !Priced(fl) {
        return;
      }
      var row := Join(Queue(ring.byTicker, ticker), fl[0].side == "yes", placed, Paid(fl) / qty, qty);
      agg.Add(order, names.family(ticker), names.game(ticker), row);
    }

    /** One pass over the account's recent orders; `None` when the exchange could not be read. */
    method ProcessOrders(answer: Option<(seq<RawOrder>, seq<Fill>)>)
      modifies this, agg
      ensures View() == match answer
        case None => FailedOnce(old(View()))
        case Some(a) => ProcessAll(names, ring.byTicker, startedAt, a.1, old(View()), a.0)
    {
      if answer.None? {
        tallies := tallies.(orderErrors := tallies.orderErrors + 1);
        return;
      }
      var (orders, fills) := answer.value;
      assert orders[..0] == [];
      for i := 0 to |orders|
        invariant View() == ProcessAll(names, ring.byTicker, startedAt, fills, old(View()), orders[..i])
      {
        assert orders[..i + 1][..i] == orders[..i];
        ProcessOne(orders[i], fills);
      }
      assert orders[..|orders|] == orders;
    }

    /** What is written to disk: a collector restarted from it has these very books. */
    method State(legacy: Option<Legacy>) returns (saved: Saved)
      ensures saved == Saved(View(), METRICS_VERSION, legacy) && Restored(Some(saved)) == View()
    {
      saved := Saved(Books(agg.View(), historical, ignored, tallies), METRICS_VERSION, legacy);
    }
  }

  // ------------------------------------------------------------- over all passes and restarts

  ghost predicate Sound(b: Books) {
    && Balanced(b.agg)
    && b.agg.seen !! b.historical && b.agg.seen !! b.ignored && b.historical !! b.ignored
  }

  /** Nothing is ever forgotten. */
  ghost predicate Grew(b: Books, b': Books) {
    b.agg.seen <= b'.agg.seen && b.historical <= b'.historical && b.ignored <= b'.ignored
  }

  datatype Event =
    | Pass(rings: map<string, seq<Snap>>, startedAt: real, fills: seq<Fill>, orders: seq<RawOrder>)
    | FailedPass
    | Save(legacy: Option<Legacy>)
    | Restart

  /** A collector at work, and what is on disk: the passes since then are lost with the process. */
  datatype Session = Session(books: Books, saved: Option<Saved>)

  function Step(n: Names, s: Session, e: Event): Session {
    match e
    case Pass(rings, startedAt, fills, orders) => s.(books := ProcessAll(n, rings, startedAt, fills, s.books, orders))
    case FailedPass => s.(books := FailedOnce(s.books))
    case Save(legacy) => s.(saved := Some(Saved(s.books, METRICS_VERSION, legacy)))
    case Restart => s.(books := Restored(s.saved))
  }

  function Run(n: Names, s: Session, es: seq<Event>): Session {
    if es == [] then s else Step(n, Run(n, s, es[..|es| - 1]), es[|es| - 1])
  }

  /** The books are sound, the saved ones too, and the collector knows at least what a restart
      would give back. */
  ghost predicate SoundSession(s: Session) {
    && Sound(s.books)
    && (s.saved.Some? ==> Sound(s.saved.value.books))
    && Grew(Restored(s.saved), s.books)
  }

  lemma JoinKeepsSound(b: Books, order: string, family: string, game: string, row: EntryRow)
    requires Sound(b) && !Known(b, order) && Complete(row)
    ensures var b' := b.(agg := AddRow(b.agg, order, family, game, row)); Sound(b') && Grew(b, b')
  {
    AddKeepsBalance(b.agg, order, family, game, row);
  }

  /** The books after one order differ in one place at most. */
  lemma ProcessShape(n: Names, rings: map<string, seq<Snap>>, startedAt: real, fills: seq<Fill>, b: Books, o: RawOrder)
    ensures var b' := Process(n, rings, startedAt, fills, b, o);
      || b' == b
      || (o.orderId.Some? && !Known(b, n.order(o.orderId.value)) &&
          var order := n.order(o.orderId.value);
          || (b' == b.(historical := b.historical + {order}, tallies := b'.tallies))
          || (b' == b.(ignored := b.ignored + {order}, tallies := b'.tallies))
          || (exists family, game, row :: Complete(row) && b' == b.(agg := AddRow(b.agg, order, family, game, row))))
  {
    if o.orderId.Some? && o.ticker.Some? && o.placedAt.Some? {
      var fl := FillsOf(fills, o.orderId.value);
      if fl != [] && Priced(fl) && Quantity(fl) > 0.0 {
        var row := Join(Queue(rings, o.ticker.value), fl[0].side == "yes", o.placedAt.value, Paid(fl) / Quantity(fl), Quantity(fl));
        assert Complete(row);
      }
    }
  }

  lemma ProcessKeepsSound(n: Names, rings: map<string, seq<Snap>>, startedAt: real, fills: seq<Fill>, b: Books,
                          o: RawOrder)
    requires Sound(b)
    ensures Sound(Process(n, rings, startedAt, fills, b, o)) && Grew(b, Process(n, rings, startedAt, fills, b, o))
  {
    var b' := Process(n, rings, startedAt, fills, b, o);
    ProcessShape(n, rings, startedAt, fills, b, o);
    if b'.agg != b.agg {
      var order := n.order(o.orderId.value);
      var family, game, row :| Complete(row) && b' == b.(agg := AddRow(b.agg, order, family, game, row));
      JoinKeepsSound(b, order, family, game, row);
    }
  }

  lemma {:induction false} PassKeepsSound(n: Names, rings: map<string, seq<Snap>>, startedAt: real, fills: seq<Fill>,
                                b: Books, orders: seq<RawOrder>)
    requires Sound(b)
    ensures Sound(ProcessAll(n, rings, startedAt, fills, b, orders)) && Grew(b, ProcessAll(n, rings, startedAt, fills, b, orders))
  {
    if orders != [] {
      PassKeepsSound(n, rings, startedAt, fills, b, orders[..|orders| - 1]);
      ProcessKeepsSound(n, rings, startedAt, fills, ProcessAll(n, rings, startedAt, fills, b, orders[..|orders| - 1]), orders[|orders| - 1]);
    }
  }

  /** A collector started from nothing, or from a sound state of any version, starts sound; and
      what an older version had counted is ignored for good. */
  lemma RestoredIsSound(saved: Option<Saved>)
    requires saved.Some? ==> Sound(saved.value.books)
    ensures Sound(Restored(saved))
    ensures saved.Some? && saved.value.metricsVersion != METRICS_VERSION ==>
              Restored(saved).agg == NOTHING_SEEN && saved.value.books.agg.seen <= Restored(saved).ignored
  {
    assert forall family :: FamilyBalances(NOTHING_SEEN, family);
  }

  /** What a start gives back: nothing without a file; everything from a file of this version; and
      from any other what was set aside, with every order it had counted ignored. */
  lemma RestoredIs(saved: Option<Saved>)
    ensures saved.None? ==> Restored(saved) == Books(Aggregates({}, map[], map[]), {}, {}, Tallies(0, 0, 0, 0))
    ensures saved.Some? && saved.value.metricsVersion == "purchased_leg_v2" ==> Restored(saved) == saved.value.books
    ensures saved.Some? && saved.value.metricsVersion != "purchased_leg_v2" ==>
      var b := saved.value.books;
      Restored(saved) == Books(Aggregates({}, map[], map[]), b.historical, b.ignored + b.agg.seen, b.tallies)
  {
  }

  lemma StepKeepsSession(n: Names, s: Session, e: Event)
    requires SoundSession(s)
    ensures SoundSession(Step(n, s, e)) && Grew(Restored(s.saved), Restored(Step(n, s, e).saved))
  {
    RestoredIsSound(s.saved);
    match e
    case Pass(rings, startedAt, fills, orders) => PassKeepsSound(n, rings, startedAt, fills, s.books, orders);
    case _ =>
  }

  /** Over any passes, failed passes, saves, and restarts from the last save whatever was lost since:
      the three sets stay disjoint, the aggregates balance and count each seen order once, and what
      was ever saved is never forgotten. */
  lemma {:induction false} RunKeepsSound(n: Names, s: Session, es: seq<Event>)
    requires SoundSession(s)
    ensures SoundSession(Run(n, s, es))
    ensures Grew(Restored(s.saved), Run(n, s, es).books) && Grew(Restored(s.saved), Restored(Run(n, s, es).saved))
  {
    if es != [] {
      RunKeepsSound(n, s, es[..|es| - 1]);
      StepKeepsSession(n, Run(n, s, es[..|es| - 1]), es[|es| - 1]);
    }
  }

  lemma {:induction false} PassTells(n: Names, rings: map<string, seq<Snap>>, startedAt: real, fills: seq<Fill>,
                                     b: Books, orders: seq<RawOrder>, log: seq<Entry>) returns (more: seq<Entry>)
    requires Tells(b.agg, log)
    ensures Tells(ProcessAll(n, rings, startedAt, fills, b, orders).agg, more) && log <= more
  {
    if orders == [] {
      more := log;
    } else {
      var earlier := PassTells(n, rings, startedAt, fills, b, orders[..|orders| - 1], log);
      more := ProcessTells(n, rings, startedAt, fills, ProcessAll(n, rings, startedAt, fills, b, orders[..|orders| - 1]),
                           orders[|orders| - 1], earlier);
    }
  }

  ghost predicate Told(b: Books) {
    exists log :: Tells(b.agg, log)
  }

  /** Over any passes, saves and restarts the aggregates stay the sums over some list of distinct
      orders; those of an older version start over from none. */
  lemma {:induction false} RunStaysTold(n: Names, s: Session, es: seq<Event>)
    requires Told(s.books) && (s.saved.Some? ==> Told(s.saved.value.books))
    ensures Told(Run(n, s, es).books) && (Run(n, s, es).saved.Some? ==> Told(Run(n, s, es).saved.value.books))
  {
    if es != [] {
      var before, e := Run(n, s, es[..|es| - 1]), es[|es| - 1];
      RunStaysTold(n, s, es[..|es| - 1]);
      assert Tells(NOTHING_SEEN, []);
      if e.Pass? {
        var log :| Tells(before.books.agg, log);
        var more := PassTells(n, e.rings, e.startedAt, e.fills, before.books, e.orders, log);
      }
    }
  }

  /** Without a restart nothing known is forgotten, saved or not. */
  lemma {:induction false} UnbrokenRunGrows(n: Names, s: Session, es: seq<Event>)
    requires SoundSession(s) && forall i | 0 <= i < |es| :: !es[i].Restart?
    ensures Grew(s.books, Run(n, s, es).books)
  {
    if es != [] {
      var before := es[..|es| - 1];
      assert forall i | 0 <= i < |before| :: before[i] == es[i];
      UnbrokenRunGrows(n, s, before);
      RunKeepsSound(n, s, before);
      var e := es[|es| - 1];
      if e.Pass? {
        PassKeepsSound(n, e.rings, e.startedAt, e.fills, Run(n, s, before).books, e.orders);
      }
    }
  }

  /** An order is counted at most once: one that was counted, set aside or ignored is passed over by
      every later pass, whatever its fills look like by then, if it was saved before the last
      restart or there was none. */
  lemma CountedOnce(n: Names, s: Session, es: seq<Event>, rings: map<string, seq<Snap>>, startedAt: real,
                    fills: seq<Fill>, o: RawOrder)
    requires SoundSession(s) && o.orderId.Some?
    requires Known(if exists i | 0 <= i < |es| :: es[i].Restart? then Restored(s.saved) else s.books, n.order(o.orderId.value))
    ensures Process(n, rings, startedAt, fills, Run(n, s, es).books, o) == Run(n, s, es).books
  {
    RunKeepsSound(n, s, es);
    if forall i | 0 <= i < |es| :: !es[i].Restart? {
      UnbrokenRunGrows(n, s, es);
    }
  }
}
