/** Prospective entry quotes: a time-bounded ring of snapshots per ticker, the rule that joins an
    order to the book at its placement, and the aggregates that survive. Time is in seconds. */
module EntryCapture {
  import opened Json

  const FRESH_SECONDS := 45.0
  const HORIZON_SECONDS := 1800.0

  datatype Status = ENTRY_FRESH | STALE_NOT_ENTRY | SNAPSHOT_AFTER_ORDER | NO_SNAPSHOT | ONE_SIDED

  datatype Snap = Snap(observedAt: real, yesBid: Option<real>, yesAsk: Option<real>,
                       yesBidSize: Option<real>, yesAskSize: Option<real>)

  // ------------------------------------------------------------- the ring

  /** Drops from the front what is older than the horizon before `now`. */
  function Prune(q: seq<Snap>, now: real, horizon: real): seq<Snap> {
    if q != [] && now - q[0].observedAt > horizon then Prune(q[1..], now, horizon) else q
  }

  function Queue(rings: map<string, seq<Snap>>, ticker: string): seq<Snap> {
    if ticker in rings then rings[ticker] else []
  }

  /** The last snapshot in the queue observed at or before `t`. */
  function Latest(q: seq<Snap>, t: real): Option<Snap> {
    if q == [] then None
    else if q[|q| - 1].observedAt <= t then Some(q[|q| - 1])
    else Latest(q[..|q| - 1], t)
  }

  predicate AnyAfter(q: seq<Snap>, t: real) {
    exists i | 0 <= i < |q| :: q[i].observedAt > t
  }

  function Miss(q: seq<Snap>, t: real): Status {
    if AnyAfter(q, t) then SNAPSHOT_AFTER_ORDER else NO_SNAPSHOT
  }

  class Ring {
    const horizon: real
    var byTicker: map<string, seq<Snap>>

    constructor (horizon: real)
      ensures this.horizon == horizon && byTicker == map[]
    {
      this.horizon, this.byTicker := horizon, map[];
    }

    method Add(ticker: string, snap: Snap)
      modifies this
      ensures byTicker == old(byTicker)[ticker := Prune(Queue(old(byTicker), ticker) + [snap], snap.observedAt, horizon)]
    {
      var q := Queue(byTicker, ticker) + [snap];
      ghost var whole := q;
      while q != [] && snap.observedAt - q[0].observedAt > horizon
        invariant Prune(q, snap.observedAt, horizon) == Prune(whole, snap.observedAt, horizon)
        decreases |q|
      {
        q := q[1..];
      }
      byTicker := byTicker[ticker := q];
    }

    method LatestAtOrBefore(ticker: string, t: real) returns (best: Option<Snap>, why: Status)
      ensures best == Latest(Queue(byTicker, ticker), t)
      ensures best.None? ==> why == Miss(Queue(byTicker, ticker), t)
    {
      var q := Queue(byTicker, ticker);
      var sawAfter := false;
      best := None;
      for i := 0 to |q|
        invariant best == Latest(q[..i], t) && (sawAfter <==> AnyAfter(q[..i], t))
      {
        assert q[..i + 1][..i] == q[..i] && q[..i + 1][i] == q[i];
        assert forall j | 0 <= j < i :: q[..i + 1][j] == q[..i][j];
        assert q[i].observedAt > t ==> AnyAfter(q[..i + 1], t);
        if q[i].observedAt <= t {
          best := Some(q[i]);
        } else {
          sawAfter := true;
        }
      }
      assert q[..|q|] == q;
      why := if sawAfter then SNAPSHOT_AFTER_ORDER else NO_SNAPSHOT;
    }
  }

  // ------------------------------------------------------------- the ring against the full history

  ghost predicate Ordered(history: seq<Snap>) {
    forall i, j | 0 <= i < j < |history| :: history[i].observedAt <= history[j].observedAt
  }

  /** The queue a ring holds after these snapshots of one ticker arrived one by one. */
  function Kept(history: seq<Snap>, horizon: real): seq<Snap> {
    if history == [] then []
    else Prune(Kept(history[..|history| - 1], horizon) + [history[|history| - 1]], history[|history| - 1].observedAt, horizon)
  }

  lemma KeptNext(history: seq<Snap>, snap: Snap, horizon: real)
    ensures Kept(history + [snap], horizon) == Prune(Kept(history, horizon) + [snap], snap.observedAt, horizon)
  {
    assert (history + [snap])[..|history|] == history;
  }

  /** A market row: its ticker, if it has one that is text, and its book as observed. */
  datatype Quote = Quote(ticker: Option<string>, snap: Snap)

  /** What one series' rows add to the history. */
  function WithTicker(rows: seq<Quote>): seq<Quote> {
    if rows == [] then []
    else WithTicker(rows[..|rows| - 1]) + if rows[|rows| - 1].ticker.Some? then [rows[|rows| - 1]] else []
  }

  /** What one round of sampling adds, series by series; one that could not be read adds nothing. */
  function Arrived(answers: seq<Option<seq<Quote>>>): seq<Quote> {
    if answers == [] then []
    else Arrived(answers[..|answers| - 1]) +
         if answers[|answers| - 1].Some? then WithTicker(answers[|answers| - 1].value) else []
  }

  function Unread(answers: seq<Option<seq<Quote>>>): nat {
    if answers == [] then 0 else Unread(answers[..|answers| - 1]) + if answers[|answers| - 1].None? then 1 else 0
  }

  /** The snapshots of one ticker, in the order they arrived. */
  function HistoryOf(arrived: seq<Quote>, ticker: string): seq<Snap> {
    if arrived == [] then []
    else HistoryOf(arrived[..|arrived| - 1], ticker) +
         if arrived[|arrived| - 1].ticker == Some(ticker) then [arrived[|arrived| - 1].snap] else []
  }

  /** Every ticker's queue is the kept part of that ticker's own history. */
  ghost predicate HoldsHistory(rings: map<string, seq<Snap>>, horizon: real, arrived: seq<Quote>) {
    forall ticker :: Queue(rings, ticker) == Kept(HistoryOf(arrived, ticker), horizon)
  }

  lemma HistoryNext(rings: map<string, seq<Snap>>, horizon: real, arrived: seq<Quote>, q: Quote)
    requires HoldsHistory(rings, horizon, arrived) && q.ticker.Some?
    ensures var queue := Prune(Queue(rings, q.ticker.value) + [q.snap], q.snap.observedAt, horizon);
            HoldsHistory(rings[q.ticker.value := queue], horizon, arrived + [q])
  {
    var more, ticker := arrived + [q], q.ticker.value;
    var rings' := rings[ticker := Prune(Queue(rings, ticker) + [q.snap], q.snap.observedAt, horizon)];
    assert more[..|arrived|] == arrived;
    KeptNext(HistoryOf(arrived, ticker), q.snap, horizon);
    forall t ensures Queue(rings', t) == Kept(HistoryOf(more, t), horizon) {
      if t == ticker {
        assert HistoryOf(more, t) == HistoryOf(arrived, t) + [q.snap];
      } else {
        assert HistoryOf(more, t) == HistoryOf(arrived, t);
        assert Queue(rings', t) == Queue(rings, t);
      }
    }
  }

  lemma WithTickerNext(earlier: seq<Quote>, rows: seq<Quote>, i: nat)
    requires i < |rows|
    ensures rows[i].ticker.Some? ==> earlier + WithTicker(rows[..i + 1]) == earlier + WithTicker(rows[..i]) + [rows[i]]
    ensures rows[i].ticker.None? ==> earlier + WithTicker(rows[..i + 1]) == earlier + WithTicker(rows[..i])
  {
    assert rows[..i + 1][..i] == rows[..i];
  }

  lemma ArrivedNext(earlier: seq<Quote>, answers: seq<Option<seq<Quote>>>, i: nat)
    requires i < |answers|
    ensures answers[i].Some? ==>
              earlier + Arrived(answers[..i + 1]) == earlier + Arrived(answers[..i]) + WithTicker(answers[i].value)
    ensures answers[i].None? ==> earlier + Arrived(answers[..i + 1]) == earlier + Arrived(answers[..i])
    ensures Unread(answers[..i + 1]) == Unread(answers[..i]) + if answers[i].None? then 1 else 0
  {
    assert answers[..i + 1][..i] == answers[..i];
  }

  /** `q` is what is left of `history` from index `k` on, and everything before `k` is older than
      the horizon. */
  ghost predicate Tail(history: seq<Snap>, horizon: real, q: seq<Snap>, k: nat) {
    && k <= |history| && q == history[k..]
    && (history != [] ==> forall i | 0 <= i < k :: history[|history| - 1].observedAt - history[i].observedAt > horizon)
    && (forall i | k <= i < |history| :: history[|history| - 1].observedAt - history[i].observedAt <= horizon)
  }

  lemma {:induction false} PruneIsTail(history: seq<Snap>, horizon: real, k: nat) returns (k': nat)
    requires Ordered(history) && k < |history| && horizon >= 0.0
    requires forall i | 0 <= i < k :: history[|history| - 1].observedAt - history[i].observedAt > horizon
    ensures Tail(history, horizon, Prune(history[k..], history[|history| - 1].observedAt, horizon), k')
    decreases |history| - k
  {
    if history[|history| - 1].observedAt - history[k].observedAt > horizon {
      assert history[k..][1..] == history[k + 1..];
      k' := PruneIsTail(history, horizon, k + 1);
    } else {
      k' := k;
    }
  }

  /** Whatever arrives in order, the ring is exactly the history's last `horizon` seconds. */
  lemma {:induction false} KeptIsTail(history: seq<Snap>, horizon: real) returns (k: nat)
    requires Ordered(history) && horizon >= 0.0
    ensures Tail(history, horizon, Kept(history, horizon), k)
  {
    if history == [] {
      k := 0;
    } else {
      var n := |history| - 1;
      var earlier := KeptIsTail(history[..n], horizon);
      assert history[..n][earlier..] + [history[n]] == history[earlier..];
      forall i | 0 <= i < earlier ensures history[n].observedAt - history[i].observedAt > horizon {
        assert history[..n][i] == history[i] && history[..n][n - 1] == history[n - 1];
      }
      k := PruneIsTail(history, horizon, earlier);
    }
  }

  lemma {:induction false} LatestIs(q: seq<Snap>, t: real)
    ensures match Latest(q, t)
      case None => forall i | 0 <= i < |q| :: q[i].observedAt > t
      case Some(s) => exists i :: 0 <= i < |q| && q[i] == s && s.observedAt <= t && forall j | i < j < |q| :: q[j].observedAt > t
  {
    if q != [] && q[|q| - 1].observedAt > t {
      var n := |q| - 1;
      LatestIs(q[..n], t);
      if Latest(q[..n], t).Some? {
        var s := Latest(q[..n], t).value;
        var i :| 0 <= i < n && q[..n][i] == s && s.observedAt <= t && forall j | i < j < n :: q[..n][j].observedAt > t;
        assert q[i] == s && forall j | i < j < |q| :: (if j < n then q[..n][j] else q[j]).observedAt > t;
      } else {
        assert forall i | 0 <= i < |q| :: (if i < n then q[..n][i] else q[i]).observedAt > t;
      }
    }
  }

  lemma LatestOfSuffix(history: seq<Snap>, t: real, k: nat, i: nat)
    requires k <= |history| && i < |history| && history[i].observedAt <= t
    requires forall j | i < j < |history| :: history[j].observedAt > t
    ensures Latest(history, t) == Some(history[i])
    ensures Latest(history[k..], t) == if i >= k then Some(history[i]) else None
  {
    LatestIs(history, t);
    LatestIs(history[k..], t);
    var q := history[k..];
    assert forall j | 0 <= j < |q| :: q[j] == history[k + j];
    if i >= k {
      assert q[i - k] == history[i];
    }
  }

  /** The ring's answer, exactly: the full history's answer when that is within the horizon of the
      newest snapshot, and none otherwise. */
  lemma RingAnswers(history: seq<Snap>, horizon: real, t: real)
    requires Ordered(history) && horizon >= 0.0
    ensures Latest(Kept(history, horizon), t) ==
      match Latest(history, t)
      case None => None
      case Some(s) => if history[|history| - 1].observedAt - s.observedAt <= horizon then Some(s) else None
  {
    var k := KeptIsTail(history, horizon);
    LatestIs(history, t);
    if Latest(history, t).Some? {
      var s := Latest(history, t).value;
      var i :| 0 <= i < |history| && history[i] == s && s.observedAt <= t && forall j | i < j < |history| :: history[j].observedAt > t;
      LatestOfSuffix(history, t, k, i);
    } else {
      LatestIs(Kept(history, horizon), t);
      assert forall j | 0 <= j < |history| - k :: history[k..][j] == history[k + j];
    }
  }

  // ------------------------------------------------------------- joining an order

  datatype EntryRow = EntryRow(status: Status, age: Option<real>, spread: Option<real>, paidVsAsk: Option<real>,
                               paidVsMid: Option<real>, askSize: Option<real>, qty: Option<real>)

  function Bare(status: Status, age: Option<real>): EntryRow {
    EntryRow(status, age, None, None, None, None, None)
  }

  predicate TwoSided(snap: Snap) {
    snap.yesBid.Some? && snap.yesAsk.Some? && 0.0 < snap.yesBid.value < 1.0 && 0.0 < snap.yesAsk.value < 1.0
    && snap.yesBid.value <= snap.yesAsk.value
  }

  /** One order against the queue of its ticker. */
  function Join(q: seq<Snap>, isYes: bool, placedAt: real, vwap: real, qty: real): EntryRow {
    match Latest(q, placedAt)
    case None => Bare(Miss(q, placedAt), None)
    case Some(snap) =>
      var age := placedAt - snap.observedAt;
      if !TwoSided(snap) then Bare(ONE_SIDED, Some(age))
      else
        var bid := if isYes then snap.yesBid.value else 1.0 - snap.yesAsk.value;
        var ask := if isYes then snap.yesAsk.value else 1.0 - snap.yesBid.value;
        EntryRow(if age <= FRESH_SECONDS then ENTRY_FRESH else STALE_NOT_ENTRY, Some(age),
                 Some((ask - bid) * 100.0), Some((vwap - ask) * 100.0), Some((vwap - (bid + ask) / 2.0) * 100.0),
                 if isYes then snap.yesAskSize else snap.yesBidSize, Some(qty))
  }

  /** The book the order met: the last one observed no later than it was placed. */
  ghost predicate Met(q: seq<Snap>, placedAt: real, i: int) {
    0 <= i < |q| && q[i].observedAt <= placedAt && forall j | i < j < |q| :: q[j].observedAt > placedAt
  }

  /** The book had both sides, inside the price range and not crossed. */
  ghost predicate Quoted(snap: Snap, bid: real, ask: real) {
    snap.yesBid == Some(bid) && snap.yesAsk == Some(ask) && 0.0 < bid <= ask < 1.0
  }

  lemma TwoSidedIff(snap: Snap)
    ensures TwoSided(snap) <==> exists bid, ask :: Quoted(snap, bid, ask)
  {
    if TwoSided(snap) { assert Quoted(snap, snap.yesBid.value, snap.yesAsk.value); }
  }

  lemma LatestIff(q: seq<Snap>, t: real)
    ensures Latest(q, t).Some? <==> exists i :: Met(q, t, i)
  {
    LatestIs(q, t);
    if Latest(q, t).Some? {
      var i :| 0 <= i < |q| && q[i] == Latest(q, t).value && q[i].observedAt <= t && forall j | i < j < |q| :: q[j].observedAt > t;
      assert Met(q, t, i);
    }
  }

  ghost function Freshness(age: real): Status {
    if age <= 45.0 then ENTRY_FRESH else STALE_NOT_ENTRY
  }

  /** An order that met no book: either none was ever observed, or all of them later. */
  lemma JoinMisses(q: seq<Snap>, isYes: bool, placedAt: real, vwap: real, qty: real)
    requires forall i :: !Met(q, placedAt, i)
    ensures Join(q, isYes, placedAt, vwap, qty) ==
            EntryRow(if q == [] then NO_SNAPSHOT else SNAPSHOT_AFTER_ORDER, None, None, None, None, None, None)
  {
    LatestIff(q, placedAt);
    LatestIs(q, placedAt);
    assert AnyAfter(q, placedAt) <==> q != [] by {
      if q != [] { assert q[0].observedAt > placedAt; }
    }
  }

  /** An order that met a book with a side missing, out of range, or crossed. */
  lemma JoinOneSided(q: seq<Snap>, isYes: bool, placedAt: real, vwap: real, qty: real, i: int)
    requires Met(q, placedAt, i) && forall bid, ask :: !Quoted(q[i], bid, ask)
    ensures Join(q, isYes, placedAt, vwap, qty) == EntryRow(ONE_SIDED, Some(placedAt - q[i].observedAt), None, None, None, None, None)
  {
    LatestOfSuffix(q, placedAt, 0, i);
    TwoSidedIff(q[i]);
  }

  /** A bought YES is read off the YES book, in cents: it could have been had at the ask. */
  lemma JoinYes(q: seq<Snap>, placedAt: real, vwap: real, qty: real, i: int, bid: real, ask: real)
    requires Met(q, placedAt, i) && Quoted(q[i], bid, ask)
    ensures Join(q, true, placedAt, vwap, qty) ==
            EntryRow(Freshness(placedAt - q[i].observedAt), Some(placedAt - q[i].observedAt), Some(100.0 * (ask - bid)),
                     Some(100.0 * vwap - 100.0 * ask), Some(100.0 * vwap - 50.0 * (bid + ask)), q[i].yesAskSize, Some(qty))
  {
    LatestOfSuffix(q, placedAt, 0, i);
  }

  /** A bought NO is read off the same book: whoever bids for YES at `bid` offers NO at one less that. */
  lemma JoinNo(q: seq<Snap>, placedAt: real, vwap: real, qty: real, i: int, bid: real, ask: real)
    requires Met(q, placedAt, i) && Quoted(q[i], bid, ask)
    ensures Join(q, false, placedAt, vwap, qty) ==
            EntryRow(Freshness(placedAt - q[i].observedAt), Some(placedAt - q[i].observedAt), Some(100.0 * (ask - bid)),
                     Some(100.0 * (vwap + bid) - 100.0), Some(100.0 * vwap + 50.0 * (bid + ask) - 100.0), q[i].yesBidSize, Some(qty))
  {
    LatestOfSuffix(q, placedAt, 0, i);
  }

  /** The same book with the outcomes exchanged. */
  function Mirrored(snap: Snap): Snap {
    Snap(snap.observedAt, if snap.yesAsk.Some? then Some(1.0 - snap.yesAsk.value) else None,
         if snap.yesBid.Some? then Some(1.0 - snap.yesBid.value) else None, snap.yesAskSize, snap.yesBidSize)
  }

  function MirroredAll(q: seq<Snap>): seq<Snap> {
    seq(|q|, i requires 0 <= i < |q| => Mirrored(q[i]))
  }

  lemma {:induction false} MirroredLatest(q: seq<Snap>, t: real)
    ensures Latest(MirroredAll(q), t) == (if Latest(q, t).Some? then Some(Mirrored(Latest(q, t).value)) else None)
    ensures AnyAfter(MirroredAll(q), t) <==> AnyAfter(q, t)
  {
    assert forall i | 0 <= i < |q| :: MirroredAll(q)[i].observedAt == q[i].observedAt;
    if q != [] {
      assert MirroredAll(q)[..|q| - 1] == MirroredAll(q[..|q| - 1]);
      MirroredLatest(q[..|q| - 1], t);
    }
  }

  /** Neither side is privileged: buying NO reads exactly as buying YES on the mirrored books would,
      whatever was or was not observed. */
  lemma NoIsMirroredYes(q: seq<Snap>, placedAt: real, vwap: real, qty: real)
    ensures Join(q, false, placedAt, vwap, qty) == Join(MirroredAll(q), true, placedAt, vwap, qty)
    ensures Join(q, true, placedAt, vwap, qty) == Join(MirroredAll(q), false, placedAt, vwap, qty)
  {
    MirroredLatest(q, placedAt);
  }

  /** Two orders that met the same book and trade the two sides at one price: against the mid what
      one overpays the other saves, and against the ask they save the spread between them. */
  lemma SidesCancel(q: seq<Snap>, placedAt: real, vwap: real, qty: real, i: int, bid: real, ask: real)
    requires Met(q, placedAt, i) && Quoted(q[i], bid, ask)
    ensures var yes, no := Join(q, true, placedAt, vwap, qty), Join(q, false, placedAt, 1.0 - vwap, qty);
      && yes.spread.Some? && yes.paidVsAsk.Some? && yes.paidVsMid.Some? && no.paidVsAsk.Some? && no.paidVsMid.Some?
      && yes.paidVsMid.value + no.paidVsMid.value == 0.0
      && yes.paidVsAsk.value + no.paidVsAsk.value == -yes.spread.value
  {
    JoinYes(q, placedAt, vwap, qty, i, bid, ask);
    JoinNo(q, placedAt, 1.0 - vwap, qty, i, bid, ask);
  }

  /** Nothing observed later than the order is ever used, and only a fresh two-sided quote counts
      as an entry quote. */
  lemma JoinIsProspective(q: seq<Snap>, isYes: bool, placedAt: real, vwap: real, qty: real)
    ensures var row := Join(q, isYes, placedAt, vwap, qty);
      row.status == ENTRY_FRESH <==>
      (exists i :: Met(q, placedAt, i) && placedAt - q[i].observedAt <= 45.0 && exists bid, ask :: Quoted(q[i], bid, ask))
  {
    if i :| Met(q, placedAt, i) {
      LatestOfSuffix(q, placedAt, 0, i);
      TwoSidedIff(q[i]);
    } else {
      JoinMisses(q, isYes, placedAt, vwap, qty);
    }
  }

  /** On the ring the whole row is the full history's row, unless the quote has left the horizon;
      then the order reads as having only later snapshots. */
  lemma JoinOnRing(history: seq<Snap>, horizon: real, isYes: bool, placedAt: real, vwap: real, qty: real)
    requires Ordered(history) && horizon >= 0.0
    ensures Join(Kept(history, horizon), isYes, placedAt, vwap, qty) ==
      if Latest(history, placedAt).Some? && history[|history| - 1].observedAt - Latest(history, placedAt).value.observedAt > horizon
      then Bare(SNAPSHOT_AFTER_ORDER, None)
      else Join(history, isYes, placedAt, vwap, qty)
  {
    RingAnswers(history, horizon, placedAt);
    LatestIs(history, placedAt);
    var k := KeptIsTail(history, horizon);
    if history != [] {
      var newest := history[|history| - 1];
      assert Kept(history, horizon)[|history| - 1 - k] == newest;
      if Latest(history, placedAt).None? || newest.observedAt > placedAt {
        assert AnyAfter(history, placedAt) && AnyAfter(Kept(history, horizon), placedAt);
      }
    }
  }

  /** An order is an entry quote on the ring exactly when it is one on the full history, as long as
      the newest snapshot is no more than the horizon less the freshness bound after placement. */
  lemma FreshOnRingIff(history: seq<Snap>, isYes: bool, placedAt: real, vwap: real, qty: real)
    requires Ordered(history)
    requires history != [] ==> history[|history| - 1].observedAt <= placedAt + 1755.0
    ensures Join(Kept(history, HORIZON_SECONDS), isYes, placedAt, vwap, qty).status == ENTRY_FRESH <==>
            Join(history, isYes, placedAt, vwap, qty).status == ENTRY_FRESH
  {
    JoinOnRing(history, HORIZON_SECONDS, isYes, placedAt, vwap, qty);
    LatestIs(history, placedAt);
  }

  /** One second later than that bound, an entry quote can be lost. */
  lemma FreshLostBeyondBound(placedAt: real, vwap: real, qty: real)
    ensures var history := [Snap(placedAt - 45.0, Some(0.4), Some(0.5), None, None),
                            Snap(placedAt + 1756.0, Some(0.4), Some(0.5), None, None)];
      && Ordered(history)
      && Join(history, true, placedAt, vwap, qty).status == ENTRY_FRESH
      && Join(Kept(history, HORIZON_SECONDS), true, placedAt, vwap, qty).status == SNAPSHOT_AFTER_ORDER
  {
    var a := Snap(placedAt - 45.0, Some(0.4), Some(0.5), None, None);
    var b := Snap(placedAt + 1756.0, Some(0.4), Some(0.5), None, None);
    LatestOfSuffix([a, b], placedAt, 0, 0);
    JoinOnRing([a, b], HORIZON_SECONDS, true, placedAt, vwap, qty);
  }
}
