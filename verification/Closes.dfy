/** Closing quotes: which candle a close is read from, when it may be called a true close, and when
    the evidence ledger accepts the row it becomes. */
module Closes {
  import opened Json
  import LedgerFile
  import opened Sorting
  import opened EvidenceLedger

  const TRUE_CLOSE_MAX_PERIOD_MINUTES := 60
  const ALLOWED_PERIODS := {1, 60, 1440}
  const MAX_CANDLES := 5000

  datatype Candle = Candle(endTs: int, yesBid: Option<real>, yesAsk: Option<real>, trade: Option<real>, volume: Option<real>)

  datatype ResolvedClose = ResolvedClose(
    quality: string, cutoffTs: Option<int>, periodMinutes: Option<int>, sourceEndpoint: Option<string>, asOfTs: Option<int>,
    yesBid: Option<real>, yesAsk: Option<real>, lastTrade: Option<real>, minutesBeforeCutoff: Option<int>,
    flags: seq<string>, reason: Option<string>, cutoffSource: Option<string>)

  // ------------------------------------------------------------- candles

  /** The close of one price object. `fixed` reads an exact decimal, or refuses. */
  function Price(fixed: Value -> Result<Option<real>>, obj: Value): Result<Option<real>> {
    if obj == Null then Ok(None)
    else if !obj.Obj? || fixed(Get(obj.fields, "close_dollars")).Err? then Err
    else
      var dollars := fixed(Get(obj.fields, "close_dollars")).value;
      var cents := Get(obj.fields, "close");
      if dollars.Some? then (if 0.0 <= dollars.value <= 1.0 then Ok(dollars) else Err)
      else if cents == Null then Ok(None)
      else if !IsWhole(cents) || !(0.0 <= cents.n / 100.0 <= 1.0) then Err
      else Ok(Some(cents.n / 100.0))
  }

  function ParseCandle(fixed: Value -> Result<Option<real>>, row: Value): Result<Candle> {
    if !row.Obj? || !IsWhole(Get(row.fields, "end_period_ts")) || Get(row.fields, "end_period_ts").n <= 0.0 then Err
    else
      var volume := fixed(if Get(row.fields, "volume_fp") != Null then Get(row.fields, "volume_fp") else Get(row.fields, "volume"));
      var bid, ask := Price(fixed, Get(row.fields, "yes_bid")), Price(fixed, Get(row.fields, "yes_ask"));
      var trade := Price(fixed, Get(row.fields, "price"));
      if volume.Err? || bid.Err? || ask.Err? || trade.Err? then Err
      else Ok(Candle(Get(row.fields, "end_period_ts").n.Floor, bid.value, ask.value, trade.value, volume.value))
  }

  /** A price object that states no close. */
  ghost predicate NoPrice(fixed: Value -> Result<Option<real>>, obj: Value) {
    obj == Null || (obj.Obj? && fixed(Get(obj.fields, "close_dollars")) == Ok(None) && Get(obj.fields, "close") == Null)
  }

  /** One that states this close: exact dollars, or else whole cents. */
  ghost predicate PriceRead(fixed: Value -> Result<Option<real>>, obj: Value, price: real) {
    && obj.Obj? && 0.0 <= price <= 1.0
    && (|| fixed(Get(obj.fields, "close_dollars")) == Ok(Some(price))
        || (fixed(Get(obj.fields, "close_dollars")) == Ok(None) && Get(obj.fields, "close") == Num(100.0 * price)
            && (100.0 * price).Floor as real == 100.0 * price))
  }

  ghost predicate PriceIs(fixed: Value -> Result<Option<real>>, obj: Value, price: Option<real>) {
    match price
    case None => NoPrice(fixed, obj)
    case Some(p) => PriceRead(fixed, obj, p)
  }

  lemma PriceIff(fixed: Value -> Result<Option<real>>, obj: Value, price: Option<real>)
    ensures Price(fixed, obj) == Ok(price) <==> PriceIs(fixed, obj, price)
  {
    if price.Some? && obj.Obj? && Get(obj.fields, "close").Num? {
      var cents := Get(obj.fields, "close").n;
      assert cents == 100.0 * price.value <==> cents / 100.0 == price.value;
    }
  }

  /** The candle a row of the response states. */
  ghost predicate States(fixed: Value -> Result<Option<real>>, row: Value, c: Candle) {
    && row.Obj? && Get(row.fields, "end_period_ts") == Num(c.endTs as real) && c.endTs >= 1
    && PriceIs(fixed, Get(row.fields, "yes_bid"), c.yesBid)
    && PriceIs(fixed, Get(row.fields, "yes_ask"), c.yesAsk)
    && PriceIs(fixed, Get(row.fields, "price"), c.trade)
    && (if Get(row.fields, "volume_fp") != Null then fixed(Get(row.fields, "volume_fp")) == Ok(c.volume)
        else fixed(Get(row.fields, "volume")) == Ok(c.volume))
  }

  /** A row reads as the candle it states, and is refused exactly when it states none. */
  lemma ParseCandleIff(fixed: Value -> Result<Option<real>>, row: Value, c: Candle)
    ensures ParseCandle(fixed, row) == Ok(c) <==> States(fixed, row, c)
  {
    if row.Obj? {
      PriceIff(fixed, Get(row.fields, "yes_bid"), c.yesBid);
      PriceIff(fixed, Get(row.fields, "yes_ask"), c.yesAsk);
      PriceIff(fixed, Get(row.fields, "price"), c.trade);
    }
  }

  ghost predicate Inside(price: Option<real>) {
    price.Some? ==> 0.0 <= price.value <= 1.0
  }

  ghost predicate GoodCandle(c: Candle) {
    c.endTs > 0 && Inside(c.yesBid) && Inside(c.yesAsk) && Inside(c.trade)
  }

  predicate NoLater(a: Candle, b: Candle) {
    a.endTs <= b.endTs
  }

  /** In time order, no two at the same time, all with usable numbers. */
  ghost predicate Series(candles: seq<Candle>) {
    && (forall i | 0 <= i < |candles| :: GoodCandle(candles[i]))
    && (forall i, j | 0 <= i < j < |candles| :: candles[i].endTs < candles[j].endTs)
  }

  ghost predicate AllParse(fixed: Value -> Result<Option<real>>, rows: seq<Value>) {
    forall i | 0 <= i < |rows| :: ParseCandle(fixed, rows[i]).Ok?
  }

  function Parsed(fixed: Value -> Result<Option<real>>, rows: seq<Value>): seq<Candle>
    requires forall i | 0 <= i < |rows| :: ParseCandle(fixed, rows[i]).Ok?
  {
    seq(|rows|, i requires 0 <= i < |rows| => ParseCandle(fixed, rows[i]).value)
  }

  lemma ParsedIsGood(fixed: Value -> Result<Option<real>>, row: Value)
    ensures ParseCandle(fixed, row).Ok? ==> GoodCandle(ParseCandle(fixed, row).value)
  {
    if ParseCandle(fixed, row).Ok? {
      var n := Get(row.fields, "end_period_ts").n;
      assert n.Floor as real == n;
    }
  }

  method SortCandles(out: seq<Candle>) returns (sorted: seq<Candle>)
    ensures multiset(sorted) == multiset(out) && |sorted| == |out|
    ensures forall i, j | 0 <= i < j < |sorted| :: sorted[i].endTs <= sorted[j].endTs
  {
    SortSorts(out, NoLater);
    sorted := Sort(out, NoLater);
    assert forall i, j | 0 <= i < j < |sorted| :: NoLater(sorted[i], sorted[j]);
  }

  ghost predicate DistinctTimes(candles: seq<Candle>) {
    forall i, j | 0 <= i < j < |candles| :: candles[i].endTs != candles[j].endTs
  }

  lemma TwoPlaces(a: seq<Candle>, c: Candle) returns (k: nat, l: nat)
    requires multiset(a)[c] >= 2
    ensures k < l < |a| && a[k] == a[l] == c
  {
    assert c in multiset(a);
    var i :| 0 <= i < |a| && a[i] == c;
    var rest := a[..i] + a[i + 1..];
    Without(a, i);
    assert c in multiset(rest);
    var j :| 0 <= j < |rest| && rest[j] == c;
    if j < i { k, l := j, i; } else { k, l := i, j + 1; }
  }

  /** Rearranging candles brings no two to the same time. */
  lemma DistinctPermutes(a: seq<Candle>, b: seq<Candle>)
    requires multiset(a) == multiset(b) && DistinctTimes(a)
    ensures DistinctTimes(b)
  {
    forall i, j | 0 <= i < j < |b| ensures b[i].endTs != b[j].endTs {
      assert b[i] in multiset(b) && b[j] in multiset(b);
      assert b[i] in multiset(a) && b[j] in multiset(a);
      if b[i] == b[j] {
        assert b == b[..j] + [b[j]] + b[j + 1..];
        assert b[i] in multiset(b[..j]) by { assert b[..j][i] == b[i]; }
        assert multiset(b)[b[i]] >= 2;
        var k, l := TwoPlaces(a, b[i]);
        assert false;
      } else {
        var k :| 0 <= k < |a| && a[k] == b[i];
        var l :| 0 <= l < |a| && a[l] == b[j];
        assert k < l || l < k;
      }
    }
  }

  method ParseAll(fixed: Value -> Result<Option<real>>, rows: seq<Value>) returns (res: Result<seq<Candle>>)
    ensures res.Ok? <==> AllParse(fixed, rows)
    ensures res.Ok? ==> res.value == Parsed(fixed, rows)
  {
    var out: seq<Candle> := [];
    for i := 0 to |rows|
      invariant AllParse(fixed, rows[..i]) && out == Parsed(fixed, rows[..i])
    {
      var candle := ParseCandle(fixed, rows[i]);
      if candle.Err? {
        return Err;
      }
      assert rows[..i + 1] == rows[..i] + [rows[i]];
      assert forall j | 0 <= j < i :: rows[..i + 1][j] == rows[..i][j];
      out := out + [candle.value];
      assert out == Parsed(fixed, rows[..i + 1]);
    }
    assert rows[..|rows|] == rows;
    res := Ok(out);
  }

  /** What a response must be to be read at all. */
  ghost predicate Readable(fixed: Value -> Result<Option<real>>, payload: Record) {
    var rows := Get(payload, "candlesticks");
    && rows.List? && |rows.items| <= 5000
    && AllParse(fixed, rows.items) && DistinctTimes(Parsed(fixed, rows.items))
  }

  /** A response's candles, in time order; it is refused exactly when something in it is malformed
      or two candles end at the same time. */
  method ParseCandlesticks(fixed: Value -> Result<Option<real>>, payload: Record) returns (res: Result<seq<Candle>>)
    ensures res.Ok? <==> Readable(fixed, payload)
    ensures res.Ok? ==>
      && Series(res.value) && multiset(res.value) == multiset(Parsed(fixed, Get(payload, "candlesticks").items))
      && forall i | 0 <= i < |Get(payload, "candlesticks").items| ::
           States(fixed, Get(payload, "candlesticks").items[i], Parsed(fixed, Get(payload, "candlesticks").items)[i])
  {
    if !Get(payload, "candlesticks").List? || |Get(payload, "candlesticks").items| > MAX_CANDLES {
      return Err;
    }
    var rows := Get(payload, "candlesticks").items;
    var out := ParseAll(fixed, rows);
    if out.Err? {
      return Err;
    }
    var sorted := SortCandles(out.value);
    if exists i | 0 <= i < |sorted| - 1 :: sorted[i].endTs == sorted[i + 1].endTs {
      if DistinctTimes(out.value) {
        DistinctPermutes(out.value, sorted);
      }
      return Err;
    }
    SortedIsSeries(fixed, rows, sorted);
    DistinctPermutes(sorted, out.value);
    forall i | 0 <= i < |rows| ensures States(fixed, rows[i], Parsed(fixed, rows)[i]) {
      ParseCandleIff(fixed, rows[i], ParseCandle(fixed, rows[i]).value);
    }
    res := Ok(sorted);
  }

  lemma SortedIsSeries(fixed: Value -> Result<Option<real>>, rows: seq<Value>, sorted: seq<Candle>)
    requires AllParse(fixed, rows) && multiset(sorted) == multiset(Parsed(fixed, rows))
    requires forall i, j | 0 <= i < j < |sorted| :: sorted[i].endTs <= sorted[j].endTs
    requires forall i | 0 <= i < |sorted| - 1 :: sorted[i].endTs != sorted[i + 1].endTs
    ensures Series(sorted) && DistinctTimes(sorted)
  {
    var parsed := Parsed(fixed, rows);
    forall i | 0 <= i < |sorted| ensures GoodCandle(sorted[i]) {
      assert sorted[i] in multiset(sorted);
      assert sorted[i] in multiset(parsed);
      var j :| 0 <= j < |parsed| && parsed[j] == sorted[i];
      ParsedIsGood(fixed, rows[j]);
    }
    forall i, j | 0 <= i < j < |sorted| ensures sorted[i].endTs < sorted[j].endTs {
      assert sorted[i].endTs <= sorted[i + 1].endTs && sorted[i].endTs != sorted[i + 1].endTs;
    }
  }

  // ------------------------------------------------------------- resolving a close

  function Missing(reason: string, cutoff: Option<int>): ResolvedClose {
    ResolvedClose(MISSING, cutoff, None, None, None, None, None, None, None, [], Some(reason), None)
  }

  predicate Usable(c: Candle, cutoff: int) {
    c.endTs <= cutoff && ((c.yesBid.Some? && c.yesAsk.Some?) || c.trade.Some?)
  }

  /** The last usable candle. */
  function LastUsable(candles: seq<Candle>, cutoff: int): Option<Candle> {
    if candles == [] then None
    else if Usable(candles[|candles| - 1], cutoff) then Some(candles[|candles| - 1])
    else LastUsable(candles[..|candles| - 1], cutoff)
  }

  predicate Crossed(c: Candle) {
    c.yesBid.Some? && c.yesAsk.Some? && c.yesAsk.value < c.yesBid.value
  }

  predicate Near(gap: int, period: int, maxGap: int) {
    gap <= maxGap && period <= TRUE_CLOSE_MAX_PERIOD_MINUTES
  }

  function Flags(c: Candle, gap: int, period: int, maxGap: int, maxSpread: real): seq<string> {
    (if c.yesBid.Some? && c.yesAsk.Some? && c.yesAsk.value - c.yesBid.value > maxSpread then ["WIDE_SPREAD"] else [])
    + (if c.volume == Some(0.0) then ["NO_VOLUME_IN_CANDLE"] else [])
    + (if Near(gap, period, maxGap) then []
       else if period > TRUE_CLOSE_MAX_PERIOD_MINUTES then ["PERIOD_TOO_LONG_FOR_CLOSE"] else ["TOO_EARLY_FOR_CLOSE"])
  }

  function ResolveClose(candles: seq<Candle>, cutoff: Option<int>, period: int, endpoint: string, maxGap: int,
                        maxSpread: real): ResolvedClose {
    if cutoff.None? then Missing("NO_CUTOFF_SUPPLIED", None)
    else if period !in ALLOWED_PERIODS then Missing("UNSUPPORTED_PERIOD", cutoff)
    else
      match LastUsable(candles, cutoff.value)
      case None => Missing("NO_CANDLE_AT_OR_BEFORE_CUTOFF", cutoff)
      case Some(last) =>
        if Crossed(last) then Missing("CROSSED_QUOTE", cutoff)
        else
          var gap := cutoff.value - last.endTs;
          ResolvedClose(
            if Near(gap, period, maxGap) then TRUE_CLOSE else EARLIER_QUOTE_PROXY,
            cutoff, Some(period), Some(endpoint), Some(last.endTs), last.yesBid, last.yesAsk, last.trade,
            Some(gap / 60), Flags(last, gap, period, maxGap, maxSpread), None, None)
  }

  lemma {:induction false} LastUsableIs(candles: seq<Candle>, cutoff: int)
    ensures match LastUsable(candles, cutoff)
      case None => forall i | 0 <= i < |candles| :: !Usable(candles[i], cutoff)
      case Some(c) => exists i :: 0 <= i < |candles| && candles[i] == c && Usable(c, cutoff)
                                  && forall j | i < j < |candles| :: !Usable(candles[j], cutoff)
  {
    if candles != [] && !Usable(candles[|candles| - 1], cutoff) {
      var n := |candles| - 1;
      LastUsableIs(candles[..n], cutoff);
      assert forall i | 0 <= i < n :: candles[..n][i] == candles[i];
      if LastUsable(candles[..n], cutoff).Some? {
        var c := LastUsable(candles[..n], cutoff).value;
        var i :| 0 <= i < n && candles[..n][i] == c && Usable(c, cutoff) && forall j | i < j < n :: !Usable(candles[..n][j], cutoff);
        assert candles[i] == c && forall j | i < j < |candles| :: !Usable(if j < n then candles[..n][j] else candles[j], cutoff);
      }
    }
  }

  /** A candle a close may be read from: both sides of the quote, or a trade, no later than the
      cutoff. */
  ghost predicate Speaks(c: Candle, cutoff: int) {
    c.endTs <= cutoff && (c.trade != None || (c.yesBid != None && c.yesAsk != None))
  }

  ghost predicate SpeaksLast(candles: seq<Candle>, cutoff: int, i: int) {
    0 <= i < |candles| && Speaks(candles[i], cutoff) && forall j | i < j < |candles| :: !Speaks(candles[j], cutoff)
  }

  ghost function Nothing(reason: string, cutoff: Option<int>): ResolvedClose {
    ResolvedClose("MISSING", cutoff, None, None, None, None, None, None, None, [], Some(reason), None)
  }

  ghost predicate WideSpread(c: Candle, maxSpread: real) {
    c.yesBid.Some? && c.yesAsk.Some? && c.yesBid.value + maxSpread < c.yesAsk.value
  }

  /** The marks on a close, in order. */
  ghost function Marks(c: Candle, cutoff: int, period: int, maxGap: int, maxSpread: real): seq<string> {
    (if WideSpread(c, maxSpread) then ["WIDE_SPREAD"] else [])
    + (if c.volume.Some? && c.volume.value == 0.0 then ["NO_VOLUME_IN_CANDLE"] else [])
    + (if period > 60 then ["PERIOD_TOO_LONG_FOR_CLOSE"]
       else if cutoff > c.endTs + maxGap then ["TOO_EARLY_FOR_CLOSE"] else [])
  }

  /** Why no close is resolved. */
  lemma MissingIs(candles: seq<Candle>, cutoff: Option<int>, period: int, endpoint: string, maxGap: int, maxSpread: real)
    ensures var r := ResolveClose(candles, cutoff, period, endpoint, maxGap, maxSpread);
      && (cutoff.None? ==> r == Nothing("NO_CUTOFF_SUPPLIED", None))
      && (cutoff.Some? && period !in {1, 60, 1440} ==> r == Nothing("UNSUPPORTED_PERIOD", cutoff))
      && (cutoff.Some? && period in {1, 60, 1440} && (forall i :: !SpeaksLast(candles, cutoff.value, i)) ==>
            r == Nothing("NO_CANDLE_AT_OR_BEFORE_CUTOFF", cutoff))
  {
    if cutoff.Some? {
      LastUsableIs(candles, cutoff.value);
      assert forall i | 0 <= i < |candles| :: Usable(candles[i], cutoff.value) <==> Speaks(candles[i], cutoff.value);
      if LastUsable(candles, cutoff.value).Some? {
        var i :| 0 <= i < |candles| && candles[i] == LastUsable(candles, cutoff.value).value && Usable(candles[i], cutoff.value)
                 && forall j | i < j < |candles| :: !Usable(candles[j], cutoff.value);
        assert SpeaksLast(candles, cutoff.value, i);
      }
    }
  }

  /** The close that is resolved, whole: every number is the last speaking candle's own. */
  lemma ResolvedIs(candles: seq<Candle>, cutoff: int, period: int, endpoint: string, maxGap: int, maxSpread: real, i: int,
                   minutes: int)
    requires period in {1, 60, 1440} && SpeaksLast(candles, cutoff, i)
    requires 60 * minutes <= cutoff - candles[i].endTs < 60 * (minutes + 1)
    ensures var (r, c) := (ResolveClose(candles, Some(cutoff), period, endpoint, maxGap, maxSpread), candles[i]);
      r == if c.yesBid.Some? && c.yesAsk.Some? && c.yesBid.value > c.yesAsk.value then Nothing("CROSSED_QUOTE", Some(cutoff))
           else ResolvedClose(
             if cutoff <= c.endTs + maxGap && period <= 60 then "TRUE_CLOSE" else "EARLIER_QUOTE_PROXY",
             Some(cutoff), Some(period), Some(endpoint), Some(c.endTs), c.yesBid, c.yesAsk, c.trade,
             Some(minutes), Marks(c, cutoff, period, maxGap, maxSpread), None, None)
  {
    LastUsableIs(candles, cutoff);
    assert forall k | 0 <= k < |candles| :: Usable(candles[k], cutoff) <==> Speaks(candles[k], cutoff);
    var k :| 0 <= k < |candles| && candles[k] == LastUsable(candles, cutoff).value && Usable(candles[k], cutoff)
             && forall j | k < j < |candles| :: !Usable(candles[j], cutoff);
    assert k == i;
  }

  /** The close is read from the latest usable candle at or before the cutoff, and from no other. */
  lemma CloseIsLatestUsable(candles: seq<Candle>, cutoff: int, period: int, endpoint: string, maxGap: int,
                            maxSpread: real)
    requires Series(candles)
    ensures var r := ResolveClose(candles, Some(cutoff), period, endpoint, maxGap, maxSpread);
      r.quality != MISSING ==>
        && (exists i :: 0 <= i < |candles| && Usable(candles[i], cutoff) && r.asOfTs == Some(candles[i].endTs)
                        && r.yesBid == candles[i].yesBid && r.yesAsk == candles[i].yesAsk && r.lastTrade == candles[i].trade)
        && (forall j | 0 <= j < |candles| && Usable(candles[j], cutoff) :: candles[j].endTs <= r.asOfTs.value)
  {
    LastUsableIs(candles, cutoff);
  }

  /** It is a TRUE_CLOSE exactly when there is such a candle, uncrossed, no further from the cutoff
      than the gap allows, and no longer than an hour. */
  lemma TrueCloseIff(candles: seq<Candle>, cutoff: int, period: int, endpoint: string, maxGap: int, maxSpread: real)
    requires Series(candles)
    ensures ResolveClose(candles, Some(cutoff), period, endpoint, maxGap, maxSpread).quality == TRUE_CLOSE <==>
      && period in {1, 60}
      && exists i :: 0 <= i < |candles| && Usable(candles[i], cutoff) && cutoff - candles[i].endTs <= maxGap && !Crossed(candles[i])
                     && forall j | 0 <= j < |candles| && Usable(candles[j], cutoff) :: candles[j].endTs <= candles[i].endTs
  {
    LastUsableIs(candles, cutoff);
    if LastUsable(candles, cutoff).Some? {
      var c := LastUsable(candles, cutoff).value;
      var k :| 0 <= k < |candles| && candles[k] == c && Usable(c, cutoff) && forall j | k < j < |candles| :: !Usable(candles[j], cutoff);
      forall i | 0 <= i < |candles| && Usable(candles[i], cutoff)
                 && forall j | 0 <= j < |candles| && Usable(candles[j], cutoff) :: candles[j].endTs <= candles[i].endTs
        ensures i == k
      {
        assert candles[k].endTs <= candles[i].endTs;
      }
      assert forall j | 0 <= j < |candles| && Usable(candles[j], cutoff) :: candles[j].endTs <= candles[k].endTs;
    }
  }

  // ------------------------------------------------------------- the row a close becomes

  function Number(price: Option<real>): Value {
    if price.Some? then Num(price.value) else Null
  }

  function Whole(n: Option<int>): Value {
    if n.Some? then Num(n.value as real) else Null
  }

  function Text(s: Option<string>): Value {
    if s.Some? then Str(s.value) else Null
  }

  function Mid(c: ResolvedClose): Option<real> {
    if c.yesBid.Some? && c.yesAsk.Some? then Some((c.yesBid.value + c.yesAsk.value) / 2.0) else None
  }

  function FullBody(c: ResolvedClose): Record {
    map["quality" := Str(c.quality), "yes_bid" := Number(c.yesBid), "yes_ask" := Number(c.yesAsk), "yes_mid" := Number(Mid(c)),
        "last_trade" := Number(c.lastTrade), "as_of_ts" := Whole(c.asOfTs), "cutoff_ts" := Whole(c.cutoffTs),
        "period_minutes" := Whole(c.periodMinutes), "minutes_before_cutoff" := Whole(c.minutesBeforeCutoff),
        "source_endpoint" := Text(c.sourceEndpoint),
        "flags" := List(seq(|c.flags|, i requires 0 <= i < |c.flags| => Str(c.flags[i]))),
        "cutoff_source" := Text(c.cutoffSource)]
  }

  /** The `close` object of a CLOSE row: what is unknown is left out. */
  function ToCloseBody(c: ResolvedClose): Record {
    if c.quality == MISSING then
      map["quality" := Str(MISSING),
          "reason" := Str(if c.reason.Some? && c.reason.value != "" then c.reason.value else "UNSPECIFIED")]
    else
      var body := FullBody(c);
      map f | f in body && (body[f] != Null || f == "flags") :: body[f]
  }

  /** What every resolved close satisfies. */
  ghost predicate Honest(c: ResolvedClose) {
    c.quality == MISSING ||
    (&& c.quality in {TRUE_CLOSE, EARLIER_QUOTE_PROXY}
     && c.asOfTs.Some? && c.cutoffTs.Some? && 0 < c.asOfTs.value <= c.cutoffTs.value
     && c.periodMinutes.Some? && c.periodMinutes.value in ALLOWED_PERIODS
     && (c.quality == TRUE_CLOSE ==> c.periodMinutes.value <= 60)
     && c.sourceEndpoint.Some? && c.sourceEndpoint.value != ""
     && Inside(c.yesBid) && Inside(c.yesAsk) && Inside(c.lastTrade)
     && ((c.yesBid.Some? && c.yesAsk.Some?) || c.lastTrade.Some?)
     && (c.yesBid.Some? && c.yesAsk.Some? ==> c.yesBid.value <= c.yesAsk.value))
  }

  lemma ResolvedIsHonest(candles: seq<Candle>, cutoff: Option<int>, period: int, endpoint: string, maxGap: int,
                         maxSpread: real)
    requires Series(candles) && endpoint != ""
    ensures Honest(ResolveClose(candles, cutoff, period, endpoint, maxGap, maxSpread))
  {
    if cutoff.Some? {
      LastUsableIs(candles, cutoff.value);
    }
  }

  predicate Strictly(price: Option<real>) {
    price.Some? ==> 0.0 < price.value < 1.0
  }

  /** What the evidence ledger demands of a resolved close, in the close's own terms. */
  predicate Fileable(c: ResolvedClose) {
    || c.quality == MISSING
    || (&& (c.yesBid.Some? <==> c.yesAsk.Some?)
        && Strictly(c.yesBid) && Strictly(c.yesAsk) && Strictly(c.lastTrade)
        && c.cutoffSource.None?)
  }

  /** The row a close is sent to the evidence ledger in. */
  function CloseRow(key: string, recordedAt: string, ticker: string, side: string, c: ResolvedClose): Record {
    map["schema_version" := Str("edge_finder.execution_evidence.v1"), "kind" := Str("CLOSE"), "producer" := Str("router"),
        "source_bet_key" := Str(key), "recorded_at" := Str(recordedAt),
        "market_ticker" := Str(ticker), "side" := Str(side), "close" := Obj(ToCloseBody(c))]
  }

  /** It is of the kind and version the ledger files closes under, and names its wager and market. */
  lemma CloseRowIs(key: string, recordedAt: string, ticker: string, side: string, c: ResolvedClose)
    ensures var row := CloseRow(key, recordedAt, ticker, side, c);
      && Get(row, "schema_version") == Str("edge_finder.execution_evidence.v1")
      && Get(row, "kind") == Str("CLOSE") && Get(row, "producer") == Str("router")
      && Get(row, "source_bet_key") == Str(key) && Get(row, "recorded_at") == Str(recordedAt)
      && Get(row, "market_ticker") == Str(ticker) && Get(row, "side") == Str(side) && Get(row, "close") == Obj(ToCloseBody(c))
    ensures RowKey(CloseRow(key, recordedAt, ticker, side, c)) == Some(CloseKey(Str(key), Str(c.quality)))
  {
    if c.quality != MISSING { BodyField(c, "quality"); }
  }

  lemma BodyField(c: ResolvedClose, f: string)
    requires c.quality != MISSING && f in FullBody(c)
    ensures Get(ToCloseBody(c), f) == FullBody(c)[f]
  {
  }

  /** The row's fields, one by one; a field with nothing to say is not there at all. */
  lemma BodyReads(c: ResolvedClose)
    requires c.quality != MISSING
    ensures var b := ToCloseBody(c);
      && Get(b, "quality") == Str(c.quality)
      && Get(b, "yes_bid") == Number(c.yesBid) && Get(b, "yes_ask") == Number(c.yesAsk)
      && Get(b, "yes_mid") == Number(Mid(c)) && Get(b, "last_trade") == Number(c.lastTrade)
      && Get(b, "as_of_ts") == Whole(c.asOfTs) && Get(b, "cutoff_ts") == Whole(c.cutoffTs)
      && Get(b, "period_minutes") == Whole(c.periodMinutes) && Get(b, "source_endpoint") == Text(c.sourceEndpoint)
      && (b.Keys <= CLOSE_BODY <==> c.cutoffSource.None?)
  {
    BodyReadsPrices(c);
    BodyReadsRest(c);
    BodyKeys(c);
  }

  lemma BodyReadsPrices(c: ResolvedClose)
    requires c.quality != MISSING
    ensures var b := ToCloseBody(c);
      && Get(b, "yes_bid") == Number(c.yesBid) && Get(b, "yes_ask") == Number(c.yesAsk)
      && Get(b, "yes_mid") == Number(Mid(c)) && Get(b, "last_trade") == Number(c.lastTrade)
  {
    BodyField(c, "yes_bid");
    BodyField(c, "yes_ask");
    BodyField(c, "yes_mid");
    BodyField(c, "last_trade");
  }

  lemma BodyReadsRest(c: ResolvedClose)
    requires c.quality != MISSING
    ensures var b := ToCloseBody(c);
      && Get(b, "quality") == Str(c.quality)
      && Get(b, "as_of_ts") == Whole(c.asOfTs) && Get(b, "cutoff_ts") == Whole(c.cutoffTs)
      && Get(b, "period_minutes") == Whole(c.periodMinutes) && Get(b, "source_endpoint") == Text(c.sourceEndpoint)
  {
    BodyField(c, "quality");
    BodyField(c, "as_of_ts");
    BodyField(c, "cutoff_ts");
    BodyField(c, "period_minutes");
    BodyField(c, "source_endpoint");
  }

  /** What a field of the row says about an optional number. */
  ghost predicate Shows(body: Record, name: string, price: Option<real>) {
    match price
    case None => name !in body
    case Some(p) => name in body && body[name] == Num(p)
  }

  ghost predicate ShowsWhole(body: Record, name: string, n: Option<int>) {
    match n
    case None => name !in body
    case Some(k) => name in body && body[name] == Num(k as real)
  }

  ghost predicate ShowsText(body: Record, name: string, text: Option<string>) {
    match text
    case None => name !in body
    case Some(t) => name in body && body[name] == Str(t)
  }

  lemma BodyPrices(c: ResolvedClose)
    requires c.quality != MISSING
    ensures var b := ToCloseBody(c);
      && Shows(b, "yes_bid", c.yesBid) && Shows(b, "yes_ask", c.yesAsk) && Shows(b, "last_trade", c.lastTrade)
      && Shows(b, "yes_mid", Mid(c))
  {
    BodyShown(c, "yes_bid");
    BodyShown(c, "yes_ask");
    BodyShown(c, "yes_mid");
    BodyShown(c, "last_trade");
  }

  lemma BodyTimes(c: ResolvedClose)
    requires c.quality != MISSING
    ensures var b := ToCloseBody(c);
      && ShowsWhole(b, "as_of_ts", c.asOfTs) && ShowsWhole(b, "cutoff_ts", c.cutoffTs)
      && ShowsWhole(b, "period_minutes", c.periodMinutes) && ShowsWhole(b, "minutes_before_cutoff", c.minutesBeforeCutoff)
  {
    BodyShown(c, "as_of_ts");
    BodyShown(c, "cutoff_ts");
    BodyShown(c, "period_minutes");
    BodyShown(c, "minutes_before_cutoff");
  }

  lemma BodyTexts(c: ResolvedClose)
    requires c.quality != MISSING
    ensures var b := ToCloseBody(c);
      && ShowsText(b, "quality", Some(c.quality))
      && ShowsText(b, "source_endpoint", c.sourceEndpoint) && ShowsText(b, "cutoff_source", c.cutoffSource)
  {
    BodyShown(c, "quality");
    BodyShown(c, "source_endpoint");
    BodyShown(c, "cutoff_source");
  }

  ghost predicate ShowsFlags(body: Record, flags: seq<string>) {
    && "flags" in body && body["flags"].List? && |body["flags"].items| == |flags|
    && forall i | 0 <= i < |flags| :: body["flags"].items[i] == Str(flags[i])
  }

  lemma BodyFlags(c: ResolvedClose)
    requires c.quality != MISSING
    ensures ShowsFlags(ToCloseBody(c), c.flags)
  {
    BodyShown(c, "flags");
  }

  lemma BodyNames(c: ResolvedClose)
    requires c.quality != MISSING
    ensures ToCloseBody(c).Keys <= {
              "quality", "yes_bid", "yes_ask", "yes_mid", "last_trade", "as_of_ts", "cutoff_ts", "period_minutes",
              "minutes_before_cutoff", "source_endpoint", "flags", "cutoff_source"}
  {
  }

  /** Halfway between the sides of the quote, when there are both. */
  ghost predicate Halfway(c: ResolvedClose, mid: Option<real>) {
    if c.yesBid.Some? && c.yesAsk.Some? then mid.Some? && 2.0 * mid.value == c.yesBid.value + c.yesAsk.value
    else mid.None?
  }

  /** The row of a close that was found, whole. */
  lemma BodyIs(c: ResolvedClose, mid: Option<real>)
    requires c.quality != "MISSING" && Halfway(c, mid)
    ensures var b := ToCloseBody(c);
      && Shows(b, "yes_bid", c.yesBid) && Shows(b, "yes_ask", c.yesAsk) && Shows(b, "yes_mid", mid)
      && Shows(b, "last_trade", c.lastTrade)
      && ShowsWhole(b, "as_of_ts", c.asOfTs) && ShowsWhole(b, "cutoff_ts", c.cutoffTs)
      && ShowsWhole(b, "period_minutes", c.periodMinutes) && ShowsWhole(b, "minutes_before_cutoff", c.minutesBeforeCutoff)
      && ShowsText(b, "quality", Some(c.quality))
      && ShowsText(b, "source_endpoint", c.sourceEndpoint) && ShowsText(b, "cutoff_source", c.cutoffSource)
      && ShowsFlags(b, c.flags)
      && b.Keys <= {"quality", "yes_bid", "yes_ask", "yes_mid", "last_trade", "as_of_ts", "cutoff_ts", "period_minutes",
                    "minutes_before_cutoff", "source_endpoint", "flags", "cutoff_source"}
  {
    assert mid == Mid(c);
    BodyPrices(c);
    BodyTimes(c);
    BodyTexts(c);
    BodyFlags(c);
    BodyNames(c);
  }

  lemma BodyShown(c: ResolvedClose, f: string)
    requires c.quality != MISSING && f in FullBody(c)
    ensures f in ToCloseBody(c) <==> FullBody(c)[f] != Null || f == "flags"
    ensures f in ToCloseBody(c) ==> ToCloseBody(c)[f] == FullBody(c)[f]
  {
  }

  /** The row of a close that was not. */
  lemma MissingBodyIs(c: ResolvedClose)
    requires c.quality == "MISSING"
    ensures ToCloseBody(c) ==
            map["quality" := Str("MISSING"), "reason" := Str(if c.reason in {None, Some("")} then "UNSPECIFIED" else c.reason.value)]
  {
  }

  lemma BodyKeys(c: ResolvedClose)
    requires c.quality != MISSING
    ensures ToCloseBody(c).Keys <= CLOSE_BODY <==> c.cutoffSource.None?
  {
    var b := ToCloseBody(c);
    assert FullBody(c).Keys <= CLOSE_BODY + {"cutoff_source"};
    assert "cutoff_source" in b <==> c.cutoffSource.Some? by {
      assert "cutoff_source" in FullBody(c) && FullBody(c)["cutoff_source"] == Text(c.cutoffSource);
    }
    assert "cutoff_source" !in CLOSE_BODY;
  }

  /** The four prices of the row, inside and present. */
  lemma PricesRead(c: ResolvedClose, b: Record)
    requires Get(b, "yes_bid") == Number(c.yesBid) && Get(b, "yes_ask") == Number(c.yesAsk)
    requires Get(b, "yes_mid") == Number(Mid(c)) && Get(b, "last_trade") == Number(c.lastTrade)
    ensures AllPricesInside(b) <==> Strictly(c.yesBid) && Strictly(c.yesAsk) && Strictly(Mid(c)) && Strictly(c.lastTrade)
    ensures SomePrice(b) <==> c.yesBid.Some? || c.yesAsk.Some? || c.lastTrade.Some?
  {
    var p0, p1, p2, p3 := Get(b, PRICE_FIELDS[0]), Get(b, PRICE_FIELDS[1]), Get(b, PRICE_FIELDS[2]), Get(b, PRICE_FIELDS[3]);
    assert AllPricesInside(b) <==>
      (p0 == Null || IsPrice(p0)) && (p1 == Null || IsPrice(p1)) && (p2 == Null || IsPrice(p2)) && (p3 == Null || IsPrice(p3));
    assert SomePrice(b) <==> p0 != Null || p1 != Null || p2 != Null || p3 != Null;
  }

  /** The row a resolved close becomes is accepted by the evidence ledger exactly when the close is
      MISSING, or bid and ask are both there or both absent, every price lies strictly between 0
      and 1, and no cutoff source is set. */
  lemma AcceptedIff(key: string, recordedAt: string, ticker: string, side: string, c: ResolvedClose)
    requires Honest(c) && !LedgerFile.Blank(ticker) && side in {"YES", "NO"}
    ensures ValidClose(CloseRow(key, recordedAt, ticker, side, c)) <==> Fileable(c)
  {
    var b := ToCloseBody(c);
    if c.quality == MISSING {
      MissingBodyOk(c);
    } else {
      BodyReads(c);
      PricesRead(c, b);
      QuotedIff(c, b);
    }
  }

  lemma MissingBodyOk(c: ResolvedClose)
    requires c.quality == MISSING
    ensures CloseBodyOk(ToCloseBody(c))
  {
    var b := ToCloseBody(c);
    assert b.Keys == {"quality", "reason"};
    assert forall i | 0 <= i < |PRICE_FIELDS| :: PRICE_FIELDS[i] !in b;
  }

  lemma QuotedIff(c: ResolvedClose, b: Record)
    requires Honest(c) && c.quality != MISSING
    requires Get(b, "yes_bid") == Number(c.yesBid) && Get(b, "yes_ask") == Number(c.yesAsk)
    requires Get(b, "as_of_ts") == Whole(c.asOfTs) && Get(b, "cutoff_ts") == Whole(c.cutoffTs)
    requires Get(b, "period_minutes") == Whole(c.periodMinutes) && Get(b, "source_endpoint") == Text(c.sourceEndpoint)
    requires SomePrice(b)
    ensures QuotedCloseOk(b, c.quality) <==> (c.yesBid.Some? <==> c.yesAsk.Some?)
  {
    WholeIsWhole(c.periodMinutes.value);
  }

  lemma WholeIsWhole(n: int)
    ensures IsWhole(Num(n as real)) && (n as real).Floor == n
  {
  }

  // ------------------------------------------------------------- two tiers, two routes

  function EndpointName(historical: bool): string {
    if historical then "historical_candlesticks" else "series_market_candlesticks"
  }

  /** One request for candles: how long each is, by which route, and over what time. */
  datatype Fetch = Fetch(period: int, historical: bool, start: int, end: int)

  /** What one tier asks: the live route, and behind an empty answer the historical one if allowed. */
  ghost function TierPlan(answer: Fetch -> seq<Candle>, allowHistorical: bool, period: int, start: int, end: int): seq<Fetch> {
    [Fetch(period, false, start, end)]
    + if allowHistorical && answer(Fetch(period, false, start, end)) == [] then [Fetch(period, true, start, end)] else []
  }

  /** What the whole search asks: minute candles over the last minutes, then hour candles over the
      last hours. */
  ghost function Plan(answer: Fetch -> seq<Candle>, allowHistorical: bool, cutoff: int, minutes: int, hours: int): seq<Fetch> {
    TierPlan(answer, allowHistorical, 1, cutoff - 60 * minutes, cutoff)
    + TierPlan(answer, allowHistorical, 60, cutoff - 3600 * hours, cutoff)
  }

  /** Minute candles first and then hour candles, the live route before the historical one, which
      is asked only when the live one is empty. `answer` is what each request returns. */
  method FetchAndResolve(answer: Fetch -> seq<Candle>, cutoff: Option<int>, lookbackMinutes: int, wideLookbackHours: int,
                         allowHistorical: bool, cutoffSource: Option<string>, maxGap: int, maxSpread: real)
    returns (res: ResolvedClose, asked: seq<Fetch>)
    requires forall f :: Series(answer(f))
    ensures Honest(res) && |asked| <= 4
    ensures cutoff.None? ==> res == Nothing("NO_CUTOFF_SUPPLIED", None) && asked == []
    ensures cutoff.Some? ==> res.cutoffSource == cutoffSource
    ensures cutoff.Some? ==>
      var plan := Plan(answer, allowHistorical, cutoff.value, lookbackMinutes, wideLookbackHours);
      asked <= plan && (res.quality != "TRUE_CLOSE" ==> asked == plan)
    ensures cutoff.Some? ==> Resolved(answer, cutoff, asked, maxGap, maxSpread, res)
  {
    if cutoff.None? {
      return Missing("NO_CUTOFF_SUPPLIED", None), [];
    }
    var best, found;
    asked, best, found := TryTiers(answer, cutoff, lookbackMinutes, wideLookbackHours, allowHistorical, maxGap, maxSpread);
    res := if best.Some? then best.value else Missing("NO_CANDLE_AT_OR_BEFORE_CUTOFF", cutoff);
    SourceApart(answer, cutoff, asked, maxGap, maxSpread, res, cutoffSource);
    res := res.(cutoffSource := cutoffSource);
  }

  /** What has been asked before the i-th tier. */
  ghost predicate Asked(answer: Fetch -> seq<Candle>, allowHistorical: bool, cutoff: int, minutes: int, hours: int, i: int,
                        asked: seq<Fetch>) {
    asked == if i == 0 then [] else if i == 1 then TierPlan(answer, allowHistorical, 1, cutoff - minutes * 60, cutoff)
             else Plan(answer, allowHistorical, cutoff, minutes, hours)
  }

  /** The two tiers: how long a candle is in minutes, and how many seconds back it looks. */
  function Tier(minutes: int, hours: int, i: int): (int, int) {
    if i == 0 then (1, minutes * 60) else (60, hours * 3600)
  }

  ghost function PlanAt(answer: Fetch -> seq<Candle>, allowHistorical: bool, cutoff: int, minutes: int, hours: int, i: int): seq<Fetch> {
    TierPlan(answer, allowHistorical, Tier(minutes, hours, i).0, cutoff - Tier(minutes, hours, i).1, cutoff)
  }

  lemma AskedNext(answer: Fetch -> seq<Candle>, allowHistorical: bool, cutoff: int, minutes: int, hours: int, i: int,
                  asked: seq<Fetch>, asked': seq<Fetch>)
    requires 0 <= i < 2 && Asked(answer, allowHistorical, cutoff, minutes, hours, i, asked)
    requires asked' <= asked + PlanAt(answer, allowHistorical, cutoff, minutes, hours, i)
    ensures asked' <= Plan(answer, allowHistorical, cutoff, minutes, hours)
    ensures asked' == asked + PlanAt(answer, allowHistorical, cutoff, minutes, hours, i) ==>
              Asked(answer, allowHistorical, cutoff, minutes, hours, i + 1, asked')
  {
    if i == 0 {
      var first := TierPlan(answer, allowHistorical, 1, cutoff - minutes * 60, cutoff);
      assert [] + first == first;
    }
  }

  lemma NothingYet(answer: Fetch -> seq<Candle>, cutoff: Option<int>, maxGap: int, maxSpread: real)
    ensures BestSoFar(answer, cutoff, [], maxGap, maxSpread, None)
  {
  }

  /** Before the i-th tier: what was asked, and the best of it. */
  ghost predicate Searching(answer: Fetch -> seq<Candle>, cutoff: Option<int>, minutes: int, hours: int, allowHistorical: bool,
                            maxGap: int, maxSpread: real, i: int, asked: seq<Fetch>, best: Option<ResolvedClose>) {
    && cutoff.Some? && Asked(answer, allowHistorical, cutoff.value, minutes, hours, i, asked)
    && BestSoFar(answer, cutoff, asked, maxGap, maxSpread, best)
  }

  /** A true close was found, on the way through the plan. */
  ghost predicate Found(answer: Fetch -> seq<Candle>, cutoff: Option<int>, minutes: int, hours: int, allowHistorical: bool,
                        maxGap: int, maxSpread: real, asked: seq<Fetch>, best: Option<ResolvedClose>) {
    && cutoff.Some? && best.Some? && Honest(best.value) && best.value.quality == TRUE_CLOSE
    && asked <= Plan(answer, allowHistorical, cutoff.value, minutes, hours)
    && Resolved(answer, cutoff, asked, maxGap, maxSpread, best.value)
  }

  method TryTiers(answer: Fetch -> seq<Candle>, cutoff: Option<int>, lookbackMinutes: int, wideLookbackHours: int,
                  allowHistorical: bool, maxGap: int, maxSpread: real)
    returns (asked: seq<Fetch>, best: Option<ResolvedClose>, found: bool)
    requires cutoff.Some? && forall f :: Series(answer(f))
    ensures found ==> Found(answer, cutoff, lookbackMinutes, wideLookbackHours, allowHistorical, maxGap, maxSpread, asked, best)
    ensures !found ==> Searching(answer, cutoff, lookbackMinutes, wideLookbackHours, allowHistorical, maxGap, maxSpread, 2, asked, best)
  {
    asked, best, found := [], None, false;
    NothingYet(answer, cutoff, maxGap, maxSpread);
    for i := 0 to 2
      invariant !found
      invariant Searching(answer, cutoff, lookbackMinutes, wideLookbackHours, allowHistorical, maxGap, maxSpread, i, asked, best)
    {
      asked, best, found :=
        TierAt(answer, cutoff, lookbackMinutes, wideLookbackHours, allowHistorical, maxGap, maxSpread, i, asked, best);
      if found {
        return;
      }
    }
  }

  /** The i-th tier, minutes and then hours. */
  method TierAt(answer: Fetch -> seq<Candle>, cutoff: Option<int>, lookbackMinutes: int, wideLookbackHours: int,
                allowHistorical: bool, maxGap: int, maxSpread: real, i: int, asked: seq<Fetch>, best: Option<ResolvedClose>)
    returns (asked': seq<Fetch>, best': Option<ResolvedClose>, found: bool)
    requires 0 <= i < 2 && forall f :: Series(answer(f))
    requires Searching(answer, cutoff, lookbackMinutes, wideLookbackHours, allowHistorical, maxGap, maxSpread, i, asked, best)
    ensures found ==> Found(answer, cutoff, lookbackMinutes, wideLookbackHours, allowHistorical, maxGap, maxSpread, asked', best')
    ensures !found ==>
      Searching(answer, cutoff, lookbackMinutes, wideLookbackHours, allowHistorical, maxGap, maxSpread, i + 1, asked', best')
  {
    var tier := Tier(lookbackMinutes, wideLookbackHours, i);
    asked', best', found := TryTier(answer, cutoff, asked, maxGap, maxSpread, best, tier.0, cutoff.value - tier.1, allowHistorical);
    AskedNext(answer, allowHistorical, cutoff.value, lookbackMinutes, wideLookbackHours, i, asked, asked');
  }

  /** One tier: the live route, and behind it the historical one if the live one is empty. */
  method TryTier(answer: Fetch -> seq<Candle>, cutoff: Option<int>, asked: seq<Fetch>, maxGap: int, maxSpread: real,
                 best: Option<ResolvedClose>, period: int, start: int, allowHistorical: bool)
    returns (asked': seq<Fetch>, best': Option<ResolvedClose>, found: bool)
    requires cutoff.Some? && forall f :: Series(answer(f))
    requires BestSoFar(answer, cutoff, asked, maxGap, maxSpread, best)
    ensures var plan := asked + TierPlan(answer, allowHistorical, period, start, cutoff.value);
            asked <= asked' <= plan && (!found ==> asked' == plan)
    ensures found ==> best'.Some? && Honest(best'.value) && best'.value.quality == TRUE_CLOSE
                      && Resolved(answer, cutoff, asked', maxGap, maxSpread, best'.value)
    ensures !found ==> BestSoFar(answer, cutoff, asked', maxGap, maxSpread, best')
  {
    var live := Fetch(period, false, start, cutoff.value);
    asked', best', found := TryFetch(answer, cutoff, asked, maxGap, maxSpread, best, live);
    if !found && allowHistorical && answer(live) == [] {
      asked', best', found := TryFetch(answer, cutoff, asked', maxGap, maxSpread, best', live.(historical := true));
      assert asked + [live] + [live.(historical := true)] == asked + [live, live.(historical := true)];
    }
  }

  lemma SourceApart(answer: Fetch -> seq<Candle>, cutoff: Option<int>, asked: seq<Fetch>, maxGap: int, maxSpread: real,
                    got: ResolvedClose, cutoffSource: Option<string>)
    requires Resolved(answer, cutoff, asked, maxGap, maxSpread, got)
             || (got == Nothing("NO_CANDLE_AT_OR_BEFORE_CUTOFF", cutoff) && BestSoFar(answer, cutoff, asked, maxGap, maxSpread, None))
             || (got.quality == EARLIER_QUOTE_PROXY && got.cutoffSource == None && BestSoFar(answer, cutoff, asked, maxGap, maxSpread, Some(got)))
    ensures Resolved(answer, cutoff, asked, maxGap, maxSpread, got.(cutoffSource := cutoffSource))
  {
    assert got.cutoffSource == None ==> got.(cutoffSource := None) == got;
  }

  /** One request. A true close ends the search; otherwise the best proxy so far is kept. */
  method TryFetch(answer: Fetch -> seq<Candle>, cutoff: Option<int>, asked: seq<Fetch>, maxGap: int, maxSpread: real,
                  best: Option<ResolvedClose>, f: Fetch)
    returns (asked': seq<Fetch>, best': Option<ResolvedClose>, found: bool)
    requires Series(answer(f)) && BestSoFar(answer, cutoff, asked, maxGap, maxSpread, best)
    ensures asked' == asked + [f]
    ensures found ==> best'.Some? && Honest(best'.value) && best'.value.quality == TRUE_CLOSE
                      && Resolved(answer, cutoff, asked', maxGap, maxSpread, best'.value)
    ensures !found ==> BestSoFar(answer, cutoff, asked', maxGap, maxSpread, best')
  {
    var got := Got(answer, cutoff, f, maxGap, maxSpread);
    asked' := asked + [f];
    found := got.quality == TRUE_CLOSE;
    best' := if found then Some(got) else Best(best, got);
    GotIsHonest(answer, cutoff, f, maxGap, maxSpread);
    ghost var gots := AllGot(answer, cutoff, asked, maxGap, maxSpread);
    assert AllGot(answer, cutoff, asked', maxGap, maxSpread) == gots + [got];
    if found {
      assert got.(cutoffSource := None) == got;
    } else {
      BestNext(gots, best, got);
    }
  }

  /** Where a close says it comes from. */
  lemma GotIsNamed(answer: Fetch -> seq<Candle>, cutoff: Option<int>, f: Fetch, maxGap: int, maxSpread: real)
    ensures var r := Got(answer, cutoff, f, maxGap, maxSpread);
      r.quality != "MISSING" ==>
        r.periodMinutes == Some(f.period) && r.cutoffTs == cutoff &&
        r.sourceEndpoint == Some(if f.historical then "historical_candlesticks" else "series_market_candlesticks")
  {
  }

  lemma GotIsHonest(answer: Fetch -> seq<Candle>, cutoff: Option<int>, f: Fetch, maxGap: int, maxSpread: real)
    requires Series(answer(f))
    ensures Honest(Got(answer, cutoff, f, maxGap, maxSpread)) && Got(answer, cutoff, f, maxGap, maxSpread).cutoffSource == None
  {
    ResolvedIsHonest(answer(f), cutoff, f.period, EndpointName(f.historical), maxGap, maxSpread);
  }

  /** The better of two proxies: the later one, the earlier found on a tie. */
  function Best(best: Option<ResolvedClose>, got: ResolvedClose): Option<ResolvedClose> {
    if got.quality == EARLIER_QUOTE_PROXY && got.asOfTs.Some?
       && (best.None? || best.value.asOfTs.None? || got.asOfTs.value > best.value.asOfTs.value)
    then Some(got) else best
  }

  function Got(answer: Fetch -> seq<Candle>, cutoff: Option<int>, f: Fetch, maxGap: int,
               maxSpread: real): ResolvedClose {
    ResolveClose(answer(f), cutoff, f.period, EndpointName(f.historical), maxGap, maxSpread)
  }

  function AllGot(answer: Fetch -> seq<Candle>, cutoff: Option<int>, asked: seq<Fetch>, maxGap: int,
                  maxSpread: real): seq<ResolvedClose> {
    seq(|asked|, i requires 0 <= i < |asked| => Got(answer, cutoff, asked[i], maxGap, maxSpread))
  }

  /** The k-th is the latest proxy, and the first found of those as late. */
  ghost predicate LatestAt(gots: seq<ResolvedClose>, best: ResolvedClose, k: int) {
    && 0 <= k < |gots| && gots[k] == best && best.asOfTs.Some?
    && forall i | 0 <= i < |gots| && gots[i].quality == "EARLIER_QUOTE_PROXY" ::
         gots[i].asOfTs.Some? && gots[i].asOfTs.value <= best.asOfTs.value && (i < k ==> gots[i].asOfTs.value < best.asOfTs.value)
  }

  /** None of these is a true close; `best` is the latest proxy among them, if there is one. */
  ghost predicate LatestProxy(gots: seq<ResolvedClose>, best: Option<ResolvedClose>) {
    && (forall i | 0 <= i < |gots| :: gots[i].quality != TRUE_CLOSE)
    && (best.None? ==> forall i | 0 <= i < |gots| :: gots[i].quality != EARLIER_QUOTE_PROXY)
    && (best.Some? ==>
          && best.value in gots && Honest(best.value) && best.value.quality == EARLIER_QUOTE_PROXY && best.value.cutoffSource == None
          && exists k :: LatestAt(gots, best.value, k))
  }

  ghost predicate BestSoFar(answer: Fetch -> seq<Candle>, cutoff: Option<int>, asked: seq<Fetch>, maxGap: int,
                            maxSpread: real, best: Option<ResolvedClose>) {
    LatestProxy(AllGot(answer, cutoff, asked, maxGap, maxSpread), best)
  }

  lemma BestNext(gots: seq<ResolvedClose>, best: Option<ResolvedClose>, got: ResolvedClose)
    requires LatestProxy(gots, best) && Honest(got) && got.quality != TRUE_CLOSE && got.cutoffSource == None
    ensures LatestProxy(gots + [got], Best(best, got))
  {
    var more := gots + [got];
    assert more[|gots|] == got;
    assert forall i | 0 <= i < |gots| :: more[i] == gots[i];
    if Best(best, got) == Some(got) && got.quality == EARLIER_QUOTE_PROXY && best != Some(got) {
      assert LatestAt(more, got, |gots|);
    } else if best.Some? {
      var k :| LatestAt(gots, best.value, k);
      assert LatestAt(more, best.value, k);
    }
  }

  /** The answer, cutoff source apart: the first true close, which ends the search; or else the
      latest proxy of all that was asked; or else missing. */
  ghost predicate Resolved(answer: Fetch -> seq<Candle>, cutoff: Option<int>, asked: seq<Fetch>, maxGap: int,
                           maxSpread: real, res: ResolvedClose) {
    var bare := res.(cutoffSource := None);
    if res.quality == TRUE_CLOSE then
      var gots := AllGot(answer, cutoff, asked, maxGap, maxSpread);
      && gots != [] && bare == gots[|gots| - 1]
      && forall i | 0 <= i < |gots| - 1 :: gots[i].quality != TRUE_CLOSE
    else if res.quality == MISSING then
      BestSoFar(answer, cutoff, asked, maxGap, maxSpread, None) && bare == Nothing("NO_CANDLE_AT_OR_BEFORE_CUTOFF", cutoff)
    else BestSoFar(answer, cutoff, asked, maxGap, maxSpread, Some(bare))
  }
}
