/** Reconciling reconstructed wagers against a destination's existing rows, read in that
    destination's own vocabulary, and why a second run through the grown ledger writes nothing. */
module Backfill {
  import opened Json
  import opened LedgerFile

  datatype Vocabulary = Vocabulary(sourceBetKey: string, marketTicker: string, side: string,
                                   stake: string, entryPrice: string)

  const ROUTED_VOCABULARY :=
    Vocabulary("source_bet_key", "market_ticker", "side", "stake", "execution_price")

  const LEDGER_VOCABULARIES := map[
    "MLB" := Vocabulary("sourceBetKey", "marketTicker", "side", "stake", "entryPrice"),
    "NFL" := Vocabulary("source_bet_key", "market_ticker", "side", "stake", "actual_price"),
    "CFB" := ROUTED_VOCABULARY, "NHL" := ROUTED_VOCABULARY, "NBA" := ROUTED_VOCABULARY,
    "SOCCER" := ROUTED_VOCABULARY, "TENNIS" := ROUTED_VOCABULARY]

  const STAKE_TOLERANCE := 0.01
  const PRICE_TOLERANCE := 0.005

  /** The two text operations of the platform: upper-casing, and reading a decimal. */
  datatype Text = Text(upper: string -> string, decimal: string -> Option<real>)

  datatype Wager = Wager(sport: string, sourceKey: string, marketTicker: Value, side: Value,
                         stake: Option<real>, vwapPrice: Option<real>)

  datatype LedgerRow = LedgerRow(sourceBetKey: Value, marketTicker: Value, side: Value, stake: Value, entryPrice: Value)

  datatype Verdict =
    EXACT_EXISTING | DUPLICATE_NOOP | MISSING_IMPORTABLE | AMBIGUOUS | CONFLICT | UNSUPPORTED_DESTINATION

  datatype Diagnostics = Diagnostics(ordersInWindow: nat, exactExisting: nat, duplicateNoop: nat, missingImportable: nat,
                                     ambiguous: nat, conflict: nat, unsupportedDestination: nat)
  {
    function Reconciled(): nat {
      exactExisting + duplicateNoop + missingImportable + ambiguous + conflict + unsupportedDestination
    }

    /** One more wager with this verdict. */
    function Count(v: Verdict): Diagnostics {
      match v
      case EXACT_EXISTING => this.(exactExisting := exactExisting + 1)
      case DUPLICATE_NOOP => this.(duplicateNoop := duplicateNoop + 1)
      case MISSING_IMPORTABLE => this.(missingImportable := missingImportable + 1)
      case AMBIGUOUS => this.(ambiguous := ambiguous + 1)
      case CONFLICT => this.(conflict := conflict + 1)
      case UNSUPPORTED_DESTINATION => this.(unsupportedDestination := unsupportedDestination + 1)
    }
  }

  type Ledgers = map<string, seq<Record>>

  function RowsOf(ledgers: Ledgers, sport: string): seq<Record> {
    if sport in ledgers then ledgers[sport] else []
  }

  function Normalize(v: Vocabulary, row: Record): LedgerRow {
    LedgerRow(Get(row, v.sourceBetKey), Get(row, v.marketTicker), Get(row, v.side), Get(row, v.stake), Get(row, v.entryPrice))
  }

  function NormalizeAll(v: Vocabulary, rows: seq<Record>): seq<LedgerRow> {
    seq(|rows|, i requires 0 <= i < |rows| => Normalize(v, rows[i]))
  }

  /** The market and side a position is on, ignoring case and surrounding space. */
  function KeyOf(t: Text, ticker: Value, side: Value): Option<(string, string)> {
    if ticker.Str? && !Blank(ticker.s) && side.Str? && !Blank(side.s)
    then Some((t.upper(Strip(ticker.s)), t.upper(Strip(side.s))))
    else None
  }

  function Decimal(t: Text, v: Value): Option<real> {
    match v
    case Num(n) => Some(n)
    case Str(s) => t.decimal(s)
    case _ => None
  }

  predicate Apart(a: Option<real>, b: Option<real>, tolerance: real) {
    a.Some? && b.Some? && (a.value - b.value > tolerance || b.value - a.value > tolerance)
  }

  predicate MateriallyDisagrees(t: Text, w: Wager, row: LedgerRow) {
    || Apart(w.stake, Decimal(t, row.stake), STAKE_TOLERANCE)
    || Apart(w.vwapPrice, Decimal(t, row.entryPrice), PRICE_TOLERANCE)
  }

  function Matching(t: Text, rows: seq<LedgerRow>, key: (string, string)): seq<LedgerRow> {
    if rows == [] then []
    else Matching(t, rows[..|rows| - 1], key) +
         if KeyOf(t, rows[|rows| - 1].marketTicker, rows[|rows| - 1].side) == Some(key) then [rows[|rows| - 1]] else []
  }

  predicate Holds(rows: seq<LedgerRow>, sourceKey: string) {
    exists i | 0 <= i < |rows| :: rows[i].sourceBetKey == Str(sourceKey)
  }

  /** One wager against the ledger's rows, once their vocabulary has been translated. */
  function Against(t: Text, w: Wager, key: (string, string), rows: seq<LedgerRow>): Verdict {
    if Holds(rows, w.sourceKey) then DUPLICATE_NOOP
    else
      var matches := Matching(t, rows, key);
      if matches == [] then MISSING_IMPORTABLE
      else if |matches| > 1 then AMBIGUOUS
      else if MateriallyDisagrees(t, w, matches[0]) then CONFLICT
      else EXACT_EXISTING
  }

  /** `Err` is the refusal to read a ledger whose vocabulary is unknown. */
  function ReconcileOne(t: Text, w: Wager, rows: seq<Record>, supported: set<string>): Result<Verdict> {
    if w.sport !in supported then Ok(UNSUPPORTED_DESTINATION)
    else
      var key := KeyOf(t, w.marketTicker, w.side);
      if key.None? then Ok(AMBIGUOUS)
      else if w.sport in LEDGER_VOCABULARIES then
        Ok(Against(t, w, key.value, NormalizeAll(LEDGER_VOCABULARIES[w.sport], rows)))
      else if rows == [] then Ok(MISSING_IMPORTABLE)
      else Err
  }

  function VerdictOf(t: Text, w: Wager, ledgers: Ledgers, supported: set<string>): Result<Verdict> {
    ReconcileOne(t, w, RowsOf(ledgers, w.sport), supported)
  }

  function CountOf(t: Text, ws: seq<Wager>, ledgers: Ledgers, supported: set<string>, v: Verdict): nat {
    if ws == [] then 0
    else CountOf(t, ws[..|ws| - 1], ledgers, supported, v) +
         if VerdictOf(t, ws[|ws| - 1], ledgers, supported) == Ok(v) then 1 else 0
  }

  /** The wagers a run may write. */
  function Importable(t: Text, ws: seq<Wager>, ledgers: Ledgers, supported: set<string>): seq<Wager> {
    if ws == [] then []
    else Importable(t, ws[..|ws| - 1], ledgers, supported) +
         if VerdictOf(t, ws[|ws| - 1], ledgers, supported) == Ok(MISSING_IMPORTABLE) then [ws[|ws| - 1]] else []
  }

  predicate ReadableOne(t: Text, w: Wager, ledgers: Ledgers, supported: set<string>) {
    VerdictOf(t, w, ledgers, supported).Ok?
  }

  predicate Readable(t: Text, ws: seq<Wager>, ledgers: Ledgers, supported: set<string>) {
    forall i | 0 <= i < |ws| :: ReadableOne(t, ws[i], ledgers, supported)
  }

  function Tallied(t: Text, ws: seq<Wager>, ledgers: Ledgers, supported: set<string>, orders: nat): Diagnostics {
    Diagnostics(orders,
      CountOf(t, ws, ledgers, supported, EXACT_EXISTING), CountOf(t, ws, ledgers, supported, DUPLICATE_NOOP),
      CountOf(t, ws, ledgers, supported, MISSING_IMPORTABLE), CountOf(t, ws, ledgers, supported, AMBIGUOUS),
      CountOf(t, ws, ledgers, supported, CONFLICT), CountOf(t, ws, ledgers, supported, UNSUPPORTED_DESTINATION))
  }

  lemma CountNext(t: Text, ws: seq<Wager>, i: nat, ledgers: Ledgers, supported: set<string>, v: Verdict)
    requires i < |ws|
    ensures CountOf(t, ws[..i + 1], ledgers, supported, v) ==
            CountOf(t, ws[..i], ledgers, supported, v) + if VerdictOf(t, ws[i], ledgers, supported) == Ok(v) then 1 else 0
  {
    assert ws[..i + 1][..i] == ws[..i];
  }

  lemma TalliedNext(t: Text, ws: seq<Wager>, i: nat, ledgers: Ledgers, supported: set<string>, orders: nat, v: Verdict)
    requires i < |ws| && VerdictOf(t, ws[i], ledgers, supported) == Ok(v)
    ensures Tallied(t, ws[..i + 1], ledgers, supported, orders) == Tallied(t, ws[..i], ledgers, supported, orders).Count(v)
  {
    CountNext(t, ws, i, ledgers, supported, EXACT_EXISTING);
    CountNext(t, ws, i, ledgers, supported, DUPLICATE_NOOP);
    CountNext(t, ws, i, ledgers, supported, MISSING_IMPORTABLE);
    CountNext(t, ws, i, ledgers, supported, AMBIGUOUS);
    CountNext(t, ws, i, ledgers, supported, CONFLICT);
    CountNext(t, ws, i, ledgers, supported, UNSUPPORTED_DESTINATION);
  }

  lemma ReadableNext(t: Text, ws: seq<Wager>, i: nat, ledgers: Ledgers, supported: set<string>)
    requires i < |ws|
    ensures Readable(t, ws[..i + 1], ledgers, supported) <==>
            Readable(t, ws[..i], ledgers, supported) && ReadableOne(t, ws[i], ledgers, supported)
  {
    assert forall j | 0 <= j < i :: ws[..i + 1][j] == ws[..i][j];
    assert ws[..i + 1][i] == ws[i];
  }

  lemma ImportableNext(t: Text, ws: seq<Wager>, i: nat, ledgers: Ledgers, supported: set<string>)
    requires i < |ws|
    ensures Importable(t, ws[..i + 1], ledgers, supported) == Importable(t, ws[..i], ledgers, supported) +
            if VerdictOf(t, ws[i], ledgers, supported) == Ok(MISSING_IMPORTABLE) then [ws[i]] else []
  {
    assert ws[..i + 1][..i] == ws[..i];
  }

  lemma CountSums(d: Diagnostics, v: Verdict)
    ensures d.Count(v).Reconciled() == d.Reconciled() + 1
  {
  }

  method Reconcile(t: Text, ws: seq<Wager>, ledgers: Ledgers, supported: set<string>, orders: nat)
    returns (res: Result<(seq<Wager>, Diagnostics)>)
    ensures res.Ok? <==> Readable(t, ws, ledgers, supported)
    ensures res.Ok? ==> res.value == (Importable(t, ws, ledgers, supported), Tallied(t, ws, ledgers, supported, orders))
    ensures res.Ok? ==> res.value.1.Reconciled() == |ws|
  {
    var d := Diagnostics(orders, 0, 0, 0, 0, 0, 0);
    var importable := [];
    for i := 0 to |ws|
      invariant Readable(t, ws[..i], ledgers, supported)
      invariant importable == Importable(t, ws[..i], ledgers, supported)
      invariant d == Tallied(t, ws[..i], ledgers, supported, orders)
      invariant d.Reconciled() == i
    {
      var verdict := VerdictOf(t, ws[i], ledgers, supported);
      if verdict.Err? {
        assert !ReadableOne(t, ws[i], ledgers, supported);
        return Err;
      }
      ReadableNext(t, ws, i, ledgers, supported);
      TalliedNext(t, ws, i, ledgers, supported, orders, verdict.value);
      ImportableNext(t, ws, i, ledgers, supported);
      CountSums(d, verdict.value);
      d := d.Count(verdict.value);
      if verdict.value == MISSING_IMPORTABLE {
        importable := importable + [ws[i]];
      }
    }
    assert ws[..|ws|] == ws;
    res := Ok((importable, d));
  }

  // ------------------------------------------------------------- the six verdicts

  const READABLE_SPORTS := {"MLB", "NFL", "CFB", "NHL", "NBA", "SOCCER", "TENNIS"}

  /** A text with something in it. */
  predicate Said(v: Value) {
    v.Str? && !Blank(v.s)
  }

  /** The row carries the wager's own source key. */
  predicate Carries(w: Wager, row: Record) {
    Get(row, if w.sport == "MLB" then "sourceBetKey" else "source_bet_key") == Str(w.sourceKey)
  }

  /** The row is on the wager's market and side, whatever the case and the space around. */
  predicate SamePosition(t: Text, w: Wager, row: Record) {
    var ticker, side := Get(row, if w.sport == "MLB" then "marketTicker" else "market_ticker"), Get(row, "side");
    && Said(ticker) && Said(side) && Said(w.marketTicker) && Said(w.side)
    && t.upper(Strip(ticker.s)) == t.upper(Strip(w.marketTicker.s)) && t.upper(Strip(side.s)) == t.upper(Strip(w.side.s))
  }

  predicate Reads(t: Text, v: Value, amount: real) {
    v == Num(amount) || (v.Str? && t.decimal(v.s) == Some(amount))
  }

  /** Both sides say an amount, and the two differ by more than this. */
  ghost predicate FarFrom(t: Text, ours: Option<real>, theirs: Value, tolerance: real) {
    ours.Some? && exists amount :: Reads(t, theirs, amount) && !(-tolerance <= ours.value - amount <= tolerance)
  }

  /** The recorded stake or entry price is not the wager's. */
  ghost predicate Disagrees(t: Text, w: Wager, row: Record) {
    var price := if w.sport == "MLB" then "entryPrice" else if w.sport == "NFL" then "actual_price" else "execution_price";
    FarFrom(t, w.stake, Get(row, "stake"), 0.01) || FarFrom(t, w.vwapPrice, Get(row, price), 0.005)
  }

  /** The vocabulary reads a row as these descriptions do. */
  lemma VocabularyReads(t: Text, w: Wager, row: Record)
    requires w.sport in LEDGER_VOCABULARIES
    ensures var r := Normalize(LEDGER_VOCABULARIES[w.sport], row);
      && (r.sourceBetKey == Str(w.sourceKey) <==> Carries(w, row))
      && (Said(w.marketTicker) && Said(w.side) ==>
            (KeyOf(t, r.marketTicker, r.side) == KeyOf(t, w.marketTicker, w.side) <==> SamePosition(t, w, row)))
      && (MateriallyDisagrees(t, w, r) <==> Disagrees(t, w, row))
  {
    VocabularyIs(w.sport);
    var r := Normalize(LEDGER_VOCABULARIES[w.sport], row);
    FarFromIff(t, w.stake, r.stake, 0.01);
    FarFromIff(t, w.vwapPrice, r.entryPrice, 0.005);
  }

  lemma VocabularyIs(sport: string)
    requires sport in LEDGER_VOCABULARIES
    ensures sport in READABLE_SPORTS
    ensures LEDGER_VOCABULARIES[sport] ==
      if sport == "MLB" then Vocabulary("sourceBetKey", "marketTicker", "side", "stake", "entryPrice")
      else Vocabulary("source_bet_key", "market_ticker", "side", "stake",
                      if sport == "NFL" then "actual_price" else "execution_price")
  {
  }

  lemma FarFromIff(t: Text, ours: Option<real>, theirs: Value, tolerance: real)
    ensures Apart(ours, Decimal(t, theirs), tolerance) <==> FarFrom(t, ours, theirs, tolerance)
  {
    if Decimal(t, theirs).Some? {
      assert Reads(t, theirs, Decimal(t, theirs).value);
    }
  }

  /** No row of the market, one, or more: which of the rows the matches are. */
  lemma {:induction false} MatchingIs(t: Text, rows: seq<LedgerRow>, key: (string, string))
    ensures Matching(t, rows, key) == [] <==> forall i | 0 <= i < |rows| :: KeyOf(t, rows[i].marketTicker, rows[i].side) != Some(key)
    ensures |Matching(t, rows, key)| > 1 <==>
      exists i, j :: 0 <= i < j < |rows| && KeyOf(t, rows[i].marketTicker, rows[i].side) == Some(key)
                     && KeyOf(t, rows[j].marketTicker, rows[j].side) == Some(key)
    ensures Matching(t, rows, key) != [] ==>
      exists i :: 0 <= i < |rows| && rows[i] == Matching(t, rows, key)[0] && KeyOf(t, rows[i].marketTicker, rows[i].side) == Some(key)
  {
    if rows != [] {
      var n := |rows| - 1;
      var before := Matching(t, rows[..n], key);
      MatchingIs(t, rows[..n], key);
      assert forall i | 0 <= i < n :: rows[..n][i] == rows[i];
      if before != [] {
        var i :| 0 <= i < n && rows[..n][i] == before[0] && KeyOf(t, rows[..n][i].marketTicker, rows[..n][i].side) == Some(key);
        assert rows[i] == before[0] && Matching(t, rows, key)[0] == before[0];
      }
    }
  }

  ghost predicate SomeCarries(w: Wager, rows: seq<Record>) {
    exists i :: 0 <= i < |rows| && Carries(w, rows[i])
  }

  ghost predicate NoneThere(t: Text, w: Wager, rows: seq<Record>) {
    forall i | 0 <= i < |rows| :: !SamePosition(t, w, rows[i])
  }

  ghost predicate TwoThere(t: Text, w: Wager, rows: seq<Record>) {
    exists i, j :: 0 <= i < j < |rows| && SamePosition(t, w, rows[i]) && SamePosition(t, w, rows[j])
  }

  /** Row `i` alone is on the wager's market and side. */
  ghost predicate OnlyThere(t: Text, w: Wager, rows: seq<Record>, i: int) {
    0 <= i < |rows| && SamePosition(t, w, rows[i]) && forall j | 0 <= j < |rows| && j != i :: !SamePosition(t, w, rows[j])
  }

  lemma AgainstIff(t: Text, w: Wager, rows: seq<Record>)
    requires w.sport in LEDGER_VOCABULARIES && Said(w.marketTicker) && Said(w.side)
    ensures var v := Against(t, w, KeyOf(t, w.marketTicker, w.side).value, NormalizeAll(LEDGER_VOCABULARIES[w.sport], rows));
      && (v == DUPLICATE_NOOP <==> SomeCarries(w, rows))
      && (v == MISSING_IMPORTABLE <==> !SomeCarries(w, rows) && NoneThere(t, w, rows))
      && (v == AMBIGUOUS <==> !SomeCarries(w, rows) && TwoThere(t, w, rows))
      && (v == CONFLICT <==> !SomeCarries(w, rows) && exists i :: OnlyThere(t, w, rows, i) && Disagrees(t, w, rows[i]))
      && (v == EXACT_EXISTING <==> !SomeCarries(w, rows) && exists i :: OnlyThere(t, w, rows, i) && !Disagrees(t, w, rows[i]))
      && v != UNSUPPORTED_DESTINATION
  {
    var key, all := KeyOf(t, w.marketTicker, w.side).value, NormalizeAll(LEDGER_VOCABULARIES[w.sport], rows);
    forall i | 0 <= i < |rows|
      ensures all[i].sourceBetKey == Str(w.sourceKey) <==> Carries(w, rows[i])
      ensures KeyOf(t, all[i].marketTicker, all[i].side) == Some(key) <==> SamePosition(t, w, rows[i])
      ensures MateriallyDisagrees(t, w, all[i]) <==> Disagrees(t, w, rows[i])
    {
      VocabularyReads(t, w, rows[i]);
    }
    HoldsIff(w, all, rows);
    MatchingIs(t, all, key);
    var matches := Matching(t, all, key);
    if |matches| == 1 {
      var i :| 0 <= i < |all| && all[i] == matches[0] && KeyOf(t, all[i].marketTicker, all[i].side) == Some(key);
      OneThere(t, w, rows, i);
    }
  }

  lemma HoldsIff(w: Wager, all: seq<LedgerRow>, rows: seq<Record>)
    requires |all| == |rows|
    requires forall i | 0 <= i < |rows| :: all[i].sourceBetKey == Str(w.sourceKey) <==> Carries(w, rows[i])
    ensures Holds(all, w.sourceKey) <==> SomeCarries(w, rows)
  {
    if i :| 0 <= i < |rows| && Carries(w, rows[i]) {
      assert all[i].sourceBetKey == Str(w.sourceKey);
    }
  }

  lemma OneThere(t: Text, w: Wager, rows: seq<Record>, i: int)
    requires 0 <= i < |rows| && SamePosition(t, w, rows[i]) && !TwoThere(t, w, rows)
    ensures OnlyThere(t, w, rows, i) && forall j | OnlyThere(t, w, rows, j) :: j == i
  {
    assert forall j | 0 <= j < |rows| && SamePosition(t, w, rows[j]) :: !(j < i) && !(i < j);
  }

  /** The verdict on any wager, exactly, in the words of the rows its sport's ledger holds. */
  lemma VerdictIff(t: Text, w: Wager, ledgers: Ledgers, supported: set<string>)
    ensures var v, rows := VerdictOf(t, w, ledgers, supported), RowsOf(ledgers, w.sport);
      var placed := w.sport in supported && Said(w.marketTicker) && Said(w.side);
      var readable := placed && w.sport in READABLE_SPORTS;
      && (v == Ok(UNSUPPORTED_DESTINATION) <==> w.sport !in supported)
      && (v == Ok(DUPLICATE_NOOP) <==> readable && SomeCarries(w, rows))
      && (v == Ok(MISSING_IMPORTABLE) <==>
            placed && if readable then !SomeCarries(w, rows) && NoneThere(t, w, rows) else rows == [])
      && (v == Ok(AMBIGUOUS) <==>
            || (w.sport in supported && !(Said(w.marketTicker) && Said(w.side)))
            || (readable && !SomeCarries(w, rows) && TwoThere(t, w, rows)))
      && (v == Ok(CONFLICT) <==>
            readable && !SomeCarries(w, rows) && exists i :: OnlyThere(t, w, rows, i) && Disagrees(t, w, rows[i]))
      && (v == Ok(EXACT_EXISTING) <==>
            readable && !SomeCarries(w, rows) && exists i :: OnlyThere(t, w, rows, i) && !Disagrees(t, w, rows[i]))
      && (v == Err <==> placed && !readable && rows != [])
  {
    KnownSports(w.sport);
    if w.sport in LEDGER_VOCABULARIES && Said(w.marketTicker) && Said(w.side) {
      AgainstIff(t, w, RowsOf(ledgers, w.sport));
    }
  }

  lemma KnownSports(sport: string)
    ensures sport in LEDGER_VOCABULARIES <==> sport in READABLE_SPORTS
  {
  }

  // ------------------------------------------------------------- the second run

  /** The destination's importer writes a wager under its own source key, on its own market and
      side, in the destination's vocabulary. */
  ghost predicate WritesFaithfully(t: Text, write: Wager -> Record) {
    forall w: Wager {:trigger write(w)} :: w.sport in LEDGER_VOCABULARIES ==>
      var row := Normalize(LEDGER_VOCABULARIES[w.sport], write(w));
      row.sourceBetKey == Str(w.sourceKey) && KeyOf(t, row.marketTicker, row.side) == KeyOf(t, w.marketTicker, w.side)
  }

  /** The rows a sport's ledger gains when these wagers are written. */
  function Written(write: Wager -> Record, ws: seq<Wager>, sport: string): seq<Record> {
    if ws == [] then []
    else Written(write, ws[..|ws| - 1], sport) + if ws[|ws| - 1].sport == sport then [write(ws[|ws| - 1])] else []
  }

  /** Every ledger, after the run's importable wagers were written to it. */
  ghost predicate GrownBy(write: Wager -> Record, before: Ledgers, after: Ledgers, ws: seq<Wager>) {
    forall sport :: RowsOf(after, sport) == RowsOf(before, sport) + Written(write, ws, sport)
  }

  lemma {:induction false} HoldsWritten(t: Text, write: Wager -> Record, ws: seq<Wager>, sport: string,
                                sourceKey: string)
    requires WritesFaithfully(t, write) && sport in LEDGER_VOCABULARIES
    ensures Holds(NormalizeAll(LEDGER_VOCABULARIES[sport], Written(write, ws, sport)), sourceKey) <==> SomeWith(ws, sport, sourceKey)
  {
    if ws != [] {
      var n, v := |ws| - 1, LEDGER_VOCABULARIES[sport];
      HoldsWritten(t, write, ws[..n], sport, sourceKey);
      SomeOf(ws, sport, sourceKey);
      var before := NormalizeAll(v, Written(write, ws[..n], sport));
      if ws[n].sport == sport {
        var row := Normalize(v, write(ws[n]));
        assert NormalizeAll(v, Written(write, ws, sport)) == before + [row];
        HoldsConcat(before, [row], sourceKey);
        assert [row][0].sourceBetKey == Str(ws[n].sourceKey);
      } else {
        assert Written(write, ws, sport) == Written(write, ws[..n], sport);
      }
    }
  }

  ghost predicate SomeWith(ws: seq<Wager>, sport: string, sourceKey: string) {
    exists i :: 0 <= i < |ws| && ws[i].sport == sport && ws[i].sourceKey == sourceKey
  }

  lemma SomeOf(ws: seq<Wager>, sport: string, sourceKey: string)
    requires ws != []
    ensures SomeWith(ws, sport, sourceKey) <==>
            (ws[|ws| - 1].sport == sport && ws[|ws| - 1].sourceKey == sourceKey) || SomeWith(ws[..|ws| - 1], sport, sourceKey)
  {
    var n := |ws| - 1;
    assert forall i | 0 <= i < n :: ws[..n][i] == ws[i];
    if i :| 0 <= i < |ws| && ws[i].sport == sport && ws[i].sourceKey == sourceKey {
      if i < n { assert ws[..n][i] == ws[i]; }
    }
  }

  lemma HoldsConcat(a: seq<LedgerRow>, b: seq<LedgerRow>, sourceKey: string)
    ensures Holds(a + b, sourceKey) <==> Holds(a, sourceKey) || Holds(b, sourceKey)
  {
    if Holds(b, sourceKey) {
      var i :| 0 <= i < |b| && b[i].sourceBetKey == Str(sourceKey);
      assert (a + b)[|a| + i] == b[i];
    }
    if Holds(a, sourceKey) {
      var i :| 0 <= i < |a| && a[i].sourceBetKey == Str(sourceKey);
      assert (a + b)[i] == a[i];
    }
  }

  lemma {:induction false} MatchingConcat(t: Text, a: seq<LedgerRow>, b: seq<LedgerRow>, key: (string, string))
    ensures Matching(t, a + b, key) == Matching(t, a, key) + Matching(t, b, key)
  {
    if b == [] {
      assert a + b == a;
    } else {
      assert (a + b)[..|a + b| - 1] == a + b[..|b| - 1];
      MatchingConcat(t, a, b[..|b| - 1], key);
    }
  }

  /** No wager of `ws` on this market and side means no written row matches it. */
  lemma {:induction false} MatchingWritten(t: Text, write: Wager -> Record, ws: seq<Wager>, sport: string,
                                key: (string, string))
    requires WritesFaithfully(t, write) && sport in LEDGER_VOCABULARIES
    requires forall i | 0 <= i < |ws| :: ws[i].sport == sport ==> KeyOf(t, ws[i].marketTicker, ws[i].side) != Some(key)
    ensures Matching(t, NormalizeAll(LEDGER_VOCABULARIES[sport], Written(write, ws, sport)), key) == []
  {
    if ws != [] {
      var n, v := |ws| - 1, LEDGER_VOCABULARIES[sport];
      assert forall i | 0 <= i < n :: ws[..n][i] == ws[i];
      MatchingWritten(t, write, ws[..n], sport, key);
      var before, after := NormalizeAll(v, Written(write, ws[..n], sport)), NormalizeAll(v, Written(write, ws, sport));
      if ws[n].sport == sport {
        var row := Normalize(v, write(ws[n]));
        assert after == before + [row];
        assert (before + [row])[..|before|] == before;
      } else {
        assert Written(write, ws, sport) == Written(write, ws[..n], sport);
      }
    }
  }

  lemma {:induction false} ImportableIsMissing(t: Text, ws: seq<Wager>, ledgers: Ledgers, supported: set<string>)
    ensures forall i | 0 <= i < |Importable(t, ws, ledgers, supported)| ::
              VerdictOf(t, Importable(t, ws, ledgers, supported)[i], ledgers, supported) == Ok(MISSING_IMPORTABLE)
    ensures forall w | w in ws && VerdictOf(t, w, ledgers, supported) == Ok(MISSING_IMPORTABLE) ::
              w in Importable(t, ws, ledgers, supported)
    ensures forall w | w in Importable(t, ws, ledgers, supported) :: w in ws
  {
    if ws != [] {
      var n := |ws| - 1;
      ImportableIsMissing(t, ws[..n], ledgers, supported);
      assert ws == ws[..n] + [ws[n]];
    }
  }

  /** Some wager the first run writes carries this wager's source key, for this wager's sport. */
  ghost predicate Shadowed(t: Text, w: Wager, ws: seq<Wager>, ledgers: Ledgers, supported: set<string>) {
    exists i :: 0 <= i < |ws| && ws[i].sport == w.sport && ws[i].sourceKey == w.sourceKey
                && VerdictOf(t, ws[i], ledgers, supported) == Ok(MISSING_IMPORTABLE)
  }

  /** The second verdict on any wager, exactly. What was written is recognised by its source key;
      everything else is judged as before, although rows may now share its market and side. */
  lemma SecondVerdict(t: Text, write: Wager -> Record, w: Wager, ws: seq<Wager>, before: Ledgers, after: Ledgers,
                      supported: set<string>)
    requires WritesFaithfully(t, write) && GrownBy(write, before, after, Importable(t, ws, before, supported))
    requires w in ws && VerdictOf(t, w, before, supported).Ok? && w.sport in LEDGER_VOCABULARIES
    ensures VerdictOf(t, w, after, supported) ==
      if w.sport in supported && KeyOf(t, w.marketTicker, w.side).Some? && Shadowed(t, w, ws, before, supported)
      then Ok(DUPLICATE_NOOP) else VerdictOf(t, w, before, supported)
  {
    var written := Importable(t, ws, before, supported);
    if w.sport in supported && KeyOf(t, w.marketTicker, w.side).Some? {
      var key, v := KeyOf(t, w.marketTicker, w.side).value, LEDGER_VOCABULARIES[w.sport];
      var rows, more := RowsOf(before, w.sport), Written(write, written, w.sport);
      SplitRows(v, rows, more);
      HoldsWritten(t, write, written, w.sport, w.sourceKey);
      ShadowedIff(t, w, ws, before, supported);
      if !Shadowed(t, w, ws, before, supported) && !Holds(NormalizeAll(v, rows), w.sourceKey) {
        OthersLeaveItsMarket(t, write, w, ws, before, supported, key);
      }
      AgainstMore(t, w, key, NormalizeAll(v, rows), NormalizeAll(v, more));
      JudgedAgainst(t, w, before, supported, rows);
      JudgedAgainst(t, w, after, supported, rows + more);
    }
  }

  lemma SplitRows(v: Vocabulary, a: seq<Record>, b: seq<Record>)
    ensures NormalizeAll(v, a + b) == NormalizeAll(v, a) + NormalizeAll(v, b)
  {
  }

  lemma JudgedAgainst(t: Text, w: Wager, ledgers: Ledgers, supported: set<string>, rows: seq<Record>)
    requires w.sport in supported && w.sport in LEDGER_VOCABULARIES && KeyOf(t, w.marketTicker, w.side).Some?
    requires rows == RowsOf(ledgers, w.sport)
    ensures VerdictOf(t, w, ledgers, supported) ==
            Ok(Against(t, w, KeyOf(t, w.marketTicker, w.side).value, NormalizeAll(LEDGER_VOCABULARIES[w.sport], rows)))
  {
  }

  /** Rows added to a ledger change a verdict only by carrying the wager's own source key, as long
      as none of them is on its market and side. */
  lemma AgainstMore(t: Text, w: Wager, key: (string, string), rows: seq<LedgerRow>, more: seq<LedgerRow>)
    requires Holds(more, w.sourceKey) || Holds(rows, w.sourceKey) || Matching(t, more, key) == []
    ensures Against(t, w, key, rows + more) == if Holds(more, w.sourceKey) then DUPLICATE_NOOP else Against(t, w, key, rows)
  {
    HoldsConcat(rows, more, w.sourceKey);
    MatchingConcat(t, rows, more, key);
    assert Matching(t, rows, key) + [] == Matching(t, rows, key);
  }

  lemma ShadowedIff(t: Text, w: Wager, ws: seq<Wager>, before: Ledgers, supported: set<string>)
    ensures var written := Importable(t, ws, before, supported);
      Shadowed(t, w, ws, before, supported) <==> SomeWith(written, w.sport, w.sourceKey)
  {
    var written := Importable(t, ws, before, supported);
    ImportableIsMissing(t, ws, before, supported);
    if Shadowed(t, w, ws, before, supported) {
      var i :| 0 <= i < |ws| && ws[i].sport == w.sport && ws[i].sourceKey == w.sourceKey
               && VerdictOf(t, ws[i], before, supported) == Ok(MISSING_IMPORTABLE);
      assert ws[i] in written;
      var j :| 0 <= j < |written| && written[j] == ws[i];
    }
    if j :| 0 <= j < |written| && written[j].sport == w.sport && written[j].sourceKey == w.sourceKey {
      assert written[j] in ws;
      var i :| 0 <= i < |ws| && ws[i] == written[j];
    }
  }

  /** A wager that was not missing had a row on its market and side, so no wager there was
      written; one that was missing is written itself. */
  lemma OthersLeaveItsMarket(t: Text, write: Wager -> Record, w: Wager, ws: seq<Wager>, before: Ledgers,
                             supported: set<string>,
                             key: (string, string))
    requires WritesFaithfully(t, write) && w in ws && w.sport in supported && w.sport in LEDGER_VOCABULARIES
    requires KeyOf(t, w.marketTicker, w.side) == Some(key)
    requires !Shadowed(t, w, ws, before, supported)
    requires !Holds(NormalizeAll(LEDGER_VOCABULARIES[w.sport], RowsOf(before, w.sport)), w.sourceKey)
    ensures Matching(t, NormalizeAll(LEDGER_VOCABULARIES[w.sport], Written(write, Importable(t, ws, before, supported), w.sport)), key) == []
  {
    var written := Importable(t, ws, before, supported);
    ImportableIsMissing(t, ws, before, supported);
    var at :| 0 <= at < |ws| && ws[at] == w;
    assert VerdictOf(t, w, before, supported) != Ok(MISSING_IMPORTABLE);
    forall i | 0 <= i < |written| && written[i].sport == w.sport
      ensures KeyOf(t, written[i].marketTicker, written[i].side) != Some(key)
    {
      assert VerdictOf(t, written[i], before, supported) == Ok(MISSING_IMPORTABLE);
    }
    MatchingWritten(t, write, written, w.sport, key);
  }

  /** Source keys identify wagers within a sport. */
  ghost predicate DistinctKeys(ws: seq<Wager>) {
    forall i, j :: 0 <= i < j < |ws| && ws[i].sport == ws[j].sport ==> ws[i].sourceKey != ws[j].sourceKey
  }

  /** Backfill is idempotent through the ledger it grows: what the first run wrote is a duplicate,
      every other wager gets the same verdict again, even when wagers share a market and side. */
  lemma BackfillIsIdempotent(t: Text, write: Wager -> Record, w: Wager, ws: seq<Wager>, before: Ledgers,
                             after: Ledgers, supported: set<string>)
    requires WritesFaithfully(t, write) && GrownBy(write, before, after, Importable(t, ws, before, supported))
    requires DistinctKeys(ws) && w in ws && VerdictOf(t, w, before, supported).Ok? && w.sport in LEDGER_VOCABULARIES
    ensures VerdictOf(t, w, after, supported) ==
      if VerdictOf(t, w, before, supported) == Ok(MISSING_IMPORTABLE) then Ok(DUPLICATE_NOOP) else VerdictOf(t, w, before, supported)
  {
    SecondVerdict(t, write, w, ws, before, after, supported);
    var at :| 0 <= at < |ws| && ws[at] == w;
    if Shadowed(t, w, ws, before, supported) {
      var i :| 0 <= i < |ws| && ws[i].sport == w.sport && ws[i].sourceKey == w.sourceKey
               && VerdictOf(t, ws[i], before, supported) == Ok(MISSING_IMPORTABLE);
      assert i == at;
    }
  }

  /** The second run reads every ledger if and only if the first wrote only to ledgers whose
      vocabulary is known: an unknown one is readable only while it is empty. */
  lemma SecondRunReadsIff(t: Text, write: Wager -> Record, ws: seq<Wager>, before: Ledgers, after: Ledgers,
                          supported: set<string>)
    requires WritesFaithfully(t, write) && GrownBy(write, before, after, Importable(t, ws, before, supported))
    requires Readable(t, ws, before, supported)
    ensures Readable(t, ws, after, supported) <==>
      forall w | w in Importable(t, ws, before, supported) :: w.sport in LEDGER_VOCABULARIES
  {
    var written := Importable(t, ws, before, supported);
    ImportableIsMissing(t, ws, before, supported);
    if w :| w in written && w.sport !in LEDGER_VOCABULARIES {
      WrittenIsUnreadable(t, write, w, ws, before, after, supported);
    } else {
      forall i | 0 <= i < |ws| ensures ReadableOne(t, ws[i], after, supported) {
        assert ws[i] in ws && ReadableOne(t, ws[i], before, supported);
        assert ws[i] in written ==> ws[i].sport in LEDGER_VOCABULARIES;
        assert VerdictOf(t, ws[i], before, supported) == Ok(MISSING_IMPORTABLE) ==> ws[i] in written;
        StillReadable(t, ws[i], before, after, supported);
      }
    }
  }

  lemma StillReadable(t: Text, w: Wager, before: Ledgers, after: Ledgers, supported: set<string>)
    requires VerdictOf(t, w, before, supported).Ok?
    requires VerdictOf(t, w, before, supported) == Ok(MISSING_IMPORTABLE) ==> w.sport in LEDGER_VOCABULARIES
    ensures VerdictOf(t, w, after, supported).Ok?
  {
  }

  lemma WrittenIsUnreadable(t: Text, write: Wager -> Record, w: Wager, ws: seq<Wager>, before: Ledgers,
                            after: Ledgers, supported: set<string>)
    requires GrownBy(write, before, after, Importable(t, ws, before, supported))
    requires w in Importable(t, ws, before, supported) && w.sport !in LEDGER_VOCABULARIES
    ensures !Readable(t, ws, after, supported)
  {
    var written := Importable(t, ws, before, supported);
    ImportableIsMissing(t, ws, before, supported);
    var j :| 0 <= j < |written| && written[j] == w;
    WrittenSome(write, written, w.sport, j);
    assert RowsOf(after, w.sport) != [];
    var i :| 0 <= i < |ws| && ws[i] == w;
    assert !ReadableOne(t, ws[i], after, supported);
  }

  lemma {:induction false} WrittenSome(write: Wager -> Record, ws: seq<Wager>, sport: string, j: nat)
    requires j < |ws| && ws[j].sport == sport
    ensures Written(write, ws, sport) != []
  {
    if j < |ws| - 1 {
      WrittenSome(write, ws[..|ws| - 1], sport, j);
    }
  }

  /** The second run imports nothing. */
  lemma SecondRunImportsNothing(t: Text, write: Wager -> Record, ws: seq<Wager>, before: Ledgers, after: Ledgers,
                                supported: set<string>)
    requires WritesFaithfully(t, write) && GrownBy(write, before, after, Importable(t, ws, before, supported))
    requires DistinctKeys(ws) && Readable(t, ws, before, supported) && Readable(t, ws, after, supported)
    ensures Importable(t, ws, after, supported) == []
  {
    SecondRunReadsIff(t, write, ws, before, after, supported);
    ImportableIsMissing(t, ws, before, supported);
    ImportableIsMissing(t, ws, after, supported);
    var again := Importable(t, ws, after, supported);
    if again != [] {
      var w := again[0];
      assert w in ws;
      if w.sport in LEDGER_VOCABULARIES {
        var i :| 0 <= i < |ws| && ws[i] == w;
        BackfillIsIdempotent(t, write, w, ws, before, after, supported);
      } else {
        UnknownStaysMissing(t, write, w, ws, before, after, supported);
      }
    }
  }

  lemma UnknownStaysMissing(t: Text, write: Wager -> Record, w: Wager, ws: seq<Wager>, before: Ledgers,
                            after: Ledgers, supported: set<string>)
    requires GrownBy(write, before, after, Importable(t, ws, before, supported))
    requires w.sport !in LEDGER_VOCABULARIES && VerdictOf(t, w, after, supported) == Ok(MISSING_IMPORTABLE)
    ensures VerdictOf(t, w, before, supported) == Ok(MISSING_IMPORTABLE)
  {
  }
}
