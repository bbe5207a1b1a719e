/** The routed accounting ledger: which rows are valid, how they become records, and the two
    importers with the files they append to. */
module RoutedLedger {
  import opened Json
  import opened Importer
  import opened LedgerFile

  const ECONOMICS_V2 := "router-settlement-economics.v2"
  const ENTRY_METHOD := "IMPORTED_RECEIPT"
  const VENUE := "kalshi"
  const MONEY_TOLERANCE := 0.000000001

  const WAGER_REQUIRED := {
    "source_bet_key", "import_batch_id", "entry_method", "game_date", "market_ticker", "side",
    "executed_at", "contracts", "stake", "fees_paid", "fees_are_estimated", "venue"}
  const WAGER_INPUT_FIELDS := WAGER_REQUIRED + {"execution_price", "actual_price", "fee_state", "execution_action"}
  const WAGER_CANONICAL_FIELDS := [
    "entry_method", "game_date", "market_ticker", "side", "executed_at", "contracts",
    "execution_price", "stake", "fees_paid", "fees_are_estimated", "venue"]
  const SETTLEMENT_CANONICAL_FIELDS := [
    "market_ticker", "side", "settlement_status", "settled_at", "result",
    "gross_return", "net_profit_loss", "refusals", "venue", "economics_version"]
  const SETTLEMENT_REQUIRED := {
    "source_bet_key", "market_ticker", "side", "settlement_status", "settled_at", "refusals", "venue"}
  const SETTLEMENT_INPUT_FIELDS := SETTLEMENT_REQUIRED + {"result", "gross_return", "net_profit_loss", "economics_version"}

  /** One destination's ledger. The last four are the tests the ledger makes of text alone: the
      hash an id is minted from, and the patterns of a provenance field, a date and a zoned
      timestamp. */
  datatype LedgerSpec = LedgerSpec(
    idPrefix: string, wagerSchema: string, settlementSchema: string,
    digest: string -> string,
    isProvenance: string -> bool,
    isDate: string -> bool,
    isAwareTimestamp: string -> bool)

  function MintWagerId(spec: LedgerSpec, key: string): string {
    spec.idPrefix + "w-" + spec.digest(key)
  }

  function MintSettlementId(spec: LedgerSpec, key: string): string {
    spec.idPrefix + "s-" + spec.digest(key)
  }

  predicate Nonempty(v: Value) {
    v.Str? && !Blank(v.s)
  }

  function Abs(x: real): real {
    if x < 0.0 then -x else x
  }

  predicate CarriesProvenance(spec: LedgerSpec, rec: Record) {
    exists f | f in rec :: spec.isProvenance(f)
  }

  predicate WagerTextsOk(spec: LedgerSpec, rec: Record) {
    && Nonempty(Get(rec, "wager_id")) && Nonempty(Get(rec, "source_bet_key"))
    && Nonempty(Get(rec, "import_batch_id")) && Nonempty(Get(rec, "market_ticker"))
    && Nonempty(Get(rec, "game_date")) && Nonempty(Get(rec, "executed_at"))
    && Get(rec, "schema_version") == Str(spec.wagerSchema)
    && Get(rec, "wager_id") == Str(MintWagerId(spec, Get(rec, "source_bet_key").s))
    && Get(rec, "entry_method") == Str(ENTRY_METHOD)
    && (Get(rec, "side") == Str("YES") || Get(rec, "side") == Str("NO"))
    && spec.isDate(Get(rec, "game_date").s)
    && spec.isAwareTimestamp(Get(rec, "executed_at").s)
    && Get(rec, "fees_are_estimated") == Bool(false)
    && Get(rec, "venue") == Str(VENUE)
    && (Get(rec, "execution_action") == Null || Get(rec, "execution_action") == Str("BUY")
        || Get(rec, "execution_action") == Str("SELL"))
  }

  predicate WagerNumbersOk(rec: Record) {
    var c, px := Get(rec, "contracts"), Get(rec, "execution_price");
    var st, fee := Get(rec, "stake"), Get(rec, "fees_paid");
    && c.Num? && c.n > 0.0
    && px.Num? && 0.0 < px.n < 1.0
    && st.Num? && st.n > 0.0
    && fee.Num? && fee.n >= 0.0
    && Abs(st.n - (c.n * px.n + fee.n)) <= 0.000001 * (if st.n > 1.0 then st.n else 1.0)
  }

  predicate ValidWager(spec: LedgerSpec, rec: Record) {
    !CarriesProvenance(spec, rec) && WagerTextsOk(spec, rec) && WagerNumbersOk(rec)
  }

  predicate AbsentOrNumber(v: Value) {
    v.Null? || v.Num?
  }

  predicate SettlementTextsOk(spec: LedgerSpec, rec: Record) {
    && Nonempty(Get(rec, "settlement_id")) && Nonempty(Get(rec, "source_bet_key"))
    && Nonempty(Get(rec, "market_ticker")) && Nonempty(Get(rec, "settled_at"))
    && Get(rec, "schema_version") == Str(spec.settlementSchema)
    && Get(rec, "settlement_id") == Str(MintSettlementId(spec, Get(rec, "source_bet_key").s))
    && (Get(rec, "side") == Str("YES") || Get(rec, "side") == Str("NO"))
    && Get(rec, "settlement_status") == Str("SETTLED")
    && spec.isAwareTimestamp(Get(rec, "settled_at").s)
    && (Get(rec, "result") == Str("WON") || Get(rec, "result") == Str("LOST") || Get(rec, "result") == Null)
    && Get(rec, "economics_version") == Str(ECONOMICS_V2)
    && Get(rec, "venue") == Str(VENUE)
  }

  predicate SettlementMoneyOk(rec: Record) {
    var g, n, refusals := Get(rec, "gross_return"), Get(rec, "net_profit_loss"), Get(rec, "refusals");
    && refusals.List? && (forall i | 0 <= i < |refusals.items| :: refusals.items[i].Str?)
    && AbsentOrNumber(g) && AbsentOrNumber(n)
    && (g.Num? ==> g.n >= 0.0)
    && ((g.Num? && n.Num?) <==> refusals.items == [])
  }

  predicate ValidSettlement(spec: LedgerSpec, rec: Record) {
    !CarriesProvenance(spec, rec) && SettlementTextsOk(spec, rec) && SettlementMoneyOk(rec)
  }

  // ------------------------------------------------------------- rows become records

  function BuildWager(spec: LedgerSpec, row: Value): Option<Record> {
    if !row.Obj? || CarriesProvenance(spec, row.fields) || !(row.fields.Keys <= WAGER_INPUT_FIELDS)
       || !(WAGER_REQUIRED <= row.fields.Keys)
       || ("execution_price" in row.fields) == ("actual_price" in row.fields)
       || !Nonempty(Get(row.fields, "source_bet_key")) then None
    else
      var price := if "execution_price" in row.fields then row.fields["execution_price"] else row.fields["actual_price"];
      var kept := map f | f in row.fields && f != "actual_price" :: row.fields[f];
      var rec := kept["execution_price" := price]
                     ["wager_id" := Str(MintWagerId(spec, row.fields["source_bet_key"].s))]
                     ["schema_version" := Str(spec.wagerSchema)];
      if ValidWager(spec, rec) then Some(rec) else None
  }

  function BuildSettlement(spec: LedgerSpec, row: Value): Option<Record> {
    if !row.Obj? || CarriesProvenance(spec, row.fields) || !(row.fields.Keys <= SETTLEMENT_INPUT_FIELDS)
       || !(SETTLEMENT_REQUIRED <= row.fields.Keys)
       || !Nonempty(Get(row.fields, "source_bet_key")) then None
    else
      var rec := (map f | f in SETTLEMENT_INPUT_FIELDS :: Get(row.fields, f))
                     ["settlement_id" := Str(MintSettlementId(spec, row.fields["source_bet_key"].s))]
                     ["schema_version" := Str(spec.settlementSchema)];
      if ValidSettlement(spec, rec) then Some(rec) else None
  }

  predicate Differs(a: Value, b: Value) {
    if a.Num? && b.Num? then Abs(a.n - b.n) > MONEY_TOLERANCE else !Equal(a, b)
  }

  function ConflictingFields(stored: Record, incoming: Record, fields: seq<string>): seq<string> {
    if fields == [] then []
    else (if Differs(Get(stored, fields[0]), Get(incoming, fields[0])) then [fields[0]] else [])
         + ConflictingFields(stored, incoming, fields[1..])
  }

  function KeyOf(rec: Record): Option<string> {
    if Get(rec, "source_bet_key").Str? then Some(Get(rec, "source_bet_key").s) else None
  }

  function ShownKey(row: Value): Option<string> {
    if row.Obj? then KeyOf(row.fields) else None
  }

  function WagerImporter(spec: LedgerSpec, batch: Option<string>): Importer<string> {
    Importer(
      (row: Value, clock: int) =>
        if batch.Some? && row.Obj? && Get(row.fields, "import_batch_id") != Str(batch.value) then None
        else
          var rec := BuildWager(spec, row);
          if rec.None? then None
          else Some(Built(Get(rec.value, "source_bet_key").s, Get(rec.value, "wager_id").s, rec.value)),
      KeyOf,
      (stored: Record, incoming: Record) => ConflictingFields(stored, incoming, WAGER_CANONICAL_FIELDS),
      ShownKey)
  }

  /** The wager a settlement claims to settle is on the ledger, with the same market and side. */
  predicate Settles(spec: LedgerSpec, wagers: seq<Record>, settlement: Record) {
    Get(settlement, "source_bet_key").Str? &&
    var wager := Lookup(WagerImporter(spec, None), wagers, Get(settlement, "source_bet_key").s);
    && wager.Some?
    && Equal(Get(wager.value, "market_ticker"), Get(settlement, "market_ticker"))
    && Equal(Get(wager.value, "side"), Get(settlement, "side"))
  }

  function SettlementImporter(spec: LedgerSpec, wagers: seq<Record>): Importer<string> {
    Importer(
      (row: Value, clock: int) =>
        var rec := BuildSettlement(spec, row);
        if rec.None? || !Settles(spec, wagers, rec.value) then None
        else Some(Built(Get(rec.value, "source_bet_key").s, Get(rec.value, "settlement_id").s, rec.value)),
      KeyOf,
      (stored: Record, incoming: Record) => ConflictingFields(stored, incoming, SETTLEMENT_CANONICAL_FIELDS),
      ShownKey)
  }

  // ------------------------------------------------------------- the importers keep the contract

  lemma {:induction false} NoConflictWithItself(rec: Record, fields: seq<string>)
    ensures ConflictingFields(rec, rec, fields) == []
  {
    if fields != [] {
      EqualReflexive(Get(rec, fields[0]));
      NoConflictWithItself(rec, fields[1..]);
    }
  }

  lemma WagerImporterLawful(spec: LedgerSpec, batch: Option<string>)
    ensures Lawful(WagerImporter(spec, batch))
  {
    forall rec: Record ensures ConflictingFields(rec, rec, WAGER_CANONICAL_FIELDS) == [] {
      NoConflictWithItself(rec, WAGER_CANONICAL_FIELDS);
    }
  }

  lemma SettlementImporterLawful(spec: LedgerSpec, wagers: seq<Record>)
    ensures Lawful(SettlementImporter(spec, wagers))
  {
    forall rec: Record ensures ConflictingFields(rec, rec, SETTLEMENT_CANONICAL_FIELDS) == [] {
      NoConflictWithItself(rec, SETTLEMENT_CANONICAL_FIELDS);
    }
  }

  /** A receipt names the row it is about by that row's own key. */
  lemma WagerReceiptsShowKeys(spec: LedgerSpec, batch: Option<string>)
    ensures ShowsKeys(WagerImporter(spec, batch))
  {
    forall row, c | WagerImporter(spec, batch).build(row, c).Some?
      ensures ShownKey(row) == Some(WagerImporter(spec, batch).build(row, c).value.key)
    {
      BuiltWagerKey(spec, row);
    }
  }

  lemma SettlementReceiptsShowKeys(spec: LedgerSpec, wagers: seq<Record>)
    ensures ShowsKeys(SettlementImporter(spec, wagers))
  {
    forall row, c | SettlementImporter(spec, wagers).build(row, c).Some?
      ensures ShownKey(row) == Some(SettlementImporter(spec, wagers).build(row, c).value.key)
    {
      BuiltSettlementKey(spec, row);
    }
  }

  /** The ids of wagers and settlements are minted from the source key alone. */
  lemma IdsNameKeys(spec: LedgerSpec, batch: Option<string>, wagers: seq<Record>)
    ensures NamesByKey(WagerImporter(spec, batch)) && NamesByKey(SettlementImporter(spec, wagers))
  {
    forall row | BuildWager(spec, row).Some?
      ensures Get(BuildWager(spec, row).value, "wager_id") ==
              Str(MintWagerId(spec, Get(BuildWager(spec, row).value, "source_bet_key").s))
    {
      BuiltWagerKey(spec, row);
    }
    forall row | BuildSettlement(spec, row).Some?
      ensures Get(BuildSettlement(spec, row).value, "settlement_id") ==
              Str(MintSettlementId(spec, Get(BuildSettlement(spec, row).value, "source_bet_key").s))
    {
      BuiltSettlementKey(spec, row);
    }
  }

  lemma BuiltWagerKey(spec: LedgerSpec, row: Value)
    requires BuildWager(spec, row).Some?
    ensures row.Obj? && Get(BuildWager(spec, row).value, "source_bet_key") == Get(row.fields, "source_bet_key")
    ensures Get(row.fields, "source_bet_key").Str?
  {
  }

  lemma BuiltSettlementKey(spec: LedgerSpec, row: Value)
    requires BuildSettlement(spec, row).Some?
    ensures row.Obj? && Get(BuildSettlement(spec, row).value, "source_bet_key") == Get(row.fields, "source_bet_key")
    ensures Get(row.fields, "source_bet_key").Str?
  {
  }

  // ------------------------------------------------------------- the ledger's two files

  datatype Counts = Counts(receipts: seq<Receipt>, written: nat, duplicate: nat, refused: nat)

  class RoutedBooks {
    const wagers: JsonlFile
    const settlements: JsonlFile

    ghost predicate Valid() {
      wagers != settlements
    }

    constructor (wagers: JsonlFile, settlements: JsonlFile)
      requires wagers != settlements
      ensures Valid() && this.wagers == wagers && this.settlements == settlements
    {
      this.wagers := wagers;
      this.settlements := settlements;
    }

    method ImportWagers(spec: LedgerSpec, codec: Codec, rows: seq<Value>, batch: Option<string>)
      returns (res: Result<Counts>)
      requires Valid()
      modifies wagers
      ensures (res, wagers.text) == FileImport(WagerImporter(spec, batch), codec, old(wagers.text), rows)
    {
      var onFile := wagers.Read(codec);
      if onFile.Err? {
        return Err;
      }
      WagerImporterLawful(spec, batch);
      var added, receipts, written, duplicate, refused := ImportRows(WagerImporter(spec, batch), onFile.value, rows, 0);
      assert (onFile.value + added)[|onFile.value|..] == added;
      wagers.Append(codec, added);
      res := Ok(Counts(receipts, written, duplicate, refused));
    }

    method ImportSettlements(spec: LedgerSpec, codec: Codec, rows: seq<Value>)
      returns (res: Result<Counts>)
      requires Valid()
      modifies settlements
      ensures (res, settlements.text) ==
              match ReadJsonl(codec, wagers.text)
              case Err => (Err, old(settlements.text))
              case Ok(onFile) => FileImport(SettlementImporter(spec, onFile), codec, old(settlements.text), rows)
    {
      var placed := wagers.Read(codec);
      if placed.Err? {
        return Err;
      }
      var onFile := settlements.Read(codec);
      if onFile.Err? {
        return Err;
      }
      SettlementImporterLawful(spec, placed.value);
      var added, receipts, written, duplicate, refused :=
        ImportRows(SettlementImporter(spec, placed.value), onFile.value, rows, 0);
      assert (onFile.value + added)[|onFile.value|..] == added;
      settlements.Append(codec, added);
      res := Ok(Counts(receipts, written, duplicate, refused));
    }
  }

  /** An import against a file: an unreadable file stops it; otherwise the new records are
      appended after the old text. */
  function FileImport(imp: Importer<string>, codec: Codec, text: string, rows: seq<Value>): (Result<Counts>, string) {
    match ReadJsonl(codec, text)
    case Err => (Err, text)
    case Ok(onFile) =>
      var o := Import(imp, onFile, rows, 0);
      ImportConserves(imp, onFile, rows, 0);
      (Ok(Counts(o.receipts, o.written, o.duplicate, o.refused)), Appended(codec, text, o.ledger[|onFile|..]))
  }
}
