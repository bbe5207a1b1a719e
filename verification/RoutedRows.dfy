/** The routed ledger's two importers in the payload's own terms: which rows are refused, and what
    the record of an accepted row says, field by field. */
module RoutedRows {
  import opened Json
  import opened LedgerFile
  import opened Importer
  import opened RoutedLedger

  ghost predicate Text(row: Record, name: string) {
    name in row && row[name].Str? && !Blank(row[name].s)
  }

  ghost predicate Positive(row: Record, name: string) {
    name in row && row[name].Num? && row[name].n > 0.0
  }

  ghost predicate OneOf(row: Record, name: string, texts: set<string>) {
    name in row && row[name].Str? && row[name].s in texts
  }

  ghost predicate NoProvenance(spec: LedgerSpec, names: set<string>) {
    forall name | name in names :: !spec.isProvenance(name)
  }

  /** The last record on a ledger under a source key, if there is one. */
  ghost predicate LastUnder(ledger: seq<Record>, key: string, j: int) {
    && 0 <= j < |ledger| && Get(ledger[j], "source_bet_key") == Str(key)
    && forall k | j < k < |ledger| :: Get(ledger[k], "source_bet_key") != Str(key)
  }

  ghost predicate NoneUnder(ledger: seq<Record>, key: string) {
    forall j | 0 <= j < |ledger| :: Get(ledger[j], "source_bet_key") != Str(key)
  }

  /** Two stored values that the ledger treats as different: numbers by more than a nano-dollar,
      anything else by Python's equality. */
  ghost predicate Apart(a: Value, b: Value) {
    if a.Num? && b.Num? then a.n - b.n > 0.000000001 || b.n - a.n > 0.000000001 else Coerced(a) != Coerced(b)
  }

  lemma ApartIffDiffers(a: Value, b: Value)
    ensures Differs(a, b) <==> Apart(a, b)
  {
    EqualIffCoerced(a, b);
  }

  lemma {:induction false} ConflictsIff(stored: Record, incoming: Record, fields: seq<string>, name: string)
    ensures name in ConflictingFields(stored, incoming, fields) <==>
            name in fields && Apart(Get(stored, name), Get(incoming, name))
  {
    if fields != [] {
      ApartIffDiffers(Get(stored, fields[0]), Get(incoming, fields[0]));
      ConflictsIff(stored, incoming, fields[1..], name);
      assert fields == [fields[0]] + fields[1..];
    }
  }

  /** A lookup answers with the last record under the key. */
  lemma {:induction false} LookupIsLast(imp: Importer<string>, ledger: seq<Record>, key: string)
    requires imp.keyOf == KeyOf
    ensures match Lookup(imp, ledger, key)
      case None => NoneUnder(ledger, key)
      case Some(rec) => exists j :: LastUnder(ledger, key, j) && ledger[j] == rec
  {
    if ledger != [] {
      var n := |ledger| - 1;
      if KeyOf(ledger[n]) == Some(key) {
        assert LastUnder(ledger, key, n);
      } else {
        LookupIsLast(imp, ledger[..n], key);
        assert forall j | 0 <= j < n :: ledger[..n][j] == ledger[j];
        if Lookup(imp, ledger, key).Some? {
          var j :| LastUnder(ledger[..n], key, j) && ledger[..n][j] == Lookup(imp, ledger, key).value;
          assert LastUnder(ledger, key, j);
        }
      }
    }
  }

  lemma LastIsUnique(ledger: seq<Record>, key: string, i: nat, j: nat)
    requires LastUnder(ledger, key, i) && LastUnder(ledger, key, j)
    ensures i == j
  {
    assert !(i < j) && !(j < i);
  }

  lemma Minted(prefix: string, letter: string, digest: string)
    requires letter in {"w-", "s-"}
    ensures !Blank(prefix + letter + digest)
  {
    var id := prefix + letter + digest;
    assert id[|prefix| + 1] == '-' && !IsSpace('-');
  }

  // ------------------------------------------------------------- wagers

  const WAGER_NAMES := {
    "source_bet_key", "import_batch_id", "entry_method", "game_date", "market_ticker", "side", "executed_at", "contracts",
    "stake", "fees_paid", "fees_are_estimated", "venue"}

  const WAGER_OPTIONS := {"execution_price", "actual_price", "fee_state", "execution_action"}

  ghost function Price(row: Record): Value {
    Get(row, if "execution_price" in row then "execution_price" else "actual_price")
  }

  /** The fields a wager row may and must have. */
  ghost predicate WagerShape(spec: LedgerSpec, row: Record) {
    && WAGER_NAMES <= row.Keys <= WAGER_NAMES + WAGER_OPTIONS
    && ("execution_price" in row <==> "actual_price" !in row)
    && NoProvenance(spec, row.Keys + {"execution_price", "wager_id", "schema_version"})
  }

  ghost predicate WagerWords(spec: LedgerSpec, row: Record) {
    && Text(row, "source_bet_key") && Text(row, "import_batch_id") && Text(row, "market_ticker")
    && Text(row, "game_date") && spec.isDate(row["game_date"].s)
    && Text(row, "executed_at") && spec.isAwareTimestamp(row["executed_at"].s)
    && OneOf(row, "entry_method", {"IMPORTED_RECEIPT"}) && OneOf(row, "venue", {"kalshi"})
    && OneOf(row, "side", {"YES", "NO"})
    && (Get(row, "execution_action") == Null || OneOf(row, "execution_action", {"BUY", "SELL"}))
    && Get(row, "fees_are_estimated") == Bool(false)
  }

  /** Contracts, price and fees are in range and come to the stake. */
  ghost predicate WagerMoney(row: Record) {
    && Positive(row, "contracts") && Positive(row, "stake")
    && Price(row).Num? && 0.0 < Price(row).n < 1.0
    && Get(row, "fees_paid").Num? && !(Get(row, "fees_paid").n < 0.0)
    && var off := row["stake"].n - row["contracts"].n * Price(row).n - Get(row, "fees_paid").n;
       var slack := if row["stake"].n < 1.0 then 0.000001 else 0.000001 * row["stake"].n;
       -slack <= off <= slack
  }

  /** Everything a wager row must be to be filed; `batch` is the payload's own batch id. */
  ghost predicate WagerRowOk(spec: LedgerSpec, batch: Option<string>, row: Value) {
    && row.Obj?
    && WagerShape(spec, row.fields) && WagerWords(spec, row.fields) && WagerMoney(row.fields)
    && (batch.Some? ==> row.fields["import_batch_id"].s == batch.value)
  }

  /** The record filed for a row: its own fields unchanged, its one price as the execution price,
      the minted id and the schema, and nothing else. */
  ghost predicate FiledWager(spec: LedgerSpec, row: Record, rec: Record) {
    && rec.Keys == row.Keys - {"actual_price"} + {"execution_price", "wager_id", "schema_version"}
    && (forall f | f in row && f !in {"actual_price", "wager_id", "schema_version"} :: Get(rec, f) == row[f])
    && Get(rec, "execution_price") == Price(row)
    && Get(rec, "schema_version") == Str(spec.wagerSchema)
    && Get(row, "source_bet_key").Str?
    && Get(rec, "wager_id") == Str(spec.idPrefix + "w-" + spec.digest(row["source_bet_key"].s))
  }

  const WAGER_COMPARED := {
    "entry_method", "game_date", "market_ticker", "side", "executed_at", "contracts", "execution_price", "stake",
    "fees_paid", "fees_are_estimated", "venue"}

  /** What a row says under the name a record uses. */
  ghost function WagerSays(row: Record, name: string): Value {
    if name == "execution_price" then Price(row) else Get(row, name)
  }

  /** The record before it is validated. */
  ghost function WagerRecord(spec: LedgerSpec, row: Record): Record
    requires Text(row, "source_bet_key")
  {
    (map f | f in row && f != "actual_price" :: row[f])
      ["execution_price" := Price(row)]
      ["wager_id" := Str(MintWagerId(spec, row["source_bet_key"].s))]
      ["schema_version" := Str(spec.wagerSchema)]
  }

  lemma WagerRecordIsFiled(spec: LedgerSpec, row: Record)
    requires Text(row, "source_bet_key") && WagerShape(spec, row)
    ensures FiledWager(spec, row, WagerRecord(spec, row))
    ensures (NoProvenance(spec, row.Keys) <==> !CarriesProvenance(spec, row))
    ensures NoProvenance(spec, row.Keys + {"execution_price", "wager_id", "schema_version"}) ==>
              !CarriesProvenance(spec, WagerRecord(spec, row))
  {
    WagerRecordKeys(spec, row);
    WagerRecordKeeps(spec, row);
    WagerField(spec, row, "execution_price");
    WagerField(spec, row, "schema_version");
    WagerField(spec, row, "wager_id");
    WagerProvenance(spec, row, WagerRecord(spec, row));
  }

  lemma WagerRecordKeeps(spec: LedgerSpec, row: Record)
    requires Text(row, "source_bet_key") && WagerShape(spec, row)
    ensures forall f | f in row && f !in {"actual_price", "wager_id", "schema_version"} :: Get(WagerRecord(spec, row), f) == row[f]
  {
    forall f | f in row && f !in {"actual_price", "wager_id", "schema_version"} ensures Get(WagerRecord(spec, row), f) == row[f] {
      WagerField(spec, row, f);
    }
  }

  lemma WagerProvenance(spec: LedgerSpec, row: Record, rec: Record)
    requires rec.Keys == row.Keys - {"actual_price"} + {"execution_price", "wager_id", "schema_version"}
    ensures (NoProvenance(spec, row.Keys) <==> !CarriesProvenance(spec, row))
    ensures NoProvenance(spec, row.Keys + {"execution_price", "wager_id", "schema_version"}) ==> !CarriesProvenance(spec, rec)
  {
  }

  lemma WagerRecordKeys(spec: LedgerSpec, row: Record)
    requires Text(row, "source_bet_key")
    ensures WagerRecord(spec, row).Keys == row.Keys - {"actual_price"} + {"execution_price", "wager_id", "schema_version"}
  {
  }

  /** What that record says under any name. */
  lemma WagerField(spec: LedgerSpec, row: Record, name: string)
    requires Text(row, "source_bet_key") && WagerShape(spec, row)
    ensures Get(WagerRecord(spec, row), name) ==
      if name == "wager_id" then Str(MintWagerId(spec, row["source_bet_key"].s))
      else if name == "schema_version" then Str(spec.wagerSchema)
      else if name == "execution_price" then Price(row)
      else if name == "actual_price" then Null
      else Get(row, name)
  {
  }

  ghost predicate WordsRead(row: Record, rec: Record) {
    && Get(rec, "source_bet_key") == Get(row, "source_bet_key") && Get(rec, "import_batch_id") == Get(row, "import_batch_id")
    && Get(rec, "market_ticker") == Get(row, "market_ticker") && Get(rec, "game_date") == Get(row, "game_date")
    && Get(rec, "executed_at") == Get(row, "executed_at") && Get(rec, "entry_method") == Get(row, "entry_method")
    && Get(rec, "side") == Get(row, "side") && Get(rec, "venue") == Get(row, "venue")
    && Get(rec, "execution_action") == Get(row, "execution_action")
    && Get(rec, "fees_are_estimated") == Get(row, "fees_are_estimated")
  }

  ghost predicate MoneyReads(row: Record, rec: Record) {
    && Get(rec, "contracts") == Get(row, "contracts") && Get(rec, "execution_price") == Price(row)
    && Get(rec, "stake") == Get(row, "stake") && Get(rec, "fees_paid") == Get(row, "fees_paid")
  }

  lemma WagerWordsRead(spec: LedgerSpec, row: Record)
    requires Text(row, "source_bet_key") && WagerShape(spec, row)
    ensures WordsRead(row, WagerRecord(spec, row))
  {
    WagerField(spec, row, "source_bet_key");
    WagerField(spec, row, "import_batch_id");
    WagerField(spec, row, "market_ticker");
    WagerField(spec, row, "game_date");
    WagerField(spec, row, "executed_at");
    WagerField(spec, row, "entry_method");
    WagerField(spec, row, "side");
    WagerField(spec, row, "venue");
    WagerField(spec, row, "execution_action");
    WagerField(spec, row, "fees_are_estimated");
  }

  lemma WagerMoneyReads(spec: LedgerSpec, row: Record)
    requires Text(row, "source_bet_key") && WagerShape(spec, row)
    ensures MoneyReads(row, WagerRecord(spec, row))
  {
    WagerField(spec, row, "contracts");
    WagerField(spec, row, "execution_price");
    WagerField(spec, row, "stake");
    WagerField(spec, row, "fees_paid");
  }

  lemma StakeIff(stake: real, contracts: real, price: real, fees: real)
    ensures Abs(stake - (contracts * price + fees)) <= 0.000001 * (if stake > 1.0 then stake else 1.0) <==>
            var off := stake - contracts * price - fees; var slack := if stake < 1.0 then 0.000001 else 0.000001 * stake;
            -slack <= off <= slack
  {
  }

  lemma TextsIff(spec: LedgerSpec, row: Record, rec: Record)
    requires Text(row, "source_bet_key") && WordsRead(row, rec)
    requires Get(rec, "schema_version") == Str(spec.wagerSchema)
    requires Get(rec, "wager_id") == Str(MintWagerId(spec, row["source_bet_key"].s)) && Nonempty(Get(rec, "wager_id"))
    ensures WagerTextsOk(spec, rec) <==> WagerWords(spec, row)
  {
  }

  lemma NumbersIff(row: Record, rec: Record)
    requires MoneyReads(row, rec)
    ensures WagerNumbersOk(rec) <==> WagerMoney(row)
  {
    var c, px, st, fee := Get(row, "contracts"), Price(row), Get(row, "stake"), Get(row, "fees_paid");
    if c.Num? && px.Num? && st.Num? && fee.Num? {
      StakeIff(st.n, c.n, px.n, fee.n);
    }
  }

  lemma WagerValid(spec: LedgerSpec, row: Record)
    requires Text(row, "source_bet_key") && WagerShape(spec, row)
    ensures ValidWager(spec, WagerRecord(spec, row)) <==> WagerWords(spec, row) && WagerMoney(row)
  {
    WagerWordsRead(spec, row);
    WagerMoneyReads(spec, row);
    WagerRecordIsFiled(spec, row);
    WagerField(spec, row, "schema_version");
    WagerField(spec, row, "wager_id");
    Minted(spec.idPrefix, "w-", spec.digest(row["source_bet_key"].s));
    TextsIff(spec, row, WagerRecord(spec, row));
    NumbersIff(row, WagerRecord(spec, row));
  }

  /** A row becomes a record exactly when it is in order, and then the one it should. */
  lemma BuildWagerIff(spec: LedgerSpec, row: Value)
    ensures BuildWager(spec, row).Some? <==> WagerRowOk(spec, None, row)
    ensures BuildWager(spec, row).Some? ==> FiledWager(spec, row.fields, BuildWager(spec, row).value)
  {
    if row.Obj? && Text(row.fields, "source_bet_key") && WagerShape(spec, row.fields) {
      WagerValid(spec, row.fields);
      WagerRecordIsFiled(spec, row.fields);
    }
    if BuildWager(spec, row).Some? {
      BuiltWagerShape(spec, row);
    }
  }

  lemma BuiltWagerShape(spec: LedgerSpec, row: Value)
    requires BuildWager(spec, row).Some?
    ensures row.Obj? && Text(row.fields, "source_bet_key") && WagerShape(spec, row.fields)
    ensures BuildWager(spec, row).value == WagerRecord(spec, row.fields)
  {
    var rec := BuildWager(spec, row).value;
    assert "execution_price" in rec && "wager_id" in rec && "schema_version" in rec;
  }

  // ------------------------------------------------------------- settlements

  const SETTLEMENT_NAMES := {
    "source_bet_key", "market_ticker", "side", "settlement_status", "settled_at", "refusals", "venue"}

  const SETTLEMENT_OPTIONS := {"result", "gross_return", "net_profit_loss", "economics_version"}

  const SETTLEMENT_COMPARED := {
    "market_ticker", "side", "settlement_status", "settled_at", "result", "gross_return", "net_profit_loss", "refusals",
    "venue", "economics_version"}

  ghost predicate SettlementShape(spec: LedgerSpec, row: Record) {
    && SETTLEMENT_NAMES <= row.Keys <= SETTLEMENT_NAMES + SETTLEMENT_OPTIONS
    && NoProvenance(spec, SETTLEMENT_NAMES + SETTLEMENT_OPTIONS + {"settlement_id", "schema_version"})
  }

  ghost predicate SettlementWords(spec: LedgerSpec, row: Record) {
    && Text(row, "source_bet_key") && Text(row, "market_ticker")
    && Text(row, "settled_at") && spec.isAwareTimestamp(row["settled_at"].s)
    && OneOf(row, "settlement_status", {"SETTLED"}) && OneOf(row, "venue", {"kalshi"})
    && OneOf(row, "side", {"YES", "NO"})
    && OneOf(row, "economics_version", {"router-settlement-economics.v2"})
    && (Get(row, "result") == Null || OneOf(row, "result", {"WON", "LOST"}))
  }

  /** The money is established, both numbers of it, exactly when no refusal says why not. */
  ghost predicate SettlementMoney(row: Record) {
    var gross, net, refusals := Get(row, "gross_return"), Get(row, "net_profit_loss"), Get(row, "refusals");
    && refusals.List? && (forall r | r in refusals.items :: r.Str?)
    && (gross == Null || (gross.Num? && !(gross.n < 0.0))) && (net == Null || net.Num?)
    && (refusals.items == [] <==> gross != Null && net != Null)
  }

  /** The wager on file under the settlement's key is on its market and side. */
  ghost predicate HasItsWager(wagers: seq<Record>, row: Record) {
    Get(row, "source_bet_key").Str? &&
    exists j :: LastUnder(wagers, row["source_bet_key"].s, j)
                && Get(wagers[j], "market_ticker") == Get(row, "market_ticker") && Get(wagers[j], "side") == Get(row, "side")
  }

  ghost predicate SettlementInOrder(spec: LedgerSpec, row: Value) {
    && row.Obj?
    && SettlementShape(spec, row.fields) && SettlementWords(spec, row.fields) && SettlementMoney(row.fields)
  }

  /** Everything a settlement row must be to be filed. */
  ghost predicate SettlementRowOk(spec: LedgerSpec, wagers: seq<Record>, row: Value) {
    SettlementInOrder(spec, row) && HasItsWager(wagers, row.fields)
  }

  /** The record filed for a settlement row: every field a settlement has, null where the row left it
      out, the minted id and the schema, and nothing else. */
  ghost predicate FiledSettlement(spec: LedgerSpec, row: Record, rec: Record) {
    && rec.Keys == SETTLEMENT_NAMES + SETTLEMENT_OPTIONS + {"settlement_id", "schema_version"}
    && (forall f | f in SETTLEMENT_NAMES + SETTLEMENT_OPTIONS :: rec[f] == Get(row, f))
    && rec["schema_version"] == Str(spec.settlementSchema)
    && Get(row, "source_bet_key").Str?
    && rec["settlement_id"] == Str(spec.idPrefix + "s-" + spec.digest(row["source_bet_key"].s))
  }

  ghost function SettlementRecord(spec: LedgerSpec, row: Record): Record
    requires Text(row, "source_bet_key")
  {
    (map f | f in SETTLEMENT_NAMES + SETTLEMENT_OPTIONS :: Get(row, f))
      ["settlement_id" := Str(MintSettlementId(spec, row["source_bet_key"].s))]
      ["schema_version" := Str(spec.settlementSchema)]
  }

  lemma SettlementField(spec: LedgerSpec, row: Record, name: string)
    requires Text(row, "source_bet_key")
    ensures Get(SettlementRecord(spec, row), name) ==
      if name == "settlement_id" then Str(MintSettlementId(spec, row["source_bet_key"].s))
      else if name == "schema_version" then Str(spec.settlementSchema)
      else if name in SETTLEMENT_NAMES + SETTLEMENT_OPTIONS then Get(row, name)
      else Null
  {
  }

  lemma SettlementRecordIsFiled(spec: LedgerSpec, row: Record)
    requires Text(row, "source_bet_key")
    ensures FiledSettlement(spec, row, SettlementRecord(spec, row))
    ensures NoProvenance(spec, SETTLEMENT_NAMES + SETTLEMENT_OPTIONS + {"settlement_id", "schema_version"}) <==>
            !CarriesProvenance(spec, SettlementRecord(spec, row))
  {
    var rec := SettlementRecord(spec, row);
    assert rec.Keys == SETTLEMENT_NAMES + SETTLEMENT_OPTIONS + {"settlement_id", "schema_version"};
    forall f | f in SETTLEMENT_NAMES + SETTLEMENT_OPTIONS ensures rec[f] == Get(row, f) {
      OwnSettlementName(f);
      SettlementField(spec, row, f);
    }
  }

  lemma OwnSettlementName(f: string)
    requires f in SETTLEMENT_NAMES + SETTLEMENT_OPTIONS
    ensures f != "settlement_id" && f != "schema_version"
  {
    assert "settlement_id" !in SETTLEMENT_NAMES + SETTLEMENT_OPTIONS;
    assert "schema_version" !in SETTLEMENT_NAMES + SETTLEMENT_OPTIONS;
  }

  lemma SettlementReads(spec: LedgerSpec, row: Record)
    requires Text(row, "source_bet_key")
    ensures var rec := SettlementRecord(spec, row);
      && Get(rec, "source_bet_key") == Get(row, "source_bet_key") && Get(rec, "market_ticker") == Get(row, "market_ticker")
      && Get(rec, "settled_at") == Get(row, "settled_at") && Get(rec, "settlement_status") == Get(row, "settlement_status")
      && Get(rec, "side") == Get(row, "side") && Get(rec, "venue") == Get(row, "venue")
      && Get(rec, "economics_version") == Get(row, "economics_version") && Get(rec, "result") == Get(row, "result")
      && Get(rec, "gross_return") == Get(row, "gross_return") && Get(rec, "net_profit_loss") == Get(row, "net_profit_loss")
      && Get(rec, "refusals") == Get(row, "refusals")
  {
    SettlementField(spec, row, "source_bet_key");
    SettlementField(spec, row, "market_ticker");
    SettlementField(spec, row, "settled_at");
    SettlementField(spec, row, "settlement_status");
    SettlementField(spec, row, "side");
    SettlementField(spec, row, "venue");
    SettlementField(spec, row, "economics_version");
    SettlementField(spec, row, "result");
    SettlementField(spec, row, "gross_return");
    SettlementField(spec, row, "net_profit_loss");
    SettlementField(spec, row, "refusals");
  }

  lemma SettlementTextsIff(spec: LedgerSpec, row: Record, rec: Record)
    requires Text(row, "source_bet_key") && Get(rec, "source_bet_key") == row["source_bet_key"]
    requires Get(rec, "market_ticker") == Get(row, "market_ticker") && Get(rec, "settled_at") == Get(row, "settled_at")
    requires Get(rec, "settlement_status") == Get(row, "settlement_status") && Get(rec, "side") == Get(row, "side")
    requires Get(rec, "venue") == Get(row, "venue") && Get(rec, "result") == Get(row, "result")
    requires Get(rec, "economics_version") == Get(row, "economics_version")
    requires Get(rec, "schema_version") == Str(spec.settlementSchema) && Nonempty(Get(rec, "settlement_id"))
    requires Get(rec, "settlement_id") == Str(MintSettlementId(spec, row["source_bet_key"].s))
    ensures SettlementTextsOk(spec, rec) <==> SettlementWords(spec, row)
  {
  }

  lemma SettlementMoneyIff(row: Record, rec: Record)
    requires Get(rec, "gross_return") == Get(row, "gross_return") && Get(rec, "net_profit_loss") == Get(row, "net_profit_loss")
    requires Get(rec, "refusals") == Get(row, "refusals")
    ensures SettlementMoneyOk(rec) <==> SettlementMoney(row)
  {
  }

  lemma SettlementValid(spec: LedgerSpec, row: Record)
    requires Text(row, "source_bet_key")
    ensures SettlementTextsOk(spec, SettlementRecord(spec, row)) <==> SettlementWords(spec, row)
    ensures SettlementMoneyOk(SettlementRecord(spec, row)) <==> SettlementMoney(row)
  {
    SettlementReads(spec, row);
    SettlementField(spec, row, "schema_version");
    SettlementField(spec, row, "settlement_id");
    Minted(spec.idPrefix, "s-", spec.digest(row["source_bet_key"].s));
    SettlementTextsIff(spec, row, SettlementRecord(spec, row));
    SettlementMoneyIff(row, SettlementRecord(spec, row));
  }

  lemma BuildSettlementIff(spec: LedgerSpec, row: Value)
    ensures BuildSettlement(spec, row).Some? <==> SettlementInOrder(spec, row)
    ensures BuildSettlement(spec, row).Some? ==> FiledSettlement(spec, row.fields, BuildSettlement(spec, row).value)
  {
    if row.Obj? && Text(row.fields, "source_bet_key") {
      SettlementValid(spec, row.fields);
      SettlementRecordIsFiled(spec, row.fields);
      if SETTLEMENT_NAMES <= row.fields.Keys <= SETTLEMENT_NAMES + SETTLEMENT_OPTIONS {
        BuiltSettlementIs(spec, row);
      }
    }
  }

  lemma BuiltSettlementIs(spec: LedgerSpec, row: Value)
    requires row.Obj? && Text(row.fields, "source_bet_key")
    requires SETTLEMENT_NAMES <= row.fields.Keys <= SETTLEMENT_NAMES + SETTLEMENT_OPTIONS
    ensures var rec := SettlementRecord(spec, row.fields);
      BuildSettlement(spec, row) == if !CarriesProvenance(spec, row.fields) && ValidSettlement(spec, rec) then Some(rec) else None
    ensures NoProvenance(spec, SETTLEMENT_NAMES + SETTLEMENT_OPTIONS) ==> !CarriesProvenance(spec, row.fields)
  {
    assert SETTLEMENT_INPUT_FIELDS == SETTLEMENT_NAMES + SETTLEMENT_OPTIONS;
    assert SETTLEMENT_REQUIRED == SETTLEMENT_NAMES;
  }

  lemma SettlesIff(spec: LedgerSpec, wagers: seq<Record>, row: Record, rec: Record)
    requires Get(row, "source_bet_key").Str? && Get(row, "market_ticker").Str? && Get(row, "side").Str?
    requires Get(rec, "source_bet_key") == Get(row, "source_bet_key")
    requires Get(rec, "market_ticker") == Get(row, "market_ticker") && Get(rec, "side") == Get(row, "side")
    ensures Settles(spec, wagers, rec) <==> HasItsWager(wagers, row)
  {
    var imp := WagerImporter(spec, None);
    var key := row["source_bet_key"].s;
    LookupIsLast(imp, wagers, key);
    if Lookup(imp, wagers, key).Some? {
      var j :| LastUnder(wagers, key, j) && wagers[j] == Lookup(imp, wagers, key).value;
      EqualIffCoerced(Get(wagers[j], "market_ticker"), row["market_ticker"]);
      EqualIffCoerced(Get(wagers[j], "side"), row["side"]);
      forall i | LastUnder(wagers, key, i) ensures i == j {
        LastIsUnique(wagers, key, i, j);
      }
    }
  }

  // ------------------------------------------------------------- records as they stand on file

  /** A wager on file: in order as a row is, at its execution price, under the id minted from its
      key, with nothing unknown and no provenance in it. */
  ghost predicate WagerOnFile(spec: LedgerSpec, rec: Record) {
    && rec.Keys <= WAGER_NAMES + WAGER_OPTIONS + {"wager_id", "schema_version"} && NoProvenance(spec, rec.Keys)
    && WagerWords(spec, rec) && "execution_price" in rec && WagerMoney(rec)
    && Get(rec, "schema_version") == Str(spec.wagerSchema)
    && Get(rec, "wager_id") == Str(spec.idPrefix + "w-" + spec.digest(rec["source_bet_key"].s))
  }

  ghost predicate SettlementOnFile(spec: LedgerSpec, rec: Record) {
    && rec.Keys <= SETTLEMENT_NAMES + SETTLEMENT_OPTIONS + {"settlement_id", "schema_version"} && NoProvenance(spec, rec.Keys)
    && SettlementWords(spec, rec) && SettlementMoney(rec)
    && Get(rec, "schema_version") == Str(spec.settlementSchema)
    && Get(rec, "settlement_id") == Str(spec.idPrefix + "s-" + spec.digest(rec["source_bet_key"].s))
  }

  lemma WagerOnFileIff(spec: LedgerSpec, rec: Record)
    ensures ValidWager(spec, rec) && rec.Keys <= WAGER_INPUT_FIELDS + {"wager_id", "schema_version"} <==> WagerOnFile(spec, rec)
  {
    assert WAGER_INPUT_FIELDS == WAGER_NAMES + WAGER_OPTIONS;
    if Text(rec, "source_bet_key") {
      Minted(spec.idPrefix, "w-", spec.digest(rec["source_bet_key"].s));
      WagerTextsOnFile(spec, rec);
      if "execution_price" in rec { NumbersIff(rec, rec); }
    }
  }

  lemma WagerTextsOnFile(spec: LedgerSpec, rec: Record)
    requires Text(rec, "source_bet_key")
    ensures WagerTextsOk(spec, rec) <==>
      && WagerWords(spec, rec) && Get(rec, "schema_version") == Str(spec.wagerSchema)
      && Get(rec, "wager_id") == Str(MintWagerId(spec, rec["source_bet_key"].s))
  {
    Minted(spec.idPrefix, "w-", spec.digest(rec["source_bet_key"].s));
    if Get(rec, "schema_version") == Str(spec.wagerSchema) && Get(rec, "wager_id") == Str(MintWagerId(spec, rec["source_bet_key"].s)) {
      TextsIff(spec, rec, rec);
    }
  }

  lemma SettlementTextsOnFile(spec: LedgerSpec, rec: Record)
    requires Text(rec, "source_bet_key")
    ensures SettlementTextsOk(spec, rec) <==>
      && SettlementWords(spec, rec) && Get(rec, "schema_version") == Str(spec.settlementSchema)
      && Get(rec, "settlement_id") == Str(MintSettlementId(spec, rec["source_bet_key"].s))
  {
    Minted(spec.idPrefix, "s-", spec.digest(rec["source_bet_key"].s));
  }

  lemma SettlementOnFileIff(spec: LedgerSpec, rec: Record)
    ensures ValidSettlement(spec, rec) && rec.Keys <= SETTLEMENT_INPUT_FIELDS + {"settlement_id", "schema_version"} <==>
            SettlementOnFile(spec, rec)
  {
    assert SETTLEMENT_INPUT_FIELDS == SETTLEMENT_NAMES + SETTLEMENT_OPTIONS;
    if Text(rec, "source_bet_key") {
      SettlementTextsOnFile(spec, rec);
    }
  }

  // ------------------------------------------------------------- what each row's receipt says

  /** The receipt a row gets from a ledger. `says` is what its record says in the compared fields. */
  ghost predicate Judged(ledger: seq<Record>, ok: bool, key: string, ident: string, says: map<string, Value>, index: nat,
                         r: Receipt) {
    && r.row == index
    && (r.verdict == REFUSED <==> !ok)
    && (ok ==> r.key == Some(key) && r.ident == Some(ident))
    && (r.verdict == NEW <==> ok && NoneUnder(ledger, key))
    && (r.verdict == CONFLICT <==>
          ok && exists j :: LastUnder(ledger, key, j) && exists f :: f in says && Apart(Get(ledger[j], f), says[f]))
    && (r.verdict == CONFLICT ==>
          exists j :: LastUnder(ledger, key, j)
                      && forall f :: f in r.conflicting <==> f in says && Apart(Get(ledger[j], f), says[f]))
    && (r.verdict != CONFLICT ==> r.conflicting == [])
  }

  /** One row against one ledger, for an importer whose record agrees with what the row says. */
  lemma JudgedIff(imp: Importer<string>, ledger: seq<Record>, index: nat, row: Value, fields: seq<string>,
                  says: map<string, Value>)
    requires imp.keyOf == KeyOf && imp.build(row, 0).Some?
    requires forall stored, rec :: imp.conflicts(stored, rec) == ConflictingFields(stored, rec, fields)
    requires imp.shownKey(row) == Some(imp.build(row, 0).value.key)
    requires says.Keys == set f | f in fields
    requires forall f | f in says :: Get(imp.build(row, 0).value.rec, f) == says[f]
    ensures var b := imp.build(row, 0).value;
            Judged(ledger, true, b.key, b.ident, says, index, Judge(imp, ledger, index, row, 0).1)
  {
    var b := imp.build(row, 0).value;
    LookupIsLast(imp, ledger, b.key);
    if Lookup(imp, ledger, b.key).Some? {
      var prior := Lookup(imp, ledger, b.key).value;
      var j :| LastUnder(ledger, b.key, j) && ledger[j] == prior;
      forall i | LastUnder(ledger, b.key, i) ensures i == j {
        LastIsUnique(ledger, b.key, i, j);
      }
      ConflictsAre(ledger, j, b.rec, fields, says);
    }
  }

  lemma ConflictsAre(ledger: seq<Record>, j: nat, rec: Record, fields: seq<string>, says: map<string, Value>)
    requires j < |ledger| && says.Keys == (set f | f in fields)
    requires forall f | f in says :: Get(rec, f) == says[f]
    ensures forall f :: f in ConflictingFields(ledger[j], rec, fields) <==> f in says && Apart(Get(ledger[j], f), says[f])
    ensures ConflictingFields(ledger[j], rec, fields) != [] <==> exists f :: f in says && Apart(Get(ledger[j], f), says[f])
  {
    var found := ConflictingFields(ledger[j], rec, fields);
    forall f ensures f in found <==> f in says && Apart(Get(ledger[j], f), says[f]) {
      ConflictsIff(ledger[j], rec, fields, f);
    }
    if found != [] {
      assert found[0] in found;
    }
  }

  ghost function WagerKey(row: Value): string {
    if row.Obj? && Get(row.fields, "source_bet_key").Str? then row.fields["source_bet_key"].s else ""
  }

  ghost function WagerCompared(row: Value): map<string, Value> {
    map f | f in WAGER_COMPARED :: if row.Obj? then WagerSays(row.fields, f) else Null
  }

  /** The same, refused rows included. */
  lemma JudgedEither(imp: Importer<string>, ledger: seq<Record>, index: nat, row: Value, fields: seq<string>,
                     says: map<string, Value>, ok: bool, key: string, ident: string)
    requires imp.keyOf == KeyOf && (imp.build(row, 0).Some? <==> ok)
    requires forall stored, rec :: imp.conflicts(stored, rec) == ConflictingFields(stored, rec, fields)
    requires ok ==> imp.shownKey(row) == Some(key) && imp.build(row, 0).value.key == key && imp.build(row, 0).value.ident == ident
    requires ok ==> says.Keys == (set f | f in fields)
    requires ok ==> forall f | f in says :: Get(imp.build(row, 0).value.rec, f) == says[f]
    ensures var (filed, r) := Judge(imp, ledger, index, row, 0);
      && Judged(ledger, ok, key, ident, says, index, r)
      && (filed.Some? <==> r.verdict == NEW)
      && (filed.Some? ==> ok && filed.value == imp.build(row, 0).value.rec)
  {
    if ok {
      JudgedIff(imp, ledger, index, row, fields, says);
    }
  }

  /** What the wager importer builds from a row that is in order. */
  lemma WagerBuilt(spec: LedgerSpec, batch: Option<string>, row: Value)
    ensures WagerImporter(spec, batch).build(row, 0).Some? <==> WagerRowOk(spec, batch, row)
    ensures WagerRowOk(spec, batch, row) ==>
      var b := WagerImporter(spec, batch).build(row, 0).value;
      && b.key == WagerKey(row) && b.ident == spec.idPrefix + "w-" + spec.digest(WagerKey(row))
      && ShownKey(row) == Some(WagerKey(row)) && FiledWager(spec, row.fields, b.rec)
  {
    BuildWagerIff(spec, row);
    OfBatch(spec, batch, row);
    BuildsOfBatch(spec, batch, row);
    if BuildWager(spec, row).Some? {
      FiledReads(spec, row.fields, BuildWager(spec, row).value);
    }
  }

  lemma OfBatch(spec: LedgerSpec, batch: Option<string>, row: Value)
    ensures WagerRowOk(spec, batch, row) <==>
            WagerRowOk(spec, None, row) && (batch.Some? ==> Get(row.fields, "import_batch_id") == Str(batch.value))
    ensures WagerRowOk(spec, None, row) ==> Text(row.fields, "source_bet_key")
  {
  }

  lemma BuildsOfBatch(spec: LedgerSpec, batch: Option<string>, row: Value)
    ensures WagerImporter(spec, batch).build(row, 0) ==
            if batch.Some? && row.Obj? && Get(row.fields, "import_batch_id") != Str(batch.value) then None
            else
              match BuildWager(spec, row)
              case None => None
              case Some(rec) => Some(Built(Get(rec, "source_bet_key").s, Get(rec, "wager_id").s, rec))
  {
  }

  lemma FiledReads(spec: LedgerSpec, row: Record, rec: Record)
    requires FiledWager(spec, row, rec) && Text(row, "source_bet_key")
    ensures Get(rec, "source_bet_key") == row["source_bet_key"]
    ensures Get(rec, "wager_id") == Str(spec.idPrefix + "w-" + spec.digest(row["source_bet_key"].s))
  {
  }

  lemma WagerJudged(spec: LedgerSpec, batch: Option<string>, ledger: seq<Record>, index: nat, row: Value)
    ensures var (filed, r) := Judge(WagerImporter(spec, batch), ledger, index, row, 0);
      && Judged(ledger, WagerRowOk(spec, batch, row), WagerKey(row), spec.idPrefix + "w-" + spec.digest(WagerKey(row)),
                WagerCompared(row), index, r)
      && (filed.Some? <==> r.verdict == NEW)
      && (filed.Some? ==> FiledWager(spec, row.fields, filed.value))
  {
    var imp, ok := WagerImporter(spec, batch), WagerRowOk(spec, batch, row);
    WagerBuilt(spec, batch, row);
    if ok {
      WagerComparedIs(spec, row, imp.build(row, 0).value.rec);
      WagerComparedKeys(row);
    }
    JudgedEither(imp, ledger, index, row, WAGER_CANONICAL_FIELDS, WagerCompared(row), ok, WagerKey(row),
                 spec.idPrefix + "w-" + spec.digest(WagerKey(row)));
  }

  lemma WagerComparedKeys(row: Value)
    ensures WagerCompared(row).Keys == set f | f in WAGER_CANONICAL_FIELDS
  {
    assert WagerCompared(row).Keys == WAGER_COMPARED;
    ComparedAre();
  }

  lemma WagerComparedIs(spec: LedgerSpec, row: Value, rec: Record)
    requires row.Obj? && WagerShape(spec, row.fields) && FiledWager(spec, row.fields, rec)
    ensures forall f | f in WagerCompared(row) :: Get(rec, f) == WagerCompared(row)[f]
  {
    forall f | f in WagerCompared(row) ensures Get(rec, f) == WagerCompared(row)[f] {
      ComparedReads(spec, row.fields, rec, f);
    }
  }

  lemma ComparedReads(spec: LedgerSpec, row: Record, rec: Record, f: string)
    requires WagerShape(spec, row) && FiledWager(spec, row, rec) && f in WAGER_COMPARED
    ensures Get(rec, f) == WagerSays(row, f)
  {
    ComparedIsOwn(f);
  }

  lemma ComparedIsOwn(f: string)
    requires f in WAGER_COMPARED
    ensures f !in {"actual_price", "wager_id", "schema_version"}
    ensures f != "execution_price" ==> f in WAGER_NAMES
  {
  }

  lemma ComparedAre()
    ensures WAGER_COMPARED == set f | f in WAGER_CANONICAL_FIELDS
    ensures SETTLEMENT_COMPARED == set f | f in SETTLEMENT_CANONICAL_FIELDS
  {
    forall f ensures f in WAGER_COMPARED <==> f in WAGER_CANONICAL_FIELDS {}
    forall f ensures f in SETTLEMENT_COMPARED <==> f in SETTLEMENT_CANONICAL_FIELDS {}
  }

  ghost function SettlementCompared(row: Value): map<string, Value> {
    map f | f in SETTLEMENT_COMPARED :: if row.Obj? then Get(row.fields, f) else Null
  }

  lemma SettlementAccepted(spec: LedgerSpec, wagers: seq<Record>, row: Value)
    ensures BuildSettlement(spec, row).Some? && Settles(spec, wagers, BuildSettlement(spec, row).value) <==>
            SettlementRowOk(spec, wagers, row)
  {
    BuildSettlementIff(spec, row);
    if SettlementInOrder(spec, row) {
      InOrderTexts(spec, row);
      BuiltSettlementFiled(spec, row);
      SettlesIff(spec, wagers, row.fields, BuildSettlement(spec, row).value);
    }
  }

  lemma InOrderTexts(spec: LedgerSpec, row: Value)
    requires SettlementInOrder(spec, row)
    ensures Get(row.fields, "source_bet_key").Str? && Get(row.fields, "market_ticker").Str? && Get(row.fields, "side").Str?
  {
  }

  /** What the settlement importer builds from a row that is in order. */
  lemma SettlementBuilt(spec: LedgerSpec, wagers: seq<Record>, row: Value)
    ensures SettlementImporter(spec, wagers).build(row, 0).Some? <==> SettlementRowOk(spec, wagers, row)
    ensures SettlementImporter(spec, wagers).build(row, 0).Some? ==>
      var b := SettlementImporter(spec, wagers).build(row, 0).value;
      && b.key == WagerKey(row) && b.ident == spec.idPrefix + "s-" + spec.digest(WagerKey(row))
      && ShownKey(row) == Some(WagerKey(row)) && FiledSettlement(spec, row.fields, b.rec)
  {
    SettlementAccepted(spec, wagers, row);
    if BuildSettlement(spec, row).Some? {
      BuiltSettlementFiled(spec, row);
    }
  }

  lemma BuiltSettlementFiled(spec: LedgerSpec, row: Value)
    requires BuildSettlement(spec, row).Some?
    ensures row.Obj? && FiledSettlement(spec, row.fields, BuildSettlement(spec, row).value)
    ensures var rec := BuildSettlement(spec, row).value;
      && Get(rec, "market_ticker") == Get(row.fields, "market_ticker") && Get(rec, "side") == Get(row.fields, "side")
      && Get(rec, "source_bet_key") == Get(row.fields, "source_bet_key") == Str(WagerKey(row)) && ShownKey(row) == Some(WagerKey(row))
      && Get(rec, "settlement_id") == Str(spec.idPrefix + "s-" + spec.digest(WagerKey(row)))
  {
    BuildSettlementIff(spec, row);
    FiledSettlementReads(spec, row.fields, BuildSettlement(spec, row).value);
  }

  lemma FiledSettlementReads(spec: LedgerSpec, row: Record, rec: Record)
    requires FiledSettlement(spec, row, rec) && Text(row, "source_bet_key")
    ensures Get(rec, "source_bet_key") == row["source_bet_key"]
    ensures Get(rec, "market_ticker") == Get(row, "market_ticker") && Get(rec, "side") == Get(row, "side")
    ensures Get(rec, "settlement_id") == Str(spec.idPrefix + "s-" + spec.digest(row["source_bet_key"].s))
  {
  }

  lemma SettlementJudged(spec: LedgerSpec, wagers: seq<Record>, ledger: seq<Record>, index: nat, row: Value)
    ensures var (filed, r) := Judge(SettlementImporter(spec, wagers), ledger, index, row, 0);
      && Judged(ledger, SettlementRowOk(spec, wagers, row), WagerKey(row), spec.idPrefix + "s-" + spec.digest(WagerKey(row)),
                SettlementCompared(row), index, r)
      && (filed.Some? <==> r.verdict == NEW)
      && (filed.Some? ==> FiledSettlement(spec, row.fields, filed.value))
  {
    var imp, ok := SettlementImporter(spec, wagers), SettlementRowOk(spec, wagers, row);
    SettlementBuilt(spec, wagers, row);
    if ok {
      SettlementComparedIs(spec, row, imp.build(row, 0).value.rec);
      SettlementComparedKeys(row);
    }
    JudgedEither(imp, ledger, index, row, SETTLEMENT_CANONICAL_FIELDS, SettlementCompared(row), ok, WagerKey(row),
                 spec.idPrefix + "s-" + spec.digest(WagerKey(row)));
  }

  lemma SettlementComparedKeys(row: Value)
    ensures SettlementCompared(row).Keys == set f | f in SETTLEMENT_CANONICAL_FIELDS
  {
    assert SettlementCompared(row).Keys == SETTLEMENT_COMPARED;
    ComparedAre();
  }

  lemma SettlementComparedIs(spec: LedgerSpec, row: Value, rec: Record)
    requires row.Obj? && FiledSettlement(spec, row.fields, rec)
    ensures forall f | f in SettlementCompared(row) :: Get(rec, f) == SettlementCompared(row)[f]
  {
    assert SETTLEMENT_COMPARED <= SETTLEMENT_NAMES + SETTLEMENT_OPTIONS;
  }

  // ------------------------------------------------------------- over a whole import

  /** Every row of an import of wagers, exactly: its receipt, and, if it is new, its record on the
      ledger that results, right behind what the rows before it left. */
  lemma WagersAreFiled(spec: LedgerSpec, batch: Option<string>, ledger: seq<Record>, rows: seq<Value>, i: nat)
    requires i < |rows|
    ensures var imp := WagerImporter(spec, batch);
      var before, o := Import(imp, ledger, rows[..i], 0).ledger, Import(imp, ledger, rows, 0);
      && |o.receipts| == |rows|
      && Judged(before, WagerRowOk(spec, batch, rows[i]), WagerKey(rows[i]), spec.idPrefix + "w-" + spec.digest(WagerKey(rows[i])),
                WagerCompared(rows[i]), i, o.receipts[i])
      && ledger <= before <= o.ledger
      && (o.receipts[i].verdict == NEW ==> |before| < |o.ledger| && FiledWager(spec, rows[i].fields, o.ledger[|before|]))
  {
    var imp := WagerImporter(spec, batch);
    var before := Import(imp, ledger, rows[..i], 0).ledger;
    RowStands(imp, ledger, rows, 0, i);
    WagerJudged(spec, batch, before, i, rows[i]);
  }

  /** The same of settlements, against the wagers on file. */
  lemma SettlementsAreFiled(spec: LedgerSpec, wagers: seq<Record>, ledger: seq<Record>, rows: seq<Value>, i: nat)
    requires i < |rows|
    ensures var imp := SettlementImporter(spec, wagers);
      var before, o := Import(imp, ledger, rows[..i], 0).ledger, Import(imp, ledger, rows, 0);
      && |o.receipts| == |rows|
      && Judged(before, SettlementRowOk(spec, wagers, rows[i]), WagerKey(rows[i]),
                spec.idPrefix + "s-" + spec.digest(WagerKey(rows[i])), SettlementCompared(rows[i]), i, o.receipts[i])
      && ledger <= before <= o.ledger
      && (o.receipts[i].verdict == NEW ==> |before| < |o.ledger| && FiledSettlement(spec, rows[i].fields, o.ledger[|before|]))
  {
    var imp := SettlementImporter(spec, wagers);
    var before := Import(imp, ledger, rows[..i], 0).ledger;
    RowStands(imp, ledger, rows, 0, i);
    SettlementJudged(spec, wagers, before, i, rows[i]);
  }

  /** After an import against a file, the file reads as the ledger the import left, as long as every
      record it adds can be held and prints on one line. */
  lemma ImportedFileReads(imp: Importer<string>, codec: Codec, text: string, rows: seq<Value>)
    requires Sound(codec) && ReadJsonl(codec, text).Ok?
    requires forall row | row in rows && imp.build(row, 0).Some? ::
               codec.holds(imp.build(row, 0).value.rec) && OneLine(codec, imp.build(row, 0).value.rec)
    ensures ReadJsonl(codec, FileImport(imp, codec, text, rows).1) ==
            Ok(Import(imp, ReadJsonl(codec, text).value, rows, 0).ledger)
  {
    var onFile := ReadJsonl(codec, text).value;
    var after := Import(imp, onFile, rows, 0).ledger;
    ImportConserves(imp, onFile, rows, 0);
    NewRowsPrint(imp, codec, onFile, rows);
    AppendedReads(codec, text, onFile, after);
  }

  lemma NewRowsPrint(imp: Importer<string>, codec: Codec, onFile: seq<Record>, rows: seq<Value>)
    requires forall row | row in rows && imp.build(row, 0).Some? ::
               codec.holds(imp.build(row, 0).value.rec) && OneLine(codec, imp.build(row, 0).value.rec)
    requires onFile <= Import(imp, onFile, rows, 0).ledger
    ensures HoldsAll(codec, Import(imp, onFile, rows, 0).ledger[|onFile|..])
    ensures AllOneLine(codec, Import(imp, onFile, rows, 0).ledger[|onFile|..])
  {
    var after := Import(imp, onFile, rows, 0).ledger;
    forall j | 0 <= j < |after| - |onFile|
      ensures codec.holds(after[|onFile|..][j]) && OneLine(codec, after[|onFile|..][j])
    {
      FreshWasBuilt(imp, onFile, rows, 0, |onFile| + j);
    }
  }

  lemma AppendedReads(codec: Codec, text: string, onFile: seq<Record>, after: seq<Record>)
    requires Sound(codec) && ReadJsonl(codec, text) == Ok(onFile) && onFile <= after
    requires HoldsAll(codec, after[|onFile|..]) && AllOneLine(codec, after[|onFile|..])
    ensures ReadJsonl(codec, Appended(codec, text, after[|onFile|..])) == Ok(after)
  {
    assert onFile + after[|onFile|..] == after;
    ReadAfterAppend(codec, text, after[|onFile|..]);
  }
}
