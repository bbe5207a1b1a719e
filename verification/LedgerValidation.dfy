/** The whole-ledger validator, and why a ledger the two importers wrote always passes it. */
module LedgerValidation {
  import opened Json
  import opened Importer
  import opened LedgerFile
  import opened RoutedLedger
  import RoutedRows

  datatype Kind = WagerFile | SettlementFile

  const WAGER_FILE_FIELDS := WAGER_INPUT_FIELDS + {"wager_id", "schema_version"}
  const SETTLEMENT_FILE_FIELDS := SETTLEMENT_INPUT_FIELDS + {"settlement_id", "schema_version"}

  predicate ValidRow(spec: LedgerSpec, kind: Kind, rec: Record) {
    match kind
    case WagerFile => ValidWager(spec, rec) && rec.Keys <= WAGER_FILE_FIELDS
    case SettlementFile => ValidSettlement(spec, rec) && rec.Keys <= SETTLEMENT_FILE_FIELDS
  }

  /** What the validator demands of one record, in the record's own terms. */
  lemma ValidRowIff(spec: LedgerSpec, kind: Kind, rec: Record)
    ensures ValidRow(spec, kind, rec) <==>
            if kind == WagerFile then RoutedRows.WagerOnFile(spec, rec) else RoutedRows.SettlementOnFile(spec, rec)
  {
    RoutedRows.WagerOnFileIff(spec, rec);
    RoutedRows.SettlementOnFileIff(spec, rec);
  }

  // ------------------------------------------------------------- what the validator checks

  predicate IsObject(codec: Codec, line: string) {
    !Blank(line) && codec.parse(line).Some? && codec.parse(line).value.Obj?
  }

  predicate GoodLine(spec: LedgerSpec, codec: Codec, kind: Kind, line: string) {
    IsObject(codec, line) && ValidRow(spec, kind, codec.parse(line).value.fields)
  }

  /** The objects of a file, in order; lines that are not objects are passed over. */
  function Objects(codec: Codec, lines: seq<string>): seq<Record> {
    if lines == [] then []
    else
      var n := |lines| - 1;
      Objects(codec, lines[..n]) + if IsObject(codec, lines[n]) then [codec.parse(lines[n]).value.fields] else []
  }

  function Keys(rows: seq<Record>): set<Value> {
    set i | 0 <= i < |rows| :: Get(rows[i], "source_bet_key")
  }

  predicate DistinctKeys(rows: seq<Record>) {
    forall i, j | 0 <= i < j < |rows| :: Get(rows[i], "source_bet_key") != Get(rows[j], "source_bet_key")
  }

  predicate AllGood(spec: LedgerSpec, codec: Codec, kind: Kind, lines: seq<string>) {
    lines == [] ||
    (AllGood(spec, codec, kind, lines[..|lines| - 1]) && GoodLine(spec, codec, kind, lines[|lines| - 1]))
  }

  predicate CleanLines(spec: LedgerSpec, codec: Codec, kind: Kind, lines: seq<string>) {
    && AllGood(spec, codec, kind, lines)
    && DistinctKeys(Objects(codec, lines))
  }

  predicate NoOrphans(wagers: seq<Record>, settlements: seq<Record>) {
    forall i | 0 <= i < |settlements| :: Get(settlements[i], "source_bet_key") in Keys(wagers)
  }

  predicate CleanLedger(spec: LedgerSpec, codec: Codec, wagers: string, settlements: string) {
    && CleanLines(spec, codec, WagerFile, SplitLines(wagers))
    && CleanLines(spec, codec, SettlementFile, SplitLines(settlements))
    && NoOrphans(Objects(codec, SplitLines(wagers)), Objects(codec, SplitLines(settlements)))
  }

  predicate Extends(base: Option<string>, text: string) {
    base.Some? ==> base.value <= text
  }

  datatype Failure =
    | BlankLine(kind: Kind, line: nat)
    | NotAnObject(kind: Kind, line: nat)
    | InvalidRow(kind: Kind, line: nat)
    | DuplicateKey(kind: Kind, line: nat)
    | NotAppendOnly(kind: Kind)
    | Orphan(settlement: nat)

  /** The line holds an object under this key. */
  predicate Under(codec: Codec, line: string, key: Value) {
    IsObject(codec, line) && Get(codec.parse(line).value.fields, "source_bet_key") == key
  }

  /** An earlier line holds a row under the same key. */
  ghost predicate KeyBefore(codec: Codec, lines: seq<string>, i: int) {
    exists m, key :: 0 <= m < i < |lines| && Under(codec, lines[i], key) && Under(codec, lines[m], key)
  }

  /** What is wrong with the i-th line, numbered from one. */
  ghost predicate Wrong(spec: LedgerSpec, codec: Codec, kind: Kind, lines: seq<string>, i: int, f: Failure) {
    && 0 <= i < |lines|
    && (|| (f == BlankLine(kind, i + 1) && Blank(lines[i]))
        || (f == NotAnObject(kind, i + 1) && !Blank(lines[i]) && !IsObject(codec, lines[i]))
        || (f == InvalidRow(kind, i + 1) && IsObject(codec, lines[i]) && !GoodLine(spec, codec, kind, lines[i]))
        || (f == DuplicateKey(kind, i + 1) && KeyBefore(codec, lines, i)))
  }

  ghost predicate Defect(spec: LedgerSpec, codec: Codec, kind: Kind, lines: seq<string>, f: Failure) {
    exists i :: Wrong(spec, codec, kind, lines, i, f)
  }

  ghost predicate Repeats(codec: Codec, line: string, keys: set<Value>) {
    exists key :: key in keys && Under(codec, line, key)
  }

  /** The same of one line, given the keys before it. */
  ghost predicate LineDefect(spec: LedgerSpec, codec: Codec, kind: Kind, line: string, number: nat, keys: set<Value>, f: Failure) {
    || (f == BlankLine(kind, number) && Blank(line))
    || (f == NotAnObject(kind, number) && !Blank(line) && !IsObject(codec, line))
    || (f == InvalidRow(kind, number) && IsObject(codec, line) && !GoodLine(spec, codec, kind, line))
    || (f == DuplicateKey(kind, number) && Repeats(codec, line, keys))
  }

  lemma {:induction false} KeysBefore(codec: Codec, lines: seq<string>, key: Value)
    ensures key in Keys(Objects(codec, lines)) <==> exists m :: 0 <= m < |lines| && Under(codec, lines[m], key)
  {
    if lines != [] {
      var n := |lines| - 1;
      KeysBefore(codec, lines[..n], key);
      if IsObject(codec, lines[n]) {
        KeysAppend(Objects(codec, lines[..n]), codec.parse(lines[n]).value.fields);
      } else {
        assert Objects(codec, lines) == Objects(codec, lines[..n]);
      }
      assert key in Keys(Objects(codec, lines)) <==> key in Keys(Objects(codec, lines[..n])) || Under(codec, lines[n], key);
      assert (exists m :: 0 <= m < n && Under(codec, lines[..n][m], key)) <==> exists m :: 0 <= m < n && Under(codec, lines[m], key) by {
        assert forall m | 0 <= m < n :: lines[..n][m] == lines[m];
      }
    }
  }

  lemma DuplicateNext(codec: Codec, lines: seq<string>, i: nat)
    requires i < |lines|
    ensures KeyBefore(codec, lines[..i + 1], i) <==>
            Repeats(codec, lines[i], Keys(Objects(codec, lines[..i])))
    ensures forall n | 0 <= n < i :: KeyBefore(codec, lines[..i + 1], n) <==> KeyBefore(codec, lines[..i], n)
  {
    var more, before := lines[..i + 1], lines[..i];
    assert more[i] == lines[i] && forall m | 0 <= m < i :: more[m] == before[m];
    forall key ensures key in Keys(Objects(codec, before)) <==> exists m :: 0 <= m < i && Under(codec, more[m], key) {
      KeysBefore(codec, before, key);
    }
  }

  lemma WrongHere(spec: LedgerSpec, codec: Codec, kind: Kind, lines: seq<string>, i: nat, f: Failure)
    requires i < |lines|
    ensures Wrong(spec, codec, kind, lines[..i + 1], i, f) <==>
            LineDefect(spec, codec, kind, lines[i], i + 1, Keys(Objects(codec, lines[..i])), f)
  {
    assert lines[..i + 1][i] == lines[i];
    DuplicateNext(codec, lines, i);
  }

  lemma WrongBefore(spec: LedgerSpec, codec: Codec, kind: Kind, lines: seq<string>, i: nat, n: int, f: Failure)
    requires i < |lines| && n != i
    ensures Wrong(spec, codec, kind, lines[..i + 1], n, f) <==> Wrong(spec, codec, kind, lines[..i], n, f)
  {
    DuplicateNext(codec, lines, i);
    if 0 <= n < i { assert lines[..i + 1][n] == lines[..i][n]; }
  }

  lemma WrongNext(spec: LedgerSpec, codec: Codec, kind: Kind, lines: seq<string>, i: nat, f: Failure)
    requires i < |lines|
    ensures Wrong(spec, codec, kind, lines[..i + 1], i, f) <==>
            LineDefect(spec, codec, kind, lines[i], i + 1, Keys(Objects(codec, lines[..i])), f)
    ensures forall n | n != i :: Wrong(spec, codec, kind, lines[..i + 1], n, f) <==> Wrong(spec, codec, kind, lines[..i], n, f)
    ensures !Wrong(spec, codec, kind, lines[..i], i, f)
  {
    WrongHere(spec, codec, kind, lines, i, f);
    forall n | n != i ensures Wrong(spec, codec, kind, lines[..i + 1], n, f) <==> Wrong(spec, codec, kind, lines[..i], n, f) {
      WrongBefore(spec, codec, kind, lines, i, n, f);
    }
  }

  lemma DefectNext(spec: LedgerSpec, codec: Codec, kind: Kind, lines: seq<string>, i: nat, f: Failure)
    requires i < |lines|
    ensures Defect(spec, codec, kind, lines[..i + 1], f) <==>
            || Defect(spec, codec, kind, lines[..i], f)
            || LineDefect(spec, codec, kind, lines[i], i + 1, Keys(Objects(codec, lines[..i])), f)
  {
    var more, before := lines[..i + 1], lines[..i];
    WrongNext(spec, codec, kind, lines, i, f);
    if n :| Wrong(spec, codec, kind, more, n, f) {
      assert n == i || Wrong(spec, codec, kind, before, n, f);
    }
    if n :| Wrong(spec, codec, kind, before, n, f) {
      assert Wrong(spec, codec, kind, more, n, f);
    }
  }

  lemma DefectsNext(spec: LedgerSpec, codec: Codec, kind: Kind, lines: seq<string>, i: nat, failures: seq<Failure>, more: seq<Failure>)
    requires i < |lines| && forall f :: f in failures <==> Defect(spec, codec, kind, lines[..i], f)
    requires forall f :: f in more <==> LineDefect(spec, codec, kind, lines[i], i + 1, Keys(Objects(codec, lines[..i])), f)
    ensures forall f :: f in failures + more <==> Defect(spec, codec, kind, lines[..i + 1], f)
  {
    forall f ensures f in failures + more <==> Defect(spec, codec, kind, lines[..i + 1], f) {
      DefectNext(spec, codec, kind, lines, i, f);
    }
  }

  /** One line of a file whose rows so far carry `keys`. */
  method ValidateLine(spec: LedgerSpec, codec: Codec, kind: Kind, line: string, number: nat, keys: set<Value>)
    returns (failures: seq<Failure>, row: Option<Record>)
    ensures row == if IsObject(codec, line) then Some(codec.parse(line).value.fields) else None
    ensures failures == [] <==>
            GoodLine(spec, codec, kind, line) && Get(codec.parse(line).value.fields, "source_bet_key") !in keys
    ensures forall f :: f in failures <==> LineDefect(spec, codec, kind, line, number, keys, f)
  {
    if Blank(line) {
      return [BlankLine(kind, number)], None;
    }
    if !IsObject(codec, line) {
      return [NotAnObject(kind, number)], None;
    }
    var fields := codec.parse(line).value.fields;
    failures, row := [], Some(fields);
    if !ValidRow(spec, kind, fields) {
      failures := failures + [InvalidRow(kind, number)];
    }
    if Get(fields, "source_bet_key") in keys {
      failures := failures + [DuplicateKey(kind, number)];
    }
  }

  method ValidateFile(spec: LedgerSpec, codec: Codec, kind: Kind, text: string, base: Option<string>)
    returns (failures: seq<Failure>, rows: seq<Record>)
    ensures rows == Objects(codec, SplitLines(text))
    ensures failures == [] <==> CleanLines(spec, codec, kind, SplitLines(text)) && Extends(base, text)
    ensures forall f :: f in failures <==>
              Defect(spec, codec, kind, SplitLines(text), f) || (f == NotAppendOnly(kind) && !Extends(base, text))
  {
    var lines := SplitLines(text);
    failures, rows := [], [];
    var keys: set<Value> := {};
    for i := 0 to |lines|
      invariant forall f :: f in failures <==> Defect(spec, codec, kind, lines[..i], f)
      invariant rows == Objects(codec, lines[..i]) && keys == Keys(rows)
      invariant failures == [] <==> CleanLines(spec, codec, kind, lines[..i])
    {
      CleanNext(spec, codec, kind, lines, i);
      var more, row := ValidateLine(spec, codec, kind, lines[i], i + 1, keys);
      DefectsNext(spec, codec, kind, lines, i, failures, more);
      failures := failures + more;
      if row.Some? {
        KeysAppend(rows, row.value);
        keys := keys + {Get(row.value, "source_bet_key")};
        rows := rows + [row.value];
      }
    }
    assert lines[..|lines|] == lines;
    if base.Some? && !(base.value <= text) {
      failures := failures + [NotAppendOnly(kind)];
    }
  }

  lemma CleanNext(spec: LedgerSpec, codec: Codec, kind: Kind, lines: seq<string>, i: nat)
    requires i < |lines|
    ensures Objects(codec, lines[..i + 1]) ==
            Objects(codec, lines[..i]) + if IsObject(codec, lines[i]) then [codec.parse(lines[i]).value.fields] else []
    ensures CleanLines(spec, codec, kind, lines[..i + 1]) <==>
            && CleanLines(spec, codec, kind, lines[..i])
            && GoodLine(spec, codec, kind, lines[i])
            && Get(codec.parse(lines[i]).value.fields, "source_bet_key") !in Keys(Objects(codec, lines[..i]))
  {
    assert lines[..i + 1] == lines[..i] + [lines[i]];
    CleanAppend(spec, codec, kind, lines[..i], lines[i]);
  }

  lemma KeysAppend(rows: seq<Record>, row: Record)
    ensures Keys(rows + [row]) == Keys(rows) + {Get(row, "source_bet_key")}
    ensures DistinctKeys(rows + [row]) <==> DistinctKeys(rows) && Get(row, "source_bet_key") !in Keys(rows)
  {
    var more := rows + [row];
    assert forall i | 0 <= i < |rows| :: more[i] == rows[i];
    assert more[|rows|] == row;
    forall key | key in Keys(rows) ensures key in Keys(more) {
      var i :| 0 <= i < |rows| && Get(rows[i], "source_bet_key") == key;
      assert Get(more[i], "source_bet_key") == key;
    }
    if DistinctKeys(more) {
      assert forall i, j | 0 <= i < j < |rows| :: Get(more[i], "source_bet_key") != Get(more[j], "source_bet_key");
    }
  }

  lemma CleanAppend(spec: LedgerSpec, codec: Codec, kind: Kind, lines: seq<string>, line: string)
    ensures Objects(codec, lines + [line]) ==
            Objects(codec, lines) + if IsObject(codec, line) then [codec.parse(line).value.fields] else []
    ensures CleanLines(spec, codec, kind, lines + [line]) <==>
            && CleanLines(spec, codec, kind, lines)
            && GoodLine(spec, codec, kind, line)
            && Get(codec.parse(line).value.fields, "source_bet_key") !in Keys(Objects(codec, lines))
  {
    assert (lines + [line])[..|lines|] == lines;
    if IsObject(codec, line) {
      KeysAppend(Objects(codec, lines), codec.parse(line).value.fields);
    }
  }

  /** No wager has the key of this settlement, counted from one. */
  ghost predicate OrphanAt(wagers: seq<Record>, settlements: seq<Record>, f: Failure) {
    && f.Orphan? && 1 <= f.settlement <= |settlements|
    && forall i | 0 <= i < |wagers| :: Get(wagers[i], "source_bet_key") != Get(settlements[f.settlement - 1], "source_bet_key")
  }

  method FindOrphans(wagers: seq<Record>, settlements: seq<Record>) returns (failures: seq<Failure>)
    ensures failures == [] <==> NoOrphans(wagers, settlements)
    ensures forall f :: f in failures <==> OrphanAt(wagers, settlements, f)
  {
    var keys := Keys(wagers);
    failures := [];
    for i := 0 to |settlements|
      invariant forall f :: f in failures <==> f.Orphan? && f.settlement <= i && OrphanAt(wagers, settlements, f)
      invariant failures == [] <==> forall k | 0 <= k < i :: Get(settlements[k], "source_bet_key") in keys
    {
      if Get(settlements[i], "source_bet_key") !in keys {
        failures := failures + [Orphan(i + 1)];
      }
    }
  }

  /** `validate_ledger`: no failure is reported exactly when every line of both files is a valid
      row, no key is filed twice, every settlement has its wager, and each file extends its base;
      and those reported are exactly the defects there are. */
  method ValidateLedger(spec: LedgerSpec, codec: Codec, wagers: string, settlements: string,
                        wagersBase: Option<string>, settlementsBase: Option<string>)
    returns (failures: seq<Failure>)
    ensures failures == [] <==>
            CleanLedger(spec, codec, wagers, settlements) && Extends(wagersBase, wagers) && Extends(settlementsBase, settlements)
    ensures forall f :: f in failures <==>
              || Defect(spec, codec, WagerFile, SplitLines(wagers), f)
              || Defect(spec, codec, SettlementFile, SplitLines(settlements), f)
              || (f == NotAppendOnly(WagerFile) && !Extends(wagersBase, wagers))
              || (f == NotAppendOnly(SettlementFile) && !Extends(settlementsBase, settlements))
              || OrphanAt(Objects(codec, SplitLines(wagers)), Objects(codec, SplitLines(settlements)), f)
  {
    var wagerFailures, wagerRows := ValidateFile(spec, codec, WagerFile, wagers, wagersBase);
    var settlementFailures, settlementRows := ValidateFile(spec, codec, SettlementFile, settlements, settlementsBase);
    var orphans := FindOrphans(wagerRows, settlementRows);
    failures := wagerFailures + settlementFailures + orphans;
  }

  // ------------------------------------------------------------- the importers keep it clean

  ghost predicate AllValid(spec: LedgerSpec, kind: Kind, rows: seq<Record>) {
    forall i | 0 <= i < |rows| :: ValidRow(spec, kind, rows[i])
  }

  ghost predicate AllSettle(spec: LedgerSpec, wagers: seq<Record>, settlements: seq<Record>) {
    forall i | 0 <= i < |settlements| :: Settles(spec, wagers, settlements[i])
  }

  /** A sound pair of ledgers: valid rows, unique keys, and every settlement agreeing in market
      and side with the wager it settles. */
  ghost predicate SoundBooks(spec: LedgerSpec, wagers: seq<Record>, settlements: seq<Record>) {
    && AllValid(spec, WagerFile, wagers)
    && AllValid(spec, SettlementFile, settlements)
    && UniqueKeys(WagerImporter(spec, None), wagers)
    && UniqueKeys(WagerImporter(spec, None), settlements)
    && AllSettle(spec, wagers, settlements)
  }

  lemma BuiltWagerIsValid(spec: LedgerSpec, row: Value)
    requires BuildWager(spec, row).Some?
    ensures ValidRow(spec, WagerFile, BuildWager(spec, row).value)
  {
  }

  lemma BuiltSettlementIsValid(spec: LedgerSpec, row: Value)
    requires BuildSettlement(spec, row).Some?
    ensures ValidRow(spec, SettlementFile, BuildSettlement(spec, row).value)
  {
  }

  /** A lookup depends on nothing but how keys are read. */
  lemma {:induction false} LookupByKeyOnly(a: Importer<string>, b: Importer<string>, rows: seq<Record>, key: string)
    requires a.keyOf == b.keyOf
    ensures Lookup(a, rows, key) == Lookup(b, rows, key)
  {
    if rows != [] {
      LookupByKeyOnly(a, b, rows[..|rows| - 1], key);
    }
  }

  lemma UniqueByKeyOnly(a: Importer<string>, b: Importer<string>, rows: seq<Record>)
    requires a.keyOf == b.keyOf && UniqueKeys(a, rows)
    ensures UniqueKeys(b, rows)
  {
  }

  /** Everything an import of valid rows leaves is valid. */
  lemma ImportKeepsValid(spec: LedgerSpec, kind: Kind, imp: Importer<string>, ledger: seq<Record>, rows: seq<Value>)
    requires AllValid(spec, kind, ledger)
    requires forall row | imp.build(row, 0).Some? :: ValidRow(spec, kind, imp.build(row, 0).value.rec)
    ensures AllValid(spec, kind, Import(imp, ledger, rows, 0).ledger)
  {
    var after := Import(imp, ledger, rows, 0).ledger;
    ImportConserves(imp, ledger, rows, 0);
    forall j | 0 <= j < |after| ensures ValidRow(spec, kind, after[j]) {
      if j >= |ledger| {
        FreshWasBuilt(imp, ledger, rows, 0, j);
      } else {
        assert after[j] == ledger[j];
      }
    }
  }

  /** A settlement keeps settling its wager whatever wagers are imported later. */
  lemma ImportKeepsSettled(spec: LedgerSpec, wagers: seq<Record>, rows: seq<Value>, batch: Option<string>, settlement: Record)
    requires Settles(spec, wagers, settlement)
    ensures Settles(spec, Import(WagerImporter(spec, batch), wagers, rows, 0).ledger, settlement)
  {
    var imp, plain := WagerImporter(spec, batch), WagerImporter(spec, None);
    var key := Get(settlement, "source_bet_key").s;
    WagerImporterLawful(spec, batch);
    LookupByKeyOnly(plain, imp, wagers, key);
    ImportKeepsStored(imp, wagers, rows, 0, key);
    LookupByKeyOnly(plain, imp, Import(imp, wagers, rows, 0).ledger, key);
  }

  lemma ImportKeepsUnique(spec: LedgerSpec, imp: Importer<string>, ledger: seq<Record>, rows: seq<Value>)
    requires Lawful(imp) && imp.keyOf == WagerImporter(spec, None).keyOf
    requires UniqueKeys(WagerImporter(spec, None), ledger)
    ensures UniqueKeys(WagerImporter(spec, None), Import(imp, ledger, rows, 0).ledger)
  {
    UniqueByKeyOnly(WagerImporter(spec, None), imp, ledger);
    ImportUnique(imp, ledger, rows, 0);
    UniqueByKeyOnly(imp, WagerImporter(spec, None), Import(imp, ledger, rows, 0).ledger);
  }

  lemma WagerImporterBuildsValid(spec: LedgerSpec, batch: Option<string>)
    ensures forall row | WagerImporter(spec, batch).build(row, 0).Some? ::
              ValidRow(spec, WagerFile, WagerImporter(spec, batch).build(row, 0).value.rec)
  {
    forall row | WagerImporter(spec, batch).build(row, 0).Some?
      ensures ValidRow(spec, WagerFile, WagerImporter(spec, batch).build(row, 0).value.rec)
    {
      BuiltWagerIsValid(spec, row);
    }
  }

  lemma WagerImportKeepsBooks(spec: LedgerSpec, wagers: seq<Record>, settlements: seq<Record>,
                              rows: seq<Value>, batch: Option<string>)
    requires SoundBooks(spec, wagers, settlements)
    ensures SoundBooks(spec, Import(WagerImporter(spec, batch), wagers, rows, 0).ledger, settlements)
  {
    var imp := WagerImporter(spec, batch);
    WagerImporterLawful(spec, batch);
    WagerImporterBuildsValid(spec, batch);
    ImportKeepsValid(spec, WagerFile, imp, wagers, rows);
    ImportKeepsUnique(spec, imp, wagers, rows);
    forall i | 0 <= i < |settlements| ensures Settles(spec, Import(imp, wagers, rows, 0).ledger, settlements[i]) {
      ImportKeepsSettled(spec, wagers, rows, batch, settlements[i]);
    }
  }

  /** Every settlement on file after an import settles a wager that is on file. */
  lemma ImportSettles(spec: LedgerSpec, wagers: seq<Record>, settlements: seq<Record>, rows: seq<Value>)
    requires AllSettle(spec, wagers, settlements)
    ensures AllSettle(spec, wagers, Import(SettlementImporter(spec, wagers), settlements, rows, 0).ledger)
  {
    var imp := SettlementImporter(spec, wagers);
    var after := Import(imp, settlements, rows, 0).ledger;
    ImportConserves(imp, settlements, rows, 0);
    forall j | 0 <= j < |after| ensures Settles(spec, wagers, after[j]) {
      if j >= |settlements| {
        FreshWasBuilt(imp, settlements, rows, 0, j);
      } else {
        assert after[j] == settlements[j];
      }
    }
  }

  lemma SettlementImporterBuildsValid(spec: LedgerSpec, wagers: seq<Record>)
    ensures forall row | SettlementImporter(spec, wagers).build(row, 0).Some? ::
              ValidRow(spec, SettlementFile, SettlementImporter(spec, wagers).build(row, 0).value.rec)
  {
    forall row | SettlementImporter(spec, wagers).build(row, 0).Some?
      ensures ValidRow(spec, SettlementFile, SettlementImporter(spec, wagers).build(row, 0).value.rec)
    {
      BuiltSettlementIsValid(spec, row);
    }
  }

  lemma SettlementImportKeepsBooks(spec: LedgerSpec, wagers: seq<Record>, settlements: seq<Record>, rows: seq<Value>)
    requires SoundBooks(spec, wagers, settlements)
    ensures SoundBooks(spec, wagers, Import(SettlementImporter(spec, wagers), settlements, rows, 0).ledger)
  {
    var imp := SettlementImporter(spec, wagers);
    SettlementImporterLawful(spec, wagers);
    SettlementImporterBuildsValid(spec, wagers);
    ImportKeepsValid(spec, SettlementFile, imp, settlements, rows);
    ImportKeepsUnique(spec, imp, settlements, rows);
    ImportSettles(spec, wagers, settlements, rows);
  }

  // ------------------------------------------------------------- runs over the two files

  datatype Batch =
    | WagerBatch(rows: seq<Value>, batchId: Option<string>)
    | SettlementBatch(rows: seq<Value>)

  datatype Texts = Texts(wagers: string, settlements: string)

  /** One import against the two files, as the importer methods perform it. */
  function ApplyBatch(spec: LedgerSpec, codec: Codec, t: Texts, b: Batch): Texts {
    match b
    case WagerBatch(rows, batchId) =>
      t.(wagers := FileImport(WagerImporter(spec, batchId), codec, t.wagers, rows).1)
    case SettlementBatch(rows) =>
      match ReadJsonl(codec, t.wagers)
      case Err => t
      case Ok(placed) => t.(settlements := FileImport(SettlementImporter(spec, placed), codec, t.settlements, rows).1)
  }

  function RunBatches(spec: LedgerSpec, codec: Codec, t: Texts, bs: seq<Batch>): Texts {
    if bs == [] then t
    else ApplyBatch(spec, codec, RunBatches(spec, codec, t, bs[..|bs| - 1]), bs[|bs| - 1])
  }

  /** The record can be held and, where `oneLine` asks for it, prints on one line. */
  ghost predicate Writable(codec: Codec, rec: Record, oneLine: bool) {
    codec.holds(rec) && (oneLine ==> OneLine(codec, rec))
  }

  /** Every record this batch could write is writable. */
  ghost predicate WritableBatch(spec: LedgerSpec, codec: Codec, b: Batch, oneLine: bool) {
    match b
    case WagerBatch(rows, _) =>
      forall i | 0 <= i < |rows| :: BuildWager(spec, rows[i]).Some? ==> Writable(codec, BuildWager(spec, rows[i]).value, oneLine)
    case SettlementBatch(rows) =>
      forall i | 0 <= i < |rows| :: BuildSettlement(spec, rows[i]).Some? ==> Writable(codec, BuildSettlement(spec, rows[i]).value, oneLine)
  }

  ghost predicate PrintsTo(codec: Codec, text: string, rows: seq<Record>, oneLine: bool) {
    && text == Printed(codec, rows)
    && HoldsAll(codec, rows)
    && (oneLine ==> AllOneLine(codec, rows))
  }

  lemma {:induction false} PrintedConcat(codec: Codec, a: seq<Record>, b: seq<Record>)
    ensures Printed(codec, a + b) == Printed(codec, a) + Printed(codec, b)
  {
    if a == [] {
      assert a + b == b;
    } else {
      assert (a + b)[1..] == a[1..] + b;
      PrintedConcat(codec, a[1..], b);
      Associative(codec.render(a[0]) + "\n", Printed(codec, a[1..]), Printed(codec, b));
    }
  }

  lemma AppendedToPrinted(codec: Codec, a: seq<Record>, b: seq<Record>)
    ensures Appended(codec, Printed(codec, a), b) == Printed(codec, a + b)
  {
    PrintedConcat(codec, a, b);
    if b == [] {
      assert a + b == a;
    } else if a != [] {
      EndsInNewline(codec, a);
    }
  }

  /** The lines of a printed file are its records, one each. */
  lemma {:induction false} LinesOfPrinted(codec: Codec, rows: seq<Record>)
    requires AllOneLine(codec, rows)
    ensures |SplitLines(Printed(codec, rows))| == |rows|
    ensures forall i | 0 <= i < |rows| :: SplitLines(Printed(codec, rows))[i] == codec.render(rows[i])
  {
    if rows != [] {
      var text, rest := codec.render(rows[0]), Printed(codec, rows[1..]);
      assert OneLine(codec, rows[0]);
      assert AllOneLine(codec, rows[1..]) by {
        assert forall i | 0 <= i < |rows| - 1 :: rows[1..][i] == rows[i + 1];
      }
      LinesOfPrinted(codec, rows[1..]);
      var t := text + "\n" + rest;
      SplitFirstLine(text, rest);
      assert forall i | 0 < i < |rows| :: rows[i] == rows[1..][i - 1];
    }
  }

  lemma SplitFirstLine(line: string, u: string)
    requires NoBreak(line)
    ensures SplitLines(line + "\n" + u) == [line] + SplitLines(u)
  {
    var t := line + "\n" + u;
    assert t == line + ("\n" + u);
    Slices(line, "\n" + u, |line|);
    assert t[|line|] == '\n' && forall i | 0 <= i < |line| :: t[i] == line[i];
    FirstBreakAt(t, |line|);
    assert t[|line| + 1..] == u;
    assert line[..|line|] == line;
  }

  lemma {:induction false} ObjectsOf(codec: Codec, lines: seq<string>, rows: seq<Record>)
    requires |lines| == |rows|
    requires forall i | 0 <= i < |rows| :: IsObject(codec, lines[i]) && codec.parse(lines[i]) == Some(Obj(rows[i]))
    ensures Objects(codec, lines) == rows
  {
    if rows != [] {
      var n := |rows| - 1;
      assert forall i | 0 <= i < n :: lines[..n][i] == lines[i] && rows[..n][i] == rows[i];
      ObjectsOf(codec, lines[..n], rows[..n]);
    }
  }

  lemma {:induction false} GoodRows(spec: LedgerSpec, codec: Codec, kind: Kind, lines: seq<string>, rows: seq<Record>)
    requires |lines| == |rows| && AllValid(spec, kind, rows)
    requires forall i | 0 <= i < |rows| :: IsObject(codec, lines[i]) && codec.parse(lines[i]) == Some(Obj(rows[i]))
    ensures AllGood(spec, codec, kind, lines)
  {
    if rows != [] {
      var n := |rows| - 1;
      assert forall i | 0 <= i < n :: lines[..n][i] == lines[i] && rows[..n][i] == rows[i];
      GoodRows(spec, codec, kind, lines[..n], rows[..n]);
      assert ValidRow(spec, kind, rows[n]);
    }
  }

  /** Sound books, printed, pass the validator exactly when every record prints on one line. */
  lemma SoundBooksAreClean(spec: LedgerSpec, codec: Codec, t: Texts, wagers: seq<Record>, settlements: seq<Record>)
    requires Sound(codec) && SoundBooks(spec, wagers, settlements)
    requires PrintsTo(codec, t.wagers, wagers, false) && PrintsTo(codec, t.settlements, settlements, false)
    ensures CleanLedger(spec, codec, t.wagers, t.settlements) <==> AllOneLine(codec, wagers) && AllOneLine(codec, settlements)
  {
    BrokenFileIsNotClean(spec, codec, WagerFile, t.wagers, wagers);
    BrokenFileIsNotClean(spec, codec, SettlementFile, t.settlements, settlements);
    if AllOneLine(codec, wagers) && AllOneLine(codec, settlements) {
      PrintedFileIsClean(spec, codec, WagerFile, t.wagers, wagers);
      PrintedFileIsClean(spec, codec, SettlementFile, t.settlements, settlements);
      forall i | 0 <= i < |settlements| ensures Get(settlements[i], "source_bet_key") in Keys(wagers) {
        assert Settles(spec, wagers, settlements[i]);
        SettledIsKeyed(spec, wagers, settlements[i]);
      }
    }
  }

  lemma SettledIsKeyed(spec: LedgerSpec, wagers: seq<Record>, settlement: Record)
    requires Settles(spec, wagers, settlement)
    ensures Get(settlement, "source_bet_key") in Keys(wagers)
  {
    var imp, key := WagerImporter(spec, None), Get(settlement, "source_bet_key").s;
    LookupIffHasKey(imp, wagers, key);
    var j :| 0 <= j < |wagers| && imp.keyOf(wagers[j]) == Some(key);
    assert Get(wagers[j], "source_bet_key") == Str(key);
  }

  lemma ObjectReads(codec: Codec, line: string)
    requires IsObject(codec, line)
    ensures ReadLines(codec, [line]).Ok?
  {
    assert [line][1..] == [];
  }

  /** Good lines can all be read. */
  lemma {:induction false} GoodLinesRead(spec: LedgerSpec, codec: Codec, kind: Kind, lines: seq<string>)
    requires AllGood(spec, codec, kind, lines)
    ensures ReadLines(codec, lines).Ok?
  {
    if lines != [] {
      var n := |lines| - 1;
      GoodLinesRead(spec, codec, kind, lines[..n]);
      ObjectReads(codec, lines[n]);
      ReadLinesConcat(codec, lines[..n], [lines[n]]);
      assert lines == lines[..n] + [lines[n]];
    }
  }

  lemma BrokenFileIsNotClean(spec: LedgerSpec, codec: Codec, kind: Kind, text: string, rows: seq<Record>)
    requires Sound(codec) && PrintsTo(codec, text, rows, false)
    ensures CleanLines(spec, codec, kind, SplitLines(text)) ==> AllOneLine(codec, rows)
  {
    ReadAllPrinted(codec, rows);
    if CleanLines(spec, codec, kind, SplitLines(text)) {
      GoodLinesRead(spec, codec, kind, SplitLines(text));
    }
  }

  lemma PrintedFileIsClean(spec: LedgerSpec, codec: Codec, kind: Kind, text: string, rows: seq<Record>)
    requires Sound(codec) && PrintsTo(codec, text, rows, true)
    requires AllValid(spec, kind, rows) && UniqueKeys(WagerImporter(spec, None), rows)
    ensures CleanLines(spec, codec, kind, SplitLines(text)) && Objects(codec, SplitLines(text)) == rows
  {
    var lines := SplitLines(text);
    PrintedLinesParse(codec, text, rows);
    ObjectsOf(codec, lines, rows);
    GoodRows(spec, codec, kind, lines, rows);
    KeysDiffer(spec, rows);
  }

  lemma PrintedLinesParse(codec: Codec, text: string, rows: seq<Record>)
    requires Sound(codec) && PrintsTo(codec, text, rows, true)
    ensures |SplitLines(text)| == |rows|
    ensures forall i | 0 <= i < |rows| ::
              IsObject(codec, SplitLines(text)[i]) && codec.parse(SplitLines(text)[i]) == Some(Obj(rows[i]))
  {
    var lines := SplitLines(text);
    LinesOfPrinted(codec, rows);
    forall i | 0 <= i < |rows| ensures IsObject(codec, lines[i]) && codec.parse(lines[i]) == Some(Obj(rows[i])) {
      assert codec.holds(rows[i]);
      assert lines[i][0] == '{' && !IsSpace('{');
    }
  }

  lemma KeysDiffer(spec: LedgerSpec, rows: seq<Record>)
    requires UniqueKeys(WagerImporter(spec, None), rows)
    ensures DistinctKeys(rows)
  {
    forall i, j | 0 <= i < j < |rows| ensures Get(rows[i], "source_bet_key") != Get(rows[j], "source_bet_key") {
      assert KeyOf(rows[i]).Some? && KeyOf(rows[i]) != KeyOf(rows[j]);
    }
  }

  /** One import of writable rows into a printed file: it goes ahead exactly when the file still
      reads, and otherwise leaves it alone. */
  lemma ImportPrints(codec: Codec, imp: Importer<string>, text: string, onFile: seq<Record>, rows: seq<Value>, oneLine: bool)
    requires Sound(codec) && PrintsTo(codec, text, onFile, oneLine)
    requires forall i | 0 <= i < |rows| && imp.build(rows[i], 0).Some? :: Writable(codec, imp.build(rows[i], 0).value.rec, oneLine)
    ensures ReadJsonl(codec, text) == if AllOneLine(codec, onFile) then Ok(onFile) else Err
    ensures PrintsTo(codec, FileImport(imp, codec, text, rows).1,
                     if AllOneLine(codec, onFile) then Import(imp, onFile, rows, 0).ledger else onFile, oneLine)
    ensures text <= FileImport(imp, codec, text, rows).1
  {
    ReadAllPrinted(codec, onFile);
    if AllOneLine(codec, onFile) {
      var after := Import(imp, onFile, rows, 0).ledger;
      ImportConserves(imp, onFile, rows, 0);
      ImportWritable(codec, imp, onFile, rows, oneLine);
      PrintsMore(codec, onFile, after);
      assert FileImport(imp, codec, text, rows).1 == Appended(codec, text, after[|onFile|..]);
    }
  }

  lemma PrintsMore(codec: Codec, onFile: seq<Record>, after: seq<Record>)
    requires onFile <= after
    ensures Appended(codec, Printed(codec, onFile), after[|onFile|..]) == Printed(codec, after)
    ensures Printed(codec, onFile) <= Printed(codec, after)
  {
    var more := after[|onFile|..];
    assert onFile + more == after;
    AppendedToPrinted(codec, onFile, more);
    PrintedConcat(codec, onFile, more);
  }

  /** What an import leaves can be written, if the old rows and every row it builds can. */
  lemma ImportWritable(codec: Codec, imp: Importer<string>, onFile: seq<Record>, rows: seq<Value>, oneLine: bool)
    requires HoldsAll(codec, onFile) && (oneLine ==> AllOneLine(codec, onFile))
    requires forall i | 0 <= i < |rows| && imp.build(rows[i], 0).Some? :: Writable(codec, imp.build(rows[i], 0).value.rec, oneLine)
    ensures HoldsAll(codec, Import(imp, onFile, rows, 0).ledger)
    ensures oneLine ==> AllOneLine(codec, Import(imp, onFile, rows, 0).ledger)
  {
    var after := Import(imp, onFile, rows, 0).ledger;
    ImportConserves(imp, onFile, rows, 0);
    forall j | 0 <= j < |after| ensures Writable(codec, after[j], oneLine) {
      if j >= |onFile| {
        FreshWasBuilt(imp, onFile, rows, 0, j);
      } else {
        assert codec.holds(onFile[j]) && (oneLine ==> OneLine(codec, onFile[j]));
      }
    }
  }

  /** The run invariant: both files are the printed form of sound books. */
  ghost predicate InGoodOrder(spec: LedgerSpec, codec: Codec, t: Texts, oneLine: bool) {
    exists wagers, settlements ::
      && PrintsTo(codec, t.wagers, wagers, oneLine) && PrintsTo(codec, t.settlements, settlements, oneLine)
      && SoundBooks(spec, wagers, settlements)
  }

  lemma WagerBatchKeepsOrder(spec: LedgerSpec, codec: Codec, t: Texts, b: Batch, oneLine: bool,
                             wagers: seq<Record>, settlements: seq<Record>)
    requires Sound(codec) && b.WagerBatch? && WritableBatch(spec, codec, b, oneLine)
    requires PrintsTo(codec, t.wagers, wagers, oneLine) && PrintsTo(codec, t.settlements, settlements, oneLine)
    requires SoundBooks(spec, wagers, settlements)
    ensures var t' := ApplyBatch(spec, codec, t, b);
            InGoodOrder(spec, codec, t', oneLine) && t.wagers <= t'.wagers && t.settlements <= t'.settlements
  {
    var imp := WagerImporter(spec, b.batchId);
    ImportPrints(codec, imp, t.wagers, wagers, b.rows, oneLine);
    WagerImportKeepsBooks(spec, wagers, settlements, b.rows, b.batchId);
    var after := if AllOneLine(codec, wagers) then Import(imp, wagers, b.rows, 0).ledger else wagers;
    assert PrintsTo(codec, ApplyBatch(spec, codec, t, b).wagers, after, oneLine);
  }

  lemma SettlementBatchKeepsOrder(spec: LedgerSpec, codec: Codec, t: Texts, b: Batch, oneLine: bool,
                                  wagers: seq<Record>, settlements: seq<Record>)
    requires Sound(codec) && b.SettlementBatch? && WritableBatch(spec, codec, b, oneLine)
    requires PrintsTo(codec, t.wagers, wagers, oneLine) && PrintsTo(codec, t.settlements, settlements, oneLine)
    requires SoundBooks(spec, wagers, settlements)
    ensures var t' := ApplyBatch(spec, codec, t, b);
            InGoodOrder(spec, codec, t', oneLine) && t.wagers <= t'.wagers && t.settlements <= t'.settlements
  {
    ReadAllPrinted(codec, wagers);
    if AllOneLine(codec, wagers) {
      var imp := SettlementImporter(spec, wagers);
      ImportPrints(codec, imp, t.settlements, settlements, b.rows, oneLine);
      SettlementImportKeepsBooks(spec, wagers, settlements, b.rows);
      var after := if AllOneLine(codec, settlements) then Import(imp, settlements, b.rows, 0).ledger else settlements;
      assert PrintsTo(codec, ApplyBatch(spec, codec, t, b).settlements, after, oneLine);
    } else {
      assert ApplyBatch(spec, codec, t, b) == t;
    }
  }

  lemma BatchKeepsOrder(spec: LedgerSpec, codec: Codec, t: Texts, b: Batch, oneLine: bool)
    requires Sound(codec) && InGoodOrder(spec, codec, t, oneLine) && WritableBatch(spec, codec, b, oneLine)
    ensures var t' := ApplyBatch(spec, codec, t, b);
            InGoodOrder(spec, codec, t', oneLine) && t.wagers <= t'.wagers && t.settlements <= t'.settlements
  {
    var wagers, settlements :|
      && PrintsTo(codec, t.wagers, wagers, oneLine) && PrintsTo(codec, t.settlements, settlements, oneLine)
      && SoundBooks(spec, wagers, settlements);
    match b
    case WagerBatch(_, _) => WagerBatchKeepsOrder(spec, codec, t, b, oneLine, wagers, settlements);
    case SettlementBatch(_) => SettlementBatchKeepsOrder(spec, codec, t, b, oneLine, wagers, settlements);
  }

  lemma EmptyBooksInOrder(spec: LedgerSpec, codec: Codec, oneLine: bool)
    ensures InGoodOrder(spec, codec, Texts("", ""), oneLine)
  {
    assert PrintsTo(codec, "", [], oneLine) && SoundBooks(spec, [], []);
  }

  lemma {:induction false} RunKeepsOrder(spec: LedgerSpec, codec: Codec, bs: seq<Batch>, oneLine: bool)
    requires Sound(codec)
    requires forall i | 0 <= i < |bs| :: WritableBatch(spec, codec, bs[i], oneLine)
    ensures InGoodOrder(spec, codec, RunBatches(spec, codec, Texts("", ""), bs), oneLine)
  {
    if bs == [] {
      EmptyBooksInOrder(spec, codec, oneLine);
    } else {
      RunKeepsOrder(spec, codec, bs[..|bs| - 1], oneLine);
      BatchKeepsOrder(spec, codec, RunBatches(spec, codec, Texts("", ""), bs[..|bs| - 1]), bs[|bs| - 1], oneLine);
    }
  }

  lemma {:induction false} RunAppendsOnly(spec: LedgerSpec, codec: Codec, bs: seq<Batch>, earlier: nat)
    requires Sound(codec) && earlier <= |bs|
    requires forall i | 0 <= i < |bs| :: WritableBatch(spec, codec, bs[i], false)
    ensures var t, e := RunBatches(spec, codec, Texts("", ""), bs), RunBatches(spec, codec, Texts("", ""), bs[..earlier]);
            e.wagers <= t.wagers && e.settlements <= t.settlements
  {
    if earlier == |bs| {
      assert bs[..earlier] == bs;
    } else {
      var n := |bs| - 1;
      RunKeepsOrder(spec, codec, bs[..n], false);
      RunAppendsOnly(spec, codec, bs[..n], earlier);
      assert bs[..n][..earlier] == bs[..earlier];
      BatchKeepsOrder(spec, codec, RunBatches(spec, codec, Texts("", ""), bs[..n]), bs[n], false);
    }
  }

  /** From empty files, after ANY interleaving of wager and settlement imports: the files are sound
      books, printed, and append-only against every earlier version of themselves; and the validator
      reports nothing exactly when every record on them prints on one line. */
  lemma LedgerValidatesIff(spec: LedgerSpec, codec: Codec, bs: seq<Batch>, earlier: nat)
    returns (wagers: seq<Record>, settlements: seq<Record>)
    requires Sound(codec) && earlier <= |bs|
    requires forall i | 0 <= i < |bs| :: WritableBatch(spec, codec, bs[i], false)
    ensures var t, e := RunBatches(spec, codec, Texts("", ""), bs), RunBatches(spec, codec, Texts("", ""), bs[..earlier]);
      && t == Texts(Printed(codec, wagers), Printed(codec, settlements)) && SoundBooks(spec, wagers, settlements)
      && Extends(Some(e.wagers), t.wagers) && Extends(Some(e.settlements), t.settlements)
      && (CleanLedger(spec, codec, t.wagers, t.settlements) <==> AllOneLine(codec, wagers) && AllOneLine(codec, settlements))
  {
    var t := RunBatches(spec, codec, Texts("", ""), bs);
    RunKeepsOrder(spec, codec, bs, false);
    RunAppendsOnly(spec, codec, bs, earlier);
    wagers, settlements :|
      && PrintsTo(codec, t.wagers, wagers, false) && PrintsTo(codec, t.settlements, settlements, false)
      && SoundBooks(spec, wagers, settlements);
    SoundBooksAreClean(spec, codec, t, wagers, settlements);
  }

  /** When no row can break a line, the validator reports nothing after any run. */
  lemma LedgerAlwaysValidates(spec: LedgerSpec, codec: Codec, bs: seq<Batch>)
    requires Sound(codec)
    requires forall i | 0 <= i < |bs| :: WritableBatch(spec, codec, bs[i], true)
    ensures var t := RunBatches(spec, codec, Texts("", ""), bs); CleanLedger(spec, codec, t.wagers, t.settlements)
  {
    var t := RunBatches(spec, codec, Texts("", ""), bs);
    RunKeepsOrder(spec, codec, bs, true);
    var wagers, settlements :|
      && PrintsTo(codec, t.wagers, wagers, true) && PrintsTo(codec, t.settlements, settlements, true)
      && SoundBooks(spec, wagers, settlements);
    SoundBooksAreClean(spec, codec, t, wagers, settlements);
  }
}
