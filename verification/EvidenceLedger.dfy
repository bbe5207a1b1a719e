/** The execution-evidence ledger: what a CLOSE row must be; its importer, which is the shared
    append-only importer under a key that depends on the row's kind; its validator; and its file
    over runs of imports. */
module EvidenceLedger {
  import opened Json
  import opened LedgerFile
  import opened Importer

  const TRUE_CLOSE := "TRUE_CLOSE"
  const EARLIER_QUOTE_PROXY := "EARLIER_QUOTE_PROXY"
  const MISSING := "MISSING"
  const CLOSE_QUALITIES := {TRUE_CLOSE, EARLIER_QUOTE_PROXY, MISSING}

  const PRICE_FIELDS := ["yes_bid", "yes_ask", "yes_mid", "last_trade"]
  const CLOSE_BODY := {
    "quality", "yes_bid", "yes_ask", "yes_mid", "last_trade", "as_of_ts", "cutoff_ts", "period_minutes",
    "minutes_before_cutoff", "source_endpoint", "flags", "reason"}

  predicate IsPrice(v: Value) {
    v.Num? && 0.0 < v.n < 1.0
  }

  predicate IsWhole(v: Value) {
    v.Num? && v.n == v.n.Floor as real
  }

  predicate AllPricesInside(c: Record) {
    forall i | 0 <= i < |PRICE_FIELDS| :: Get(c, PRICE_FIELDS[i]) == Null || IsPrice(Get(c, PRICE_FIELDS[i]))
  }

  predicate SomePrice(c: Record) {
    exists i | 0 <= i < |PRICE_FIELDS| :: Get(c, PRICE_FIELDS[i]) != Null
  }

  predicate PositiveTime(v: Value) {
    v.Num? && v.n > 0.0
  }

  /** A close that carries quotes. */
  predicate QuotedCloseOk(c: Record, quality: string) {
    && SomePrice(c)
    && (Get(c, "yes_bid") == Null <==> Get(c, "yes_ask") == Null)
    && (IsPrice(Get(c, "yes_bid")) && IsPrice(Get(c, "yes_ask")) ==> Get(c, "yes_bid").n <= Get(c, "yes_ask").n)
    && PositiveTime(Get(c, "as_of_ts")) && PositiveTime(Get(c, "cutoff_ts"))
    && Get(c, "as_of_ts").n <= Get(c, "cutoff_ts").n
    && Get(c, "source_endpoint").Str? && Get(c, "source_endpoint").s != ""
    && IsWhole(Get(c, "period_minutes")) && Get(c, "period_minutes").n > 0.0
    && (quality == TRUE_CLOSE ==> Get(c, "period_minutes").n <= 60.0)
  }

  predicate CloseBodyOk(c: Record) {
    && c.Keys <= CLOSE_BODY
    && Get(c, "quality").Str? && Get(c, "quality").s in CLOSE_QUALITIES
    && AllPricesInside(c)
    && (if Get(c, "quality").s == MISSING
        then !SomePrice(c) && Get(c, "reason").Str? && Get(c, "reason").s != ""
        else QuotedCloseOk(c, Get(c, "quality").s))
  }

  predicate ValidClose(row: Record) {
    && Get(row, "market_ticker").Str? && !Blank(Get(row, "market_ticker").s)
    && (Get(row, "side") == Str("YES") || Get(row, "side") == Str("NO"))
    && Get(row, "close").Obj? && CloseBodyOk(Get(row, "close").fields)
  }

  /** How many problems a CLOSE row has; none exactly when it is valid. */
  method CloseProblems(row: Record) returns (problems: nat)
    ensures problems == 0 <==> ValidClose(row)
  {
    problems := 0;
    if !(Get(row, "market_ticker").Str? && !Blank(Get(row, "market_ticker").s)) {
      problems := problems + 1;
    }
    if Get(row, "side") != Str("YES") && Get(row, "side") != Str("NO") {
      problems := problems + 1;
    }
    if !Get(row, "close").Obj? {
      return problems + 1;
    }
    var c := Get(row, "close").fields;
    if !(c.Keys <= CLOSE_BODY) {
      problems := problems + 1;
    }
    if !(Get(c, "quality").Str? && Get(c, "quality").s in CLOSE_QUALITIES) {
      return problems + 1;
    }
    var bad, prices := PriceProblems(c);
    problems := problems + bad;
    if Get(c, "quality").s == MISSING {
      if prices {
        problems := problems + 1;
      }
      if !(Get(c, "reason").Str? && Get(c, "reason").s != "") {
        problems := problems + 1;
      }
      return;
    }
    var quoted := QuotedProblems(c, Get(c, "quality").s, prices);
    problems := problems + quoted;
  }

  method PriceProblems(c: Record) returns (problems: nat, some: bool)
    ensures problems == 0 <==> AllPricesInside(c)
    ensures some == SomePrice(c)
  {
    problems, some := 0, false;
    for i := 0 to |PRICE_FIELDS|
      invariant problems == 0 <==> forall j | 0 <= j < i :: Get(c, PRICE_FIELDS[j]) == Null || IsPrice(Get(c, PRICE_FIELDS[j]))
      invariant some <==> exists j | 0 <= j < i :: Get(c, PRICE_FIELDS[j]) != Null
    {
      if Get(c, PRICE_FIELDS[i]) != Null {
        some := true;
        if !IsPrice(Get(c, PRICE_FIELDS[i])) {
          problems := problems + 1;
        }
      }
    }
  }

  method QuotedProblems(c: Record, quality: string, prices: bool) returns (problems: nat)
    requires prices == SomePrice(c)
    ensures problems == 0 <==> QuotedCloseOk(c, quality)
  {
    problems := 0;
    if !prices {
      problems := problems + 1;
    }
    var bid, ask := Get(c, "yes_bid"), Get(c, "yes_ask");
    if (bid == Null) != (ask == Null) {
      problems := problems + 1;
    }
    if IsPrice(bid) && IsPrice(ask) && ask.n < bid.n {
      problems := problems + 1;
    }
    var asOf, cutoff := Get(c, "as_of_ts"), Get(c, "cutoff_ts");
    if !PositiveTime(asOf) {
      problems := problems + 1;
    }
    if !PositiveTime(cutoff) {
      problems := problems + 1;
    }
    if asOf.Num? && cutoff.Num? && asOf.n > cutoff.n {
      problems := problems + 1;
    }
    if !(Get(c, "source_endpoint").Str? && Get(c, "source_endpoint").s != "") {
      problems := problems + 1;
    }
    var period := Get(c, "period_minutes");
    if !(IsWhole(period) && period.n > 0.0) {
      problems := problems + 1;
    }
    if quality == TRUE_CLOSE && IsWhole(period) && period.n > 60.0 {
      problems := problems + 1;
    }
  }

  // ------------------------------------------------------------- the ledger

  /** The checks on identifiers, and on the two other kinds of row. */
  datatype Checks = Checks(isPrivate: Record -> bool, envelopeOk: Record -> bool, executionOk: Record -> bool, linkOk: Record -> bool)

  datatype Key = ExecutionKey(source: Value) | CloseKey(source: Value, quality: Value) | LinkKey(source: Value, status: Value, ref: Value)

  function RowKey(row: Record): Option<Key> {
    if Get(row, "kind") == Str("EXECUTION") then Some(ExecutionKey(Get(row, "source_bet_key")))
    else if Get(row, "kind") == Str("CLOSE") then
      (if Get(row, "close").Obj? then Some(CloseKey(Get(row, "source_bet_key"), Get(Get(row, "close").fields, "quality"))) else None)
    else Some(LinkKey(Get(row, "source_bet_key"), Get(row, "status"), Get(row, "recommendation_ref")))
  }

  predicate ValidRow(k: Checks, row: Record) {
    && !k.isPrivate(row)
    && Get(row, "kind") in {Str("EXECUTION"), Str("CLOSE"), Str("LINK")}
    && k.envelopeOk(row)
    && (if Get(row, "kind") == Str("EXECUTION") then k.executionOk(row)
        else if Get(row, "kind") == Str("CLOSE") then ValidClose(row)
        else k.linkOk(row))
  }

  /** Everything a row says except when it was recorded. */
  function Identity(row: Record): Record {
    map f | f in row && f != "recorded_at" :: row[f]
  }

  function EvidenceImporter(k: Checks): Importer<Key> {
    Importer(
      (row: Value, clock: int) =>
        if !row.Obj? || !ValidRow(k, row.fields) || RowKey(row.fields).None? then None
        else Some(Built(RowKey(row.fields).value, "", row.fields)),
      RowKey,
      (stored: Record, incoming: Record) =>
        if Equal(Obj(Identity(stored)), Obj(Identity(incoming))) then [] else ["content"],
      (row: Value) => None)
  }

  lemma EvidenceImporterLawful(k: Checks)
    ensures Lawful(EvidenceImporter(k))
  {
    forall rec: Record ensures Equal(Obj(Identity(rec)), Obj(Identity(rec))) {
      EqualReflexive(Obj(Identity(rec)));
    }
  }

  /** No problem with the ledger: every row valid, no key twice. */
  ghost predicate Clean(k: Checks, ledger: seq<Record>) {
    && (forall i | 0 <= i < |ledger| :: ValidRow(k, ledger[i]))
    && UniqueKeys(EvidenceImporter(k), ledger)
  }

  lemma ImportStaysClean(k: Checks, ledger: seq<Record>, rows: seq<Value>)
    requires Clean(k, ledger)
    ensures var after := Import(EvidenceImporter(k), ledger, rows, 0).ledger; Clean(k, after) && ledger <= after
  {
    var imp := EvidenceImporter(k);
    var after := Import(imp, ledger, rows, 0).ledger;
    EvidenceImporterLawful(k);
    ImportConserves(imp, ledger, rows, 0);
    ImportUnique(imp, ledger, rows, 0);
    forall j | 0 <= j < |after| ensures ValidRow(k, after[j]) {
      if j >= |ledger| {
        FreshWasBuilt(imp, ledger, rows, 0, j);
      }
    }
  }

  /** Whatever is imported into a clean ledger, it stays clean and only grows; and the same rows
      again change nothing. */
  lemma EvidenceStaysClean(k: Checks, ledger: seq<Record>, rows: seq<Value>)
    requires Clean(k, ledger)
    ensures var o := Import(EvidenceImporter(k), ledger, rows, 0);
      && Clean(k, o.ledger) && ledger <= o.ledger
      && Import(EvidenceImporter(k), o.ledger, rows, 0).ledger == o.ledger
  {
    ImportStaysClean(k, ledger, rows);
    EvidenceImporterLawful(k);
    ImportTwice(EvidenceImporter(k), ledger, rows, 0, 0);
  }

  // ------------------------------------------------------------- the validator

  /** Every row belongs to a known wager, if the wagers are given. */
  predicate Accounted(wagers: Option<set<Value>>, rows: seq<Record>) {
    wagers.Some? ==> forall i | 0 <= i < |rows| :: Get(rows[i], "source_bet_key") in wagers.value
  }

  /** What `validate_ledger` accepts: a file that reads, as a clean ledger without orphans. */
  ghost predicate Validates(k: Checks, codec: Codec, text: string, wagers: Option<set<Value>>) {
    var rows := ReadJsonl(codec, text);
    rows.Ok? && Clean(k, rows.value) && Accounted(wagers, rows.value)
  }

  /** The values of a file's lines, objects or not; `Err` when a line is no JSON at all. */
  function ReadValues(codec: Codec, lines: seq<string>): Result<seq<Value>> {
    if lines == [] then Ok([])
    else
      var before, line := ReadValues(codec, lines[..|lines| - 1]), lines[|lines| - 1];
      if before.Err? || Blank(line) then before
      else if codec.parse(line).None? then Err
      else Ok(before.value + [codec.parse(line).value])
  }

  predicate AllObjects(values: seq<Value>) {
    forall i | 0 <= i < |values| :: values[i].Obj?
  }

  function Fields(values: seq<Value>): seq<Record>
    requires AllObjects(values)
  {
    seq(|values|, i requires 0 <= i < |values| => values[i].fields)
  }

  /** The ledger's reading is the reading of its values, when all of them are objects. */
  lemma {:induction false} ReadAsValues(codec: Codec, lines: seq<string>)
    ensures ReadLines(codec, lines) ==
            if ReadValues(codec, lines).Ok? && AllObjects(ReadValues(codec, lines).value)
            then Ok(Fields(ReadValues(codec, lines).value)) else Err
  {
    if lines == [] {
      assert Fields(ReadValues(codec, lines).value) == [];
    } else {
      var before, line := lines[..|lines| - 1], lines[|lines| - 1];
      ReadAsValues(codec, before);
      ReadLinesConcat(codec, before, [line]);
      assert lines == before + [line] && [line][1..] == [];
      ValuesNext(codec, before, line);
    }
  }

  lemma ValuesNext(codec: Codec, before: seq<string>, line: string)
    requires ReadLines(codec, before) ==
             if ReadValues(codec, before).Ok? && AllObjects(ReadValues(codec, before).value)
             then Ok(Fields(ReadValues(codec, before).value)) else Err
    ensures var values := ReadValues(codec, before + [line]);
            Then(ReadLines(codec, before), ReadLines(codec, [line])) ==
            if values.Ok? && AllObjects(values.value) then Ok(Fields(values.value)) else Err
  {
    assert (before + [line])[..|before|] == before && [line][1..] == [];
    var values := ReadValues(codec, before);
    if Blank(line) {
      ThenNothing(ReadLines(codec, before));
    } else if values.Ok? && codec.parse(line).Some? {
      var v := codec.parse(line).value;
      assert ReadValues(codec, before + [line]) == Ok(values.value + [v]);
      assert (values.value + [v])[|values.value|] == v;
      assert forall i | 0 <= i < |values.value| :: (values.value + [v])[i] == values.value[i];
      if AllObjects(values.value) && v.Obj? {
        ThenNothing(Ok([v.fields]));
        assert Fields(values.value + [v]) == Fields(values.value) + [v.fields];
      }
    }
  }

  ghost predicate KeysSeen(rows: seq<Record>, seen: set<Key>) {
    forall key :: key in seen <==> exists i :: 0 <= i < |rows| && RowKey(rows[i]) == Some(key)
  }

  lemma CleanNext(k: Checks, rows: seq<Record>, seen: set<Key>, row: Record)
    requires Clean(k, rows) && KeysSeen(rows, seen)
    ensures Clean(k, rows + [row]) <==> ValidRow(k, row) && RowKey(row).Some? && RowKey(row).value !in seen
    ensures RowKey(row).Some? ==> KeysSeen(rows + [row], seen + {RowKey(row).value})
  {
    var more := rows + [row];
    assert more[|rows|] == row && forall i | 0 <= i < |rows| :: more[i] == rows[i];
    if RowKey(row).Some? {
      forall key ensures key in seen + {RowKey(row).value} <==> exists i :: 0 <= i < |more| && RowKey(more[i]) == Some(key) {
        if key in seen {
          var i :| 0 <= i < |rows| && RowKey(rows[i]) == Some(key);
          assert RowKey(more[i]) == Some(key);
        }
      }
    }
  }

  /** The rows seen so far hold no problem. */
  ghost predicate FineSoFar(k: Checks, wagers: Option<set<Value>>, values: seq<Value>) {
    AllObjects(values) && Clean(k, Fields(values)) && Accounted(wagers, Fields(values))
  }

  /** One more row: fine if it is an object, valid, under a new key, and accounted for. */
  lemma FineNext(k: Checks, wagers: Option<set<Value>>, values: seq<Value>, v: Value, seen: set<Key>)
    requires FineSoFar(k, wagers, values) ==> KeysSeen(Fields(values), seen)
    ensures FineSoFar(k, wagers, values + [v]) <==>
      && FineSoFar(k, wagers, values)
      && v.Obj? && ValidRow(k, v.fields) && RowKey(v.fields).Some? && RowKey(v.fields).value !in seen
      && (wagers.Some? ==> Get(v.fields, "source_bet_key") in wagers.value)
    ensures FineSoFar(k, wagers, values + [v]) ==> KeysSeen(Fields(values + [v]), seen + {RowKey(v.fields).value})
  {
    var more := values + [v];
    assert more[|values|] == v && forall i | 0 <= i < |values| :: more[i] == values[i];
    if AllObjects(more) {
      var rows, row := Fields(values), v.fields;
      assert Fields(more) == rows + [row];
      assert (rows + [row])[|rows|] == row && forall i | 0 <= i < |rows| :: (rows + [row])[i] == rows[i];
      if Clean(k, rows + [row]) {
        CleanPrefix(k, rows, row);
      }
      if FineSoFar(k, wagers, values) {
        CleanNext(k, rows, seen, row);
      }
    }
  }

  lemma CleanPrefix(k: Checks, rows: seq<Record>, row: Record)
    requires Clean(k, rows + [row])
    ensures Clean(k, rows)
  {
    assert forall i | 0 <= i < |rows| :: (rows + [row])[i] == rows[i];
  }

  /** `validate_ledger`: no problem is found exactly when the file reads, every row is valid and
      filed once, and none is an orphan. */
  method ValidateLedger(k: Checks, codec: Codec, text: string, wagers: Option<set<Value>>) returns (problems: nat)
    ensures problems == 0 <==> Validates(k, codec, text, wagers)
  {
    var lines := SplitLines(text);
    ReadAsValues(codec, lines);
    var values := ReadAllValues(codec, lines);
    if values.Err? {
      return 1;
    }
    problems := RowProblems(k, values.value, wagers);
  }

  method ReadAllValues(codec: Codec, lines: seq<string>) returns (values: Result<seq<Value>>)
    ensures values == ReadValues(codec, lines)
  {
    var out: seq<Value> := [];
    for i := 0 to |lines|
      invariant ReadValues(codec, lines[..i]) == Ok(out)
    {
      assert lines[..i + 1][..i] == lines[..i];
      if Blank(lines[i]) {
        continue;
      }
      if codec.parse(lines[i]).None? {
        FirstBadLine(codec, lines, i + 1);
        return Err;
      }
      out := out + [codec.parse(lines[i]).value];
    }
    assert lines[..|lines|] == lines;
    values := Ok(out);
  }

  lemma {:induction false} FirstBadLine(codec: Codec, lines: seq<string>, i: nat)
    requires i <= |lines| && ReadValues(codec, lines[..i]).Err?
    ensures ReadValues(codec, lines).Err?
  {
    if i < |lines| {
      assert lines[..|lines| - 1][..i] == lines[..i];
      FirstBadLine(codec, lines[..|lines| - 1], i);
    } else {
      assert lines[..i] == lines;
    }
  }

  method RowProblems(k: Checks, values: seq<Value>, wagers: Option<set<Value>>) returns (problems: nat)
    ensures problems == 0 <==> FineSoFar(k, wagers, values)
  {
    problems := 0;
    var seen: set<Key> := {};
    for i := 0 to |values|
      invariant problems == 0 <==> FineSoFar(k, wagers, values[..i])
      invariant problems == 0 ==> KeysSeen(Fields(values[..i]), seen)
    {
      assert values[..i + 1] == values[..i] + [values[i]];
      FineNext(k, wagers, values[..i], values[i], seen);
      if !values[i].Obj? || !ValidRow(k, values[i].fields) || RowKey(values[i].fields).None? {
        problems := problems + 1;
        continue;
      }
      var row := values[i].fields;
      if RowKey(row).value in seen {
        problems := problems + 1;
      }
      seen := seen + {RowKey(row).value};
      if wagers.Some? && Get(row, "source_bet_key") !in wagers.value {
        problems := problems + 1;
      }
    }
    assert values[..|values|] == values;
  }

  // ------------------------------------------------------------- runs over the file

  /** One import against the file: an unreadable file stops it, and new rows are appended bare. */
  function ImportFile(k: Checks, codec: Codec, text: string, rows: seq<Value>): string {
    match ReadJsonl(codec, text)
    case Err => text
    case Ok(onFile) =>
      ImportConserves(EvidenceImporter(k), onFile, rows, 0);
      AppendedBare(codec, text, Import(EvidenceImporter(k), onFile, rows, 0).ledger[|onFile|..])
  }

  function RunImports(k: Checks, codec: Codec, text: string, batches: seq<seq<Value>>): string {
    if batches == [] then text
    else ImportFile(k, codec, RunImports(k, codec, text, batches[..|batches| - 1]), batches[|batches| - 1])
  }

  /** Every row this batch could file can be held, and prints on one line. */
  ghost predicate Printable(k: Checks, codec: Codec, rows: seq<Value>) {
    forall i | 0 <= i < |rows| && rows[i].Obj? && ValidRow(k, rows[i].fields) ::
      codec.holds(rows[i].fields) && OneLine(codec, rows[i].fields)
  }

  /** The file reads as this clean ledger, and its last line is finished. */
  ghost predicate GoodFile(k: Checks, codec: Codec, text: string, rows: seq<Record>) {
    ReadJsonl(codec, text) == Ok(rows) && Clean(k, rows) && LastLine(text) == ""
  }

  lemma NewRowsPrint(k: Checks, codec: Codec, onFile: seq<Record>, rows: seq<Value>)
    requires Printable(k, codec, rows) && onFile <= Import(EvidenceImporter(k), onFile, rows, 0).ledger
    ensures HoldsAll(codec, Import(EvidenceImporter(k), onFile, rows, 0).ledger[|onFile|..])
    ensures AllOneLine(codec, Import(EvidenceImporter(k), onFile, rows, 0).ledger[|onFile|..])
  {
    var imp := EvidenceImporter(k);
    var after := Import(imp, onFile, rows, 0).ledger;
    forall j | 0 <= j < |after| - |onFile|
      ensures codec.holds(after[|onFile|..][j]) && OneLine(codec, after[|onFile|..][j])
    {
      FreshWasBuilt(imp, onFile, rows, 0, |onFile| + j);
      var i :| 0 <= i < |rows| && imp.build(rows[i], 0).Some? && imp.build(rows[i], 0).value.rec == after[|onFile| + j];
    }
  }

  /** Records appended bare behind a finished last line. */
  lemma AppendReads(codec: Codec, text: string, onFile: seq<Record>, after: seq<Record>)
    requires Sound(codec) && ReadJsonl(codec, text) == Ok(onFile) && LastLine(text) == "" && onFile <= after
    requires HoldsAll(codec, after[|onFile|..]) && AllOneLine(codec, after[|onFile|..])
    ensures var t := AppendedBare(codec, text, after[|onFile|..]);
            ReadJsonl(codec, t) == Ok(after) && LastLine(t) == "" && text <= t
  {
    var added := after[|onFile|..];
    assert onFile + added == after;
    AppendFinishesLine(codec, text, added);
    if added == [] {
      assert text + "" == text && onFile == after;
    } else {
      ReadAfterBareAppend(codec, text, added);
    }
  }

  lemma ImportKeepsGoodFile(k: Checks, codec: Codec, text: string, onFile: seq<Record>, rows: seq<Value>)
    requires Sound(codec) && GoodFile(k, codec, text, onFile) && Printable(k, codec, rows)
    ensures GoodFile(k, codec, ImportFile(k, codec, text, rows), Import(EvidenceImporter(k), onFile, rows, 0).ledger)
    ensures text <= ImportFile(k, codec, text, rows) && onFile <= Import(EvidenceImporter(k), onFile, rows, 0).ledger
  {
    ImportStaysClean(k, onFile, rows);
    NewRowsPrint(k, codec, onFile, rows);
    AppendReads(codec, text, onFile, Import(EvidenceImporter(k), onFile, rows, 0).ledger);
  }

  lemma {:induction false} RunGrowsFile(k: Checks, codec: Codec, text: string, onFile: seq<Record>, batches: seq<seq<Value>>)
    returns (rows: seq<Record>)
    requires Sound(codec) && GoodFile(k, codec, text, onFile)
    requires forall i | 0 <= i < |batches| :: Printable(k, codec, batches[i])
    ensures GoodFile(k, codec, RunImports(k, codec, text, batches), rows)
    ensures onFile <= rows && text <= RunImports(k, codec, text, batches)
  {
    if batches == [] {
      rows := onFile;
    } else {
      var n := |batches| - 1;
      var before := RunGrowsFile(k, codec, text, onFile, batches[..n]);
      ImportKeepsGoodFile(k, codec, RunImports(k, codec, text, batches[..n]), before, batches[n]);
      rows := Import(EvidenceImporter(k), before, batches[n], 0).ledger;
    }
  }

  /** From any good file, after any imports: the file still reads, as a clean ledger that extends
      the one it held, its text extends the old text, and the validator finds a problem exactly when
      some row is an orphan, which no import refuses. */
  lemma RunKeepsGoodFile(k: Checks, codec: Codec, text: string, onFile: seq<Record>, batches: seq<seq<Value>>,
                         wagers: Option<set<Value>>)
    returns (rows: seq<Record>)
    requires Sound(codec) && GoodFile(k, codec, text, onFile)
    requires forall i | 0 <= i < |batches| :: Printable(k, codec, batches[i])
    ensures var t := RunImports(k, codec, text, batches);
      && GoodFile(k, codec, t, rows) && onFile <= rows && text <= t
      && (Validates(k, codec, t, wagers) <==> Accounted(wagers, rows))
  {
    rows := RunGrowsFile(k, codec, text, onFile, batches);
  }

  /** An orphan is filed, and only the validator sees it. */
  lemma OrphanIsFiled(k: Checks, codec: Codec, row: Record, wagers: set<Value>)
    requires Sound(codec) && ValidRow(k, row) && RowKey(row).Some? && codec.holds(row) && OneLine(codec, row)
    requires Get(row, "source_bet_key") !in wagers
    ensures var t := ImportFile(k, codec, "", [Obj(row)]);
      && ReadJsonl(codec, t) == Ok([row])
      && Validates(k, codec, t, None) && !Validates(k, codec, t, Some(wagers))
  {
    var imp := EvidenceImporter(k);
    assert Clean(k, []) && GoodFile(k, codec, "", []);
    assert [Obj(row)][..0] == [];
    assert Import(imp, [], [Obj(row)], 0).ledger == [row];
    ImportKeepsGoodFile(k, codec, "", [], [Obj(row)]);
    assert [row][0] == row;
  }
}
