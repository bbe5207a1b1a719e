/** What an importer said about one row, in the one shape the gate and the reconciliation read. */
module Receipts {
  import opened Json
  import Importer

  datatype RowReceipt = RowReceipt(sourceKey: Value, identity: Value, verdict: Option<string>,
                                   success: bool, conflicting: set<string>)

  const NO_JUDGEMENT_VERDICTS := {"NEW", "DUPLICATE_NOOP", "CORRECTED"}
  const IDEMPOTENT_RERUN_VERDICTS := {"DUPLICATE_NOOP"}
  const KEY_FIELDS := ["sourceBetKey", "source_bet_key"]
  const VERDICT_FIELDS := ["duplicateStatus", "duplicate_status", "status"]
  const IDENTITY_FIELDS := ["betId", "bet_id", "wager_id", "wagerId", "imported_wager_id", "settlement_id"]

  predicate NeedsJudgement(r: RowReceipt) {
    r.verdict.None? || r.verdict.value !in NO_JUDGEMENT_VERDICTS
  }

  /** The first of these fields that is present and not null. */
  function First(row: Record, fields: seq<string>): Value {
    if fields == [] then Null
    else if Get(row, fields[0]) != Null then Get(row, fields[0])
    else First(row, fields[1..])
  }

  /** The name one entry of a conflict list gives, if it gives any. */
  function ConflictName(show: Value -> string, entry: Value): Option<string> {
    if entry.Obj? then
      var name := Or(Get(entry.fields, "field"), Get(entry.fields, "name"));
      if Truthy(name) then Some(show(name)) else None
    else if Truthy(entry) then Some(show(entry)) else None
  }

  function ConflictNames(show: Value -> string, entries: seq<Value>): set<string> {
    set i | 0 <= i < |entries| && ConflictName(show, entries[i]).Some? :: ConflictName(show, entries[i]).value
  }

  /** One row of receipts, in whichever spelling the destination uses. `show` is Python's `str`. */
  function FromRow(show: Value -> string, row: Record): RowReceipt {
    var conflicting := Or(Get(row, "conflictingFields"), Get(row, "conflicting_fields"));
    var verdict := First(row, VERDICT_FIELDS);
    RowReceipt(
      First(row, KEY_FIELDS),
      First(row, IDENTITY_FIELDS),
      if verdict == Null then None else Some(show(verdict)),
      if "success" in row then Truthy(row["success"]) else verdict != Null,
      if conflicting.List? then ConflictNames(show, conflicting.items) else {})
  }

  /** The first of two values that is not null. */
  ghost function Either(a: Value, b: Value): Value {
    if a != Null then a else b
  }

  /** One entry of a conflict list names this field: by its `field`, failing that by its `name`, or
      by itself. */
  ghost predicate Names(show: Value -> string, entry: Value, name: string) {
    if entry.Obj? then
      || (Truthy(Get(entry.fields, "field")) && name == show(Get(entry.fields, "field")))
      || (!Truthy(Get(entry.fields, "field")) && Truthy(Get(entry.fields, "name")) && name == show(Get(entry.fields, "name")))
    else Truthy(entry) && name == show(entry)
  }

  /** The conflict list of a row, in the spelling that has something in it. */
  ghost function ConflictList(row: Record): Value {
    if Truthy(Get(row, "conflictingFields")) then Get(row, "conflictingFields") else Get(row, "conflicting_fields")
  }

  /** What a row of receipts says, spelling by spelling. */
  lemma FromRowIs(show: Value -> string, row: Record)
    ensures var r := FromRow(show, row);
      var verdict := Either(Get(row, "duplicateStatus"), Either(Get(row, "duplicate_status"), Get(row, "status")));
      && r.sourceKey == Either(Get(row, "sourceBetKey"), Get(row, "source_bet_key"))
      && r.identity == Either(Get(row, "betId"), Either(Get(row, "bet_id"), Either(Get(row, "wager_id"),
                       Either(Get(row, "wagerId"), Either(Get(row, "imported_wager_id"), Get(row, "settlement_id"))))))
      && r.verdict == (if verdict == Null then None else Some(show(verdict)))
      && (r.success <==> if "success" in row then Truthy(row["success"]) else verdict != Null)
    ensures forall name :: name in FromRow(show, row).conflicting <==>
              ConflictList(row).List? && exists i :: 0 <= i < |ConflictList(row).items| && Names(show, ConflictList(row).items[i], name)
  {
    FirstTwo(row, "sourceBetKey", "source_bet_key");
    FirstThree(row, "duplicateStatus", "duplicate_status", "status");
    FirstSix(row, "betId", "bet_id", "wager_id", "wagerId", "imported_wager_id", "settlement_id");
    ConflictsAre(show, row);
  }

  lemma ConflictsAre(show: Value -> string, row: Record)
    ensures forall name :: name in FromRow(show, row).conflicting <==>
              ConflictList(row).List? && exists i :: 0 <= i < |ConflictList(row).items| && Names(show, ConflictList(row).items[i], name)
  {
    var conflicting := Or(Get(row, "conflictingFields"), Get(row, "conflicting_fields"));
    assert conflicting == ConflictList(row);
    if conflicting.List? {
      forall i, name | 0 <= i < |conflicting.items|
        ensures Names(show, conflicting.items[i], name) <==> ConflictName(show, conflicting.items[i]) == Some(name)
      {
      }
      forall name ensures name in ConflictNames(show, conflicting.items) <==>
                          exists i :: 0 <= i < |conflicting.items| && Names(show, conflicting.items[i], name)
      {
      }
    }
  }

  lemma FirstTwo(row: Record, a: string, b: string)
    ensures First(row, [a, b]) == Either(Get(row, a), Get(row, b))
  {
    assert [a, b][1..] == [b] && [b][1..] == [];
    assert First(row, [b]) == Get(row, b);
  }

  lemma FirstThree(row: Record, a: string, b: string, c: string)
    ensures First(row, [a, b, c]) == Either(Get(row, a), Either(Get(row, b), Get(row, c)))
  {
    assert [a, b, c][1..] == [b, c];
    FirstTwo(row, b, c);
  }

  lemma FirstSix(row: Record, a: string, b: string, c: string, d: string, e: string, f: string)
    ensures First(row, [a, b, c, d, e, f]) ==
            Either(Get(row, a), Either(Get(row, b), Either(Get(row, c), Either(Get(row, d), Either(Get(row, e), Get(row, f))))))
  {
    FirstThree(row, d, e, f);
    assert [c, d, e, f][1..] == [d, e, f];
    assert First(row, [c, d, e, f]) == Either(Get(row, c), First(row, [d, e, f]));
    assert [b, c, d, e, f][1..] == [c, d, e, f];
    assert First(row, [b, c, d, e, f]) == Either(Get(row, b), First(row, [c, d, e, f]));
    assert [a, b, c, d, e, f][1..] == [b, c, d, e, f];
  }

  /** The receipts in a list, entries that are not objects left out. */
  function Normalise(show: Value -> string, rows: seq<Value>): seq<RowReceipt> {
    if rows == [] then []
    else Normalise(show, rows[..|rows| - 1]) +
         if rows[|rows| - 1].Obj? then [FromRow(show, rows[|rows| - 1].fields)] else []
  }

  /** The shape receipts are handed to the gate in; `names` lists the conflicting fields. */
  function AsDict(r: RowReceipt, names: seq<string>): Record {
    map["sourceBetKey" := r.sourceKey, "betId" := r.identity,
        "duplicateStatus" := if r.verdict.Some? then Str(r.verdict.value) else Null,
        "success" := Bool(r.success),
        "conflictingFields" := List(Entries(names))]
  }

  /** Normalising twice is normalising once: the gate reads back exactly what it was handed. */
  lemma AsDictRoundTrip(show: Value -> string, r: RowReceipt, names: seq<string>)
    requires forall s: string {:trigger show(Str(s))} :: show(Str(s)) == s
    requires (forall n :: n in names <==> n in r.conflicting) && "" !in names
    ensures FromRow(show, AsDict(r, names)) == r
  {
    var row := AsDict(r, names);
    NamesReadBack(show, names, r.conflicting);
    FirstAt(row, KEY_FIELDS, 0);
    FirstAt(row, IDENTITY_FIELDS, 0);
    FirstAt(row, VERDICT_FIELDS, 0);
    assert names == [] ==> r.conflicting == {};
  }

  function Entries(names: seq<string>): seq<Value> {
    seq(|names|, i requires 0 <= i < |names| => Obj(map["field" := Str(names[i])]))
  }

  lemma NamesReadBack(show: Value -> string, names: seq<string>, conflicting: set<string>)
    requires forall s: string {:trigger show(Str(s))} :: show(Str(s)) == s
    requires (forall n :: n in names <==> n in conflicting) && "" !in names
    ensures ConflictNames(show, Entries(names)) == conflicting
  {
    var entries := Entries(names);
    assert forall i | 0 <= i < |names| :: ConflictName(show, entries[i]) == Some(names[i]);
    forall n | n in conflicting ensures n in ConflictNames(show, entries) {
      var i :| 0 <= i < |names| && names[i] == n;
      assert ConflictName(show, entries[i]) == Some(n);
    }
  }

  lemma {:induction false} NoneOf(row: Record, fields: seq<string>)
    requires forall f | f in fields :: f !in row
    ensures First(row, fields) == Null
  {
    if fields != [] {
      NoneOf(row, fields[1..]);
    }
  }

  function VerdictName(v: Importer.Verdict): string {
    match v
    case NEW => "NEW"
    case DUPLICATE_NOOP => "DUPLICATE_NOOP"
    case CONFLICT => "CONFLICT"
    case REFUSED => "REFUSED"
  }

  function Named(text: Option<string>): Value {
    if text.Some? then Str(text.value) else Null
  }

  /** The receipt row the routed ledger's importer writes. */
  function ReceiptRow(idField: string, r: Importer.Receipt): Record {
    var row := map["row" := Num(r.row as real), "source_bet_key" := Named(r.key), idField := Named(r.ident),
                   "status" := Str(VerdictName(r.verdict)), "duplicate_status" := Str(VerdictName(r.verdict)),
                   "success" := Bool(r.verdict == Importer.NEW || r.verdict == Importer.DUPLICATE_NOOP)];
    if r.conflicting == [] then row
    else row["conflicting_fields" := List(Texts(r.conflicting))]
  }

  ghost predicate ListsTexts(v: Value, texts: seq<string>) {
    v.List? && |v.items| == |texts| && forall i | 0 <= i < |texts| :: v.items[i] == Str(texts[i])
  }

  /** The receipt row of each outcome, field by field. */
  lemma ReceiptRowIs(idField: string, r: Importer.Receipt)
    requires idField in {"wager_id", "settlement_id"}
    ensures var row := ReceiptRow(idField, r);
      && Get(row, "row") == Num(r.row as real)
      && Get(row, "source_bet_key") == (if r.key.Some? then Str(r.key.value) else Null)
      && Get(row, idField) == (if r.ident.Some? then Str(r.ident.value) else Null)
      && Get(row, "status") == Get(row, "duplicate_status") == Str(
           if r.verdict == Importer.NEW then "NEW"
           else if r.verdict == Importer.DUPLICATE_NOOP then "DUPLICATE_NOOP"
           else if r.verdict == Importer.CONFLICT then "CONFLICT" else "REFUSED")
      && Get(row, "success") == Bool(r.verdict != Importer.CONFLICT && r.verdict != Importer.REFUSED)
      && ("conflicting_fields" in row <==> r.conflicting != [])
      && ("conflicting_fields" in row ==> ListsTexts(row["conflicting_fields"], r.conflicting))
    ensures ReceiptRow(idField, r).Keys <=
            {"row", "source_bet_key", idField, "status", "duplicate_status", "success", "conflicting_fields"}
  {
  }

  function Texts(names: seq<string>): seq<Value> {
    seq(|names|, i requires 0 <= i < |names| => Str(names[i]))
  }

  lemma TextsReadBack(show: Value -> string, names: seq<string>)
    requires forall s: string {:trigger show(Str(s))} :: show(Str(s)) == s
    ensures ConflictNames(show, Texts(names)) == set n | n in names && n != ""
  {
    var entries := Texts(names);
    assert forall i | 0 <= i < |names| :: ConflictName(show, entries[i]) == if names[i] != "" then Some(names[i]) else None;
    forall n | n in names && n != "" ensures n in ConflictNames(show, entries) {
      var i :| 0 <= i < |names| && names[i] == n;
      assert ConflictName(show, entries[i]) == Some(n);
    }
  }

  /** Read back, it is the same receipt: accepted rows, and only they, are successes, and the named
      conflicting fields are all there. */
  lemma ImporterReceiptReads(show: Value -> string, idField: string, r: Importer.Receipt)
    requires forall s: string {:trigger show(Str(s))} :: show(Str(s)) == s
    requires idField == "wager_id" || idField == "settlement_id"
    ensures var read := FromRow(show, ReceiptRow(idField, r));
      && read.sourceKey == Named(r.key) && read.identity == Named(r.ident)
      && read.verdict == Some(VerdictName(r.verdict))
      && (read.success <==> r.verdict in {Importer.NEW, Importer.DUPLICATE_NOOP})
      && read.conflicting == set n | n in r.conflicting && n != ""
  {
    RowNamesReceipt(idField, r);
    RowGivesVerdict(idField, r);
    RowListsConflicts(show, idField, r);
  }

  lemma RowNamesReceipt(idField: string, r: Importer.Receipt)
    requires idField == "wager_id" || idField == "settlement_id"
    ensures First(ReceiptRow(idField, r), KEY_FIELDS) == Named(r.key)
    ensures First(ReceiptRow(idField, r), IDENTITY_FIELDS) == Named(r.ident)
  {
    var row := ReceiptRow(idField, r);
    FirstAt(row, KEY_FIELDS, 1);
    FirstAt(row, IDENTITY_FIELDS, if idField == "wager_id" then 2 else 5);
  }

  lemma RowGivesVerdict(idField: string, r: Importer.Receipt)
    requires idField == "wager_id" || idField == "settlement_id"
    ensures First(ReceiptRow(idField, r), VERDICT_FIELDS) == Str(VerdictName(r.verdict))
    ensures "success" in ReceiptRow(idField, r)
    ensures Truthy(ReceiptRow(idField, r)["success"]) <==> r.verdict in {Importer.NEW, Importer.DUPLICATE_NOOP}
  {
    var row := ReceiptRow(idField, r);
    assert First(row, VERDICT_FIELDS) == First(row, VERDICT_FIELDS[1..]);
    assert VERDICT_FIELDS[1..][0] == "duplicate_status";
  }

  lemma RowListsConflicts(show: Value -> string, idField: string, r: Importer.Receipt)
    requires forall s: string {:trigger show(Str(s))} :: show(Str(s)) == s
    requires idField == "wager_id" || idField == "settlement_id"
    ensures FromRow(show, ReceiptRow(idField, r)).conflicting == set n | n in r.conflicting && n != ""
  {
    TextsReadBack(show, r.conflicting);
    var row := ReceiptRow(idField, r);
    assert Or(Get(row, "conflictingFields"), Get(row, "conflicting_fields")) ==
           if r.conflicting == [] then Null else List(Texts(r.conflicting));
  }

  /** When only the k-th spelling is present, it answers. */
  lemma {:induction false} FirstAt(row: Record, fields: seq<string>, k: nat)
    requires k < |fields|
    requires forall i | 0 <= i < |fields| && i != k :: fields[i] !in row
    ensures First(row, fields) == Get(row, fields[k])
    decreases k
  {
    if k == 0 {
      NoneOf(row, fields[1..]);
    } else {
      FirstAt(row, fields[1..], k - 1);
    }
  }

  /** The receipts of an import, as they are read back. */
  ghost predicate ReadsAs(receipts: seq<RowReceipt>, written: seq<Importer.Receipt>) {
    && |receipts| == |written|
    && forall i | 0 <= i < |written| ::
         && receipts[i].sourceKey == Named(written[i].key)
         && receipts[i].identity == Named(written[i].ident)
         && receipts[i].verdict == Some(VerdictName(written[i].verdict))
         && (receipts[i].success <==> written[i].verdict in {Importer.NEW, Importer.DUPLICATE_NOOP})
  }

  /** A file of receipts, read back. */
  function ReadAll(show: Value -> string, idField: string, written: seq<Importer.Receipt>): seq<RowReceipt> {
    seq(|written|, i requires 0 <= i < |written| => FromRow(show, ReceiptRow(idField, written[i])))
  }

  lemma ImporterReceiptsRead(show: Value -> string, idField: string, written: seq<Importer.Receipt>)
    requires forall s: string {:trigger show(Str(s))} :: show(Str(s)) == s
    requires idField == "wager_id" || idField == "settlement_id"
    ensures ReadsAs(ReadAll(show, idField, written), written)
  {
    var read := ReadAll(show, idField, written);
    forall i | 0 <= i < |written|
      ensures read[i].sourceKey == Named(written[i].key) && read[i].identity == Named(written[i].ident)
      ensures read[i].verdict == Some(VerdictName(written[i].verdict))
      ensures read[i].success <==> written[i].verdict in {Importer.NEW, Importer.DUPLICATE_NOOP}
    {
      ImporterReceiptReads(show, idField, written[i]);
    }
  }
}
