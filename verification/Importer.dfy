/** The append-only importer every destination ledger shares.

    `Import` is the specification: a fold over the payload that compares each row with the
    record STORED under its key and never rewrites a stored record. `ImportRows` is the
    importer's own loop over a dictionary index, and refines the fold. */
module Importer {
  import opened Json

  datatype Verdict = NEW | DUPLICATE_NOOP | CONFLICT | REFUSED

  datatype Receipt = Receipt(row: nat, key: Option<string>, ident: Option<string>,
                             verdict: Verdict, conflicting: seq<string>)

  /** A payload row that passed validation: its key, its minted id and the record to store. */
  datatype Built<+K> = Built(key: K, ident: string, rec: Record)

  /** What one destination decides about a row. The clock reaches `build` because some
      destinations stamp every record they create with the time of creation. */
  datatype Importer<+K> = Importer(
    build: (Value, int) -> Option<Built<K>>,
    keyOf: Record -> Option<K>,
    conflicts: (Record, Record) -> seq<string>,
    shownKey: Value -> Option<string>)

  datatype Outcome = Outcome(ledger: seq<Record>, receipts: seq<Receipt>,
                             written: nat, duplicate: nat, refused: nat)

  /** The importer's contract: a record is filed under the key it carries, the clock reaches
      nothing but the stamp, and two stampings of one row do not conflict. */
  ghost predicate Lawful<K(!new)>(imp: Importer<K>) {
    && (forall row, c {:trigger imp.build(row, c)} :: imp.build(row, c).Some? ==>
          imp.keyOf(imp.build(row, c).value.rec) == Some(imp.build(row, c).value.key))
    && (forall row, c, d {:trigger imp.build(row, c), imp.build(row, d)} :: imp.build(row, c).Some? ==>
          && imp.build(row, d).Some?
          && imp.build(row, d).value.key == imp.build(row, c).value.key
          && imp.build(row, d).value.ident == imp.build(row, c).value.ident
          && imp.conflicts(imp.build(row, c).value.rec, imp.build(row, d).value.rec) == [])
    && (forall row, c, d, prior {:trigger imp.conflicts(prior, imp.build(row, c).value.rec), imp.build(row, d)} ::
          imp.build(row, c).Some? && imp.build(row, d).Some? ==>
            imp.conflicts(prior, imp.build(row, c).value.rec) == imp.conflicts(prior, imp.build(row, d).value.rec))
  }

  /** A receipt names the key of the row it is about. */
  ghost predicate ShowsKeys(imp: Importer<string>) {
    forall row, c :: imp.build(row, c).Some? ==> imp.shownKey(row) == Some(imp.build(row, c).value.key)
  }

  /** The id minted for a row depends on nothing but its key. */
  ghost predicate NamesByKey(imp: Importer<string>) {
    forall row, c, row', c' {:trigger imp.build(row, c), imp.build(row', c')} ::
      imp.build(row, c).Some? && imp.build(row', c').Some? && imp.build(row, c).value.key == imp.build(row', c').value.key
      ==> imp.build(row, c).value.ident == imp.build(row', c').value.ident
  }

  /** The record stored under `key`; a file holding the key twice answers with the last one. */
  function Lookup<K(==)>(imp: Importer<K>, ledger: seq<Record>, key: K): Option<Record> {
    if ledger == [] then None
    else if imp.keyOf(ledger[|ledger| - 1]) == Some(key) then Some(ledger[|ledger| - 1])
    else Lookup(imp, ledger[..|ledger| - 1], key)
  }

  ghost predicate HasKey<K>(imp: Importer<K>, ledger: seq<Record>, key: K) {
    exists i :: 0 <= i < |ledger| && imp.keyOf(ledger[i]) == Some(key)
  }

  /** No key is filed twice, and every record has one. */
  ghost predicate UniqueKeys<K>(imp: Importer<K>, ledger: seq<Record>) {
    && (forall i | 0 <= i < |ledger| :: imp.keyOf(ledger[i]).Some?)
    && (forall i, j | 0 <= i < j < |ledger| :: imp.keyOf(ledger[i]) != imp.keyOf(ledger[j]))
  }

  /** One row against the ledger as it stands: the ledger afterwards and the row's receipt. */
  function Judge<K(==)>(imp: Importer<K>, ledger: seq<Record>, index: nat, row: Value, clock: int)
    : (Option<Record>, Receipt)
  {
    match imp.build(row, clock)
    case None => (None, Receipt(index, imp.shownKey(row), None, REFUSED, []))
    case Some(b) =>
      match Lookup(imp, ledger, b.key)
      case None => (Some(b.rec), Receipt(index, imp.shownKey(row), Some(b.ident), NEW, []))
      case Some(prior) =>
        var fields := imp.conflicts(prior, b.rec);
        if fields != [] then (None, Receipt(index, imp.shownKey(row), Some(b.ident), CONFLICT, fields))
        else (None, Receipt(index, imp.shownKey(row), Some(b.ident), DUPLICATE_NOOP, []))
  }

  function Step<K(==)>(imp: Importer<K>, o: Outcome, index: nat, row: Value, clock: int): Outcome {
    var (filed, receipt) := Judge(imp, o.ledger, index, row, clock);
    Outcome(
      if filed.Some? then o.ledger + [filed.value] else o.ledger,
      o.receipts + [receipt],
      o.written + if receipt.verdict == NEW then 1 else 0,
      o.duplicate + if receipt.verdict == DUPLICATE_NOOP then 1 else 0,
      o.refused + if receipt.verdict == CONFLICT || receipt.verdict == REFUSED then 1 else 0)
  }

  function Import<K(==)>(imp: Importer<K>, ledger: seq<Record>, rows: seq<Value>, clock: int): Outcome {
    if rows == [] then Outcome(ledger, [], 0, 0, 0)
    else
      var n := |rows| - 1;
      Step(imp, Import(imp, ledger, rows[..n], clock), n, rows[n], clock)
  }

  function CountOf(receipts: seq<Receipt>, verdict: Verdict): nat {
    if receipts == [] then 0
    else CountOf(receipts[..|receipts| - 1], verdict) + if receipts[|receipts| - 1].verdict == verdict then 1 else 0
  }

  /** One row against the index: what it files, if anything, and its receipt. */
  method ImportOne<K(==, !new)>(imp: Importer<K>, index: map<K, Record>, ghost ledger: seq<Record>, i: nat,
                                row: Value, clock: int)
    returns (built: Option<Built<K>>, receipt: Receipt)
    requires Indexes(imp, index, ledger)
    ensures (if built.Some? then Some(built.value.rec) else None, receipt) == Judge(imp, ledger, i, row, clock)
    ensures built.Some? ==> imp.build(row, clock) == built
    ensures built.Some? <==> receipt.verdict == NEW
  {
    built := imp.build(row, clock);
    if built.None? {
      return None, Receipt(i, imp.shownKey(row), None, REFUSED, []);
    }
    var b := built.value;
    if b.key in index {
      assert Lookup(imp, ledger, b.key) == Some(index[b.key]);
      var fields := imp.conflicts(index[b.key], b.rec);
      return None, Receipt(i, imp.shownKey(row), Some(b.ident), if fields != [] then CONFLICT else DUPLICATE_NOOP, fields);
    }
    receipt := Receipt(i, imp.shownKey(row), Some(b.ident), NEW, []);
  }

  method IndexFile<K(==, !new)>(imp: Importer<K>, onFile: seq<Record>) returns (index: map<K, Record>)
    ensures Indexes(imp, index, onFile)
  {
    index := map[];
    for i := 0 to |onFile|
      invariant Indexes(imp, index, onFile[..i])
    {
      IndexAppend(imp, index, onFile[..i], onFile[i]);
      assert onFile[..i + 1] == onFile[..i] + [onFile[i]];
      var key := imp.keyOf(onFile[i]);
      if key.Some? {
        index := index[key.value := onFile[i]];
      }
    }
    assert onFile[..|onFile|] == onFile;
  }

  /** The importer's loop: an index of the file by key, read once and kept up to date, and the
      new records appended to the file in one go at the end. */
  method ImportRows<K(==, !new)>(imp: Importer<K>, onFile: seq<Record>, rows: seq<Value>, clock: int)
    returns (added: seq<Record>, receipts: seq<Receipt>, written: nat, duplicate: nat, refused: nat)
    requires Lawful(imp)
    ensures Outcome(onFile + added, receipts, written, duplicate, refused) == Import(imp, onFile, rows, clock)
  {
    var index := IndexFile(imp, onFile);
    added, receipts, written, duplicate, refused := [], [], 0, 0, 0;
    assert onFile + [] == onFile;
    assert rows[..0] == [];
    for i := 0 to |rows|
      invariant Indexes(imp, index, onFile + added)
      invariant Outcome(onFile + added, receipts, written, duplicate, refused) == Import(imp, onFile, rows[..i], clock)
    {
      ImportNext(imp, onFile, rows, i, clock);
      var built, receipt := ImportOne(imp, index, onFile + added, i, rows[i], clock);
      receipts := receipts + [receipt];
      match receipt.verdict {
        case NEW =>
          var b := built.value;
          IndexAppend(imp, index, onFile + added, b.rec);
          assert onFile + (added + [b.rec]) == onFile + added + [b.rec];
          index := index[b.key := b.rec];
          added := added + [b.rec];
          written := written + 1;
        case DUPLICATE_NOOP => duplicate := duplicate + 1;
        case _ => refused := refused + 1;
      }
    }
    assert rows[..|rows|] == rows;
  }

  lemma ImportNext<K>(imp: Importer<K>, ledger: seq<Record>, rows: seq<Value>, i: nat, clock: int)
    requires i < |rows|
    ensures Import(imp, ledger, rows[..i + 1], clock) == Step(imp, Import(imp, ledger, rows[..i], clock), i, rows[i], clock)
  {
    assert rows[..i + 1][..i] == rows[..i];
  }

  ghost predicate Indexes<K(!new)>(imp: Importer<K>, index: map<K, Record>, ledger: seq<Record>) {
    forall k :: Lookup(imp, ledger, k) == if k in index then Some(index[k]) else None
  }

  lemma IndexAppend<K(!new)>(imp: Importer<K>, index: map<K, Record>, ledger: seq<Record>, rec: Record)
    requires Indexes(imp, index, ledger)
    ensures imp.keyOf(rec).None? ==> Indexes(imp, index, ledger + [rec])
    ensures imp.keyOf(rec).Some? ==> Indexes(imp, index[imp.keyOf(rec).value := rec], ledger + [rec])
  {
    assert (ledger + [rec])[..|ledger|] == ledger;
  }

  // ------------------------------------------------------------- what a lookup sees

  lemma {:induction false} LookupIffHasKey<K>(imp: Importer<K>, ledger: seq<Record>, key: K)
    ensures Lookup(imp, ledger, key).Some? <==> HasKey(imp, ledger, key)
    ensures Lookup(imp, ledger, key).Some? ==>
              Lookup(imp, ledger, key).value in ledger && imp.keyOf(Lookup(imp, ledger, key).value) == Some(key)
  {
    if ledger != [] && imp.keyOf(ledger[|ledger| - 1]) != Some(key) {
      LookupIffHasKey(imp, ledger[..|ledger| - 1], key);
      assert forall i :: 0 <= i < |ledger| && imp.keyOf(ledger[i]) == Some(key) ==> i < |ledger| - 1;
      if HasKey(imp, ledger[..|ledger| - 1], key) {
        var i :| 0 <= i < |ledger| - 1 && imp.keyOf(ledger[..|ledger| - 1][i]) == Some(key);
        assert imp.keyOf(ledger[i]) == Some(key);
      }
      if HasKey(imp, ledger, key) {
        var i :| 0 <= i < |ledger| && imp.keyOf(ledger[i]) == Some(key);
        assert imp.keyOf(ledger[..|ledger| - 1][i]) == Some(key);
      }
    }
  }

  /** A record appended under a key that was free leaves every other answer alone. */
  lemma LookupAppend<K>(imp: Importer<K>, ledger: seq<Record>, rec: Record, key: K)
    ensures Lookup(imp, ledger + [rec], key) ==
            if imp.keyOf(rec) == Some(key) then Some(rec) else Lookup(imp, ledger, key)
  {
    assert (ledger + [rec])[..|ledger|] == ledger;
  }

  // ------------------------------------------------------------- the fold's laws

  /** The ledger only ever grows by appending, by exactly `written` records; every row of the
      payload has one receipt, and each receipt is counted once. */
  ghost predicate Conserves(ledger: seq<Record>, n: nat, o: Outcome) {
    && ledger <= o.ledger
    && |o.ledger| == |ledger| + o.written
    && |o.receipts| == n
    && o.written + o.duplicate + o.refused == n
    && o.written == CountOf(o.receipts, NEW)
    && o.duplicate == CountOf(o.receipts, DUPLICATE_NOOP)
    && o.refused == CountOf(o.receipts, CONFLICT) + CountOf(o.receipts, REFUSED)
  }

  lemma CountAppend(receipts: seq<Receipt>, r: Receipt, verdict: Verdict)
    ensures CountOf(receipts + [r], verdict) == CountOf(receipts, verdict) + if r.verdict == verdict then 1 else 0
  {
    assert (receipts + [r])[..|receipts|] == receipts;
  }

  lemma StepConserves<K>(imp: Importer<K>, ledger: seq<Record>, n: nat, o: Outcome, row: Value, clock: int)
    requires Conserves(ledger, n, o)
    ensures Conserves(ledger, n + 1, Step(imp, o, n, row, clock))
  {
    var r := Judge(imp, o.ledger, n, row, clock).1;
    CountAppend(o.receipts, r, NEW);
    CountAppend(o.receipts, r, DUPLICATE_NOOP);
    CountAppend(o.receipts, r, CONFLICT);
    CountAppend(o.receipts, r, REFUSED);
  }

  lemma {:induction false} ImportConserves<K>(imp: Importer<K>, ledger: seq<Record>, rows: seq<Value>, clock: int)
    ensures Conserves(ledger, |rows|, Import(imp, ledger, rows, clock))
  {
    if rows != [] {
      var n := |rows| - 1;
      ImportConserves(imp, ledger, rows[..n], clock);
      StepConserves(imp, ledger, n, Import(imp, ledger, rows[..n], clock), rows[n], clock);
    }
  }

  /** A stored record keeps answering for its key whatever is imported later. */
  lemma {:induction false} ImportKeepsStored<K(!new)>(imp: Importer<K>, ledger: seq<Record>, rows: seq<Value>,
                                                       clock: int, key: K)
    requires Lawful(imp)
    requires Lookup(imp, ledger, key).Some?
    ensures Lookup(imp, Import(imp, ledger, rows, clock).ledger, key) == Lookup(imp, ledger, key)
  {
    if rows != [] {
      var n := |rows| - 1;
      var o := Import(imp, ledger, rows[..n], clock);
      ImportKeepsStored(imp, ledger, rows[..n], clock, key);
      StepKeepsStored(imp, o, n, rows[n], clock, key);
    }
  }

  function Shift(receipts: seq<Receipt>, offset: nat): seq<Receipt> {
    seq(|receipts|, i requires 0 <= i < |receipts| => receipts[i].(row := receipts[i].row + offset))
  }

  lemma ImportLast<K>(imp: Importer<K>, ledger: seq<Record>, rows: seq<Value>, row: Value, clock: int)
    ensures Import(imp, ledger, rows + [row], clock) == Step(imp, Import(imp, ledger, rows, clock), |rows|, row, clock)
  {
    assert (rows + [row])[..|rows|] == rows;
  }

  /** A batch and the batch imported after it, as one outcome. */
  function Join(first: Outcome, second: Outcome): Outcome {
    Outcome(second.ledger, first.receipts + Shift(second.receipts, |first.receipts|),
            first.written + second.written, first.duplicate + second.duplicate, first.refused + second.refused)
  }

  lemma StepJoin<K>(imp: Importer<K>, first: Outcome, o: Outcome, index: nat, at: nat, row: Value, clock: int)
    requires at == |first.receipts| + index
    ensures Step(imp, Join(first, o), at, row, clock) == Join(first, Step(imp, o, index, row, clock))
  {
    var k := |first.receipts|;
    var r, r' := Judge(imp, o.ledger, index, row, clock).1, Judge(imp, o.ledger, at, row, clock).1;
    assert r' == r.(row := r.row + k);
    assert first.receipts + Shift(o.receipts + [r], k) == (first.receipts + Shift(o.receipts, k)) + [r'];
  }

  lemma SplitLast<T>(a: seq<T>, b: seq<T>)
    requires b != []
    ensures b == b[..|b| - 1] + [b[|b| - 1]]
    ensures a + b == a + b[..|b| - 1] + [b[|b| - 1]]
  {
  }

  /** Importing A + B is importing A and then B: the same ledger, the same counters, and the
      same receipts with the second batch's row numbers shifted. */
  lemma {:induction false} ImportConcat<K>(imp: Importer<K>, ledger: seq<Record>, a: seq<Value>, b: seq<Value>,
                                clock: int)
    ensures var first := Import(imp, ledger, a, clock);
            Import(imp, ledger, a + b, clock) == Join(first, Import(imp, first.ledger, b, clock))
  {
    var first := Import(imp, ledger, a, clock);
    if b == [] {
      assert a + b == a;
      assert first.receipts + Shift([], |first.receipts|) == first.receipts;
    } else {
      var n := |b| - 1;
      var before := Import(imp, first.ledger, b[..n], clock);
      ImportConserves(imp, ledger, a, clock);
      ImportConcat(imp, ledger, a, b[..n], clock);
      SplitLast(a, b);
      ImportLast(imp, ledger, a + b[..n], b[n], clock);
      ImportLast(imp, first.ledger, b[..n], b[n], clock);
      StepJoin(imp, first, before, n, |a + b[..n]|, b[n], clock);
    }
  }

  /** What a receipt reads after the identical row is imported again. */
  function Repeated(r: Receipt): Receipt {
    if r.verdict == NEW then r.(verdict := DUPLICATE_NOOP) else r
  }

  function RepeatedAll(receipts: seq<Receipt>): seq<Receipt> {
    seq(|receipts|, i requires 0 <= i < |receipts| => Repeated(receipts[i]))
  }

  /** Every row of `rows` that builds is already filed. */
  ghost predicate Absorbs<K(!new)>(imp: Importer<K>, ledger: seq<Record>, rows: seq<Value>) {
    forall i, c | 0 <= i < |rows| && imp.build(rows[i], c).Some? ::
      Lookup(imp, ledger, imp.build(rows[i], c).value.key).Some?
  }

  /** A ledger absorbs what was imported into it. */
  lemma {:induction false} ImportAbsorbs<K(!new)>(imp: Importer<K>, ledger: seq<Record>, rows: seq<Value>, clock: int)
    requires Lawful(imp)
    ensures Absorbs(imp, Import(imp, ledger, rows, clock).ledger, rows)
  {
    if rows != [] {
      var n := |rows| - 1;
      var o, done := Import(imp, ledger, rows[..n], clock), Import(imp, ledger, rows, clock);
      ImportAbsorbs(imp, ledger, rows[..n], clock);
      forall i, c | 0 <= i < |rows| && imp.build(rows[i], c).Some?
        ensures Lookup(imp, done.ledger, imp.build(rows[i], c).value.key).Some?
      {
        var key := imp.build(rows[i], c).value.key;
        var filed := Judge(imp, o.ledger, n, rows[n], clock).0;
        if i < n { assert rows[..n][i] == rows[i]; } else { assert imp.build(rows[n], clock).Some?; }
        if filed.Some? {
          LookupAppend(imp, o.ledger, filed.value, key);
        }
      }
    }
  }

  /** Absorption survives any later growth of the ledger. */
  lemma {:induction false} AbsorbsGrows<K(!new)>(imp: Importer<K>, ledger: seq<Record>, more: seq<Record>,
                                rows: seq<Value>)
    requires Absorbs(imp, ledger, rows)
    ensures Absorbs(imp, ledger + more, rows)
  {
    forall i, c | 0 <= i < |rows| && imp.build(rows[i], c).Some?
      ensures Lookup(imp, ledger + more, imp.build(rows[i], c).value.key).Some?
    {
      var key := imp.build(rows[i], c).value.key;
      LookupIffHasKey(imp, ledger, key);
      LookupIffHasKey(imp, ledger + more, key);
      var j :| 0 <= j < |ledger| && imp.keyOf(ledger[j]) == Some(key);
      assert imp.keyOf((ledger + more)[j]) == Some(key);
    }
  }

  /** Importing into a ledger that absorbs the payload writes nothing, at any clock. */
  lemma {:induction false} AbsorbedImport<K(!new)>(imp: Importer<K>, ledger: seq<Record>, rows: seq<Value>, clock: int)
    requires Lawful(imp) && Absorbs(imp, ledger, rows)
    ensures Import(imp, ledger, rows, clock).ledger == ledger
    ensures Import(imp, ledger, rows, clock).written == 0
  {
    if rows != [] {
      var n := |rows| - 1;
      assert forall i | 0 <= i < n :: rows[..n][i] == rows[i];
      AbsorbedImport(imp, ledger, rows[..n], clock);
    }
  }

  /** One row judged again, at another clock, against a ledger that kept what the first
      judgement saw and stored what it filed. */
  lemma JudgeRepeats<K(!new)>(imp: Importer<K>, seen: seq<Record>, stored: seq<Record>, n: nat, row: Value, c: int,
                              d: int)
    requires Lawful(imp)
    requires imp.build(row, c).Some? ==>
               Lookup(imp, stored, imp.build(row, c).value.key) ==
               (var key := imp.build(row, c).value.key;
                if Lookup(imp, seen, key).Some? then Lookup(imp, seen, key) else Some(imp.build(row, c).value.rec))
    ensures Judge(imp, stored, n, row, d) == (None, Repeated(Judge(imp, seen, n, row, c).1))
  {
    if imp.build(row, c).Some? {
      var here, there := imp.build(row, c).value, imp.build(row, d).value;
      assert there.key == here.key && there.ident == here.ident;
      match Lookup(imp, seen, here.key)
      case None => assert imp.conflicts(here.rec, there.rec) == [];
      case Some(prior) => assert imp.conflicts(prior, here.rec) == imp.conflicts(prior, there.rec);
    } else {
      assert imp.build(row, d).None?;
    }
  }

  /** `stored` still answers as `ledger` does, wherever `ledger` answers. */
  ghost predicate Remembers<K(!new)>(imp: Importer<K>, ledger: seq<Record>, stored: seq<Record>) {
    forall key :: Lookup(imp, ledger, key).Some? ==> Lookup(imp, stored, key) == Lookup(imp, ledger, key)
  }

  lemma RemembersEarlier<K(!new)>(imp: Importer<K>, o: Outcome, n: nat, row: Value, c: int, stored: seq<Record>)
    requires Lawful(imp) && Remembers(imp, Step(imp, o, n, row, c).ledger, stored)
    ensures Remembers(imp, o.ledger, stored)
    ensures imp.build(row, c).Some? ==>
              Lookup(imp, stored, imp.build(row, c).value.key) ==
              (var key := imp.build(row, c).value.key;
               if Lookup(imp, o.ledger, key).Some? then Lookup(imp, o.ledger, key) else Some(imp.build(row, c).value.rec))
  {
    var filed := Judge(imp, o.ledger, n, row, c).0;
    forall key | Lookup(imp, o.ledger, key).Some?
      ensures Lookup(imp, stored, key) == Lookup(imp, o.ledger, key)
    {
      if filed.Some? { LookupAppend(imp, o.ledger, filed.value, key); }
    }
    if imp.build(row, c).Some? && filed.Some? {
      LookupAppend(imp, o.ledger, filed.value, imp.build(row, c).value.key);
    }
  }

  /** Each row's receipt on a second import, whatever the two clocks read. */
  lemma {:induction false} ReceiptsRepeat<K(!new)>(imp: Importer<K>, ledger: seq<Record>, rows: seq<Value>, c: int,
                                                stored: seq<Record>, d: int)
    requires Lawful(imp) && Remembers(imp, Import(imp, ledger, rows, c).ledger, stored)
    ensures var once := Import(imp, ledger, rows, c);
            Import(imp, stored, rows, d) ==
            Outcome(stored, RepeatedAll(once.receipts), 0, once.duplicate + once.written, once.refused)
  {
    if rows != [] {
      var n := |rows| - 1;
      var o := Import(imp, ledger, rows[..n], c);
      RemembersEarlier(imp, o, n, rows[n], c, stored);
      ReceiptsRepeat(imp, ledger, rows[..n], c, stored, d);
      JudgeRepeats(imp, o.ledger, stored, n, rows[n], c, d);
      StepRepeats(imp, o, n, rows[n], c, stored, d);
    }
  }

  /** One row of a repeated import, after the rows before it were repeated. */
  lemma StepRepeats<K(!new)>(imp: Importer<K>, o: Outcome, n: nat, row: Value, c: int, stored: seq<Record>, d: int)
    requires Judge(imp, stored, n, row, d) == (None, Repeated(Judge(imp, o.ledger, n, row, c).1))
    ensures var once := Step(imp, o, n, row, c);
      Step(imp, Outcome(stored, RepeatedAll(o.receipts), 0, o.duplicate + o.written, o.refused), n, row, d) ==
      Outcome(stored, RepeatedAll(once.receipts), 0, once.duplicate + once.written, once.refused)
  {
    var r := Judge(imp, o.ledger, n, row, c).1;
    assert RepeatedAll(o.receipts + [r]) == RepeatedAll(o.receipts) + [Repeated(r)];
  }

  /** Importing twice: the ledger stands still, every NEW becomes DUPLICATE_NOOP, every other
      verdict is repeated, and the counters say so. */
  lemma ImportTwice<K(!new)>(imp: Importer<K>, ledger: seq<Record>, rows: seq<Value>, c: int, d: int)
    requires Lawful(imp)
    ensures var once := Import(imp, ledger, rows, c);
            Import(imp, once.ledger, rows, d) ==
            Outcome(once.ledger, RepeatedAll(once.receipts), 0, once.duplicate + once.written, once.refused)
  {
    ReceiptsRepeat(imp, ledger, rows, c, Import(imp, ledger, rows, c).ledger, d);
  }

  /** The ledger holds a record under this row's key, and the two agree. */
  ghost predicate Agrees<K>(imp: Importer<K>, ledger: seq<Record>, row: Value, clock: int) {
    imp.build(row, clock).Some? &&
    var b := imp.build(row, clock).value;
    var stored := Lookup(imp, ledger, b.key);
    stored.Some? && imp.conflicts(stored.value, b.rec) == []
  }

  lemma StepKeepsStored<K(!new)>(imp: Importer<K>, o: Outcome, n: nat, row: Value, clock: int, key: K)
    requires Lawful(imp) && Lookup(imp, o.ledger, key).Some?
    ensures Lookup(imp, Step(imp, o, n, row, clock).ledger, key) == Lookup(imp, o.ledger, key)
  {
    var filed := Judge(imp, o.ledger, n, row, clock).0;
    if filed.Some? {
      LookupAppend(imp, o.ledger, filed.value, key);
    }
  }

  lemma StepKeepsAgreement<K(!new)>(imp: Importer<K>, o: Outcome, n: nat, row: Value, clock: int, earlier: Value)
    requires Lawful(imp) && Agrees(imp, o.ledger, earlier, clock)
    ensures Agrees(imp, Step(imp, o, n, row, clock).ledger, earlier, clock)
  {
    StepKeepsStored(imp, o, n, row, clock, imp.build(earlier, clock).value.key);
  }

  lemma StepStoresAccepted<K(!new)>(imp: Importer<K>, o: Outcome, n: nat, row: Value, clock: int)
    requires Lawful(imp)
    requires Judge(imp, o.ledger, n, row, clock).1.verdict in {NEW, DUPLICATE_NOOP}
    ensures Agrees(imp, Step(imp, o, n, row, clock).ledger, row, clock)
  {
    var b := imp.build(row, clock).value;
    assert imp.build(row, clock).Some? && imp.conflicts(b.rec, b.rec) == [];
    LookupAppend(imp, o.ledger, b.rec, b.key);
  }

  /** An accepted row (NEW or DUPLICATE_NOOP) is on the resulting ledger. */
  lemma {:induction false} AcceptedIsStored<K(!new)>(imp: Importer<K>, ledger: seq<Record>, rows: seq<Value>,
                                clock: int, i: nat)
    requires Lawful(imp) && i < |rows| == |Import(imp, ledger, rows, clock).receipts|
    requires Import(imp, ledger, rows, clock).receipts[i].verdict in {NEW, DUPLICATE_NOOP}
    ensures Agrees(imp, Import(imp, ledger, rows, clock).ledger, rows[i], clock)
  {
    var n := |rows| - 1;
    var o, done := Import(imp, ledger, rows[..n], clock), Import(imp, ledger, rows, clock);
    assert done == Step(imp, o, n, rows[n], clock);
    ImportConserves(imp, ledger, rows[..n], clock);
    if i < n {
      assert rows[..n][i] == rows[i] && done.receipts[i] == o.receipts[i];
      AcceptedIsStored(imp, ledger, rows[..n], clock, i);
      StepKeepsAgreement(imp, o, n, rows[n], clock, rows[i]);
    } else {
      StepStoresAccepted(imp, o, n, rows[n], clock);
    }
  }

  /** What an import of the first rows leaves stands at the front of what the whole import leaves. */
  lemma {:induction false} ImportPrefix<K>(imp: Importer<K>, ledger: seq<Record>, rows: seq<Value>, clock: int, m: nat)
    requires m <= |rows|
    ensures var earlier, o := Import(imp, ledger, rows[..m], clock), Import(imp, ledger, rows, clock);
            earlier.receipts <= o.receipts && earlier.ledger <= o.ledger
  {
    if m == |rows| {
      assert rows[..m] == rows;
    } else {
      var n := |rows| - 1;
      assert rows[..n][..m] == rows[..m];
      ImportPrefix(imp, ledger, rows[..n], clock, m);
      StepAppends(imp, Import(imp, ledger, rows[..n], clock), n, rows[n], clock);
    }
  }

  /** Every receipt is the judgement of its row against the ledger as the rows before it left it,
      and what that judgement files stands right behind that ledger. */
  lemma ReceiptIsJudged<K>(imp: Importer<K>, ledger: seq<Record>, rows: seq<Value>, clock: int, i: nat)
    requires i < |rows| == |Import(imp, ledger, rows, clock).receipts|
    ensures var before := Import(imp, ledger, rows[..i], clock).ledger; var o := Import(imp, ledger, rows, clock);
      var (filed, receipt) := Judge(imp, before, i, rows[i], clock);
      && o.receipts[i] == receipt
      && before + (if filed.Some? then [filed.value] else []) <= o.ledger
  {
    ImportPrefix(imp, ledger, rows, clock, i + 1);
    assert rows[..i + 1][..i] == rows[..i] && rows[..i + 1][i] == rows[i];
    ImportConserves(imp, ledger, rows[..i], clock);
    StepAppends(imp, Import(imp, ledger, rows[..i], clock), i, rows[i], clock);
  }

  /** The same of a row that is new: its record stands on the final ledger, right behind what the rows
      before it left. */
  lemma RowStands<K>(imp: Importer<K>, ledger: seq<Record>, rows: seq<Value>, clock: int, i: nat)
    requires i < |rows|
    ensures var before, o := Import(imp, ledger, rows[..i], clock).ledger, Import(imp, ledger, rows, clock);
      var (filed, receipt) := Judge(imp, before, i, rows[i], clock);
      && |o.receipts| == |rows| && ledger <= before <= o.ledger
      && o.receipts[i] == receipt && (filed.Some? <==> receipt.verdict == NEW)
      && (filed.Some? ==> |before| < |o.ledger| && o.ledger[|before|] == filed.value)
  {
    var before, o := Import(imp, ledger, rows[..i], clock).ledger, Import(imp, ledger, rows, clock);
    var (filed, receipt) := Judge(imp, before, i, rows[i], clock);
    ImportGrows(imp, ledger, rows, clock);
    ImportGrows(imp, ledger, rows[..i], clock);
    ReceiptIsJudged(imp, ledger, rows, clock, i);
    FiledIfNew(imp, before, i, rows[i], clock);
    StandsBehind(before, filed, o.ledger);
  }

  lemma ImportGrows<K>(imp: Importer<K>, ledger: seq<Record>, rows: seq<Value>, clock: int)
    ensures ledger <= Import(imp, ledger, rows, clock).ledger && |Import(imp, ledger, rows, clock).receipts| == |rows|
  {
    ImportConserves(imp, ledger, rows, clock);
  }

  lemma FiledIfNew<K>(imp: Importer<K>, ledger: seq<Record>, index: nat, row: Value, clock: int)
    ensures var (filed, receipt) := Judge(imp, ledger, index, row, clock); filed.Some? <==> receipt.verdict == NEW
  {
  }

  lemma StandsBehind(before: seq<Record>, filed: Option<Record>, whole: seq<Record>)
    requires before + (if filed.Some? then [filed.value] else []) <= whole
    ensures before <= whole && (filed.Some? ==> |before| < |whole| && whole[|before|] == filed.value)
  {
    if filed.Some? {
      assert (before + [filed.value])[|before|] == filed.value;
    } else {
      assert before + [] == before;
    }
  }

  lemma StepAppends<K>(imp: Importer<K>, o: Outcome, index: nat, row: Value, clock: int)
    ensures var (filed, receipt) := Judge(imp, o.ledger, index, row, clock); var next := Step(imp, o, index, row, clock);
      && next.receipts == o.receipts + [receipt]
      && next.ledger == o.ledger + if filed.Some? then [filed.value] else []
  {
  }

  /** A receipt names its own row: by its key, and by the id minted for it, if it builds. */
  lemma {:induction false} ReceiptIsOfRow<K>(imp: Importer<K>, ledger: seq<Record>, rows: seq<Value>, clock: int, i: nat)
    requires i < |rows| == |Import(imp, ledger, rows, clock).receipts|
    ensures var r := Import(imp, ledger, rows, clock).receipts[i];
      && r.key == imp.shownKey(rows[i])
      && r.ident == (if imp.build(rows[i], clock).Some? then Some(imp.build(rows[i], clock).value.ident) else None)
      && (imp.build(rows[i], clock).None? <==> r.verdict == REFUSED)
  {
    var n := |rows| - 1;
    var o := Import(imp, ledger, rows[..n], clock);
    assert Import(imp, ledger, rows, clock) == Step(imp, o, n, rows[n], clock);
    ImportConserves(imp, ledger, rows[..n], clock);
    if i < n {
      assert rows[..n][i] == rows[i];
      ReceiptIsOfRow(imp, ledger, rows[..n], clock, i);
    }
  }

  /** Keys stay unique. */
  lemma {:induction false} ImportUnique<K(!new)>(imp: Importer<K>, ledger: seq<Record>, rows: seq<Value>, clock: int)
    requires Lawful(imp) && UniqueKeys(imp, ledger)
    ensures UniqueKeys(imp, Import(imp, ledger, rows, clock).ledger)
  {
    if rows != [] {
      var n := |rows| - 1;
      var o := Import(imp, ledger, rows[..n], clock);
      ImportUnique(imp, ledger, rows[..n], clock);
      var filed := Judge(imp, o.ledger, n, rows[n], clock).0;
      if filed.Some? {
        var b := imp.build(rows[n], clock).value;
        LookupIffHasKey(imp, o.ledger, b.key);
        assert forall i | 0 <= i < |o.ledger| :: imp.keyOf(o.ledger[i]) != Some(b.key);
      }
    }
  }

  /** Every record the import added was built from some row of the payload. */
  lemma {:induction false} FreshWasBuilt<K(!new)>(imp: Importer<K>, ledger: seq<Record>, rows: seq<Value>, clock: int,
                                j: nat)
    requires ledger <= Import(imp, ledger, rows, clock).ledger
    requires |ledger| <= j < |Import(imp, ledger, rows, clock).ledger|
    ensures exists i :: 0 <= i < |rows| && imp.build(rows[i], clock).Some? &&
                        imp.build(rows[i], clock).value.rec == Import(imp, ledger, rows, clock).ledger[j]
  {
    if rows != [] {
      var n := |rows| - 1;
      var o, done := Import(imp, ledger, rows[..n], clock), Import(imp, ledger, rows, clock);
      assert done == Step(imp, o, n, rows[n], clock);
      ImportConserves(imp, ledger, rows[..n], clock);
      if j < |o.ledger| {
        FreshWasBuilt(imp, ledger, rows[..n], clock, j);
        var i :| 0 <= i < n && imp.build(rows[..n][i], clock).Some? && imp.build(rows[..n][i], clock).value.rec == o.ledger[j];
        assert imp.build(rows[i], clock).Some?;
      } else {
        assert imp.build(rows[n], clock).Some?;
      }
    }
  }
}
