/** Reconciliation by identity: every key of a payload lands in exactly one state. */
module ReconcileDelivery {
  import opened Json
  import opened Receipts
  import Importer

  datatype Status = ON_LEDGER | PROPOSED | WAITING | REFUSED | UNACCOUNTED

  datatype Counts = Counts(onLedger: nat, proposed: nat, waiting: nat, refused: nat, unaccounted: nat)
  {
    function Total(): nat {
      onLedger + proposed + waiting + refused + unaccounted
    }

    function Add(s: Status): Counts {
      match s
      case ON_LEDGER => this.(onLedger := onLedger + 1)
      case PROPOSED => this.(proposed := proposed + 1)
      case WAITING => this.(waiting := waiting + 1)
      case REFUSED => this.(refused := refused + 1)
      case UNACCOUNTED => this.(unaccounted := unaccounted + 1)
    }
  }

  const ACCEPTED := {"NEW", "DUPLICATE_NOOP", "CORRECTED"}

  predicate Accepted(r: RowReceipt) {
    r.verdict.Some? && r.verdict.value in ACCEPTED && r.success
  }

  /** The receipt this run returned for a key; the last one, if several name it. */
  function ReceiptOf(receipts: seq<RowReceipt>, key: Value): Option<RowReceipt> {
    if receipts == [] then None
    else
      var last := receipts[|receipts| - 1];
      if Truthy(last.sourceKey) && Hashed(last.sourceKey) == Hashed(key) then Some(last)
      else ReceiptOf(receipts[..|receipts| - 1], key)
  }

  /** A refusal outranks the ledger, the ledger outranks acceptance, and only a key without a
      receipt can be waiting. */
  function StatusOf(key: Value, onLedger: set<Value>, receipts: seq<RowReceipt>, waiting: set<Value>): Status {
    var r := ReceiptOf(receipts, key);
    if r.Some? && !Accepted(r.value) then REFUSED
    else if Truthy(key) && Hashed(key) in onLedger then ON_LEDGER
    else if r.Some? then PROPOSED
    else if Hashed(key) in waiting then WAITING
    else UNACCOUNTED
  }

  function CountStatus(keys: seq<Value>, onLedger: set<Value>, receipts: seq<RowReceipt>, waiting: set<Value>,
                       s: Status): nat {
    if keys == [] then 0
    else CountStatus(keys[..|keys| - 1], onLedger, receipts, waiting, s) +
         if StatusOf(keys[|keys| - 1], onLedger, receipts, waiting) == s then 1 else 0
  }

  /** How many refused keys carry this verdict. */
  function CountVerdict(keys: seq<Value>, receipts: seq<RowReceipt>, verdict: string): nat {
    if keys == [] then 0
    else
      var r := ReceiptOf(receipts, keys[|keys| - 1]);
      CountVerdict(keys[..|keys| - 1], receipts, verdict) +
      if r.Some? && !Accepted(r.value) && ShownVerdict(r.value) == verdict then 1 else 0
  }

  function ShownVerdict(r: RowReceipt): string {
    if r.verdict.Some? then r.verdict.value else "None"
  }

  function CountOrphans(keys: seq<Value>, receipts: seq<RowReceipt>, parents: set<Value>): nat {
    if keys == [] then 0
    else
      var r := ReceiptOf(receipts, keys[|keys| - 1]);
      CountOrphans(keys[..|keys| - 1], receipts, parents) +
      if r.Some? && !Accepted(r.value) && Hashed(keys[|keys| - 1]) !in parents then 1 else 0
  }

  ghost predicate Indexes(byKey: map<Value, RowReceipt>, receipts: seq<RowReceipt>) {
    forall key :: ReceiptOf(receipts, key) == if Hashed(key) in byKey then Some(byKey[Hashed(key)]) else None
  }

  method IndexByKey(receipts: seq<RowReceipt>) returns (byKey: map<Value, RowReceipt>)
    ensures Indexes(byKey, receipts)
  {
    byKey := map[];
    for i := 0 to |receipts|
      invariant Indexes(byKey, receipts[..i])
    {
      assert receipts[..i + 1][..i] == receipts[..i];
      if Truthy(receipts[i].sourceKey) {
        byKey := byKey[Hashed(receipts[i].sourceKey) := receipts[i]];
      }
    }
    assert receipts[..|receipts|] == receipts;
  }

  function CountsOf(keys: seq<Value>, onLedger: set<Value>, receipts: seq<RowReceipt>, waiting: set<Value>): Counts {
    Counts(CountStatus(keys, onLedger, receipts, waiting, ON_LEDGER),
           CountStatus(keys, onLedger, receipts, waiting, PROPOSED),
           CountStatus(keys, onLedger, receipts, waiting, WAITING),
           CountStatus(keys, onLedger, receipts, waiting, REFUSED),
           CountStatus(keys, onLedger, receipts, waiting, UNACCOUNTED))
  }

  lemma CountsNext(keys: seq<Value>, i: nat, onLedger: set<Value>, receipts: seq<RowReceipt>, waiting: set<Value>)
    requires i < |keys|
    ensures CountsOf(keys[..i + 1], onLedger, receipts, waiting) ==
            CountsOf(keys[..i], onLedger, receipts, waiting).Add(StatusOf(keys[i], onLedger, receipts, waiting))
  {
    assert keys[..i + 1][..i] == keys[..i];
  }

  method Find(byKey: map<Value, RowReceipt>, key: Value,
              ghost receipts: seq<RowReceipt>) returns (r: Option<RowReceipt>)
    requires Indexes(byKey, receipts)
    ensures r == ReceiptOf(receipts, key)
  {
    r := if Hashed(key) in byKey then Some(byKey[Hashed(key)]) else None;
  }

  /** The five counts partition the keys. */
  lemma {:induction false} EveryKeyCounted(keys: seq<Value>, onLedger: set<Value>, receipts: seq<RowReceipt>,
                                waiting: set<Value>)
    ensures CountsOf(keys, onLedger, receipts, waiting).Total() == |keys|
  {
    if keys != [] {
      EveryKeyCounted(keys[..|keys| - 1], onLedger, receipts, waiting);
    }
  }

  /** One key, given the receipt this run returned for it. */
  method Place(key: Value, r: Option<RowReceipt>, onLedger: set<Value>, waiting: set<Value>,
               ghost receipts: seq<RowReceipt>)
    returns (s: Status)
    requires r == ReceiptOf(receipts, key)
    ensures s == StatusOf(key, onLedger, receipts, waiting)
    ensures s == REFUSED <==> r.Some? && !Accepted(r.value)
  {
    if r.Some? && !Accepted(r.value) {
      return REFUSED;
    }
    if Truthy(key) && Hashed(key) in onLedger {
      return ON_LEDGER;
    }
    if r.Some? && Accepted(r.value) {
      s := PROPOSED;
    } else if r.None? && Hashed(key) in waiting {
      s := WAITING;
    } else if r.Some? {
      // The loop's second refusal branch: a receipt that is not accepted never gets here.
      assert false;
      s := REFUSED;
    } else {
      s := UNACCOUNTED;
    }
  }

  /** The refusals alone: how many keys each refused verdict has, and how many await a parent. */
  ghost predicate Refusals(keys: seq<Value>, receipts: seq<RowReceipt>, parents: Option<set<Value>>,
                           reasons: map<string, nat>, awaitingParent: nat) {
    && (forall v :: (if v in reasons then reasons[v] else 0) == CountVerdict(keys, receipts, v))
    && awaitingParent == if parents.Some? then CountOrphans(keys, receipts, parents.value) else 0
  }

  lemma RefusalsNext(keys: seq<Value>, i: nat, receipts: seq<RowReceipt>, parents: Option<set<Value>>,
                     reasons: map<string, nat>, awaitingParent: nat)
    requires i < |keys| && Refusals(keys[..i], receipts, parents, reasons, awaitingParent)
    ensures var r := ReceiptOf(receipts, keys[i]);
      if r.Some? && !Accepted(r.value) then
        var v := ShownVerdict(r.value);
        Refusals(keys[..i + 1], receipts, parents, reasons[v := (if v in reasons then reasons[v] else 0) + 1],
                 awaitingParent + if parents.Some? && Hashed(keys[i]) !in parents.value then 1 else 0)
      else Refusals(keys[..i + 1], receipts, parents, reasons, awaitingParent)
  {
    assert keys[..i + 1][..i] == keys[..i];
  }

  /** The reconciliation. `onLedger`, `parents` and `waiting` hold keys as a set holds them. */
  method Classify(keys: seq<Value>, onLedger: set<Value>, receipts: seq<RowReceipt>,
                  parents: Option<set<Value>>, waiting: set<Value>)
    returns (counts: Counts, reasons: map<string, nat>, awaitingParent: nat)
    ensures counts.Total() == |keys|
    ensures counts == CountsOf(keys, onLedger, receipts, waiting)
    ensures Refusals(keys, receipts, parents, reasons, awaitingParent)
  {
    var byKey := IndexByKey(receipts);
    counts, reasons, awaitingParent := Counts(0, 0, 0, 0, 0), map[], 0;
    for i := 0 to |keys|
      invariant counts == CountsOf(keys[..i], onLedger, receipts, waiting)
      invariant Refusals(keys[..i], receipts, parents, reasons, awaitingParent)
    {
      var key := keys[i];
      var r := Find(byKey, key, receipts);
      CountsNext(keys, i, onLedger, receipts, waiting);
      RefusalsNext(keys, i, receipts, parents, reasons, awaitingParent);
      var s := Place(key, r, onLedger, waiting, receipts);
      counts := counts.Add(s);
      if s == REFUSED {
        var v := ShownVerdict(r.value);
        reasons := reasons[v := (if v in reasons then reasons[v] else 0) + 1];
        if parents.Some? && Hashed(key) !in parents.value {
          awaitingParent := awaitingParent + 1;
        }
      }
    }
    assert keys[..|keys|] == keys;
    EveryKeyCounted(keys, onLedger, receipts, waiting);
  }

  // ------------------------------------------------------------- what the counts mean

  /** Nothing is unaccounted for exactly when every key has a receipt, is on the ledger or is
      waiting for its parent. */
  lemma {:induction false} UnaccountedIff(keys: seq<Value>, onLedger: set<Value>, receipts: seq<RowReceipt>,
                                waiting: set<Value>)
    ensures CountStatus(keys, onLedger, receipts, waiting, UNACCOUNTED) == 0 <==>
      forall i | 0 <= i < |keys| ::
        || (exists j :: 0 <= j < |receipts| && Truthy(receipts[j].sourceKey) && Hashed(receipts[j].sourceKey) == Hashed(keys[i]))
        || (Truthy(keys[i]) && Hashed(keys[i]) in onLedger)
        || Hashed(keys[i]) in waiting
  {
    if keys != [] {
      var n := |keys| - 1;
      UnaccountedIff(keys[..n], onLedger, receipts, waiting);
      ReceiptIff(receipts, keys[n]);
      assert forall i | 0 <= i < n :: keys[..n][i] == keys[i];
      assert (forall i | 0 <= i < |keys| :: AccountedFor(keys[i], onLedger, receipts, waiting)) <==>
             ((forall i | 0 <= i < n :: AccountedFor(keys[..n][i], onLedger, receipts, waiting)) && AccountedFor(keys[n], onLedger, receipts, waiting));
    }
  }

  ghost predicate AccountedFor(key: Value, onLedger: set<Value>, receipts: seq<RowReceipt>, waiting: set<Value>) {
    || (exists j :: 0 <= j < |receipts| && Truthy(receipts[j].sourceKey) && Hashed(receipts[j].sourceKey) == Hashed(key))
    || (Truthy(key) && Hashed(key) in onLedger)
    || Hashed(key) in waiting
  }

  lemma {:induction false} ReceiptIff(receipts: seq<RowReceipt>, key: Value)
    ensures ReceiptOf(receipts, key).Some? <==>
            exists j :: 0 <= j < |receipts| && Truthy(receipts[j].sourceKey) && Hashed(receipts[j].sourceKey) == Hashed(key)
    ensures ReceiptOf(receipts, key).Some? ==>
            exists j :: 0 <= j < |receipts| && receipts[j] == ReceiptOf(receipts, key).value
                        && Truthy(receipts[j].sourceKey) && Hashed(receipts[j].sourceKey) == Hashed(key)
  {
    if receipts != [] {
      var n := |receipts| - 1;
      ReceiptIff(receipts[..n], key);
      assert forall j | 0 <= j < n :: receipts[..n][j] == receipts[j];
    }
  }

  /** The j-th receipt is the last one that names this key. */
  ghost predicate LastFor(receipts: seq<RowReceipt>, key: Value, j: int) {
    && 0 <= j < |receipts| && Truthy(receipts[j].sourceKey) && Hashed(receipts[j].sourceKey) == Hashed(key)
    && forall k | j < k < |receipts| :: !(Truthy(receipts[k].sourceKey) && Hashed(receipts[k].sourceKey) == Hashed(key))
  }

  ghost predicate Welcome(r: RowReceipt) {
    r.success && r.verdict in {Some("NEW"), Some("DUPLICATE_NOOP"), Some("CORRECTED")}
  }

  ghost predicate Answered(receipts: seq<RowReceipt>, key: Value) {
    exists j :: LastFor(receipts, key, j)
  }

  ghost predicate TurnedAway(receipts: seq<RowReceipt>, key: Value) {
    exists j :: LastFor(receipts, key, j) && !Welcome(receipts[j])
  }

  lemma {:induction false} ReceiptIsLast(receipts: seq<RowReceipt>, key: Value)
    ensures ReceiptOf(receipts, key).Some? <==> Answered(receipts, key)
    ensures forall j :: LastFor(receipts, key, j) ==> ReceiptOf(receipts, key) == Some(receipts[j])
  {
    if receipts != [] {
      var n := |receipts| - 1;
      ReceiptIsLast(receipts[..n], key);
      assert forall j | 0 <= j < n :: receipts[..n][j] == receipts[j];
      if Truthy(receipts[n].sourceKey) && Hashed(receipts[n].sourceKey) == Hashed(key) {
        assert LastFor(receipts, key, n);
      } else {
        assert forall j :: LastFor(receipts[..n], key, j) <==> LastFor(receipts, key, j);
      }
    }
  }

  /** The state of one key, exactly: what this run's last receipt for it says, then the ledger, then
      the list of those that wait. */
  lemma StatusIff(key: Value, onLedger: set<Value>, receipts: seq<RowReceipt>, waiting: set<Value>)
    ensures var s := StatusOf(key, onLedger, receipts, waiting);
      var filed := Truthy(key) && Hashed(key) in onLedger;
      && (s == REFUSED <==> TurnedAway(receipts, key))
      && (s == ON_LEDGER <==> !TurnedAway(receipts, key) && filed)
      && (s == PROPOSED <==> !TurnedAway(receipts, key) && !filed && Answered(receipts, key))
      && (s == WAITING <==> !Answered(receipts, key) && !filed && Hashed(key) in waiting)
      && (s == UNACCOUNTED <==> !Answered(receipts, key) && !filed && Hashed(key) !in waiting)
  {
    ReceiptIsLast(receipts, key);
    if ReceiptOf(receipts, key).Some? {
      AcceptedIsWelcome(ReceiptOf(receipts, key).value);
    }
  }

  lemma AcceptedIsWelcome(r: RowReceipt)
    ensures Accepted(r) <==> Welcome(r)
    ensures r.verdict == None ==> ShownVerdict(r) == "None"
    ensures r.verdict.Some? ==> ShownVerdict(r) == r.verdict.value
  {
  }

  // ------------------------------------------------------------- together with the importer

  /** Every key counted as proposed is on the tree the importer left. */
  lemma ProposedIsOnTree(imp: Importer.Importer<string>, ledger: seq<Record>, rows: seq<Value>, clock: int,
                         receipts: seq<RowReceipt>, key: string, onLedger: set<Value>, waiting: set<Value>)
    requires Importer.Lawful(imp) && Importer.ShowsKeys(imp)
    requires ReadsAs(receipts, Importer.Import(imp, ledger, rows, clock).receipts)
    requires StatusOf(Str(key), onLedger, receipts, waiting) == PROPOSED
    ensures Importer.HasKey(imp, Importer.Import(imp, ledger, rows, clock).ledger, key)
  {
    var o := Importer.Import(imp, ledger, rows, clock);
    Importer.ImportConserves(imp, ledger, rows, clock);
    ReceiptIff(receipts, Str(key));
    var j :| 0 <= j < |receipts| && receipts[j] == ReceiptOf(receipts, Str(key)).value && receipts[j].sourceKey == Str(key);
    assert o.receipts[j].verdict in {Importer.NEW, Importer.DUPLICATE_NOOP};
    assert o.receipts[j].key == Some(key);
    Importer.AcceptedIsStored(imp, ledger, rows, clock, j);
    Importer.ReceiptIsOfRow(imp, ledger, rows, clock, j);
    assert imp.build(rows[j], clock).Some? && imp.build(rows[j], clock).value.key == key;
    Importer.LookupIffHasKey(imp, o.ledger, key);
  }

  /** A payload whose every row has a text key leaves nothing unaccounted, whatever the importer
      made of it. */
  lemma ImportedIsAccounted(imp: Importer.Importer<string>, ledger: seq<Record>, rows: seq<Value>, clock: int,
                            receipts: seq<RowReceipt>, keys: seq<Value>, onLedger: set<Value>, waiting: set<Value>)
    requires ReadsAs(receipts, Importer.Import(imp, ledger, rows, clock).receipts)
    requires |keys| == |rows|
    requires forall i | 0 <= i < |rows| ::
               imp.shownKey(rows[i]).Some? && imp.shownKey(rows[i]).value != "" && keys[i] == Str(imp.shownKey(rows[i]).value)
    ensures CountStatus(keys, onLedger, receipts, waiting, UNACCOUNTED) == 0
  {
    Importer.ImportConserves(imp, ledger, rows, clock);
    forall i | 0 <= i < |keys|
      ensures exists j :: 0 <= j < |receipts| && Truthy(receipts[j].sourceKey) && Hashed(receipts[j].sourceKey) == Hashed(keys[i])
    {
      Importer.ReceiptIsOfRow(imp, ledger, rows, clock, i);
      assert receipts[i].sourceKey == keys[i];
    }
    UnaccountedIff(keys, onLedger, receipts, waiting);
  }
}
