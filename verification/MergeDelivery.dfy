/** The merge step: the importer the gate asks about, and what a MERGE verdict about a protocol
    state does to the destination's main. */
module MergeDelivery {
  import opened Json
  import opened LedgerFile
  import opened Importer
  import opened DeliveryBranch
  import opened Delivery
  import opened DeliverySafety
  import opened DiffReader
  import opened RoutedLedger
  import Gate = MergeGate
  import Receipts

  // ------------------------------------------------------------- the importer, before the gate

  /** Every receipt of the import accepts its row. */
  ghost predicate AllAccepted(receipts: seq<Receipt>) {
    forall i | 0 <= i < |receipts| :: receipts[i].verdict in {NEW, DUPLICATE_NOOP}
  }

  /** Receipts of two accepted rows under one key name the same id. */
  lemma {:induction false} SameKeySameId(imp: Importer<string>, ledger: seq<Record>, rows: seq<Value>, c: int, i: nat, j: nat)
    requires ShowsKeys(imp) && NamesByKey(imp)
    requires i < |rows| == |Import(imp, ledger, rows, c).receipts| && j < |rows|
    requires AllAccepted(Import(imp, ledger, rows, c).receipts)
    requires Import(imp, ledger, rows, c).receipts[i].key == Import(imp, ledger, rows, c).receipts[j].key
    ensures Import(imp, ledger, rows, c).receipts[i].key.Some?
    ensures Import(imp, ledger, rows, c).receipts[i].ident == Import(imp, ledger, rows, c).receipts[j].ident
  {
    ReceiptIsOfRow(imp, ledger, rows, c, i);
    ReceiptIsOfRow(imp, ledger, rows, c, j);
    assert imp.build(rows[i], c).Some? && imp.build(rows[j], c).Some?;
  }

  lemma {:induction false} FirstIdentityIs(receipts: seq<Receipts.RowReceipt>, key: Value, id: Value, i: nat)
    requires i < |receipts| && receipts[i].sourceKey == key
    requires forall j | 0 <= j < |receipts| && Hashed(receipts[j].sourceKey) == Hashed(key) :: receipts[j].identity == id
    ensures Gate.FirstIdentity(receipts, key) == id
  {
    var n := |receipts| - 1;
    if Hashed(receipts[n].sourceKey) != Hashed(key) {
      assert forall j | 0 <= j < n :: receipts[..n][j] == receipts[j];
      FirstIdentityIs(receipts[..n], key, id, i);
    }
  }

  /** The gate's idempotency condition against the importer it is about: importing the payload
      again passes it exactly when the first import refused nothing. */
  lemma {:induction false} RerunPassesIff(imp: Importer<string>, ledger: seq<Record>, rows: seq<Value>, c: int, d: int,
                       p: Gate.Profile, f: Gate.MergeFacts)
    requires Lawful(imp) && ShowsKeys(imp) && NamesByKey(imp) && rows != []
    requires var once := Import(imp, ledger, rows, c); var twice := Import(imp, once.ledger, rows, d);
      && Receipts.ReadsAs(f.receipts, once.receipts) && Receipts.ReadsAs(f.rerunReceipts, twice.receipts)
      && f.rerunChangedTheTree == Some(twice.ledger != once.ledger)
    ensures Gate.RulingOf(p, f, Gate.THE_IMPORT_IS_IDEMPOTENT) == Gate.PASS <==>
            AllAccepted(Import(imp, ledger, rows, c).receipts)
  {
    var once := Import(imp, ledger, rows, c);
    ImportConserves(imp, ledger, rows, c);
    ImportTwice(imp, ledger, rows, c, d);
    if AllAccepted(once.receipts) {
      forall i | 0 <= i < |once.receipts|
        ensures Gate.FirstIdentity(f.receipts, f.receipts[i].sourceKey) == f.receipts[i].identity
      {
        IdentityRepeats(imp, ledger, rows, c, f.receipts, i);
      }
    }
    RepeatsPassIff(p, f, once.receipts);
  }

  /** The condition on repeated receipts, when each key leads back to its own id. */
  lemma RepeatsPassIff(p: Gate.Profile, f: Gate.MergeFacts, once: seq<Receipt>)
    requires once != [] && f.rerunChangedTheTree == Some(false)
    requires Receipts.ReadsAs(f.receipts, once) && Receipts.ReadsAs(f.rerunReceipts, RepeatedAll(once))
    requires AllAccepted(once) ==> forall i | 0 <= i < |once| ::
               Gate.FirstIdentity(f.receipts, f.receipts[i].sourceKey) == f.receipts[i].identity
    ensures Gate.RulingOf(p, f, Gate.THE_IMPORT_IS_IDEMPOTENT) == Gate.PASS <==> AllAccepted(once)
  {
    RepeatsRead(once, f.receipts, f.rerunReceipts);
  }

  /** Read back, the repeated receipts name the same keys and ids, and say DUPLICATE_NOOP exactly
      where the first ones accepted. */
  lemma {:induction false} RepeatsRead(once: seq<Receipt>, receipts: seq<Receipts.RowReceipt>, rerun: seq<Receipts.RowReceipt>)
    requires Receipts.ReadsAs(receipts, once) && Receipts.ReadsAs(rerun, RepeatedAll(once))
    ensures |rerun| == |receipts| == |once|
    ensures forall i | 0 <= i < |once| ::
      rerun[i].sourceKey == receipts[i].sourceKey && rerun[i].identity == receipts[i].identity
    ensures AllAccepted(once) <==> forall i | 0 <= i < |once| :: rerun[i].verdict == Some("DUPLICATE_NOOP")
  {
    forall i | 0 <= i < |once|
      ensures rerun[i].verdict == Some("DUPLICATE_NOOP") <==> once[i].verdict in {NEW, DUPLICATE_NOOP}
      ensures rerun[i].sourceKey == receipts[i].sourceKey && rerun[i].identity == receipts[i].identity
    {
      assert RepeatedAll(once)[i] == Repeated(once[i]);
    }
  }

  /** The identity the gate remembers for a row's key is the row's own. */
  lemma {:induction false} IdentityRepeats(imp: Importer<string>, ledger: seq<Record>, rows: seq<Value>, c: int,
                        receipts: seq<Receipts.RowReceipt>, i: nat)
    requires ShowsKeys(imp) && NamesByKey(imp)
    requires i < |rows| == |Import(imp, ledger, rows, c).receipts|
    requires AllAccepted(Import(imp, ledger, rows, c).receipts)
    requires Receipts.ReadsAs(receipts, Import(imp, ledger, rows, c).receipts)
    ensures Gate.FirstIdentity(receipts, receipts[i].sourceKey) == receipts[i].identity
  {
    forall j | 0 <= j < |rows| && Hashed(receipts[j].sourceKey) == Hashed(receipts[i].sourceKey)
      ensures receipts[j].identity == receipts[i].identity
    {
      SameKeySameId(imp, ledger, rows, c, i, i);
      SameKeySameId(imp, ledger, rows, c, j, j);
      SameKeySameId(imp, ledger, rows, c, i, j);
    }
    FirstIdentityIs(receipts, receipts[i].sourceKey, receipts[i].identity, i);
  }

  /** The routed ledger's own two importers, from their receipt files to the gate: nothing is assumed
      of them, and the condition passes exactly when the first import refused nothing. */
  lemma RoutedRerunPassesIff(spec: LedgerSpec, batch: Option<string>, wagers: seq<Record>, settlements: bool,
                             ledger: seq<Record>, rows: seq<Value>, show: Value -> string, p: Gate.Profile, f: Gate.MergeFacts)
    requires rows != [] && forall s: string {:trigger show(Str(s))} :: show(Str(s)) == s
    requires var imp := if settlements then SettlementImporter(spec, wagers) else WagerImporter(spec, batch);
      var idField := if settlements then "settlement_id" else "wager_id";
      var once := Import(imp, ledger, rows, 0); var twice := Import(imp, once.ledger, rows, 0);
      && f.receipts == Receipts.ReadAll(show, idField, once.receipts)
      && f.rerunReceipts == Receipts.ReadAll(show, idField, twice.receipts)
      && f.rerunChangedTheTree == Some(twice.ledger != once.ledger)
    ensures var imp := if settlements then SettlementImporter(spec, wagers) else WagerImporter(spec, batch);
      Gate.RulingOf(p, f, Gate.THE_IMPORT_IS_IDEMPOTENT) == Gate.PASS <==> AllAccepted(Import(imp, ledger, rows, 0).receipts)
  {
    var imp := if settlements then SettlementImporter(spec, wagers) else WagerImporter(spec, batch);
    var idField := if settlements then "settlement_id" else "wager_id";
    var once := Import(imp, ledger, rows, 0);
    RoutedImportersShow(spec, batch, wagers);
    Receipts.ImporterReceiptsRead(show, idField, once.receipts);
    Receipts.ImporterReceiptsRead(show, idField, Import(imp, once.ledger, rows, 0).receipts);
    RerunPassesIff(imp, ledger, rows, 0, 0, p, f);
  }

  lemma RoutedImportersShow(spec: LedgerSpec, batch: Option<string>, wagers: seq<Record>)
    ensures Lawful(WagerImporter(spec, batch)) && ShowsKeys(WagerImporter(spec, batch)) && NamesByKey(WagerImporter(spec, batch))
    ensures Lawful(SettlementImporter(spec, wagers)) && ShowsKeys(SettlementImporter(spec, wagers))
    ensures NamesByKey(SettlementImporter(spec, wagers))
  {
    WagerImporterLawful(spec, batch);
    WagerReceiptsShowKeys(spec, batch);
    SettlementImporterLawful(spec, wagers);
    SettlementReceiptsShowKeys(spec, wagers);
    IdsNameKeys(spec, batch, wagers);
  }

  // ------------------------------------------------------------- the verdict, and the diff it was shown

  /** The diff of a commit's canonical files: the ledger's own lines, among those of the others, and
      the script they are the diff of. */
  datatype Diff = Diff(earlier: seq<string>, own: seq<string>, later: seq<string>, edits: seq<Edit>)
  {
    function Lines(): seq<string> {
      earlier + own + later
    }
  }

  /** The gate's rows are what it read from the diff between these two trees. A file that did not
      change is not in it. */
  ghost predicate DiffOf(codec: Codec, base: Tree, tree: Tree, d: Diff, f: Gate.MergeFacts) {
    && Renders(codec, d.edits, d.own) && HoldsEdits(codec, d.edits)
    && Records(Before(d.edits)) == base.ledger && Records(After(d.edits)) == tree.ledger
    && Objects(f.addedRows) == AllAdded(codec, d.Lines())
    && f.removedRows == AllRemoved(d.Lines())
    && (base.rest == tree.rest ==> d.earlier == [] && d.later == [])
  }

  lemma ObjectsDiffer(a: seq<Record>, b: seq<Record>)
    requires Objects(a) == Objects(b)
    ensures a == b
  {
    assert |a| == |Objects(a)| == |b|;
    forall i | 0 <= i < |a| ensures a[i] == b[i] {
      assert Objects(a)[i] == Obj(a[i]) && Objects(b)[i] == Obj(b[i]);
    }
  }

  /** The ledger's insertions are among the gate's rows, in order and side by side. */
  ghost predicate Inspected(d: Diff, f: Gate.MergeFacts) {
    exists a, b :: f.addedRows == a + Records(Inserted(d.edits)) + b
  }

  lemma ObjectsBetween(rows: seq<Record>, a: seq<Value>, own: seq<Record>, b: seq<Value>)
    requires Objects(rows) == a + Objects(own) + b
    ensures rows == rows[..|a|] + own + rows[|a| + |own|..]
  {
    assert |rows| == |Objects(rows)|;
    var slice := rows[|a|..|a| + |own|];
    assert Objects(slice) == Objects(rows)[|a|..|a| + |own|] == Objects(own);
    ObjectsDiffer(slice, own);
  }

  /** What the gate read, split at the ledger's own lines. */
  lemma OwnLines(codec: Codec, base: Tree, tree: Tree, d: Diff, f: Gate.MergeFacts)
    requires Sound(codec) && DiffOf(codec, base, tree, d, f)
    ensures f.removedRows == [] ==> Taken(d.edits) == []
    ensures Inspected(d, f)
    ensures base.rest == tree.rest ==> f.addedRows == Records(Inserted(d.edits))
  {
    var own := Records(Inserted(d.edits));
    DiffReadsBack(codec, d.edits, d.own);
    AddedConcat(codec, d.earlier, d.own);
    AddedConcat(codec, d.earlier + d.own, d.later);
    ObjectsBetween(f.addedRows, AllAdded(codec, d.earlier), own, AllAdded(codec, d.later));
    if base.rest == tree.rest {
      assert AllAdded(codec, d.earlier) == [] == AllAdded(codec, d.later);
    }
  }

  lemma AddedAreOurs(p: Gate.Profile, f: Gate.MergeFacts)
    requires Gate.VerdictOf(p, f) == Gate.MERGE
    ensures f.removedRows == []
    ensures forall r | r in f.addedRows :: Gate.HasName(r) && Gate.OfBatch(p, f.kind, r)
  {
    Gate.MergeIsSafe(p, f);
  }

  /** A MERGE verdict, with no assumption on the importer: the ledger that lands is the base's with
      rows put in between, every one of them a row the gate inspected and found to be the router's. */
  lemma MergeInterleaves(codec: Codec, base: Tree, tree: Tree, d: Diff, p: Gate.Profile, f: Gate.MergeFacts)
    requires Sound(codec) && DiffOf(codec, base, tree, d, f)
    requires Gate.VerdictOf(p, f) == Gate.MERGE
    ensures Interleaves(Before(d.edits), Inserted(d.edits), After(d.edits))
    ensures Inspected(d, f)
    ensures forall r | r in Records(Inserted(d.edits)) ::
              Gate.HasName(r) && Gate.OfBatch(p, f.kind, r)
  {
    AddedAreOurs(p, f);
    OwnLines(codec, base, tree, d, f);
    NothingTakenInterleaves(d.edits);
    assert forall r | r in Records(Inserted(d.edits)) :: r in f.addedRows;
  }

  // ------------------------------------------------------------- the verdict, in the protocol

  /** The facts the gate is given describe this run's commit: the host's view of the branch, the
      diff against the commit it sits on, and the host's promise about a clean merge, in which the
      files other than the ledger become `rest`. Mergeable files are canonical files. */
  ghost predicate Describes(dest: Destination, codec: Codec, remote: Remote, head: Sha, rest: map<string, string>,
                            d: Diff, name: Sha -> string, p: Gate.Profile, f: Gate.MergeFacts) {
    && (forall a, b :: name(a) == name(b) ==> a == b)
    && f.verifiedSha == Some(name(head))
    && f.headSha == (if remote.branch.Some? then Some(name(remote.branch.value)) else None)
    && head in remote.objects && remote.main in remote.objects && HasLedger(remote.objects, remote.objects[head].parent)
    && (var base := remote.objects[remote.objects[head].parent.value].tree;
        var tree := remote.objects[head].tree;
        && DiffOf(codec, base, tree, d, f)
        && (forall path :: path in f.changedFiles <==> path in StagedPaths(dest.ledgerPath, base, tree))
        && (f.mergeable == Some(true) && f.mergeableState == Some("clean") ==> MergeAllowed(remote, head, rest)))
    && (forall path :: p.isMergeable(path) ==> path in dest.canonical)
  }

  /** What a merge of `head` makes of one file other than the ledger: main's own, unless the head
      changed a mergeable file; and the head's, where main has not changed it since. */
  ghost predicate LandsAt(dest: Destination, remote: Remote, head: Sha, rest: map<string, string>, p: Gate.Profile, path: string)
    requires MergeAllowed(remote, head, rest)
  {
    var base := At(remote.objects[remote.objects[head].parent.value].tree.rest, path);
    var ours, theirs := At(remote.objects[remote.main].tree.rest, path), At(remote.objects[head].tree.rest, path);
    && (At(rest, path) != ours ==> p.isMergeable(path) && path in dest.canonical && theirs != base)
    && (ours == base ==> At(rest, path) == theirs)
  }

  /** A MERGE verdict is all the merge step needs: the branch is where the gate looked, the host can
      merge, and only mergeable files change on main. */
  lemma VerdictAllowsMerge(dest: Destination, codec: Codec, remote: Remote, head: Sha, rest: map<string, string>, d: Diff,
                           name: Sha -> string, p: Gate.Profile, f: Gate.MergeFacts)
    requires Describes(dest, codec, remote, head, rest, d, name, p, f)
    requires Gate.VerdictOf(p, f) == Gate.MERGE
    ensures remote.branch == Some(head)
    ensures MergeAllowed(remote, head, rest)
    ensures forall path :: LandsAt(dest, remote, head, rest, p, path)
  {
    Gate.MergeIsSafe(p, f);
    Gate.MergeIffAllPass(p, f);
    assert Gate.RulingOf(p, f, Gate.THE_DESTINATION_BRANCH_IS_CLEANLY_MERGEABLE) == Gate.PASS;
    forall path ensures LandsAt(dest, remote, head, rest, p, path) {
      LandsOnMergeable(dest, remote, head, rest, p, f, path);
    }
  }

  lemma LandsOnMergeable(dest: Destination, remote: Remote, head: Sha, rest: map<string, string>, p: Gate.Profile,
                         f: Gate.MergeFacts, path: string)
    requires MergeAllowed(remote, head, rest)
    requires forall i | 0 <= i < |f.changedFiles| :: p.isMergeable(f.changedFiles[i])
    requires forall q :: p.isMergeable(q) ==> q in dest.canonical
    requires var base := remote.objects[remote.objects[head].parent.value].tree;
      forall q :: q in f.changedFiles <==> q in StagedPaths(dest.ledgerPath, base, remote.objects[head].tree)
    ensures LandsAt(dest, remote, head, rest, p, path)
  {
    var base, tree := remote.objects[remote.objects[head].parent.value].tree.rest, remote.objects[head].tree.rest;
    var ours := remote.objects[remote.main].tree.rest;
    if path in base.Keys + ours.Keys + tree.Keys + rest.Keys {
      assert MergesAt(At(base, path), At(ours, path), At(tree, path), At(rest, path));
    }
    if At(base, path) != At(tree, path) {
      assert path in f.changedFiles;
    }
  }

  /** The merge a MERGE verdict leads to keeps main's ledger: nothing on it moves, its keys stay
      unique, what it gains are rows the gate inspected, and of the other files only mergeable ones
      the commit changed are touched. If the importer wrote nothing but its ledger, it gains all the
      inspected rows or none, and no other file changes. */
  lemma GatedMergeKeepsMain(dest: Destination, codec: Codec, s: System, run: nat, rest: map<string, string>, sha: Sha,
                            d: Diff, name: Sha -> string, p: Gate.Profile, f: Gate.MergeFacts)
    requires Sound(codec) && Inv(dest, s) && run in s.clones && sha !in s.remote.objects
    requires s.clones[run].phase == Settled(Adopted) || s.clones[run].phase == Settled(Pushed)
    requires Describes(dest, codec, s.remote, s.clones[run].head, rest, d, name, p, f)
    requires Gate.VerdictOf(p, f) == Gate.MERGE
    ensures Enabled(dest, s, MergeRun(run, rest, sha))
    ensures var s' := Next(dest, s, MergeRun(run, rest, sha));
      var before, after := Ledger(s.remote.objects, s.remote.main), Ledger(s'.remote.objects, s'.remote.main);
      && Inv(dest, s')
      && before <= after && UniqueKeys(dest.importer, after)
      && Inspected(d, f)
      && (after == before || multiset(after) == multiset(before) + multiset(Records(Inserted(d.edits))))
      && (!s.strayed ==>
            && f.addedRows == Records(Inserted(d.edits))
            && rest == s.remote.objects[s.remote.main].tree.rest)
      && s'.remote.objects[s'.remote.main].tree.rest == rest
      && forall path :: LandsAt(dest, s.remote, s.clones[run].head, rest, p, path)
  {
    var head := s.clones[run].head;
    VerdictAllowsMerge(dest, codec, s.remote, head, rest, d, name, p, f);
    MergeKeepsInv(dest, s, run, rest, sha);
    var base, tree := s.remote.objects[s.remote.objects[head].parent.value].tree, s.remote.objects[head].tree;
    GateReadNoRemoval(codec, base, tree, d, p, f);
    assert CloneOk(dest, s.remote.objects, s.mains, s.strayed, s.clones[run]);
    if !s.strayed {
      OthersStay(s.remote, head, rest);
    }
    MergedMain(s.remote, head, rest, sha);
  }

  lemma GateReadNoRemoval(codec: Codec, base: Tree, tree: Tree, d: Diff, p: Gate.Profile, f: Gate.MergeFacts)
    requires Sound(codec) && DiffOf(codec, base, tree, d, f)
    requires Gate.VerdictOf(p, f) == Gate.MERGE
    ensures Inspected(d, f)
    ensures base.rest == tree.rest ==> f.addedRows == Records(Inserted(d.edits))
    ensures multiset(tree.ledger) == multiset(base.ledger) + multiset(Records(Inserted(d.edits)))
  {
    AddedAreOurs(p, f);
    OwnLines(codec, base, tree, d, f);
    NothingTakenAdds(d.edits);
  }

  /** A commit that changes no file but the ledger merges no other file. */
  lemma OthersStay(remote: Remote, head: Sha, rest: map<string, string>)
    requires MergeAllowed(remote, head, rest)
    requires remote.objects[head].tree.rest == remote.objects[remote.objects[head].parent.value].tree.rest
    ensures rest == remote.objects[remote.main].tree.rest
  {
    var base, ours := remote.objects[head].tree.rest, remote.objects[remote.main].tree.rest;
    forall path ensures At(rest, path) == At(ours, path) {
      if path in base.Keys + ours.Keys + base.Keys + rest.Keys {
        assert MergesAt(At(base, path), At(ours, path), At(base, path), At(rest, path));
      }
    }
    assert forall path :: (path in rest <==> At(rest, path).Some?) && (path in ours <==> At(ours, path).Some?);
    assert forall path | path in rest :: At(rest, path) == Some(rest[path]) && At(ours, path) == Some(ours[path]);
  }

  /** Main after a merge: its ledger is what it was or the head's, and then it was the base's. */
  lemma MergedMain(remote: Remote, head: Sha, rest: map<string, string>, sha: Sha)
    requires remote.branch == Some(head) && MergeAllowed(remote, head, rest) && sha !in remote.objects
    ensures var r' := MergeStep(remote, head, rest, sha);
      var before, after := Ledger(remote.objects, remote.main), Ledger(r'.objects, r'.main);
      && r'.main in r'.objects && r'.objects[r'.main].tree.rest == rest
      && (after == before ||
          (after == Ledger(remote.objects, head) && before == remote.objects[remote.objects[head].parent.value].tree.ledger))
  {
  }
}
