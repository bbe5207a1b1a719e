/** The auto-merge gate: twelve conditions over facts a machine established, each of which passes,
    refuses or waits, and a verdict that merges only when all twelve pass. */
module MergeGate {
  import opened Json
  import opened Receipts

  datatype Condition =
    | PULL_REQUEST_EXISTS
    | PULL_REQUEST_IS_OPEN_AND_NOT_A_DRAFT
    | BRANCH_ORIGINATED_FROM_THE_ROUTER_WORKFLOW
    | HEAD_IS_THE_COMMIT_THIS_RUN_VERIFIED
    | IMPORTER_REFUSED_NOTHING
    | EVERY_ROW_NEEDED_NO_HUMAN_JUDGEMENT
    | THE_IMPORT_IS_IDEMPOTENT
    | ONLY_CANONICAL_WAGER_FILES_CHANGED
    | THE_LEDGER_DIFF_IS_APPEND_ONLY
    | EVERY_ADDED_ROW_CARRIES_THE_ROUTER_IDENTITY
    | CONTINUOUS_INTEGRATION_IS_GREEN
    | THE_DESTINATION_BRANCH_IS_CLEANLY_MERGEABLE

  const CONDITIONS := [
    PULL_REQUEST_EXISTS, PULL_REQUEST_IS_OPEN_AND_NOT_A_DRAFT, BRANCH_ORIGINATED_FROM_THE_ROUTER_WORKFLOW,
    HEAD_IS_THE_COMMIT_THIS_RUN_VERIFIED, IMPORTER_REFUSED_NOTHING, EVERY_ROW_NEEDED_NO_HUMAN_JUDGEMENT,
    THE_IMPORT_IS_IDEMPOTENT, ONLY_CANONICAL_WAGER_FILES_CHANGED, THE_LEDGER_DIFF_IS_APPEND_ONLY,
    EVERY_ADDED_ROW_CARRIES_THE_ROUTER_IDENTITY, CONTINUOUS_INTEGRATION_IS_GREEN,
    THE_DESTINATION_BRANCH_IS_CLEANLY_MERGEABLE]

  datatype Ruling = PASS | REFUSED | WAITING

  datatype Verdict = MERGE | WAIT | REFUSE

  datatype Kind = WAGERS | SETTLEMENTS

  const TRANSIENT_MERGE_STATES := {"unknown", "behind", "dirty"}
  const CHECK_DERIVED_MERGE_STATES := {"unstable"}
  const PASSING_CONCLUSIONS := {"success", "skipped", "neutral"}

  datatype CheckRun = CheckRun(name: string, status: Option<string>, conclusion: Option<string>)

  /** What the destination's profile says, for a sport that has one. */
  datatype Profile = Profile(isMergeable: string -> bool, ledgerBranch: string, runsCi: bool,
                             wagerBranch: string, settlementBranch: string, batchId: string)

  datatype MergeFacts = MergeFacts(
    destinationRepo: string,
    pullNumber: Option<int>, state: Option<string>, draft: bool,
    headRef: Option<string>, headSha: Option<string>, headRepo: Option<string>, baseRef: Option<string>,
    mergeable: Option<bool>, mergeableState: Option<string>,
    verifiedSha: Option<string>,
    changedFiles: seq<string>,
    addedRows: seq<Record>, removedRows: seq<string>,
    receipts: seq<RowReceipt>, rerunReceipts: seq<RowReceipt>, rerunChangedTheTree: Option<bool>,
    checkRuns: seq<CheckRun>,
    partialDelivery: bool,
    validatorPassed: Option<bool>,
    kind: Kind)

  // ------------------------------------------------------------- what each condition demands

  function RouterBranch(p: Profile, kind: Kind): string {
    match kind
    case WAGERS => p.wagerBranch
    case SETTLEMENTS => p.settlementBranch
  }

  predicate Known(text: Option<string>) {
    text.Some? && text.value != ""
  }

  function BatchOf(row: Record): Value {
    Or(Get(row, "importBatchId"), Get(row, "import_batch_id"))
  }

  function IdentityOf(row: Record): Value {
    Or(Or(Or(Or(Get(row, "betId"), Get(row, "wager_id")), Get(row, "imported_wager_id")), Get(row, "settlement_id")),
       Get(row, "amendment_id"))
  }

  function SourceKeyOf(row: Record): Value {
    Or(Get(row, "sourceBetKey"), Get(row, "source_bet_key"))
  }

  /** A row of somebody else's batch. A settlement carries no batch id, and may. */
  predicate Foreign(p: Profile, kind: Kind, row: Record) {
    BatchOf(row) != Str(p.batchId) && (kind == WAGERS || BatchOf(row) != Null)
  }

  predicate Identified(row: Record) {
    Truthy(IdentityOf(row)) && Truthy(SourceKeyOf(row))
  }

  predicate HasReceipt(receipts: seq<RowReceipt>, key: Value) {
    exists i | 0 <= i < |receipts| :: Truthy(receipts[i].sourceKey) && Hashed(receipts[i].sourceKey) == Hashed(key)
  }

  predicate SomeKeyedReceipt(receipts: seq<RowReceipt>) {
    exists i | 0 <= i < |receipts| :: Truthy(receipts[i].sourceKey)
  }

  /** The identity the first import reported for a key: its last receipt's, or none. */
  function FirstIdentity(receipts: seq<RowReceipt>, key: Value): Value {
    if receipts == [] then Null
    else if Hashed(receipts[|receipts| - 1].sourceKey) == Hashed(key) then receipts[|receipts| - 1].identity
    else FirstIdentity(receipts[..|receipts| - 1], key)
  }

  predicate Pending(c: CheckRun) {
    c.status != Some("completed")
  }

  predicate Broken(c: CheckRun) {
    c.status == Some("completed") && (c.conclusion.None? || c.conclusion.value !in PASSING_CONCLUSIONS)
  }

  function PendingNames(checks: seq<CheckRun>): seq<string> {
    if checks == [] then []
    else PendingNames(checks[..|checks| - 1]) + if Pending(checks[|checks| - 1]) then [checks[|checks| - 1].name] else []
  }

  function BrokenNames(checks: seq<CheckRun>): seq<string> {
    if checks == [] then []
    else BrokenNames(checks[..|checks| - 1]) + if Broken(checks[|checks| - 1]) then [Ended(checks[|checks| - 1])] else []
  }

  /** How a completed check is listed: its name and its conclusion. */
  function Ended(c: CheckRun): string {
    c.name + "=" + if c.conclusion.Some? then c.conclusion.value else "None"
  }

  predicate AnyPending(checks: seq<CheckRun>) {
    exists i | 0 <= i < |checks| :: Pending(checks[i])
  }

  predicate AnyBroken(checks: seq<CheckRun>) {
    exists i | 0 <= i < |checks| :: Broken(checks[i])
  }

  predicate Judged(r: RowReceipt) {
    NeedsJudgement(r) || r.conflicting != {} || !Truthy(r.identity)
  }

  predicate Idempotent(f: MergeFacts) {
    && f.rerunChangedTheTree == Some(false)
    && |f.rerunReceipts| == |f.receipts|
    && (forall i | 0 <= i < |f.rerunReceipts| ::
          && f.rerunReceipts[i].verdict == Some("DUPLICATE_NOOP")
          && FirstIdentity(f.receipts, f.rerunReceipts[i].sourceKey) == f.rerunReceipts[i].identity)
  }

  predicate RowsAreOurs(p: Profile, f: MergeFacts) {
    && (forall i | 0 <= i < |f.addedRows| :: !Foreign(p, f.kind, f.addedRows[i]) && Identified(f.addedRows[i]))
    && (if SomeKeyedReceipt(f.receipts) then
          forall i | 0 <= i < |f.addedRows| :: HasReceipt(f.receipts, SourceKeyOf(f.addedRows[i]))
        else f.kind == WAGERS)
  }

  function Judge(ok: bool): Ruling {
    if ok then PASS else REFUSED
  }

  function ChecksRuling(checks: seq<CheckRun>): Ruling {
    if AnyBroken(checks) then REFUSED else if AnyPending(checks) || checks == [] then WAITING else PASS
  }

  function RulingOf(p: Profile, f: MergeFacts, c: Condition): Ruling {
    match c
    case PULL_REQUEST_EXISTS => if f.pullNumber.None? then WAITING else PASS
    case PULL_REQUEST_IS_OPEN_AND_NOT_A_DRAFT =>
      if f.state != Some("open") then WAITING else Judge(!f.draft)
    case BRANCH_ORIGINATED_FROM_THE_ROUTER_WORKFLOW =>
      Judge(&& f.headRef == Some(RouterBranch(p, f.kind))
            && (Known(f.headRepo) ==> f.headRepo == Some(f.destinationRepo))
            && f.baseRef == Some(p.ledgerBranch))
    case HEAD_IS_THE_COMMIT_THIS_RUN_VERIFIED =>
      if Known(f.headSha) && f.headSha == f.verifiedSha then PASS else WAITING
    case IMPORTER_REFUSED_NOTHING =>
      if f.receipts == [] then WAITING
      else Judge(!f.partialDelivery && forall i | 0 <= i < |f.receipts| :: f.receipts[i].success)
    case EVERY_ROW_NEEDED_NO_HUMAN_JUDGEMENT =>
      if f.receipts == [] then WAITING
      else Judge(forall i | 0 <= i < |f.receipts| :: !Judged(f.receipts[i]))
    case THE_IMPORT_IS_IDEMPOTENT =>
      if f.rerunChangedTheTree.None? || f.rerunReceipts == [] then WAITING else Judge(Idempotent(f))
    case ONLY_CANONICAL_WAGER_FILES_CHANGED =>
      if f.changedFiles == [] then WAITING
      else Judge(forall i | 0 <= i < |f.changedFiles| :: p.isMergeable(f.changedFiles[i]))
    case THE_LEDGER_DIFF_IS_APPEND_ONLY => Judge(f.removedRows == [])
    case EVERY_ADDED_ROW_CARRIES_THE_ROUTER_IDENTITY =>
      if f.addedRows == [] then WAITING else Judge(RowsAreOurs(p, f))
    case CONTINUOUS_INTEGRATION_IS_GREEN =>
      if !p.runsCi then (if f.validatorPassed.None? then WAITING else Judge(f.validatorPassed.value))
      else ChecksRuling(f.checkRuns)
    case THE_DESTINATION_BRANCH_IS_CLEANLY_MERGEABLE =>
      if f.mergeable != Some(true) || f.mergeableState.None? || f.mergeableState.value in TRANSIENT_MERGE_STATES then WAITING
      else if f.mergeableState.value in CHECK_DERIVED_MERGE_STATES then
        (if ChecksRuling(f.checkRuns) == WAITING then WAITING else REFUSED)
      else Judge(f.mergeableState.value == "clean")
  }

  /** The conditions of `cs` that reach one bucket, in order. */
  function Bucket(p: Profile, f: MergeFacts, cs: seq<Condition>, r: Ruling): seq<Condition> {
    if cs == [] then []
    else Bucket(p, f, cs[..|cs| - 1], r) + if RulingOf(p, f, cs[|cs| - 1]) == r then [cs[|cs| - 1]] else []
  }

  // ------------------------------------------------------------- the gate's own evaluation

  /** The three lists every condition is filed in. */
  class Tally {
    var passed: seq<Condition>
    var failed: seq<Condition>
    var waiting: seq<Condition>

    constructor ()
      ensures passed == [] && failed == [] && waiting == []
    {
      passed, failed, waiting := [], [], [];
    }

    /** Exactly these conditions have been filed, each where it belongs. */
    ghost predicate Holds(p: Profile, f: MergeFacts, cs: seq<Condition>)
      reads this
    {
      && passed == Bucket(p, f, cs, PASS)
      && failed == Bucket(p, f, cs, REFUSED)
      && waiting == Bucket(p, f, cs, WAITING)
    }

    method File(c: Condition, r: Ruling)
      modifies this
      ensures passed == old(passed) + if r == PASS then [c] else []
      ensures failed == old(failed) + if r == REFUSED then [c] else []
      ensures waiting == old(waiting) + if r == WAITING then [c] else []
    {
      match r
      case PASS => passed := passed + [c];
      case REFUSED => failed := failed + [c];
      case WAITING => waiting := waiting + [c];
    }
  }

  /** The names of the checks still pending, and of those that failed with how they ended, each in
      the order the checks were reported. */
  method CheckState(checks: seq<CheckRun>) returns (pending: seq<string>, broken: seq<string>)
    ensures pending == PendingNames(checks) && broken == BrokenNames(checks)
  {
    pending, broken := [], [];
    for i := 0 to |checks|
      invariant pending == PendingNames(checks[..i]) && broken == BrokenNames(checks[..i])
    {
      var c := checks[i];
      assert checks[..i + 1][..i] == checks[..i];
      if c.status != Some("completed") {
        pending := pending + [c.name];
      } else if c.conclusion.None? || c.conclusion.value !in PASSING_CONCLUSIONS {
        broken := broken + [c.name + "=" + (if c.conclusion.Some? then c.conclusion.value else "None")];
      }
    }
    assert checks[..|checks|] == checks;
  }

  /** A list is empty exactly when no check is in that state. */
  lemma {:induction false} NamesIff(checks: seq<CheckRun>)
    ensures PendingNames(checks) != [] <==> AnyPending(checks)
    ensures BrokenNames(checks) != [] <==> AnyBroken(checks)
  {
    if checks != [] {
      var n := |checks| - 1;
      NamesIff(checks[..n]);
      assert forall i | 0 <= i < n :: checks[..n][i] == checks[i];
      assert Pending(checks[n]) ==> AnyPending(checks);
      assert Broken(checks[n]) ==> AnyBroken(checks);
    }
  }

  lemma BucketNext(p: Profile, f: MergeFacts, k: nat, r: Ruling)
    requires k < |CONDITIONS|
    ensures Bucket(p, f, CONDITIONS[..k + 1], r) ==
            Bucket(p, f, CONDITIONS[..k], r) + if RulingOf(p, f, CONDITIONS[k]) == r then [CONDITIONS[k]] else []
  {
    assert CONDITIONS[..k + 1][..k] == CONDITIONS[..k];
  }

  /** Files the next condition, given the ruling the gate reached on it. */
  method FileNext(t: Tally, p: Profile, f: MergeFacts, k: nat, r: Ruling)
    requires k < |CONDITIONS| && t.Holds(p, f, CONDITIONS[..k])
    requires r == RulingOf(p, f, CONDITIONS[k])
    modifies t
    ensures t.Holds(p, f, CONDITIONS[..k + 1])
  {
    t.File(CONDITIONS[k], r);
    BucketNext(p, f, k, PASS);
    BucketNext(p, f, k, REFUSED);
    BucketNext(p, f, k, WAITING);
  }

  method EvaluatePullRequest(t: Tally, p: Profile, f: MergeFacts)
    requires t.Holds(p, f, [])
    modifies t
    ensures t.Holds(p, f, CONDITIONS[..4])
  {
    assert CONDITIONS[..0] == [];
    FileNext(t, p, f, 0, if f.pullNumber.None? then WAITING else PASS);

    var open := RuleOnState(p, f);
    FileNext(t, p, f, 1, open);
    EvaluateBranch(t, p, f);
  }

  method EvaluateBranch(t: Tally, p: Profile, f: MergeFacts)
    requires t.Holds(p, f, CONDITIONS[..2])
    modifies t
    ensures t.Holds(p, f, CONDITIONS[..4])
  {
    var origin := RuleOnOrigin(p, f);
    FileNext(t, p, f, 2, origin);
    var head := RuleOnHead(p, f);
    FileNext(t, p, f, 3, head);
  }

  method RuleOnState(p: Profile, f: MergeFacts) returns (r: Ruling)
    ensures r == RulingOf(p, f, PULL_REQUEST_IS_OPEN_AND_NOT_A_DRAFT)
  {
    if f.state.None? {
      r := WAITING;
    } else if f.state.value != "open" {
      r := WAITING;
    } else if f.draft {
      r := REFUSED;
    } else {
      r := PASS;
    }
  }

  method RuleOnOrigin(p: Profile, f: MergeFacts) returns (r: Ruling)
    ensures r == RulingOf(p, f, BRANCH_ORIGINATED_FROM_THE_ROUTER_WORKFLOW)
  {
    var problems := 0;
    if f.headRef != Some(RouterBranch(p, f.kind)) {
      problems := problems + 1;
    }
    if Known(f.headRepo) && f.headRepo.value != f.destinationRepo {
      problems := problems + 1;
    }
    if f.baseRef != Some(p.ledgerBranch) {
      problems := problems + 1;
    }
    r := Judge(problems == 0);
  }

  method RuleOnHead(p: Profile, f: MergeFacts) returns (r: Ruling)
    ensures r == RulingOf(p, f, HEAD_IS_THE_COMMIT_THIS_RUN_VERIFIED)
  {
    if !Known(f.headSha) || !Known(f.verifiedSha) {
      r := WAITING;
    } else if f.headSha != f.verifiedSha {
      r := WAITING;
    } else {
      r := PASS;
    }
  }

  method IdentitiesByKey(receipts: seq<RowReceipt>) returns (first: map<Value, Value>)
    ensures forall key :: FirstIdentity(receipts, key) == if Hashed(key) in first then first[Hashed(key)] else Null
  {
    first := map[];
    for i := 0 to |receipts|
      invariant forall key :: FirstIdentity(receipts[..i], key) == if Hashed(key) in first then first[Hashed(key)] else Null
    {
      assert receipts[..i + 1][..i] == receipts[..i];
      first := first[Hashed(receipts[i].sourceKey) := receipts[i].identity];
    }
    assert receipts[..|receipts|] == receipts;
  }

  method EvaluateImport(t: Tally, p: Profile, f: MergeFacts)
    requires t.Holds(p, f, CONDITIONS[..4])
    modifies t
    ensures t.Holds(p, f, CONDITIONS[..7])
  {
    if f.receipts == [] {
      FileNext(t, p, f, 4, WAITING);
      FileNext(t, p, f, 5, WAITING);
    } else {
      var refused := exists i | 0 <= i < |f.receipts| :: !f.receipts[i].success;
      FileNext(t, p, f, 4, Judge(!(refused || f.partialDelivery)));
      var judged := exists i | 0 <= i < |f.receipts| :: NeedsJudgement(f.receipts[i]);
      var conflicting := exists i | 0 <= i < |f.receipts| :: f.receipts[i].conflicting != {};
      var missingIdentity := exists i | 0 <= i < |f.receipts| :: !Truthy(f.receipts[i].identity);
      FileNext(t, p, f, 5, Judge(!(judged || conflicting || missingIdentity)));
    }

    var idempotent := RuleOnRerun(p, f);
    FileNext(t, p, f, 6, idempotent);
  }

  method RuleOnRerun(p: Profile, f: MergeFacts) returns (r: Ruling)
    ensures r == RulingOf(p, f, THE_IMPORT_IS_IDEMPOTENT)
  {
    if f.rerunChangedTheTree.None? || f.rerunReceipts == [] {
      return WAITING;
    }
    var first := IdentitiesByKey(f.receipts);
    var offenders := exists i | 0 <= i < |f.rerunReceipts| ::
      f.rerunReceipts[i].verdict.None? || f.rerunReceipts[i].verdict.value !in IDEMPOTENT_RERUN_VERDICTS;
    var drifted := exists i | 0 <= i < |f.rerunReceipts| ::
      (if Hashed(f.rerunReceipts[i].sourceKey) in first then first[Hashed(f.rerunReceipts[i].sourceKey)] else Null)
      != f.rerunReceipts[i].identity;
    r := Judge(!(f.rerunChangedTheTree.value || offenders || |f.rerunReceipts| != |f.receipts| || drifted));
  }

  method EvaluateDiff(t: Tally, p: Profile, f: MergeFacts)
    requires t.Holds(p, f, CONDITIONS[..7])
    modifies t
    ensures t.Holds(p, f, CONDITIONS[..10])
  {
    var files := WAITING;
    if f.changedFiles != [] {
      var unexpected := exists i | 0 <= i < |f.changedFiles| :: !p.isMergeable(f.changedFiles[i]);
      files := Judge(!unexpected);
    }
    FileNext(t, p, f, 7, files);
    FileNext(t, p, f, 8, if f.removedRows != [] then REFUSED else PASS);

    var ours := RuleOnRows(p, f);
    FileNext(t, p, f, 9, ours);
  }

  /** Rows of somebody else's batch; for settlements, only rows that carry one. */
  method AnyForeign(p: Profile, kind: Kind, rows: seq<Record>) returns (foreign: bool)
    ensures foreign <==> exists i :: 0 <= i < |rows| && Foreign(p, kind, rows[i])
  {
    foreign := if kind == SETTLEMENTS
      then exists i | 0 <= i < |rows| :: BatchOf(rows[i]) != Null && BatchOf(rows[i]) != Str(p.batchId)
      else exists i | 0 <= i < |rows| :: BatchOf(rows[i]) != Str(p.batchId);
  }

  method AnyUnidentified(rows: seq<Record>) returns (unidentified: bool)
    ensures unidentified <==> exists i :: 0 <= i < |rows| && !Identified(rows[i])
  {
    unidentified := exists i | 0 <= i < |rows| :: !Truthy(IdentityOf(rows[i])) || !Truthy(SourceKeyOf(rows[i]));
  }

  /** Rows no receipt of this run accounts for. A settlement needs one; a wager needs one only when
      the receipts carry keys at all. */
  method AnyUnreceipted(kind: Kind, rows: seq<Record>, receipts: seq<RowReceipt>) returns (unreceipted: bool)
    ensures !unreceipted <==>
      if SomeKeyedReceipt(receipts) then forall i | 0 <= i < |rows| :: HasReceipt(receipts, SourceKeyOf(rows[i]))
      else kind == WAGERS
  {
    var keys := set i | 0 <= i < |receipts| && Truthy(receipts[i].sourceKey) :: Hashed(receipts[i].sourceKey);
    KeyedReceipts(receipts, keys);
    unreceipted := false;
    if keys != {} {
      unreceipted := exists i | 0 <= i < |rows| :: Hashed(SourceKeyOf(rows[i])) !in keys;
    } else if kind == SETTLEMENTS {
      unreceipted := true;
    }
  }

  method RuleOnRows(p: Profile, f: MergeFacts) returns (r: Ruling)
    ensures r == RulingOf(p, f, EVERY_ADDED_ROW_CARRIES_THE_ROUTER_IDENTITY)
  {
    if f.addedRows == [] {
      return WAITING;
    }
    var foreign := AnyForeign(p, f.kind, f.addedRows);
    var unidentified := AnyUnidentified(f.addedRows);
    var unreceipted := AnyUnreceipted(f.kind, f.addedRows, f.receipts);
    r := Judge(!(foreign || unidentified || unreceipted));
  }

  lemma KeyedReceipts(receipts: seq<RowReceipt>, keys: set<Value>)
    requires keys == set i | 0 <= i < |receipts| && Truthy(receipts[i].sourceKey) :: Hashed(receipts[i].sourceKey)
    ensures SomeKeyedReceipt(receipts) <==> keys != {}
    ensures forall key :: HasReceipt(receipts, key) <==> Hashed(key) in keys
  {
    if SomeKeyedReceipt(receipts) {
      var i :| 0 <= i < |receipts| && Truthy(receipts[i].sourceKey);
      assert Hashed(receipts[i].sourceKey) in keys;
    }
  }

  method EvaluateHost(t: Tally, p: Profile, f: MergeFacts)
    requires t.Holds(p, f, CONDITIONS[..10])
    modifies t
    ensures t.Holds(p, f, CONDITIONS)
  {
    var pending, broken := CheckState(f.checkRuns);
    NamesIff(f.checkRuns);
    var green := PASS;
    if !p.runsCi {
      if f.validatorPassed.None? {
        green := WAITING;
      } else if !f.validatorPassed.value {
        green := REFUSED;
      }
    } else if f.checkRuns == [] {
      green := WAITING;
    } else if broken != [] {
      green := REFUSED;
    } else if pending != [] {
      green := WAITING;
    }
    FileNext(t, p, f, 10, green);

    var clean := PASS;
    var state := f.mergeableState;
    if f.mergeable.None? || state.None? || state.value == "unknown" {
      clean := WAITING;
    } else if !f.mergeable.value || state.value in TRANSIENT_MERGE_STATES {
      clean := WAITING;
    } else if state.value in CHECK_DERIVED_MERGE_STATES {
      if broken != [] {
        clean := REFUSED;
      } else if pending != [] || f.checkRuns == [] {
        clean := WAITING;
      } else {
        clean := REFUSED;
      }
    } else if state.value != "clean" {
      clean := REFUSED;
    }
    FileNext(t, p, f, 11, clean);
    assert CONDITIONS[..12] == CONDITIONS;
  }

  /** The whole decision. Every condition is evaluated and reaches exactly one list. */
  method Evaluate(p: Profile, f: MergeFacts)
    returns (verdict: Verdict, passed: seq<Condition>, failed: seq<Condition>, waiting: seq<Condition>)
    ensures passed == Bucket(p, f, CONDITIONS, PASS)
    ensures failed == Bucket(p, f, CONDITIONS, REFUSED)
    ensures waiting == Bucket(p, f, CONDITIONS, WAITING)
    ensures |passed| + |failed| + |waiting| == |CONDITIONS| == 12
    ensures verdict == VerdictOf(p, f)
  {
    var t := new Tally();
    EvaluatePullRequest(t, p, f);
    EvaluateImport(t, p, f);
    EvaluateDiff(t, p, f);
    EvaluateHost(t, p, f);
    BucketsPartition(p, f, CONDITIONS);
    VerdictFromBuckets(p, f);
    verdict := if t.failed != [] then REFUSE else if t.waiting != [] then WAIT else MERGE;
    return verdict, t.passed, t.failed, t.waiting;
  }

  // ------------------------------------------------------------- what a verdict means

  /** One refusal refuses; otherwise one wait waits; a merge needs all twelve. */
  function VerdictOf(p: Profile, f: MergeFacts): Verdict {
    if exists i | 0 <= i < |CONDITIONS| :: RulingOf(p, f, CONDITIONS[i]) == REFUSED then REFUSE
    else if exists i | 0 <= i < |CONDITIONS| :: RulingOf(p, f, CONDITIONS[i]) == WAITING then WAIT
    else MERGE
  }

  lemma {:induction false} BucketsPartition(p: Profile, f: MergeFacts, cs: seq<Condition>)
    ensures |Bucket(p, f, cs, PASS)| + |Bucket(p, f, cs, REFUSED)| + |Bucket(p, f, cs, WAITING)| == |cs|
  {
    if cs != [] {
      BucketsPartition(p, f, cs[..|cs| - 1]);
    }
  }

  lemma {:induction false} BucketEmptyIff(p: Profile, f: MergeFacts, cs: seq<Condition>, r: Ruling)
    ensures Bucket(p, f, cs, r) == [] <==> forall i | 0 <= i < |cs| :: RulingOf(p, f, cs[i]) != r
  {
    if cs != [] {
      var n := |cs| - 1;
      BucketEmptyIff(p, f, cs[..n], r);
      assert forall i | 0 <= i < n :: cs[..n][i] == cs[i];
    }
  }

  lemma VerdictFromBuckets(p: Profile, f: MergeFacts)
    ensures VerdictOf(p, f) == if Bucket(p, f, CONDITIONS, REFUSED) != [] then REFUSE
                               else if Bucket(p, f, CONDITIONS, WAITING) != [] then WAIT else MERGE
  {
    BucketEmptyIff(p, f, CONDITIONS, REFUSED);
    BucketEmptyIff(p, f, CONDITIONS, WAITING);
  }

  lemma ConditionAt(c: Condition)
    ensures exists i :: 0 <= i < |CONDITIONS| && CONDITIONS[i] == c
  {
    var at := match c
      case PULL_REQUEST_EXISTS => 0
      case PULL_REQUEST_IS_OPEN_AND_NOT_A_DRAFT => 1
      case BRANCH_ORIGINATED_FROM_THE_ROUTER_WORKFLOW => 2
      case HEAD_IS_THE_COMMIT_THIS_RUN_VERIFIED => 3
      case IMPORTER_REFUSED_NOTHING => 4
      case EVERY_ROW_NEEDED_NO_HUMAN_JUDGEMENT => 5
      case THE_IMPORT_IS_IDEMPOTENT => 6
      case ONLY_CANONICAL_WAGER_FILES_CHANGED => 7
      case THE_LEDGER_DIFF_IS_APPEND_ONLY => 8
      case EVERY_ADDED_ROW_CARRIES_THE_ROUTER_IDENTITY => 9
      case CONTINUOUS_INTEGRATION_IS_GREEN => 10
      case THE_DESTINATION_BRANCH_IS_CLEANLY_MERGEABLE => 11;
    assert CONDITIONS[at] == c;
  }

  /** A merge needs every condition, and every condition is on the list. */
  lemma MergeIffAllPass(p: Profile, f: MergeFacts)
    ensures VerdictOf(p, f) == MERGE <==> forall c: Condition :: RulingOf(p, f, c) == PASS
  {
    if VerdictOf(p, f) == MERGE {
      forall c: Condition ensures RulingOf(p, f, c) == PASS {
        ConditionAt(c);
        var i :| 0 <= i < |CONDITIONS| && CONDITIONS[i] == c;
      }
    }
  }

  // ------------------------------------------------------------- the conditions, in the facts' own terms

  ghost predicate Completed(c: CheckRun, conclusions: set<string>) {
    c.status == Some("completed") && c.conclusion.Some? && c.conclusion.value in conclusions
  }

  /** A check that ended, and not well. */
  ghost predicate Failed(c: CheckRun) {
    c.status == Some("completed") && !Completed(c, {"success", "skipped", "neutral"})
  }

  /** The router's own branch, in the destination's own repository, aimed at its ledger branch. */
  ghost predicate FromRouter(p: Profile, f: MergeFacts) {
    && f.headRef == Some(if f.kind == WAGERS then p.wagerBranch else p.settlementBranch)
    && (f.headRepo.None? || f.headRepo.value == "" || f.headRepo.value == f.destinationRepo)
    && f.baseRef == Some(p.ledgerBranch)
  }

  ghost predicate Inspected(f: MergeFacts) {
    f.headSha.Some? && f.headSha.value != "" && f.verifiedSha == f.headSha
  }

  ghost predicate NothingRefused(f: MergeFacts) {
    !f.partialDelivery && forall i | 0 <= i < |f.receipts| :: f.receipts[i].success
  }

  /** Every row has an id, a verdict that needs nobody, and no field in dispute. */
  ghost predicate NothingJudged(f: MergeFacts) {
    forall i | 0 <= i < |f.receipts| ::
      && f.receipts[i].verdict in {Some("NEW"), Some("DUPLICATE_NOOP"), Some("CORRECTED")}
      && f.receipts[i].conflicting == {} && Truthy(f.receipts[i].identity)
  }

  ghost predicate LastWithKey(receipts: seq<RowReceipt>, key: Value, j: int) {
    && 0 <= j < |receipts| && Hashed(receipts[j].sourceKey) == Hashed(key)
    && forall k | j < k < |receipts| :: Hashed(receipts[k].sourceKey) != Hashed(key)
  }

  /** The id the first import gave this key, last; null if it gave none. */
  ghost predicate NamedBefore(receipts: seq<RowReceipt>, key: Value, id: Value) {
    if exists j :: LastWithKey(receipts, key, j) then exists j :: LastWithKey(receipts, key, j) && receipts[j].identity == id
    else id == Null
  }

  ghost predicate Repeats(f: MergeFacts) {
    && f.rerunChangedTheTree == Some(false) && |f.rerunReceipts| == |f.receipts|
    && forall i | 0 <= i < |f.rerunReceipts| ::
         && f.rerunReceipts[i].verdict == Some("DUPLICATE_NOOP")
         && NamedBefore(f.receipts, f.rerunReceipts[i].sourceKey, f.rerunReceipts[i].identity)
  }

  /** A row names itself, in some destination's spelling, and carries its source key. */
  ghost predicate HasName(row: Record) {
    && (exists field | field in {"betId", "wager_id", "imported_wager_id", "settlement_id", "amendment_id"} :: Truthy(Get(row, field)))
    && (Truthy(Get(row, "sourceBetKey")) || Truthy(Get(row, "source_bet_key")))
  }

  function KeyOfRow(row: Record): Value {
    if Truthy(Get(row, "sourceBetKey")) then Get(row, "sourceBetKey") else Get(row, "source_bet_key")
  }

  /** The row's batch is the router's; a settlement may have none. */
  ghost predicate OfBatch(p: Profile, kind: Kind, row: Record) {
    var batch := if Truthy(Get(row, "importBatchId")) then Get(row, "importBatchId") else Get(row, "import_batch_id");
    batch == Str(p.batchId) || (kind == SETTLEMENTS && batch == Null)
  }

  /** Some receipt of this run is about this key. */
  ghost predicate Receipted(receipts: seq<RowReceipt>, key: Value) {
    exists j :: 0 <= j < |receipts| && Truthy(receipts[j].sourceKey) && Hashed(receipts[j].sourceKey) == Hashed(key)
  }

  ghost predicate AllOurs(p: Profile, f: MergeFacts) {
    && (forall i | 0 <= i < |f.addedRows| :: HasName(f.addedRows[i]) && OfBatch(p, f.kind, f.addedRows[i]))
    && ((forall i | 0 <= i < |f.addedRows| :: Receipted(f.receipts, KeyOfRow(f.addedRows[i])))
        || (f.kind == WAGERS && forall j | 0 <= j < |f.receipts| :: !Truthy(f.receipts[j].sourceKey)))
  }

  /** With CI, every check ended well, and there is one; without, the destination's validator passed. */
  ghost predicate ChecksPassed(p: Profile, f: MergeFacts) {
    if p.runsCi then
      f.checkRuns != [] && forall i | 0 <= i < |f.checkRuns| :: Completed(f.checkRuns[i], {"success", "skipped", "neutral"})
    else f.validatorPassed == Some(true)
  }

  ghost predicate ChecksFailed(p: Profile, f: MergeFacts) {
    if p.runsCi then exists i :: 0 <= i < |f.checkRuns| && Failed(f.checkRuns[i]) else f.validatorPassed == Some(false)
  }

  /** The host calls the branch mergeable but withholds it. "unstable" restates the checks, and is
      final once one has failed or all are in. */
  ghost predicate Withheld(f: MergeFacts) {
    && f.mergeable == Some(true) && f.mergeableState.Some?
    && f.mergeableState.value !in {"clean", "unknown", "behind", "dirty"}
    && (f.mergeableState.value == "unstable" ==>
          || (exists i :: 0 <= i < |f.checkRuns| && Failed(f.checkRuns[i]))
          || (f.checkRuns != [] && forall i | 0 <= i < |f.checkRuns| :: f.checkRuns[i].status == Some("completed")))
  }

  /** What a commit must be to land. */
  ghost predicate SafeToLand(p: Profile, f: MergeFacts) {
    && f.pullNumber.Some? && f.state == Some("open") && !f.draft
    && FromRouter(p, f) && Inspected(f)
    && f.receipts != [] && NothingRefused(f) && NothingJudged(f)
    && f.rerunReceipts != [] && Repeats(f)
    && f.changedFiles != [] && (forall i | 0 <= i < |f.changedFiles| :: p.isMergeable(f.changedFiles[i]))
    && f.removedRows == []
    && f.addedRows != [] && AllOurs(p, f)
    && ChecksPassed(p, f)
    && f.mergeable == Some(true) && f.mergeableState == Some("clean")
  }

  /** What refuses a commit for good. */
  ghost predicate Refuted(p: Profile, f: MergeFacts) {
    || (f.state == Some("open") && f.draft)
    || !FromRouter(p, f)
    || (f.receipts != [] && !(NothingRefused(f) && NothingJudged(f)))
    || (f.rerunChangedTheTree.Some? && f.rerunReceipts != [] && !Repeats(f))
    || (exists i :: 0 <= i < |f.changedFiles| && !p.isMergeable(f.changedFiles[i]))
    || f.removedRows != []
    || (f.addedRows != [] && !AllOurs(p, f))
    || ChecksFailed(p, f)
    || Withheld(f)
  }

  lemma {:induction false} FirstIdentityIff(receipts: seq<RowReceipt>, key: Value, id: Value)
    ensures NamedBefore(receipts, key, id) <==> FirstIdentity(receipts, key) == id
  {
    if receipts != [] {
      var n := |receipts| - 1;
      assert forall j | 0 <= j < n :: receipts[..n][j] == receipts[j];
      if Hashed(receipts[n].sourceKey) == Hashed(key) {
        assert LastWithKey(receipts, key, n);
      } else {
        FirstIdentityIff(receipts[..n], key, id);
        assert forall j :: LastWithKey(receipts, key, j) <==> LastWithKey(receipts[..n], key, j);
      }
    }
  }

  lemma RulesOnPullRequest(p: Profile, f: MergeFacts)
    ensures RulingOf(p, f, PULL_REQUEST_EXISTS) == if f.pullNumber.Some? then PASS else WAITING
    ensures RulingOf(p, f, PULL_REQUEST_IS_OPEN_AND_NOT_A_DRAFT) ==
            if f.state != Some("open") then WAITING else if f.draft then REFUSED else PASS
    ensures RulingOf(p, f, BRANCH_ORIGINATED_FROM_THE_ROUTER_WORKFLOW) == if FromRouter(p, f) then PASS else REFUSED
    ensures RulingOf(p, f, HEAD_IS_THE_COMMIT_THIS_RUN_VERIFIED) == if Inspected(f) then PASS else WAITING
  {
  }

  lemma RulesOnReceipts(p: Profile, f: MergeFacts)
    ensures RulingOf(p, f, IMPORTER_REFUSED_NOTHING) ==
            if f.receipts == [] then WAITING else if NothingRefused(f) then PASS else REFUSED
    ensures RulingOf(p, f, EVERY_ROW_NEEDED_NO_HUMAN_JUDGEMENT) ==
            if f.receipts == [] then WAITING else if NothingJudged(f) then PASS else REFUSED
  {
    assert forall i | 0 <= i < |f.receipts| :: !Judged(f.receipts[i]) <==>
      && f.receipts[i].verdict in {Some("NEW"), Some("DUPLICATE_NOOP"), Some("CORRECTED")}
      && f.receipts[i].conflicting == {} && Truthy(f.receipts[i].identity);
  }

  lemma RulesOnRerun(p: Profile, f: MergeFacts)
    ensures RulingOf(p, f, THE_IMPORT_IS_IDEMPOTENT) ==
            if f.rerunChangedTheTree.None? || f.rerunReceipts == [] then WAITING else if Repeats(f) then PASS else REFUSED
  {
    forall i | 0 <= i < |f.rerunReceipts|
      ensures NamedBefore(f.receipts, f.rerunReceipts[i].sourceKey, f.rerunReceipts[i].identity) <==>
              FirstIdentity(f.receipts, f.rerunReceipts[i].sourceKey) == f.rerunReceipts[i].identity
    {
      FirstIdentityIff(f.receipts, f.rerunReceipts[i].sourceKey, f.rerunReceipts[i].identity);
    }
  }

  lemma RulesOnFiles(p: Profile, f: MergeFacts)
    ensures RulingOf(p, f, ONLY_CANONICAL_WAGER_FILES_CHANGED) ==
            if f.changedFiles == [] then WAITING
            else if forall i | 0 <= i < |f.changedFiles| :: p.isMergeable(f.changedFiles[i]) then PASS else REFUSED
    ensures RulingOf(p, f, THE_LEDGER_DIFF_IS_APPEND_ONLY) == if f.removedRows == [] then PASS else REFUSED
  {
  }

  lemma RowIsOurs(p: Profile, kind: Kind, row: Record)
    ensures HasName(row) && OfBatch(p, kind, row) <==> !Foreign(p, kind, row) && Identified(row)
    ensures KeyOfRow(row) == SourceKeyOf(row)
  {
    NameIff(row);
  }

  lemma NameIff(row: Record)
    ensures HasName(row) <==> Identified(row)
  {
    var names := {"betId", "wager_id", "imported_wager_id", "settlement_id", "amendment_id"};
    assert "betId" in names && "wager_id" in names && "imported_wager_id" in names;
    assert "settlement_id" in names && "amendment_id" in names;
    assert Truthy(IdentityOf(row)) <==>
      || Truthy(Get(row, "betId")) || Truthy(Get(row, "wager_id")) || Truthy(Get(row, "imported_wager_id"))
      || Truthy(Get(row, "settlement_id")) || Truthy(Get(row, "amendment_id"));
  }

  lemma RulesOnRows(p: Profile, f: MergeFacts)
    ensures RulingOf(p, f, EVERY_ADDED_ROW_CARRIES_THE_ROUTER_IDENTITY) ==
            if f.addedRows == [] then WAITING else if AllOurs(p, f) then PASS else REFUSED
  {
    forall i | 0 <= i < |f.addedRows|
      ensures HasName(f.addedRows[i]) && OfBatch(p, f.kind, f.addedRows[i]) <==>
              !Foreign(p, f.kind, f.addedRows[i]) && Identified(f.addedRows[i])
      ensures Receipted(f.receipts, KeyOfRow(f.addedRows[i])) <==> HasReceipt(f.receipts, SourceKeyOf(f.addedRows[i]))
    {
      RowIsOurs(p, f.kind, f.addedRows[i]);
    }
    if f.addedRows != [] && Receipted(f.receipts, KeyOfRow(f.addedRows[0])) {
      var j :| 0 <= j < |f.receipts| && Truthy(f.receipts[j].sourceKey);
      assert SomeKeyedReceipt(f.receipts);
    }
  }

  lemma ChecksAre(checks: seq<CheckRun>)
    ensures AnyBroken(checks) <==> exists i :: 0 <= i < |checks| && Failed(checks[i])
    ensures !AnyBroken(checks) && !AnyPending(checks) <==>
            forall i | 0 <= i < |checks| :: Completed(checks[i], {"success", "skipped", "neutral"})
    ensures AnyPending(checks) <==> exists i :: 0 <= i < |checks| && checks[i].status != Some("completed")
  {
    forall i | 0 <= i < |checks|
      ensures Broken(checks[i]) <==> Failed(checks[i])
      ensures !Broken(checks[i]) && !Pending(checks[i]) <==> Completed(checks[i], {"success", "skipped", "neutral"})
    {
    }
  }

  lemma RulesOnHost(p: Profile, f: MergeFacts)
    ensures RulingOf(p, f, CONTINUOUS_INTEGRATION_IS_GREEN) ==
            if ChecksPassed(p, f) then PASS else if ChecksFailed(p, f) then REFUSED else WAITING
    ensures RulingOf(p, f, THE_DESTINATION_BRANCH_IS_CLEANLY_MERGEABLE) ==
            if f.mergeable == Some(true) && f.mergeableState == Some("clean") then PASS
            else if Withheld(f) then REFUSED else WAITING
  {
    ChecksAre(f.checkRuns);
  }

  ghost predicate AllPass(p: Profile, f: MergeFacts) {
    && RulingOf(p, f, PULL_REQUEST_EXISTS) == PASS
    && RulingOf(p, f, PULL_REQUEST_IS_OPEN_AND_NOT_A_DRAFT) == PASS
    && RulingOf(p, f, BRANCH_ORIGINATED_FROM_THE_ROUTER_WORKFLOW) == PASS
    && RulingOf(p, f, HEAD_IS_THE_COMMIT_THIS_RUN_VERIFIED) == PASS
    && RulingOf(p, f, IMPORTER_REFUSED_NOTHING) == PASS
    && RulingOf(p, f, EVERY_ROW_NEEDED_NO_HUMAN_JUDGEMENT) == PASS
    && RulingOf(p, f, THE_IMPORT_IS_IDEMPOTENT) == PASS
    && RulingOf(p, f, ONLY_CANONICAL_WAGER_FILES_CHANGED) == PASS
    && RulingOf(p, f, THE_LEDGER_DIFF_IS_APPEND_ONLY) == PASS
    && RulingOf(p, f, EVERY_ADDED_ROW_CARRIES_THE_ROUTER_IDENTITY) == PASS
    && RulingOf(p, f, CONTINUOUS_INTEGRATION_IS_GREEN) == PASS
    && RulingOf(p, f, THE_DESTINATION_BRANCH_IS_CLEANLY_MERGEABLE) == PASS
  }

  ghost predicate SomeRefused(p: Profile, f: MergeFacts) {
    || RulingOf(p, f, PULL_REQUEST_EXISTS) == REFUSED
    || RulingOf(p, f, PULL_REQUEST_IS_OPEN_AND_NOT_A_DRAFT) == REFUSED
    || RulingOf(p, f, BRANCH_ORIGINATED_FROM_THE_ROUTER_WORKFLOW) == REFUSED
    || RulingOf(p, f, HEAD_IS_THE_COMMIT_THIS_RUN_VERIFIED) == REFUSED
    || RulingOf(p, f, IMPORTER_REFUSED_NOTHING) == REFUSED
    || RulingOf(p, f, EVERY_ROW_NEEDED_NO_HUMAN_JUDGEMENT) == REFUSED
    || RulingOf(p, f, THE_IMPORT_IS_IDEMPOTENT) == REFUSED
    || RulingOf(p, f, ONLY_CANONICAL_WAGER_FILES_CHANGED) == REFUSED
    || RulingOf(p, f, THE_LEDGER_DIFF_IS_APPEND_ONLY) == REFUSED
    || RulingOf(p, f, EVERY_ADDED_ROW_CARRIES_THE_ROUTER_IDENTITY) == REFUSED
    || RulingOf(p, f, CONTINUOUS_INTEGRATION_IS_GREEN) == REFUSED
    || RulingOf(p, f, THE_DESTINATION_BRANCH_IS_CLEANLY_MERGEABLE) == REFUSED
  }

  lemma MergeIffAll(p: Profile, f: MergeFacts)
    ensures VerdictOf(p, f) == MERGE <==> AllPass(p, f)
  {
    MergeIffAllPass(p, f);
    if AllPass(p, f) {
      forall c: Condition ensures RulingOf(p, f, c) == PASS {
        match c case _ =>
      }
    }
  }

  lemma RefuseIffSome(p: Profile, f: MergeFacts)
    ensures VerdictOf(p, f) == REFUSE <==> SomeRefused(p, f)
  {
    if SomeRefused(p, f) {
      var c: Condition :| RulingOf(p, f, c) == REFUSED;
      ConditionAt(c);
    }
  }

  /** A commit lands exactly when it is safe to. */
  lemma MergeIsSafe(p: Profile, f: MergeFacts)
    ensures VerdictOf(p, f) == MERGE <==> SafeToLand(p, f)
  {
    MergeIffAll(p, f);
    RulesOnPullRequest(p, f);
    RulesOnReceipts(p, f);
    RulesOnRerun(p, f);
    RulesOnFiles(p, f);
    RulesOnRows(p, f);
    RulesOnHost(p, f);
  }

  /** It is refused exactly when something refutes it; in every other case the gate waits. */
  lemma RefuseIff(p: Profile, f: MergeFacts)
    ensures VerdictOf(p, f) == REFUSE <==> Refuted(p, f)
  {
    RefuseIffSome(p, f);
    RulesOnPullRequest(p, f);
    RulesOnReceipts(p, f);
    RulesOnRerun(p, f);
    RulesOnFiles(p, f);
    RulesOnRows(p, f);
    RulesOnHost(p, f);
  }

  /** With no pull request open the head has no name, and that refuses: never a wait. */
  lemma NoPullRequestRefuses(p: Profile, f: MergeFacts)
    requires f.headRef == None
    ensures RulingOf(p, f, BRANCH_ORIGINATED_FROM_THE_ROUTER_WORKFLOW) == REFUSED
    ensures VerdictOf(p, f) == REFUSE
  {
    assert CONDITIONS[2] == BRANCH_ORIGINATED_FROM_THE_ROUTER_WORKFLOW;
  }

  /** The gate only ever waits for something that can still come true: if it waits, no condition
      has refused, and at least one is still open. */
  lemma WaitIffOpen(p: Profile, f: MergeFacts)
    ensures VerdictOf(p, f) == WAIT <==>
      (forall c: Condition :: RulingOf(p, f, c) != REFUSED) && (exists c: Condition :: RulingOf(p, f, c) == WAITING)
  {
    if VerdictOf(p, f) != REFUSE {
      forall c: Condition ensures RulingOf(p, f, c) != REFUSED {
        ConditionAt(c);
        var i :| 0 <= i < |CONDITIONS| && CONDITIONS[i] == c;
      }
    }
    if c: Condition :| RulingOf(p, f, c) == WAITING {
      ConditionAt(c);
    }
  }

  /** For wagers a receipt match is demanded exactly when some receipt has a key; for
      settlements always. */
  lemma ReceiptMatchIff(p: Profile, f: MergeFacts)
    requires f.addedRows != []
    requires forall i | 0 <= i < |f.addedRows| :: !Foreign(p, f.kind, f.addedRows[i]) && Identified(f.addedRows[i])
    ensures RulingOf(p, f, EVERY_ADDED_ROW_CARRIES_THE_ROUTER_IDENTITY) == PASS <==>
      || (f.kind == WAGERS && !SomeKeyedReceipt(f.receipts))
      || (forall i | 0 <= i < |f.addedRows| :: HasReceipt(f.receipts, SourceKeyOf(f.addedRows[i])))
  {
    if HasReceipt(f.receipts, SourceKeyOf(f.addedRows[0])) {
      var i :| 0 <= i < |f.receipts| && Truthy(f.receipts[i].sourceKey);
      assert SomeKeyedReceipt(f.receipts);
    }
  }
}
