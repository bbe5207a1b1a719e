/** The delivery protocol as a step system: clones that seed, import and settle, the merge gate's
    merge, and a destination whose main moves underneath. Any number of runs may interleave. */
module Delivery {
  import opened Json
  import opened Importer
  import opened DeliveryBranch

  /** One destination: its importer, where the ledger that importer writes lives, the paths of all
      its canonical ledger files, and what a commit may touch. */
  datatype Destination = Destination(importer: Importer<string>, ledgerPath: string, canonical: set<string>,
                                     prefixes: seq<string>)

  /** A destination that is described: its ledger is one of its canonical files, and some prefix
      may be committed to. */
  ghost predicate Described(dest: Destination) {
    && dest.ledgerPath in dest.canonical
    && (exists i :: 0 <= i < |dest.prefixes| && dest.prefixes[i] != "")
  }

  /** The destination's repository: every object, its main and the router's branch. */
  datatype Remote = Remote(objects: map<Sha, Commit>, main: Sha, branch: Option<Sha>)

  datatype Outcome = Nothing | Adopted | Pushed | PushRefused | ContainmentRefused

  datatype Phase = Cloned | Seeded | Imported | Settled(outcome: Outcome)

  /** One run's clone. `base` is the main it cloned, `tracking` the branch as it fetched it,
      `readable` whether the ledgers of the two could be compared, `head` what is checked out. */
  datatype Clone = Clone(phase: Phase, payload: seq<Value>, base: Sha, tracking: RemoteBranch,
                         readable: bool, work: Tree, head: Sha)

  predicate HasLedger(objects: map<Sha, Commit>, sha: Option<Sha>) {
    sha.Some? && sha.value in objects
  }

  /** What a tree holds at the canonical paths: the ledger, and every other file there. */
  function Canonical(dest: Destination, tree: Tree): (seq<Record>, map<string, string>) {
    (if dest.ledgerPath in dest.canonical then tree.ledger else [],
     map path | path in tree.rest && path in dest.canonical :: tree.rest[path])
  }

  /** Two trees agree on the canonical files exactly when the diff between them names none. */
  lemma CanonicalAgreeIff(dest: Destination, a: Tree, b: Tree)
    ensures Canonical(dest, a) == Canonical(dest, b) <==> StagedPaths(dest.ledgerPath, a, b) * dest.canonical == {}
  {
    var staged := StagedPaths(dest.ledgerPath, a, b);
    var left, right := Canonical(dest, a).1, Canonical(dest, b).1;
    if staged * dest.canonical == {} {
      forall path | path in dest.canonical
        ensures (path in left <==> path in right) && (path in left ==> left[path] == right[path])
      {
        assert path !in staged * dest.canonical;
      }
      assert left == right;
      if dest.ledgerPath in dest.canonical {
        assert dest.ledgerPath !in staged * dest.canonical;
      }
    } else if left == right {
      var path :| path in staged * dest.canonical;
      assert path in a.rest <==> path in left;
      assert path in b.rest <==> path in right;
    }
  }

  /** Has any canonical file changed between the branch's base and `base`? Unknown means moved, and
      so does a destination without canonical paths. */
  predicate LedgerMoved(dest: Destination, objects: map<Sha, Commit>, old_: Option<Sha>, base: Sha, readable: bool) {
    dest.canonical == {} || !readable || !HasLedger(objects, old_) || base !in objects ||
    Canonical(dest, objects[old_.value].tree) != Canonical(dest, objects[base].tree)
  }

  function ReadRemoteBranch(remote: Remote): RemoteBranch {
    if HasLedger(remote.objects, remote.branch) then
      var tip := remote.objects[remote.branch.value];
      RemoteBranch(remote.branch, tip.parent, Some(tip.tree))
    else NO_BRANCH
  }

  /** The commit the importer runs on, and why. */
  function SeedOf(dest: Destination, objects: map<Sha, Commit>, c: Clone): (Sha, Seed) {
    ChooseSeed(c.base, c.tracking, LedgerMoved(dest, objects, c.tracking.base, c.base, c.readable))
  }

  /** The branch was fetched, the main under it is known, and the diff from there to the main that
      was cloned could be read and names no canonical file. */
  ghost predicate StillCurrent(dest: Destination, objects: map<Sha, Commit>, c: Clone) {
    && c.tracking.head.Some? && c.readable && dest.canonical != {}
    && c.tracking.base.Some? && c.tracking.base.value in objects && c.base in objects
    && StagedPaths(dest.ledgerPath, objects[c.tracking.base.value].tree, objects[c.base].tree) * dest.canonical == {}
  }

  /** A run goes on from the branch exactly when that is so, and from its own main otherwise. */
  lemma SeedIff(dest: Destination, objects: map<Sha, Commit>, c: Clone)
    ensures StillCurrent(dest, objects, c) ==> SeedOf(dest, objects, c) == (c.tracking.head.value, SEED_BRANCH)
    ensures !StillCurrent(dest, objects, c) ==> SeedOf(dest, objects, c) == (c.base, SEED_MAIN)
  {
    if HasLedger(objects, c.tracking.base) && c.base in objects {
      CanonicalAgreeIff(dest, objects[c.tracking.base.value].tree, objects[c.base].tree);
    }
  }

  /** What the proposal will be one commit on top of: a branch that is kept keeps its base. */
  function ProposalBase(dest: Destination, objects: map<Sha, Commit>, c: Clone): (Sha, bool) {
    if SeedOf(dest, objects, c).1 == SEED_BRANCH && c.tracking.base.Some? then (c.tracking.base.value, true)
    else (c.base, false)
  }

  /** `git clone`: this run's main, and the payload built before it. */
  function Open(remote: Remote, payload: seq<Value>): Clone
    requires remote.main in remote.objects
  {
    Clone(Cloned, payload, remote.main, NO_BRANCH, true, remote.objects[remote.main].tree, remote.main)
  }

  /** The clone after its fetch. A fetch that fails leaves the clone's (empty) record of the
      branch; `readable` is whether the two ledgers can then be compared. */
  function Fetched(remote: Remote, c: Clone, fetched: bool, readable: bool): Clone {
    c.(tracking := if fetched then ReadRemoteBranch(remote) else c.tracking, readable := readable)
  }

  /** `cmd_seed`: the clone learns of the branch and moves to the seed. */
  function SeedStep(dest: Destination, remote: Remote, c: Clone, fetched: bool, readable: bool): Clone {
    var after := Fetched(remote, c, fetched, readable);
    var (sha, _) := SeedOf(dest, remote.objects, after);
    if sha in remote.objects then after.(phase := Seeded, head := sha, work := remote.objects[sha].tree)
    else after
  }

  /** A run that cannot compare the canonical files, or has none described, starts over from the
      main it cloned. */
  lemma UnreadableStartsFromMain(dest: Destination, remote: Remote, c: Clone, fetched: bool, readable: bool)
    requires c.base in remote.objects && (!readable || dest.canonical == {})
    ensures var c' := SeedStep(dest, remote, c, fetched, readable);
      c'.phase == Seeded && c'.head == c.base && c'.work == remote.objects[c.base].tree
    ensures ProposalBase(dest, remote.objects, SeedStep(dest, remote, c, fetched, readable)) == (c.base, false)
  {
    SeedIff(dest, remote.objects, Fetched(remote, c, fetched, readable));
    SeedIff(dest, remote.objects, SeedStep(dest, remote, c, fetched, readable));
  }

  /** The destination's importer, on top of the seed; `stray` is whatever else it left behind. */
  function ImportStep(dest: Destination, c: Clone, clock: int, stray: map<string, string>): Clone {
    c.(phase := Imported,
       work := Tree(Import(dest.importer, c.work.ledger, c.payload, clock).ledger, c.work.rest + stray))
  }

  /** `git push --force-with-lease`: the branch moves only if it is still where this run saw it. */
  function PushWithLease(remote: Remote, expected: Option<Sha>, sha: Sha, commit: Commit): Remote {
    var objects := remote.objects[sha := commit];
    if remote.branch == expected then remote.(objects := objects, branch := Some(sha))
    else remote.(objects := objects)
  }

  /** `cmd_settle`: adopt the existing head, push one new commit, or report nothing to deliver.
      `sha` is the name of the commit it makes, if it makes one. */
  function SettleStep(dest: Destination, remote: Remote, c: Clone, sha: Sha): (Remote, Clone) {
    var (base, seeded) := ProposalBase(dest, remote.objects, c);
    if base !in remote.objects then (remote, c)
    else
      var baseTree := remote.objects[base].tree;
      if Uncommittable(StagedPaths(dest.ledgerPath, baseTree, c.work), dest.prefixes) != Some({}) then
        (remote, c.(phase := Settled(ContainmentRefused), head := base))
      else
        match Decide(baseTree, c.work, c.tracking, seeded)
        case NOTHING_TO_DELIVER => (remote, c.(phase := Settled(Nothing), head := base))
        case ADOPT => (remote, c.(phase := Settled(Adopted),
                                  head := if c.tracking.head.Some? then c.tracking.head.value else base))
        case PUSH =>
          var pushed := PushWithLease(remote, c.tracking.head, sha, Commit(Some(base), c.work));
          (pushed, c.(phase := Settled(if remote.branch == c.tracking.head then Pushed else PushRefused), head := sha))
  }

  /** A three-way merge of the ledger file. Two different appends at its end conflict. */
  function MergeLedger(base: seq<Record>, ours: seq<Record>, theirs: seq<Record>): Option<seq<Record>> {
    if ours == base then Some(theirs)
    else if theirs == base || ours == theirs then Some(ours)
    else None
  }

  /** A ledger file merges exactly when one side left it alone or both made it the same; and a merge
      of two files that were only appended to holds both, whole. */
  lemma MergeLedgerIs(base: seq<Record>, ours: seq<Record>, theirs: seq<Record>, merged: seq<Record>)
    ensures MergeLedger(base, ours, theirs) == Some(merged) <==>
            (ours == base && merged == theirs) || (theirs == base && merged == ours) || (ours == theirs && merged == ours)
    ensures MergeLedger(base, ours, theirs) == None <==> ours != base && theirs != base && ours != theirs
    ensures MergeLedger(base, ours, theirs) == Some(merged) && base <= ours && base <= theirs ==> ours <= merged && theirs <= merged
  {
  }

  function At(files: map<string, string>, path: string): Option<string> {
    if path in files then Some(files[path]) else None
  }

  /** One file of a clean three-way merge. A file both sides changed is the host's to merge. */
  predicate MergesAt(base: Option<string>, ours: Option<string>, theirs: Option<string>, merged: Option<string>) {
    (ours == base ==> merged == theirs) && (theirs == base || ours == theirs ==> merged == ours)
  }

  /** A file one side left alone is the other side's; one both changed alike is what they made it; and
      anything may become of one they changed apart. */
  lemma MergesAtIff(base: Option<string>, ours: Option<string>, theirs: Option<string>, merged: Option<string>)
    ensures MergesAt(base, ours, theirs, merged) <==>
            if ours == base then merged == theirs else if theirs in {base, ours} then merged == ours else true
  {
  }

  /** Every file but the ledger, merged. */
  predicate MergesTo(base: map<string, string>, ours: map<string, string>, theirs: map<string, string>,
                     merged: map<string, string>) {
    forall path | path in base.Keys + ours.Keys + theirs.Keys + merged.Keys ::
      MergesAt(At(base, path), At(ours, path), At(theirs, path), At(merged, path))
  }

  /** The host can merge this commit cleanly, and `rest` is what the files other than the ledger
      become. */
  predicate MergeAllowed(remote: Remote, head: Sha, rest: map<string, string>) {
    && head in remote.objects
    && remote.main in remote.objects
    && HasLedger(remote.objects, remote.objects[head].parent)
    && (var base := remote.objects[remote.objects[head].parent.value].tree;
        && MergesTo(base.rest, remote.objects[remote.main].tree.rest, remote.objects[head].tree.rest, rest)
        && MergeLedger(base.ledger, remote.objects[remote.main].tree.ledger, remote.objects[head].tree.ledger).Some?)
  }

  /** The merge endpoint, pinned to the head the gate inspected: nothing happens if it moved. */
  function MergeStep(remote: Remote, head: Sha, rest: map<string, string>, sha: Sha): Remote
    requires MergeAllowed(remote, head, rest)
  {
    if remote.branch != Some(head) then remote
    else
      var base := remote.objects[remote.objects[head].parent.value].tree;
      var main := remote.objects[remote.main].tree;
      var merged := MergeLedger(base.ledger, main.ledger, remote.objects[head].tree.ledger).value;
      remote.(objects := remote.objects[sha := Commit(Some(remote.main), Tree(merged, rest))], main := sha)
  }

  /** The branch is deleted. */
  function DropStep(remote: Remote): Remote {
    remote.(branch := None)
  }

  /** Anyone else's commit on main. */
  function MainStep(remote: Remote, sha: Sha, tree: Tree): Remote {
    remote.(objects := remote.objects[sha := Commit(Some(remote.main), tree)], main := sha)
  }
}
