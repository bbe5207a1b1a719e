/** The two commands of the delivery script, as they change a clone and the destination step by
    step. Each is exactly one step of the protocol. */
module DeliverBranch {
  import opened Json
  import opened DeliveryBranch
  import opened Delivery

  /** The destination's repository on its host. */
  class Host {
    var objects: map<Sha, Commit>
    var main: Sha
    var branch: Option<Sha>

    constructor (main: Sha, commit: Commit)
      ensures View() == Remote(map[main := commit], main, None)
    {
      this.objects, this.main, this.branch := map[main := commit], main, None;
    }

    function View(): Remote
      reads this
    {
      Remote(objects, main, branch)
    }

    /** `git push --force-with-lease=refs/heads/<branch>:<expected>`. The new object exists
        whether or not the branch moves. */
    method Push(expected: Option<Sha>, sha: Sha, commit: Commit) returns (accepted: bool)
      requires sha !in objects
      modifies this
      ensures accepted == (old(branch) == expected)
      ensures View() == PushWithLease(old(View()), expected, sha, commit)
    {
      objects := objects[sha := commit];
      accepted := branch == expected;
      if accepted {
        branch := Some(sha);
      }
    }

    /** The merge endpoint, which acts only on the commit the gate looked at. `rest` is what
        the host's clean merge makes of the files other than the ledger. */
    method Merge(expected: Sha, rest: map<string, string>, sha: Sha) returns (merged: bool)
      requires MergeAllowed(View(), expected, rest) && sha !in objects
      modifies this
      ensures merged == (old(branch) == Some(expected))
      ensures View() == MergeStep(old(View()), expected, rest, sha)
    {
      merged := branch == Some(expected);
      if merged {
        var base := objects[objects[expected].parent.value].tree;
        var ours := objects[main].tree;
        var ledger := MergeLedger(base.ledger, ours.ledger, objects[expected].tree.ledger);
        objects := objects[sha := Commit(Some(main), Tree(ledger.value, rest))];
        main := sha;
      }
    }
  }

  /** One run's clone: what is checked out, what is staged, and the remote-tracking ref. */
  class Workspace {
    const host: Host
    const payload: seq<Value>
    const base: Sha
    var tracking: Option<Sha>
    var readable: bool
    var head: Sha
    var files: Tree
    var index: Tree

    ghost predicate Valid()
      reads this, host
    {
      && base in host.objects
      && (tracking.Some? ==> tracking.value in host.objects)
    }

    constructor (host: Host, payload: seq<Value>)
      requires host.main in host.objects
      ensures Valid() && this.host == host && this.payload == payload && base == host.main
      ensures Snapshot(Cloned) == Open(host.View(), payload)
    {
      this.host, this.payload, this.base := host, payload, host.main;
      this.tracking, this.readable := None, true;
      this.head := host.main;
      this.files, this.index := host.objects[host.main].tree, host.objects[host.main].tree;
    }

    /** The branch as the remote-tracking ref shows it. */
    function Tracked(): RemoteBranch
      reads this, host
    {
      ReadRemoteBranch(Remote(host.objects, host.main, tracking))
    }

    function Snapshot(phase: Phase): Clone
      reads this, host
    {
      Clone(phase, payload, base, Tracked(), readable, files, head)
    }

    /** Fetches the branch and puts the chosen seed in the working tree. */
    method CmdSeed(dest: Destination, fetched: bool, comparable: bool)
      requires Valid() && (host.branch.Some? ==> host.branch.value in host.objects)
      modifies this
      ensures Valid()
      ensures var after := SeedStep(dest, host.View(), old(Snapshot(Cloned)), fetched, comparable);
              Snapshot(after.phase) == after
    {
      if fetched {
        tracking := host.branch;
      }
      readable := comparable;
      var remote := Tracked();
      var moved := LedgerMoved(dest, host.objects, remote.base, base, readable);
      var (seed, _) := ChooseSeed(base, remote, moved);
      head := seed;
      files := host.objects[seed].tree;
      index := files;
    }

    /** Stage everything, reshape onto the proposal's base, refuse what may not be committed, and
        then adopt the existing head, push one commit, or do nothing. */
    method CmdSettle(dest: Destination, sha: Sha) returns (outcome: Outcome)
      requires Valid() && sha !in host.objects
      modifies this, host
      ensures Valid()
      ensures SettleStep(dest, old(host.View()), old(Snapshot(Imported)), sha) == (host.View(), Snapshot(Settled(outcome)))
    {
      var remote := Tracked();
      var moved := LedgerMoved(dest, host.objects, remote.base, base, readable);
      var (_, why) := ChooseSeed(base, remote, moved);
      var seeded := why == SEED_BRANCH && remote.base.Some?;
      var onto := if seeded then remote.base.value else base;
      index := files;
      head := onto;
      var staged := StagedPaths(dest.ledgerPath, host.objects[onto].tree, index);
      if Uncommittable(staged, dest.prefixes) != Some({}) {
        return ContainmentRefused;
      }
      match Decide(host.objects[onto].tree, index, remote, seeded) {
        case NOTHING_TO_DELIVER =>
          outcome := Nothing;
        case ADOPT =>
          head := remote.head.value;
          files := host.objects[head].tree;
          outcome := Adopted;
        case PUSH =>
          head := sha;
          var accepted := host.Push(remote.head, sha, Commit(Some(onto), index));
          outcome := if accepted then Pushed else PushRefused;
      }
    }
  }
}
