/** The choices a delivery makes about its branch: which commit to import on, what to do with the
    result, and which files a commit of the router's may contain. */
module DeliveryBranch {
  import opened Json
  import LedgerFile

  /** A git object name. Git names objects by content, so a tree is compared by its content. */
  type Sha = nat

  /** A checkout: the ledger this branch's importer writes, and every other file by path. */
  datatype Tree = Tree(ledger: seq<Record>, rest: map<string, string>)

  datatype Commit = Commit(parent: Option<Sha>, tree: Tree)

  /** What a clone knows of the delivery branch: its tip, the commit under it, and its tree. */
  datatype RemoteBranch = RemoteBranch(head: Option<Sha>, base: Option<Sha>, tree: Option<Tree>)

  const NO_BRANCH := RemoteBranch(None, None, None)

  datatype Seed = SEED_MAIN | SEED_BRANCH

  datatype Action = NOTHING_TO_DELIVER | ADOPT | PUSH

  function ChooseSeed(baseSha: Sha, remote: RemoteBranch, ledgerMoved: bool): (Sha, Seed) {
    if remote.head.Some? && !ledgerMoved then (remote.head.value, SEED_BRANCH) else (baseSha, SEED_MAIN)
  }

  function Decide(proposalBase: Tree, resulting: Tree, remote: RemoteBranch, seededFromBranch: bool): Action {
    if resulting == proposalBase then NOTHING_TO_DELIVER
    else if seededFromBranch && remote.tree == Some(resulting) then ADOPT
    else PUSH
  }

  /** Which staged paths containment forbids; no answer at all without a prefix, when it would
      forbid nothing. */
  function Uncommittable(paths: set<string>, prefixes: seq<string>): Option<set<string>> {
    if forall i | 0 <= i < |prefixes| :: prefixes[i] == "" then None
    else Some(set path | path in paths && !LedgerFile.Blank(path) && !Contained(path, prefixes))
  }

  predicate Contained(path: string, prefixes: seq<string>) {
    exists i | 0 <= i < |prefixes| :: prefixes[i] != "" && prefixes[i] <= path
  }

  /** What `git diff --cached --name-only` lists between two trees. */
  function StagedPaths(ledgerPath: string, a: Tree, b: Tree): set<string> {
    (if a.ledger != b.ledger then {ledgerPath} else {})
    + (set path | path in a.rest.Keys + b.rest.Keys &&
                  !(path in a.rest && path in b.rest && a.rest[path] == b.rest[path]))
  }

  /** The path goes on from one of the prefixes that are not empty. */
  ghost predicate Inside(path: string, prefixes: seq<string>) {
    exists prefix, rest :: prefix in prefixes && prefix != "" && path == prefix + rest
  }

  lemma ContainedIff(path: string, prefixes: seq<string>)
    ensures Contained(path, prefixes) <==> Inside(path, prefixes)
  {
    if Contained(path, prefixes) {
      var i :| 0 <= i < |prefixes| && prefixes[i] != "" && prefixes[i] <= path;
      assert prefixes[i] in prefixes && path == prefixes[i] + path[|prefixes[i]|..];
    }
    if Inside(path, prefixes) {
      var prefix, rest :| prefix in prefixes && prefix != "" && path == prefix + rest;
      var i :| 0 <= i < |prefixes| && prefixes[i] == prefix;
      assert prefixes[i] <= path;
    }
  }

  /** A commit passes containment exactly when it leaves every file outside the prefixes as the
      base has it. */
  lemma ContainmentMeansUntouched(ledgerPath: string, prefixes: seq<string>, base: Tree, work: Tree)
    ensures Uncommittable(StagedPaths(ledgerPath, base, work), prefixes) == Some({}) <==>
      && (exists i | 0 <= i < |prefixes| :: prefixes[i] != "")
      && (base.ledger == work.ledger || LedgerFile.Blank(ledgerPath) || Inside(ledgerPath, prefixes))
      && (forall path | !LedgerFile.Blank(path) && !Inside(path, prefixes) ::
            && (path in base.rest <==> path in work.rest)
            && (path in base.rest ==> base.rest[path] == work.rest[path]))
  {
    forall path: string ensures Contained(path, prefixes) <==> Inside(path, prefixes) {
      ContainedIff(path, prefixes);
    }
    var staged := StagedPaths(ledgerPath, base, work);
    var outside := set path | path in staged && !LedgerFile.Blank(path) && !Contained(path, prefixes);
    if outside == {} {
      forall path | !LedgerFile.Blank(path) && !Inside(path, prefixes)
        ensures (path in base.rest <==> path in work.rest) && (path in base.rest ==> base.rest[path] == work.rest[path])
      {
        assert path !in outside;
      }
      if base.ledger != work.ledger {
        assert ledgerPath !in outside;
      }
    }
  }
}
