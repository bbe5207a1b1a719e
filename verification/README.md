# Delivery of routed wagers: a verified model

The router places nothing. It reads an account's fills, classifies them by sport, and delivers
wagers and settlements to the repositories that keep each sport's accounting ledger. This project
models the parts of that delivery that other people's records depend on, and proves what they keep.

| module | models |
|---|---|
| `Json`, `LedgerFile` | JSON values under Python's equality; a JSONL ledger as text: splitting, reading, appending |
| `Importer` | the append-only importer every destination shares: a fold, and the loop over an index that refines it |
| `RoutedLedger`, `RoutedRows`, `LedgerValidation` | the routed accounting ledger: its two importers, the same in the payload rows' own terms, its validator |
| `EvidenceLedger`, `EvidenceRows`, `Closes` | the execution-evidence ledger, the same in its rows' own terms, and the closing quotes filed in it |
| `DeliveryBranch`, `Delivery`, `DeliverBranch` | the delivery branch: the decisions, the protocol steps, the two commands that perform them |
| `DeliverySafety`, `DeliveryConservation`, `DeliveryStability`, `DeliveryStaleRun` | what interleaved runs of that protocol keep |
| `Receipts`, `MergeGate`, `DiffReader`, `MergeDelivery` | receipts, the auto-merge gate, its reading of a diff, and the merge it leads to |
| `ReconcileDelivery`, `Backfill` | reconciliation by identity; backfill through the ledger it grows |
| `CursorWalk` | the API client's cursor walks |
| `Publish` | publication of a tree, file by file, under a crash |
| `EntryCapture`, `Collector` | the snapshot ring, the entry join, and the collector's accounting |
| `Classify` | the classification hierarchy and the combo rule |
| `Sorting`, `Ranking` | competition ranking |

How the world outside appears: git objects are an immutable map from a sha to a parent and a tree, a
tree is the ledger a branch's importer writes plus every other file by path, a destination names the
paths of all its canonical files, and `--force-with-lease` is a compare-and-swap on the branch. The
host merges file by file; what it makes of a file that both sides changed is arbitrary. SHA-256 is a
function (injective where a proof needs it). JSON is a printer and a parser that undo each other on
the values the host's floats can hold; regular expressions, Unicode case and date patterns are
predicates. Money and
prices are reals. A server is the list of answers it gave. Files, clocks, HTTP and subprocesses are
parameters.

Where the plain statement is false of the code, the code is kept and the exact condition is proved:

- A delivered wager can be lost when two runs overlap: one that captured its payload before the
  other's push, and does not keep the branch it then reads, replaces that push without its rows
  (`StalePayloadLosesAWager`). `NoWagerIsLost` asks each run that its payload hold what was pushed
  before it read the branch; `FreshSinceCaptureIff` says exactly when it does, and `PushKeepsKeyIff`
  which keys survive one push. The delivery workflow's concurrency group admits one run at a time, and
  `SerialRunsLoseNothing` proves that this alone is enough.
- A delivered head is documented to stand until the wager ledger moves. The code compares every
  canonical file, so a merged settlement moves it too: `LaterRunOutcome` says exactly what the next
  run does, and `CanonicalMoveRebuilds` that it replaces the head although the wager ledger is what it
  was. `HeadIsStable` therefore holds while no canonical file moves.
- A diff that shows no removal is not yet an append: rows may have been put in anywhere
  (`RemovalFreeIff`, `InsertionShowsNoRemoval`). `MergeInterleaves` is what a MERGE verdict gives
  without trusting the importer. The gate's "removed" is of diff lines: a last row without its newline
  is shown as removed when anything is put behind it (`UnfinishedRowStaysLast`).
- The evidence importer files orphans; only its validator sees them (`RunKeepsGoodFile`,
  `OrphanIsFiled`). A routed ledger validates exactly when every record on it prints on one line
  (`LedgerValidatesIff`).
- The bare append of the evidence ledger is exact only behind a finished last line
  (`ReadAfterBareAppend`, `BareAppendBreaksUnfinishedFile`); the routed ledger's append is exact when
  every record prints on one line as `splitlines` counts lines (`ReadAfterAppend`).
- A publication without a health document removes the old one, and then does not verify
  (`CompletedVerifiesIffHealth`). With no pull request open the gate refuses rather than waits
  (`NoPullRequestRefuses`); it waits only for what can still come true (`WaitIffOpen`). A wager's receipt match is skipped when no receipt has a key
  (`ReceiptMatchIff`). A conflict in the series metadata is not terminal (`RegistryDecidesIff`,
  `ConflictingSeriesStillRouted`). A close with a cutoff source, or with only one side of a quote
  beside a trade, is not accepted by the evidence ledger (`AcceptedIff`). A backfill verdict can change
  on the second run when two wagers of a sport share a source key (`SecondVerdict`), and the second run
  can fail to read a ledger the first one wrote (`SecondRunReadsIff`). A quote can leave the ring
  before its order is joined (`JoinOnRing`, `FreshLostBeyondBound`).

The environment of the protocol: main's ledger is only ever appended to under fresh keys by others
(any other file, canonical or not, may change freely), the branch is deleted only once main's ledger
extends it, payloads only grow (a run may carry an older one), and commits have fresh names.

## Model

| member | source | states |
|---|---|---|
| `LedgerFile.JsonlFile.Read` | contract/edge_finder_contract/routed_ledger.py:197-211 | the reading loop yields exactly the objects of the file's lines, and refuses on the first line that is none |
| `LedgerFile.LinesRejoin` | contract/edge_finder_contract/routed_ledger.py:197-211 | splitting a text loses nothing but what ended its lines: lines and ends put together are the text, no line holds a break, and a carriage return takes its newline with it |
| `LedgerFile.SpacesAre` | contract/edge_finder_contract/routed_ledger.py:197-211 | which characters end a line and which are white space, by code point |
| `LedgerFile.JsonlFile.Append` | contract/edge_finder_contract/routed_ledger.py:214-227 | the file becomes the old text, a newline if the last line lacked one, and one printed line per record |
| `LedgerFile.JsonlFile.AppendBare` | contract/standalone/execution_evidence_ledger.py:384-388 | the evidence ledger's append, which supplies no newline |
| `LedgerFile.ReadAfterAppend` | contract/edge_finder_contract/routed_ledger.py:197-227 | for any readable old file, with or without a final newline, reading after an append gives old rows then new rows exactly when each new record prints on one line, and fails otherwise |
| `LedgerFile.ReadAfterBareAppend` | contract/standalone/execution_evidence_ledger.py:322-388 | the same law without the guard holds exactly when the last line holds nothing but blanks |
| `LedgerFile.BareAppendBreaksUnfinishedFile` | contract/standalone/execution_evidence_ledger.py:384-388 | a one-record file without its final newline is unreadable after the bare append, and reads both records after the guarded one |
| `LedgerFile.AppendFinishesLine` | contract/standalone/execution_evidence_ledger.py:384-388 | the bare append keeps the invariant it needs: its own writes always finish the last line |
| `Importer.ImportRows` | contract/edge_finder_contract/routed_ledger.py:295-327 | the loop over a dictionary index returns exactly the fold's ledger, receipts and counters |
| `Importer.ImportConserves` | contract/edge_finder_contract/routed_ledger.py:264-327 | the ledger only grows, by exactly `written`; one receipt per row; written, duplicate and refused sum to the rows and count their verdicts |
| `Importer.ReceiptIsJudged` | contract/edge_finder_contract/routed_ledger.py:295-327 | every receipt is the judgement of its own row against the ledger as the rows before it left it, and what that files stands right behind that ledger |
| `Importer.ImportConcat` | contract/edge_finder_contract/routed_ledger.py:295-327 | importing A + B is importing A and then B: same ledger, counters added, receipts joined with row numbers shifted |
| `Importer.ImportTwice` | contract/edge_finder_contract/routed_ledger.py:306-322 | a second import at any clock leaves the ledger alone, turns every NEW into DUPLICATE_NOOP and repeats every other verdict |
| `Importer.ImportKeepsStored` | contract/edge_finder_contract/routed_ledger.py:308-319 | a stored record keeps answering for its key whatever is imported later: it is never rewritten |
| `Importer.AcceptedIsStored` | contract/edge_finder_contract/routed_ledger.py:306-322 | every row received as NEW or DUPLICATE_NOOP is on the resulting ledger, in agreement with what is stored |
| `Importer.ImportUnique` | contract/edge_finder_contract/routed_ledger.py:295-327 | keys stay unique |
| `Importer.ImportAbsorbs` | contract/edge_finder_contract/routed_ledger.py:295-327 | afterwards every row that builds a record has one filed under its key |
| `Importer.AbsorbedImport` | contract/edge_finder_contract/routed_ledger.py:306-322 | a ledger that already files every row's key is left as it is, at any clock |
| `Importer.FreshWasBuilt` | contract/edge_finder_contract/routed_ledger.py:303-327 | every added record was built from some row of the payload |
| `RoutedLedger.WagerImporterLawful` | contract/edge_finder_contract/routed_ledger.py:230-262 | the wager importer meets the contract those laws need: filed under its own key, no record in conflict with itself, tolerance included |
| `RoutedLedger.SettlementImporterLawful` | contract/edge_finder_contract/routed_ledger.py:330-375 | so does the settlement importer, against any set of placed wagers |
| `RoutedLedger.IdsNameKeys` | contract/edge_finder_contract/routed_ledger.py:75-90 | two rows with one source key are minted one id |
| `RoutedLedger.WagerReceiptsShowKeys` | contract/edge_finder_contract/routed_ledger.py:284-327 | a receipt of the wager importer carries the key its record is filed under |
| `Json.EqualIffCoerced` | contract/edge_finder_contract/routed_ledger.py:230-237 | two stored values are equal, as Python compares them, exactly when they are the same once every boolean in them is a number |
| `Json.HashedIff` | contract/edge_finder_contract/routed_ledger.py:303-308 | two simple values share a place in a dictionary exactly when they are equal |
| `RoutedRows.WagersAreFiled` | contract/edge_finder_contract/routed_ledger.py:240-327 | every row of a wager import: refused exactly when a field is missing, unknown, out of range, of another batch, or the stake does not come to contracts, price and fees within a millionth; NEW exactly when its key is on no record before it; DUPLICATE_NOOP or CONFLICT by the eleven compared fields of the last record under that key, numbers apart by more than a nano-dollar; and a NEW row's record holds the row's own fields unchanged, its one price, the minted id, the schema and nothing else |
| `RoutedRows.SettlementsAreFiled` | contract/edge_finder_contract/routed_ledger.py:330-388 | the same of settlements, null for what the row left out, refused also without a wager on file on that market and side |
| `RoutedRows.ImportedFileReads` | contract/edge_finder_contract/routed_ledger.py:197-327 | after an import the file reads back as exactly the ledger the import left |
| `RoutedLedger.RoutedBooks.ImportWagers` | contract/edge_finder_contract/routed_ledger.py:295-327 | the wager file after an import is the fold's, or untouched when it cannot be read; `RoutedRows` says what that is row by row |
| `RoutedLedger.RoutedBooks.ImportSettlements` | contract/edge_finder_contract/routed_ledger.py:352-388 | the settlement file after an import against the wagers on file; the wager file is not written |
| `LedgerValidation.ValidateLedger` | contract/edge_finder_contract/routed_ledger.py:391-436 | the failures reported are exactly the defects there are, each by its file and line: blank, no object, invalid, under an earlier line's key, not an extension of the base, or an orphan; so none exactly when both files are clean |
| `LedgerValidation.ValidRowIff` | contract/edge_finder_contract/routed_ledger.py:114-194 | what the validator demands of one record, field by field: texts, enumerations, ranges, the stake, the minted id and the schema |
| `LedgerValidation.WagerImportKeepsBooks` | contract/edge_finder_contract/routed_ledger.py:240-327 | after any wager import rows are valid, keys unique, and every settlement still agrees with its wager in market and side |
| `LedgerValidation.SettlementImportKeepsBooks` | contract/edge_finder_contract/routed_ledger.py:330-388 | the same after any settlement import |
| `LedgerValidation.SoundBooksAreClean` | contract/edge_finder_contract/routed_ledger.py:391-436 | sound books, printed, pass the validator exactly when every record prints on one line |
| `LedgerValidation.LedgerValidatesIff` | contract/edge_finder_contract/routed_ledger.py:214-436 | from empty files, after any interleaving of wager and settlement imports of any rows JSON can hold, the files are sound books that extend every earlier version of themselves, and the validator reports nothing exactly when every record on them prints on one line |
| `LedgerValidation.LedgerAlwaysValidates` | contract/edge_finder_contract/routed_ledger.py:295-436 | when no row can break a line, the validator reports nothing after any such run |
| `DeliveryBranch.ContainmentMeansUntouched` | src/kalshi_router/delivery_branch.py:208-231 | a commit passes containment exactly when some prefix is given and every file outside the prefixes is as the base has it |
| `DeliverBranch.Host.Push` | scripts/deliver_branch.py:251-270 | the push moves the branch exactly when it is still where the run expected it |
| `DeliverBranch.Host.Merge` | scripts/merge_delivery_pr.py:386-415 | the merge endpoint acts exactly when the branch is at the pinned sha, and then leaves the merged ledger and the merged files on main |
| `Delivery.CanonicalAgreeIff` | scripts/deliver_branch.py:112-140 | what the seed decision compares agrees exactly when git's diff of two commits names none of the destination's canonical paths |
| `Delivery.SeedIff` | scripts/deliver_branch.py:112-152 | a run goes on from the branch exactly when it fetched it, knows the main under it, and could read a diff from there to its own main that names no canonical file; otherwise from its own main |
| `Delivery.UnreadableStartsFromMain` | scripts/deliver_branch.py:112-190 | a run that cannot compare the canonical files, or has none described, is seeded from the main it cloned and proposes on it |
| `Delivery.MergeLedgerIs` | scripts/merge_delivery_pr.py:386-415 | the merge of a ledger file, exactly; of two files that were only appended to it holds both |
| `Delivery.MergesAtIff` | scripts/merge_delivery_pr.py:386-415 | what the host's clean merge may make of any other file |
| `DeliverBranch.Workspace.CmdSeed` | scripts/deliver_branch.py:155-190 | fetching, deciding and checking out are one seed step of the protocol |
| `DeliverBranch.Workspace.CmdSettle` | scripts/deliver_branch.py:193-273 | staging, reshaping, containment and adopt-or-push are one settle step |
| `DeliverySafety.SettleShape` | scripts/deliver_branch.py:200-273 | a settling run leaves one commit on its proposal base if it pushed, and otherwise no trace on the remote |
| `DeliverySafety.SettledIsDelivered` | scripts/deliver_branch.py:200-273 | a run that ends without a refusal has delivered every key on its tree and every key its payload builds; a refused one nothing |
| `DeliverySafety.ImportedAbsorbs` | scripts/deliver_branch.py:155-200 | the tree of a run that imported files every key its payload builds |
| `DeliverySafety.SettleKeepsInv` | scripts/deliver_branch.py:193-273 | settling keeps the protocol invariant: the branch is one commit on a past main, appends to its ledger and differs from it |
| `DeliverySafety.MergeKeepsInv` | scripts/merge_delivery_pr.py:386-415 | a merge keeps the invariant and only adds to main's ledger |
| `DeliverySafety.RunKeepsInv` | scripts/deliver_branch.py:112-273 | the invariant holds over every run of interleaved seeds, imports, settles, merges, deletions and moves of main |
| `DeliveryConservation.PushKeepsKeyIff` | scripts/deliver_branch.py:155-269 | a key of the branch a push replaces survives if and only if the run kept that branch, its base held the key or its payload builds it |
| `DeliveryConservation.NoWagerIsLost` | scripts/deliver_branch.py:155-273 | with fresh payloads, in every reachable state every key any run reported as delivered is on main or on the branch |
| `DeliveryConservation.FreshSinceCaptureIff` | scripts/deliver_branch.py:155-270 | a run that captured its payload before it cloned is fresh when it reads the branch exactly when every push in between carried only rows it holds |
| `DeliveryConservation.SerialRunsLoseNothing` | tests/test_workflow_safety.py:714-724 | runs that do not overlap, each with a payload built since the last one settled, lose nothing, with no further hypothesis |
| `DeliveryStaleRun.StalePayloadLosesAWager` | scripts/deliver_branch.py:155-269 | a concrete legal run in which every push holds its lease and a delivered wager ends on neither main nor the branch |
| `DeliveryStability.NothingOnlyFromMain` | src/kalshi_router/delivery_branch.py:179-205 | NOTHING_TO_DELIVER is never said of a branch that was kept |
| `DeliveryStability.RunReproducesHead` | src/kalshi_router/delivery_branch.py:133-176 | while every canonical file on main is as the head's base has it, a run that read the head and carries nothing it lacks rebuilds its exact tree, whatever the clock reads |
| `DeliveryStability.RunAdopts` | src/kalshi_router/delivery_branch.py:179-197 | it therefore adopts the head, and nothing on the remote moves |
| `DeliveryStability.HeadIsStable` | scripts/deliver_branch.py:112-273 | over any number of later interleaved runs with the payload and all canonical files unchanged, head, tree and every byte of every row stay, however clocks and main's other files move |
| `DeliveryStability.PushIsStable` | scripts/deliver_branch.py:200-269 | a successful push starts such a period whatever other runs are in flight, if those that have not read the branch yet have main's canonical files and carry no more than it did |
| `DeliveryStability.LaterRunOutcome` | scripts/deliver_branch.py:112-273 | one whole later run, exactly: with every canonical file on main as the head's base has it, it adopts the head or extends it on the same base; once any has moved it reports nothing to deliver or replaces the head by a commit on main |
| `DeliveryStability.CanonicalMoveRebuilds` | scripts/deliver_branch.py:112-152 | a move of any canonical file makes the next run with undelivered rows replace the head |
| `DeliveryStability.MergeLands` | scripts/merge_delivery_pr.py:386-415 | merging a batch that holds the whole payload puts exactly its ledger on main, and every branch and clone then is behind it |
| `DeliveryStability.LandedForever` | scripts/deliver_branch.py:112-273 | that state is kept by every further step that brings no new rows |
| `DeliveryStability.MergedIsNeverReproposed` | src/kalshi_router/delivery_branch.py:174-205 | after a merge, in every later state reached without new rows, a run that opened on the merged ledger is seeded from main, reports NOTHING_TO_DELIVER and moves nothing |
| `Receipts.AsDictRoundTrip` | src/kalshi_router/receipts.py:59-106 | normalising receipts that were already normalised gives them back |
| `Receipts.FromRowIs` | src/kalshi_router/receipts.py:70-100 | a receipt row, spelling by spelling: key, id, verdict, success when none is stated, and the conflicting fields |
| `Receipts.ImporterReceiptReads` | contract/edge_finder_contract/routed_ledger.py:284-292 | the routed importer's receipt rows read back with the same key, id, verdict and conflicting fields, and succeed exactly when accepted |
| `Receipts.ReceiptRowIs` | contract/edge_finder_contract/routed_ledger.py:284-292 | the row each outcome is written as, field by field |
| `MergeGate.CheckState` | src/kalshi_router/automerge.py:323-331 | the names of the pending checks and of the failed ones with their conclusions, in order; `ChecksAre` says in the facts' own words when there is none of either |
| `MergeGate.Evaluate` | src/kalshi_router/automerge.py:334-714 | the three lists are exactly the conditions of each ruling, in order; the twelve conditions each reach one of them; one refusal refuses and one wait waits; `MergeIsSafe` and `RefuseIff` say in the facts' own words when |
| `MergeGate.MergeIsSafe` | src/kalshi_router/automerge.py:334-714 | MERGE if and only if, in the facts' own words: the pull request exists on the router's branch at the inspected head, in the destination's own repository; nothing is removed and only mergeable files change; the import refused nothing, was delivered whole and repeats to DUPLICATE_NOOP under the same ids; the added rows are identified, of this batch, and for settlements receipted by this run; checks, where there are any to run, are at least one and all completed as success, skipped or neutral, and elsewhere the validator passed; and the host says mergeable and clean |
| `MergeGate.RefuseIff` | src/kalshi_router/automerge.py:334-714 | which facts force REFUSE, in their own words: among them a completed check that did not end as success, skipped or neutral, and a failed validator |
| `MergeGate.ReceiptMatchIff` | src/kalshi_router/automerge.py:579-604 | exactly when the identity condition demands a receipt match |
| `DiffReader.LedgerDiff` | scripts/merge_delivery_pr.py:112-146 | the loop over the diff's text collects every added row, unparseable ones included, and every removed line |
| `DiffReader.LineReads` | scripts/merge_delivery_pr.py:127-146 | what each signed line of a diff is read as: header, white space, a value, or a mark for text that is none |
| `DiffReader.OtherLinesReadAsNothing` | scripts/merge_delivery_pr.py:127-146 | any other line is passed over |
| `DiffReader.NoteIff` | scripts/merge_delivery_pr.py:127-146 | which lines of a diff are about no row |
| `DiffReader.DiffReadsBack` | scripts/merge_delivery_pr.py:127-146 | the diff of any edit script, whatever headers stand between, reads back as exactly the records it puts in, in order, with one removal per row it takes out |
| `DiffReader.RemovalSeenIff` | scripts/merge_delivery_pr.py:129-145 | which removed lines the loop can overlook, exactly |
| `DiffReader.RemovalFreeIff` | src/kalshi_router/automerge.py:500-509 | a shortest script shows no removal exactly when every old row survives in order, wherever rows were put in |
| `DiffReader.InsertionShowsNoRemoval` | src/kalshi_router/automerge.py:500-509 | a row put in before another passes the append-only condition although the old ledger is no prefix of the new |
| `DiffReader.UnfinishedRowStaysLast` | scripts/merge_delivery_pr.py:127-146 | behind a last row that lacks its newline nothing can be put without a removal showing |
| `MergeDelivery.RerunPassesIff` | src/kalshi_router/automerge.py:457-485 | importing the payload a second time passes the gate's idempotency condition exactly when the first import refused nothing, for any importer that keeps the contract and mints ids from keys |
| `MergeDelivery.RoutedRerunPassesIff` | contract/edge_finder_contract/routed_ledger.py:284-388 | the same of the routed ledger's own two importers, through their receipt files, with nothing assumed of them |
| `MergeDelivery.MergeInterleaves` | src/kalshi_router/automerge.py:497-612 | MERGE, with no assumption on the importer: the old rows are all there in order, and every row put between them was inspected, identified and, for wagers, of the router's batch |
| `MergeDelivery.VerdictAllowsMerge` | scripts/merge_delivery_pr.py:302-415 | a MERGE verdict about facts that describe this run's commit is all the pinned merge needs, and the merge changes only mergeable canonical files the commit changed |
| `MergeDelivery.GatedMergeKeepsMain` | scripts/merge_delivery_pr.py:302-415 | that merge keeps the protocol invariant; main's ledger is extended by exactly the inspected ledger rows, or by none; files that are not mergeable keep main's content, mergeable ones take the head's where main has not changed them, and none changes if the importer wrote nothing but its ledger |
| `ReconcileDelivery.Classify` | scripts/reconcile_delivery.py:145-181 | the loop's five counts are the numbers of keys in each state and sum to the keys; refusals are broken down by verdict; the second refusal branch is dead |
| `ReconcileDelivery.StatusIff` | scripts/reconcile_delivery.py:145-178 | the state of one key, exactly: refused by the last receipt that names it, else on the ledger, else proposed, else waiting, else unaccounted |
| `ReconcileDelivery.UnaccountedIff` | scripts/reconcile_delivery.py:151-176 | UNACCOUNTED is zero exactly when every key has a receipt, is on the ledger or is waiting |
| `ReconcileDelivery.ProposedIsOnTree` | scripts/reconcile_delivery.py:166-169 | every key counted as proposed is on the tree the importer left |
| `ReconcileDelivery.ImportedIsAccounted` | scripts/reconcile_delivery.py:145-181 | a payload whose rows all have text keys leaves nothing unaccounted, whatever the importer made of it |
| `Backfill.Reconcile` | src/kalshi_router/backfill.py:341-364 | importable holds exactly the missing wagers in order, the six counters count their verdicts and sum to the wagers, and an unreadable ledger refuses; `VerdictIff` says what each verdict is |
| `Backfill.VerdictIff` | src/kalshi_router/backfill.py:285-338 | each of the six verdicts, if and only if, over the wager and the destination's rows in that destination's field names: who carries the source key, how many rows share market and side, and for a single one a stake more than 0.01 or a price more than 0.005 away, nothing unreadable ever counting |
| `Backfill.SecondVerdict` | src/kalshi_router/backfill.py:285-318 | the second verdict on any wager, exactly, through the ledgers the first run grew |
| `Backfill.BackfillIsIdempotent` | src/kalshi_router/backfill.py:285-364 | with distinct source keys, what the first run wrote is DUPLICATE_NOOP and every other verdict repeats, even where wagers share a market and side |
| `Backfill.SecondRunReadsIff` | src/kalshi_router/backfill.py:142-156 | the second run can read every ledger exactly when the first wrote only to known vocabularies |
| `Backfill.SecondRunImportsNothing` | src/kalshi_router/backfill.py:341-364 | the second run imports nothing |
| `CursorWalk.BoundedPages` | src/kalshi_router/client.py:222-284 | the budgeted walk, its stats and its requests against any server: every page but the last led on, each request followed the cursor before it and asked for a page or what is left of the budget, each way of ending is earned, and the rows are exact in all of them |
| `CursorWalk.Orders` | src/kalshi_router/client.py:361-417 | the orders walk: a bound below one raises, otherwise the same, never asking for more than the bound |
| `CursorWalk.CollectionPages` | src/kalshi_router/client.py:286-331 | the unbudgeted walk ends exhausted or in an error, never truncated; its rows, requests and stats, exactly |
| `CursorWalk.CursorIs` | src/kalshi_router/client.py:604-616 | what a page says about the next one: anything falsy is no cursor |
| `CursorWalk.PageRowsAre` | src/kalshi_router/client.py:592-601 | a response without the collection is no page |
| `CursorWalk.RequestsWithinBudget` | src/kalshi_router/client.py:246-284 | a bounded walk issues at most as many requests as rows were asked for |
| `CursorWalk.WalkIsExact` | src/kalshi_router/client.py:222-284 | against pages that lead to a last one no walk raises; it is exhausted, with everything, exactly when the budget exceeds all there is, and otherwise truncated after exactly the budget |
| `CursorWalk.NoLoop` | src/kalshi_router/client.py:604-616 | no walk goes past a repeated cursor or an empty page that claims more |
| `Publish.Root.Publish` | contract/edge_finder_contract/publish.py:102-154 | an inconsistent bundle touches nothing; otherwise documents, health, manifest and removals happen in order, up to wherever it stops |
| `Publish.PublishableIff` | contract/edge_finder_contract/publish.py:102-137 | publication goes ahead exactly when the bundle, the manifest and the health document pass and every document carries this run: the manifest it builds always agrees with its documents |
| `Publish.BuiltManifestIs` | contract/edge_finder_contract/publish.py:65-86 | the manifest names every document and no other, with path, kind, number of items and the digest of its very text |
| `Publish.WritesAre` | contract/edge_finder_contract/publish.py:126-144 | what is written, in order: every document, the health document if there is one, the manifest last |
| `Publish.StaleIff` | contract/edge_finder_contract/publish.py:136-147 | what is removed: JSON files that were there, are not written and are not under `explorer/` |
| `Publish.Root.WriteHealthOnly` | contract/edge_finder_contract/publish.py:157-167 | only health.json is replaced, and only by a valid document |
| `Publish.ExplorerUntouched` | contract/edge_finder_contract/publish.py:136-151 | no file under `explorer/` changes at any crash point, when no document is named there |
| `Publish.ExplorerDocumentIsWritten` | contract/edge_finder_contract/publish.py:140-144 | a document named under `explorer/` does overwrite what is there |
| `Publish.NewManifestNeverLies` | contract/edge_finder_contract/publish.py:138-147 | at every crash point, if the manifest on disk is the new one every file it names is there with its digest |
| `Publish.MatchingIsOnePublication` | contract/edge_finder_contract/publish.py:138-147 | a state whose digests all match holds one publication's files: the old ones byte for byte, or the new ones |
| `Publish.HalfDoneIsDetectedIff` | contract/edge_finder_contract/publish.py:138-144 | the old manifest's digests expose a half-done publication exactly when it replaced a file they name |
| `Publish.VerifyPublished` | contract/edge_finder_contract/publish.py:177-207 | no problem is found exactly when manifest, files, digests, bundle and health all hold |
| `Publish.VerifiesIff` | contract/edge_finder_contract/publish.py:177-207 | what passing means, file by file: each file the manifest names is there, parses, carries its run, kind, count and digest, and the health document passes |
| `Publish.AgreesIff` | contract/edge_finder_contract/integrity.py:92-111 | what the check of a manifest against its files demands of each entry, and that no other document was produced |
| `Publish.CompletedVerifiesIffHealth` | contract/edge_finder_contract/publish.py:126-207 | a completed publication verifies exactly when it was given a health document |
| `EntryCapture.Ring.Add` | src/kalshi_router/entry_capture.py:65-69 | the ticker's queue gains the snapshot and loses from its front what is past the horizon |
| `EntryCapture.Ring.LatestAtOrBefore` | src/kalshi_router/entry_capture.py:74-85 | the latest snapshot at or before the instant, or why there is none |
| `EntryCapture.KeptIsTail` | src/kalshi_router/entry_capture.py:65-69 | for snapshots in time order the ring is exactly the history's last horizon |
| `EntryCapture.RingAnswers` | src/kalshi_router/entry_capture.py:65-85 | the ring answers as the full history does exactly when that answer is within the horizon of the newest snapshot |
| `EntryCapture.JoinIsProspective` | src/kalshi_router/entry_capture.py:98-113 | ENTRY_FRESH exactly when the last snapshot not after placement is two-sided and at most 45 seconds old |
| `EntryCapture.JoinYes` | src/kalshi_router/entry_capture.py:98-113 | a bought YES, number by number in terms of the book it met: spread, paid against ask, paid against mid, ask size, age and status |
| `EntryCapture.JoinNo` | src/kalshi_router/entry_capture.py:98-113 | a bought NO off the same book: its ask is one less the YES bid, its size the YES bid's |
| `EntryCapture.JoinOneSided` | src/kalshi_router/entry_capture.py:98-107 | a book with a side missing, out of range or crossed gives an age and nothing else |
| `EntryCapture.JoinMisses` | src/kalshi_router/entry_capture.py:74-102 | without a book at or before placement: none at all, or only later ones |
| `EntryCapture.NoIsMirroredYes` | src/kalshi_router/entry_capture.py:98-113 | a NO order reads exactly as a YES order on the mirrored books, and the other way round, whatever was observed |
| `EntryCapture.SidesCancel` | src/kalshi_router/entry_capture.py:108-113 | two orders at one price on the two sides: against the mid they cancel, against the ask they save the spread |
| `EntryCapture.JoinOnRing` | src/kalshi_router/entry_capture.py:98-113 | the whole joined row is the full history's, unless the quote left the horizon; `JoinYes` and `JoinNo` say what the row holds |
| `EntryCapture.FreshOnRingIff` | src/kalshi_router/entry_capture.py:59-113 | an order is ENTRY_FRESH on the ring exactly when it is on the full history, while the newest snapshot is at most 1800 - 45 seconds after placement |
| `EntryCapture.FreshLostBeyondBound` | src/kalshi_router/entry_capture.py:59-113 | a second beyond that bound it can be lost |
| `Collector.Aggregator.Add` | src/kalshi_router/entry_capture.py:126-139 | one order's row is counted in its family's cell and game, once |
| `Collector.AddKeepsBalance` | src/kalshi_router/entry_capture.py:116-139 | per family the statuses sum to the orders, games count the entry quotes and sum to what was paid against the ask; all cells together count each seen order once |
| `Collector.Collector.ProcessOne` | src/kalshi_router/entry_capture_loop.py:99-137 | one order's path through the loop body; `ProcessIs` says in terms of all the fills which path it is |
| `Collector.ProcessIs` | src/kalshi_router/entry_capture_loop.py:90-137 | what a pass records of one order, exactly, over all fills reported: passed over, set aside as historical, mixed, not bought, left for later, or counted with the quote on the side it bought at the contract-weighted price of its own fills |
| `Collector.ProcessTells` | src/kalshi_router/entry_capture_loop.py:99-139 | the aggregates are what a list of distinct counted orders adds up to, per family, status and game, and one more order adds its own row exactly when it is counted |
| `Collector.RunStaysTold` | src/kalshi_router/entry_capture_loop.py:31-182 | over any passes, saves and restarts they stay so |
| `Collector.Collector.ProcessOrders` | src/kalshi_router/entry_capture_loop.py:83-137 | the loop over a pass's orders, or one more error when the exchange could not be read |
| `Collector.Collector.SampleMarkets` | src/kalshi_router/entry_capture_loop.py:63-80 | after any rounds of sampling the ring holds, for every ticker, the kept part of everything that arrived for it |
| `Collector.Collector.State` | src/kalshi_router/entry_capture_loop.py:160-164 | a collector restarted from what is saved has the very same books |
| `Collector.RunKeepsSound` | src/kalshi_router/entry_capture_loop.py:83-182 | over any passes, failures, saves and restarts from the last save, however much is lost in between: seen, historical and ignored stay disjoint, the aggregates balance, and what was saved is never forgotten |
| `Collector.RestoredIsSound` | src/kalshi_router/entry_capture_loop.py:31-60 | a collector starts sound, and what an older version counted is ignored from then on |
| `Collector.RestoredIs` | src/kalshi_router/entry_capture_loop.py:31-60 | what a start gives back: nothing, everything, or, from another version, only what was set aside, with every counted order ignored |
| `Collector.CountedOnce` | src/kalshi_router/entry_capture_loop.py:103-104 | an order once counted, set aside or ignored is passed over by every later pass, across restarts too if it was saved |
| `Classify.TaxonomyAffirms` | src/kalshi_router/classify.py:372-421 | the counting loop affirms exactly when one claimant holds the direct answer and none is a rival or unknown |
| `Classify.ClaimantOrderIrrelevant` | src/kalshi_router/classify.py:396-421 | the collision gate ignores the order of the claimants |
| `Classify.WeighAll` | src/kalshi_router/classify.py:711-732 | the loop over weaker verdicts: overruled, or a conflict |
| `Classify.AnswerIsExact` | src/kalshi_router/classify.py:606-735 | the sport the whole hierarchy answers, as a function of the event's, the series' and the registry's verdicts; `ClassifiedIff` says it of the evidence itself |
| `Classify.FailsClosed` | src/kalshi_router/classify.py:642-735 | a routable answer is never given against the event's competition or milestone nor against a decisive series verdict; `AmbiguousIsBacked` says what an ambiguous competition needs |
| `Classify.ClassifiedIff` | src/kalshi_router/classify.py:606-735 | a market is placed in a sport if and only if, in terms of the catalogue, the milestones and the matched metadata, its event names it and the series names no other, or nothing does but the series, or nothing but the registry; and by which level |
| `Classify.EventIs` | src/kalshi_router/classify.py:424-527 | what the event says, exactly: by its competition's own name, by the catalogue's sport, or by a milestone; or why it refuses |
| `Classify.SeriesIs` | src/kalshi_router/classify.py:530-585 | what the series metadata says: one league, several, a rival sport, an ambiguous family, a category, in that order |
| `Classify.AmbiguousIsBacked` | src/kalshi_router/classify.py:372-473 | a routable answer for an ambiguous competition is the direct one; exactly one claimant's members hold it, none is unknown, and every other's are ruled out member by member |
| `Classify.RefusedIs` | src/kalshi_router/classify.py:642-735 | the reason a market that is not placed is given, exactly |
| `Classify.MarksAre` | src/kalshi_router/classify.py:655-735 | the unverified, overruled and rescuable marks, exactly |
| `Classify.RegistryOnlyYields` | src/kalshi_router/classify.py:588-735 | removing the registry entry never changes the sport when another level decides or refuses |
| `Classify.RegistryDecidesIff` | src/kalshi_router/classify.py:670-735 | the registry decides exactly when the event says nothing and the series metadata decides nothing |
| `Classify.ConflictingSeriesStillRouted` | src/kalshi_router/classify.py:560-712 | a series that names two leagues is still routed by the registry |
| `Classify.ClassifyCombo` | src/kalshi_router/classify.py:767-822 | the loop over the legs computes the combo rule |
| `Classify.LegsOrderAndRepeatsIrrelevant` | src/kalshi_router/classify.py:796-822 | permuting or repeating legs changes nothing |
| `Classify.LegsDecideIff` | src/kalshi_router/classify.py:764-822 | legs decide exactly when the combo's own evidence found nothing, every leg is stated, and all are one routable sport |
| `Classify.LegsAgree` | src/kalshi_router/classify.py:767-822 | legs that are all one sport of ours answer for a combo that found nothing, confirm one that found the same, and conflict with one that found another |
| `Classify.LegsSpan` | src/kalshi_router/classify.py:796-812 | two legs of different sports refuse |
| `Classify.LegUnusable` | src/kalshi_router/classify.py:796-808 | a leg that is a combo itself or none of our sports refuses |
| `Classify.LegsNotAsked` | src/kalshi_router/classify.py:767-795 | when the combo's own evidence stands alone, and when its legs are missed |
| `Ranking.RankEntries` | contract/edge_finder_contract/research.py:181-198 | the loop's output is a permutation in order; each rank is one more than the number of better entities, and the percentile follows from it |
| `Ranking.RankingIs` | contract/edge_finder_contract/research.py:181-198 | in the entries' own terms: values descend, or ascend where lower is better, ties in order of name; a rank is one more than the number of entries above, and the percentile the part of the universe that is no better |
| `Ranking.PercentIs` | contract/edge_finder_contract/research.py:181-198 | what a share comes to out of a hundred |
| `Ranking.ExactIsInOrder` | contract/edge_finder_contract/research.py:675-678 | the published-graph check accepts every such ranking |
| `Ranking.RankSaysEverything` | contract/edge_finder_contract/research.py:181-198 | equal ranks mean equal values, a better value a strictly better rank; percentiles lie in (0, 100] and depend on rank alone |
| `Ranking.Summarise` | contract/edge_finder_contract/research.py:221-230 | minimum, maximum, best and worst entity of a ranking |
| `Ranking.ContextFromRanking` | contract/edge_finder_contract/research.py:245-259 | the context is that entity's entry, or absent exactly when it has none |
| `Ranking.ExtremesBelongToTheirEntities` | contract/edge_finder_contract/research.py:221-259 | the context's best and worst values are those of the best and worst entities |
| `EvidenceLedger.CloseProblems` | contract/standalone/execution_evidence_ledger.py:235-282 | no problem is reported exactly when the CLOSE row is valid |
| `EvidenceRows.ValidCloseIff` | contract/standalone/execution_evidence_ledger.py:235-282 | what a CLOSE row must be, field by field, for each quality |
| `EvidenceRows.EvidenceIsFiled` | contract/standalone/execution_evidence_ledger.py:172-389 | every row of an evidence import: refused exactly when it is not fine; NEW exactly when nothing before it is about the same evidence; otherwise by whether the last that is says the same apart from when it was recorded; and a NEW row is filed unchanged |
| `EvidenceLedger.EvidenceImporterLawful` | contract/standalone/execution_evidence_ledger.py:306-319 | the evidence importer meets the shared importer's contract, so all its laws hold |
| `EvidenceLedger.EvidenceStaysClean` | contract/standalone/execution_evidence_ledger.py:348-389 | a clean ledger stays clean and only grows under any import, and a repeated one changes nothing |
| `EvidenceLedger.ValidateLedger` | contract/standalone/execution_evidence_ledger.py:322-414 | no problem is reported exactly when the file reads, every row is valid and under its own key, and none is an orphan |
| `EvidenceLedger.RunKeepsGoodFile` | contract/standalone/execution_evidence_ledger.py:322-414 | from a good file, after any imports of printable rows, the file reads as a clean ledger that extends the old one, and the validator finds a problem exactly when some row is an orphan |
| `EvidenceLedger.OrphanIsFiled` | contract/standalone/execution_evidence_ledger.py:348-411 | the importer does file an orphan |
| `Closes.ParseCandlesticks` | src/kalshi_router/closes.py:83-109 | a response is read exactly when every candle in it parses and no two end together; what is read is the response's candles in strict time order, prices in [0, 1] |
| `Closes.ParseCandleIff` | src/kalshi_router/closes.py:62-108 | a row reads as a candle exactly when it states it: a positive whole end, exact dollars or else whole cents for each close, and a volume in either spelling |
| `Closes.CloseIsLatestUsable` | src/kalshi_router/closes.py:156-193 | a close is read from the latest usable candle at or before the cutoff |
| `Closes.TrueCloseIff` | src/kalshi_router/closes.py:156-193 | TRUE_CLOSE exactly when that candle is uncrossed, within the gap and no longer than an hour |
| `Closes.ResolvedIs` | src/kalshi_router/closes.py:156-193 | the close that is resolved, whole: quality, source, times, the last speaking candle's own prices, minutes before the cutoff, and every mark |
| `Closes.MissingIs` | src/kalshi_router/closes.py:152-175 | why none is |
| `Closes.GotIsNamed` | src/kalshi_router/closes.py:196-217 | where a close says it comes from |
| `Closes.ResolvedIsHonest` | src/kalshi_router/closes.py:156-193 | what every resolved close carries |
| `Closes.AcceptedIff` | src/kalshi_router/closes.py:134-149 | the row a resolved close becomes is accepted by the evidence ledger exactly when it is MISSING, or both sides of the quote are there or neither, prices lie strictly between 0 and 1 and no cutoff source is set |
| `Closes.BodyIs` | src/kalshi_router/closes.py:129-149 | the row of a close that was found, field by field, what is unknown left out |
| `Closes.MissingBodyIs` | src/kalshi_router/closes.py:134-137 | the row of one that was not |
| `Closes.CloseRowIs` | src/kalshi_router/evidence_emission.py:59-66 | the row it is sent in, and the key the evidence ledger files it under |
| `Closes.FetchAndResolve` | src/kalshi_router/closes.py:200-225 | exactly which requests are made, in order: minute candles over the last minutes, then hour candles over the last hours, the historical route only behind an empty live one, up to the first true close; and the answer is that one, else the latest proxy of all asked and the first found of those, else missing |

## Left out

- RunKeepsInv: that main's ledger grows under unique keys when somebody else commits to it is an assumption about the destination, not a result.
- NoWagerIsLost: states conservation on the remote, not on receipts; a refused push leaves accepted receipts with nothing delivered (`StaleLeaseChangesNothing`).
- GatedMergeKeepsMain: of another canonical file that the commit changed it says whose content lands, not that this appends; a run whose importer wrote nothing but its ledger changes no such file.
- RunAdopts: is about runs that could fetch the branch and compare the two ledgers; a failed fetch keeps the head but does not adopt it.
- BoundedPages: a server that never ends an unbounded walk is cut off at the end of a finite list of answers.
- RankEntries: percentiles are exact shares; the two-decimal rounding is not modelled, nor are mean, median and deviation.
- FailsClosed: takes the tokens found in metadata text as input; matching them is not modelled, and the lists of evidence a classification carries are not.
- ParseCandlesticks: reads a JSON float equal to a whole number as a whole number, as numbers here are reals.
- Publish: document names are distinct and none is `manifest` or `health`; the byte counts in a manifest, staging, and the removal of empty directories are not modelled.
- VerifyPublished: schema validation and cross references are one predicate of the documents.
- NaN and infinities, keys that are lists or objects, and conflict lists that are not lists: the code raises or compares oddly on them; the model has no such values or reads them as absent.
- Reasons, log lines, sorted reports and every other text meant for people.
- Python's rounding of floats: money, prices, spreads and tolerances are reals.
- HTTP, signing, retries, `git` and `gh` processes, argument parsing, dry runs, the observation hold before a merge.
- Ledgers kept as one file per record, whose canonical paths are prefixes: the protocol and the diff reader cover the line-per-record layout.
- The destinations' own importers: they are assumed to keep the importer contract that is proved of the routed ledger, plus a creation stamp; whatever else they leave behind is arbitrary in the protocol.
- Execution and link rows of the evidence ledger, identifier privacy checks and the recommendation join: predicates here.
- The legacy cohort's two summary numbers, the collector's gap and pass counters, and market sampling beyond one snapshot at a time.
- Explorer publication, time series, the taxonomy and registry tables, cutovers and backfill windows.
