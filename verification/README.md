# A verified model of SCAManager's protocols, gates and policies

These Dafny modules model the parts of SCAManager whose behaviour spans more than one function, and prove what
those parts are for. `dafny verify dfyconfig.toml` checks all of it.

| file | what it models |
|---|---|
| `Failover.dfy` | the session factory that fails over between two databases: an interleaving protocol of any number of callers and one probe thread, and the factory as a class whose calls are runs of that protocol |
| `CommentStripper.dfy`, `VisibleDocument.dfy`, `HiddenText.dfy` | the stripper that removes what a reviewer cannot see of a pull request body, against a quantified definition of the visible lines and columns of a document, and the claim-review gate on top of it |
| `MarkdownLines.dfy` | what the marks mean on one line: fences, inline code, comments within a line |
| `GateRules.dfy` | that gate with the code and guard surfaces of the repository and its classifier of version bumps |
| `DocsSync.dfy`, `DocsLedger.dfy`, `DocsText.dfy`, `LedgerEntry.dfy`, `DocsExample.dfy` | the script that derives the test counts of three documents from the last ledger entry, and the check that reads them back |
| `RowSecurity.dfy` | the row-level-security policies as predicates over a database with NULLs, three-valued comparisons and nested subqueries that are filtered themselves |
| `UnifiedDiff.dfy`, `DiffNumbers.dfy`, `VersionBump.dfy` | `-U0` diffs of edit scripts, two parsers of new-file line numbers, and the classifier that accepts pure action version bumps |
| `ConnectionUrl.dfy`, `UrlParts.dfy` | normalisation of the database URL, and what is read of one written part by part |
| `MemorySections.dfy`, `Scheduling.dfy`, `Backfill.dfy`, `BodyLimit.dfy`, `CommentBlocks.dfy`, `Translations.dfy` | prescriptive sections of memory files, the job scheduler, the paged backfill, the request body limiter, the bilingual comment check, and the translation inserter |
| `Text.dfy`, `TextLines.dfy`, `Decimal.dfy`, `Counting.dfy` | splitting, joining and searching strings; the lines of a text; numerals; counting |

Outside inputs (query outcomes, the text of documents, diffs and pull requests, the clock, the inner application of
the middleware, `git` results) are parameters. Patterns are small recognisers. Where a proof needs only a few facts
about the recognisers, they travel in a datatype (`Grammar`, `Marks`, `Format`, `Policy`, `Style`, `Patterns`,
`Rules`), the theorem holds for every value with those facts, and a lemma shows that the ones in use have them
(`DocsScript.DocsSound`, `UnifiedDiff.GitIsSound`, `SupabasePolicy.SupabaseSound`, `CommentStyle.StyleSound`).

## What turned out to be false, and exactly when it holds

- The flag can flap after the primary has recovered, as often as there are callers holding an old failure; the bound
  is reached (`FlappingBoundIsTight`).
- A session stays open if and only if a primary query raised something other than `OperationalError`
  (`NoLeakIffErrorsAreOperational`).
- A fix of the documents is followed by a green check if and only if the summary line and the cell's unit count exist
  and the first integration count marked as current is the tracking cell's own, or fits the sum anyway
  (`RepairThenCheck`). The instructions of `scripts/check_docs_sync.py` promise it without the condition; three
  documents for which the fix succeeds and the check fails are in `EarlierCountBlocksTheCheck`.
- An API call can be visible to two users although both its columns are set and no repository is ownerless: when it is
  charged to one user and hangs off a repository of the other (`CrossAttributedCallIsShared`; all cases in
  `SharedRows`).
- A guard outside the code surfaces needs no review trace: a person passes the gate exactly with a visible trace and no
  exemption marker, or without touching code or claiming a seal (`GuardsNeedAVisibleTrace`). `guard_surfaces` judges
  the unfiltered paths in order to see `tools/check_x.py`, but the early exit comes first
  (`GuardOutsideCodeNeedsNoTrace`).
- The line walker lists exactly the added lines with their numbers if and only if every hunk is faithful: no added line
  begins with `++` or holds another line break, nothing that is cut off a removed line or a hunk's heading looks like an
  added line, and what looks like a hunk header there names the right number (`WalkerExact`). A removed line with a form
  feed before a plus sign is enough to make it report a line that is not in the file (`FormFeedMisleads`). The
  header-only parser is exact if and only if no hunk header in the file headers or behind a carriage return, which
  decoding makes a line feed, names a number that no added line has (`HeaderOnlyExact`); one removed line of that kind
  misleads both parsers (`ReturnMisleadsBoth`).
  Where nothing cut off a line reads as a hunk header, the two parsers give the same numbers if and only if in every
  hunk as many pieces look like added lines as there are (`ImplementationsAgreeIff`); without other line breaks that
  means that none begins with `++` (`UnbrokenHunk`). Otherwise the walker can go astray alone (`HeaderMisleads`); where
  it is exact, the two agree if and only if the header-only parser is exact too (`FaithfulAgreeIff`).
- The documentation of `action_version_bump_only` promises that every changed line is a `uses:` line. That fails twice.
  Whatever stands behind another line break in a line is not seen (`BreakHidesText`, `BreakHidesStep`): then neither the
  bag of action paths nor the other lines need be kept. Where cutting a printed line at its other breaks never changes
  how it is read, the bag is kept, and the other lines are kept if and only if no removed line begins with `--` and no
  added line with `++` (`VersionBumpConserves`, `EscapeHidesLine`, `EscapeHidesMark`). Lines without another break are
  of that kind (`BreakFreeIsTame`), and so are lines that end in a carriage return (`CarriageReturnIsTame`).
- URL normalisation is idempotent except where SSL has to be asked for behind a `#` (`IdempotentIff`, `FragmentGrows`,
  `NotIdempotent`). The note in `_drop_blank_sslmode` that a reader who takes `#` for an ordinary character then sees
  `sslmode=require` holds only in the cases of `PlainView`; one where it fails is `NotSeenPlainly`.
- A job aims at the instant of an earlier turn, or at one before it, if and only if the turn begins before that instant
  (`NoRepeatIff`, for whole runs `IncreasingIff`). A sleep that ends early is what allows it, and does not always lead
  to it (`EarlyWakeRepeats`).
- Rows whose id is not positive are never judged by the backfill (`Backfill`).
- A second run of the translation inserter changes nothing, for distinct comments, if and only if no translation is the
  comment of an earlier pair (`SecondRunIff`). Two translations of one comment make every file with that comment grow
  with every run (`RepeatedCommentGrows`). A translation of a last line without a line break is written onto that line
  (`GluedToLastLine`, `CommentIsLost`).

## Model

| member | source | states |
|---|---|---|
| FailoverProtocol.SafeOverEveryRun | src/database.py:195-254 | over every interleaving: fallback only where configured, at most one thread in the critical section, and with a fallback no session is handed out whose health query did not succeed |
| FailoverProtocol.HandedIffHealthy | src/database.py:205-231 | with a fallback, over every run: a session was handed out if and only if the event of a caller standing at it was a health query that succeeded |
| FailoverProtocol.ClosedIffFailed | src/database.py:206-231 | and it was closed if and only if such a query failed, on the primary with an OperationalError |
| FailoverProtocol.SwitchesAlternate | src/database.py:182-186 | the writes of the flag read fallback, primary, fallback, ... in every run, and the flag shows the last one: the re-check under the lock makes no write redundant |
| FailoverProtocol.SwitchesAreJustified | src/database.py:213-224 | a caller that switches itself saw an OperationalError in this call; the probe that switches back itself saw a healthy primary since it woke |
| FailoverProtocol.SwitchesSpendFailures | src/database.py:221-224 | conservation over any stretch of any run: switches plus pending failures at the end are at most pending failures at the start plus new ones |
| FailoverProtocol.FlappingBounded | src/database.py:203-231 | from any state on, while primary queries do not fail, switches to the fallback number at most the callers already holding a failure |
| FailoverProtocol.FlappingBoundIsTight | src/database.py:203-254 | for every n a legal run of n callers reaches that bound |
| FailoverProtocol.RecoveryIsPermanent | src/database.py:239-254 | with no old failure left, the end of one probe round puts the flag on the primary and no continuation takes it away |
| FailoverProtocol.OpenSessionsConserved | src/database.py:205-231 | at every point the open sessions are those of callers at a query plus one per uncaught primary error |
| FailoverProtocol.NoLeakIffErrorsAreOperational | src/database.py:213-220 | at rest every session was handed out or closed if and only if every primary error was an OperationalError |
| FailoverProtocol.NoDeadlock | src/database.py:195-231 | in every reachable state a caller inside a call can move, or waits for a lock whose holder can |
| FailoverProtocol.LockIsReleased | src/database.py:221-224 | from every reachable state the holder alone frees the lock, in at most four steps |
| FailoverProtocol.HolderMoves | src/database.py:221-252 | whoever holds the lock can take its next step and is then nearer to releasing it |
| FailoverProtocol.OwnStepsRunOut | src/database.py:195-231 | every step of a caller inside a call brings that call nearer its end and leaves the other calls alone |
| FailoverFactory.FailoverSessionFactory.constructor | src/database.py:131-158 | the factory starts on the primary with no session |
| FailoverFactory.FailoverSessionFactory.Open | src/database.py:205-214 | one session more, open, on the given engine |
| FailoverFactory.FailoverSessionFactory.Settle | src/database.py:206-220 | that session is returned or closed and remembers whether its query was healthy; no other changes |
| FailoverFactory.FailoverSessionFactory.UseFallback | src/database.py:225-231 | the fallback session is returned after a healthy query, otherwise closed and the error raised |
| FailoverFactory.FailoverSessionFactory.Call | src/database.py:195-231 | one call is a legal run of the protocol. The caller gets a session if and only if there is no fallback, the flag was on the primary and its query succeeded, or the fallback was tried and its query succeeded: then the last one opened, returned. Otherwise it gets the error of that session's query, and the session is closed, except after another error on the primary. Flag, number of sessions and earlier sessions in every case |
| FailoverFactory.FailoverSessionFactory.ProbeOnce | src/database.py:243-252 | one probe round is a legal run of the protocol and returns to the primary exactly after a healthy query |
| FailoverFactory.ScheduleEffect | src/database.py:195-231 | the run of one uninterrupted call is legal, and its effect in closed form |
| CommentStripper.StripHtmlComments | scripts/check_claim_review_trace.py:143-195 | the scan with `find` and `pos` outputs what the line automaton keeps; that this is the visible text of the document is `StripShowsVisible` |
| CommentStripper.RenderLines | scripts/check_claim_review_trace.py:156-194 | the line automaton; comment and fence flag are never both set (what they mean: `ModeIsOpen`) |
| CommentStripper.StripLine | scripts/check_claim_review_trace.py:174-193 | within a line: the scan agrees with the quantified predicate for hidden columns and for the end of the line |
| CommentStripper.UnmarkedLineKept | scripts/check_claim_review_trace.py:174-191 | outside comments a line without an unmasked opener is kept verbatim and opens nothing |
| MarkdownLines.MaskIs | scripts/check_claim_review_trace.py:134-176 | blanked out are exactly the columns that lie between two backticks with something and no backtick between them, the backticks included, where such spans are taken from left to right |
| MarkdownLines.CodeIsKept | scripts/check_claim_review_trace.py:174-191 | a line of text in which every opener meets inline code is kept as it is and opens nothing |
| MarkdownLines.CodeExample | scripts/check_claim_review_trace.py:174-191 | a concrete line with an opener in inline code is kept; without the backticks its rest is hidden |
| MarkdownLines.FenceIs | scripts/check_claim_review_trace.py:133-133 | a fence is three backticks or three tildes behind at most three blanks or tabs |
| MarkdownLines.CommentInLine | scripts/check_claim_review_trace.py:174-193 | in a line without backticks a comment leaves what stands before it and what a line with the rest alone would show |
| MarkdownLines.OneComment | scripts/check_claim_review_trace.py:174-193 | with one comment in the line, opened outside code spans and closed at the first closer behind the whole opener, what stands before and behind it is left |
| MarkdownLines.NothingToStrip | scripts/check_claim_review_trace.py:143-195 | a text without any opener is left as it is |
| VisibleDocument.StripShowsVisible | scripts/check_claim_review_trace.py:143-195 | the stripped text is exactly the visible characters of the document in order: those outside the comments and fences that the quantified definition opens, line by line and column by column, without lines wholly inside a comment |
| VisibleDocument.ModeIsOpen | scripts/check_claim_review_trace.py:156-173 | before every line the comment flag is set if and only if some earlier line starts a comment that no line in between closes, and the fence flag likewise; never both |
| VisibleDocument.MarkedIsRight | scripts/check_claim_review_trace.py:156-173 | every document has such a marking of the lines that start a comment or a fence |
| VisibleDocument.RightIsUnique | scripts/check_claim_review_trace.py:156-173 | and only one |
| HiddenText.ClosedCommentRemoved | scripts/check_claim_review_trace.py:156-195 | a comment over several lines, opened where no code span or fence hides it and not closed in its body, leaves the visible text before it and, on a line of its own, the visible text after it |
| HiddenText.HiddenBodyIrrelevant | scripts/check_claim_review_trace.py:156-195 | replacing the body of a comment by any other with a line break leaves the stripped text identical, code spans and fences in either body included, as long as both leave the opener live and hold no closer |
| HiddenText.UnclosedTailIrrelevant | scripts/check_claim_review_trace.py:149-160 | whatever follows an opener that is live and never closed does not count, code spans and fences included |
| HiddenText.OpensForUnticked | scripts/check_claim_review_trace.py:176-187 | for every body that does not close the comment and has no backtick in its first line, whether the opener is live depends on the text before it alone |
| ClaimReviewGate.Gate | scripts/check_claim_review_trace.py:548-741 | exit code 0 exactly for the pull requests that pass, with separate answers of the two path queries |
| ClaimReviewGate.HiddenTextCannotChangeVerdict | scripts/check_claim_review_trace.py:198-240 | the verdict is the same for every body of a comment over several lines, for the same title, commits and paths |
| ClaimReviewGate.GuardsNeedAVisibleTrace | scripts/check_claim_review_trace.py:592-635 | a person on a guard surface passes if and only if no code is touched and no seal claimed, or there is a visible trace and no exemption marker |
| ClaimReviewGate.ExemptionDecides | scripts/check_claim_review_trace.py:576-703 | with an exemption marker a pull request passes if and only if it claims no seal and touches no code, or touches no guard and not both; without one, if and only if neither, with a visible trace, or for a bot with known paths, no seal over code, and a version bump of all guards |
| ClaimReviewGate.SelectIs | scripts/check_claim_review_trace.py:315-333 | the paths on a surface are listed each as often as it occurs and in their order: the list is the only one that picks exactly their positions |
| ClaimReviewGate.HaystackLines | scripts/check_claim_review_trace.py:553-567 | searched for seal claims are the lines of the title, of the visible body and of the commit messages |
| GateRules.GuardOutsideCodeNeedsNoTrace | scripts/check_claim_review_trace.py:263-333 | under the surfaces and the file-name rule in use, a person who changes the guard `tools/check_x.py` alone passes without a trace, whatever counts as a trace or an exemption, unless a seal is claimed |
| GateRules.GuardsOutsideCode | scripts/check_claim_review_trace.py:263-333 | the guards on no code surface are exactly those that only the file-name rule finds |
| GateRules.BotsOnGuards | scripts/check_claim_review_trace.py:592-700 | a bot that changes guards passes if and only if no code is touched and no seal claimed, or there is no exemption marker and either a visible trace, or an accepted version bump of all changed guards and no seal claimed over code |
| GateRules.BotBumpConserves | scripts/check_claim_review_trace.py:666-700 | where a bot passes on code or with a seal claim, but without a trace, every changed path that is a guard is a workflow, and bags of actions and other lines are kept as `VersionBumpConserves` says |
| GateRules.GuardNameIs | scripts/check_claim_review_trace.py:312-333 | the name rule looks at the file name alone |
| GateRules.NameCharacters | scripts/check_claim_review_trace.py:312-312 | the characters of these names, one by one |
| GateRules.CheckFiles | scripts/check_claim_review_trace.py:312-312 | `check_` and `.py` make a guard exactly with one or more word characters between them |
| GateRules.TestFiles | scripts/check_claim_review_trace.py:312-312 | `test_` and `.py` make one exactly with small letters, digits and underscores between them that contain `guard` |
| GateRules.CodeBesideGuards | scripts/check_claim_review_trace.py:263-296 | the code surfaces are the guard directories and files, the sources, the migrations and the end-to-end tests |
| GateRules.WorkflowsAreGuards | scripts/check_claim_review_trace.py:261-296 | the files of which version bumps are accepted are guards, and code |
| DocsSync.FixedNumbers | scripts/check_docs_sync.py:432-441 | after the three substitutions every pattern reads the ledger's numbers back, and the first current integration count is one exactly if it is the cell's |
| DocsSync.FixCurrentTwice | scripts/check_docs_sync.py:432-441 | the substitutions do nothing the second time |
| DocsSync.FixStateParts | scripts/check_docs_sync.py:137-155 | the ledger and its place are kept, so the post-condition of the script never fires |
| DocsSync.BadgeFixed | scripts/check_docs_sync.py:484-494 | an unambiguous badge stays unambiguous through both badge substitutions and then carries the ledger's numbers, the integration count included |
| DocsSync.E2eFixed | scripts/check_docs_sync.py:477-492 | an unambiguous end-to-end badge carries the baseline if that is a number, and is left alone otherwise |
| DocsSync.FixReadmeTwice | scripts/check_docs_sync.py:478-494 | a second pass over a README changes nothing |
| DocsSync.RepairThenCheck | scripts/check_docs_sync.py:257-350 | after a successful fix the check passes if and only if the documents were repairable |
| DocsSync.RepairUnambiguous | scripts/check_docs_sync.py:385-441 | with the lines present and one current integration count, a fix always makes the check pass |
| DocsSync.FixTwice | scripts/check_docs_sync.py:385-496 | a second fix succeeds and changes no document; the ledger is never touched |
| DocsSync.StateReadsBack | scripts/check_docs_sync.py:442-470 | the rewritten state document is written and read back without loss |
| DocsSync.Project.CheckConsistency | scripts/check_docs_sync.py:257-350 | true exactly when the three documents agree with the ledger's last entry and add up |
| DocsSync.Project.Rewrite | scripts/check_docs_sync.py:399-467 | the three new documents, or nothing when any of the refusals applies |
| DocsSync.Project.Write | scripts/check_docs_sync.py:469-494 | afterwards the files hold the new documents |
| DocsSync.Project.ApplyFix | scripts/check_docs_sync.py:385-496 | all or nothing: every document as specified, or no file changed |
| DocsSync.Project.Fix | scripts/check_docs_sync.py:562-585 | the fixing run as a whole ends well if and only if the documents were fixable and repairable, and the fixed ones pass the checks of the pins and of the lint value |
| DocsLedger.AppendedEntryWins | scripts/check_docs_sync.py:158-178 | an entry appended to a text that ends its line is its last bullet, whatever stands before it |
| DocsScript.AppendedEntryIsRead | scripts/check_docs_sync.py:158-178 | an entry appended at the end of the ledger, where no further section begins, is the one both readers read |
| DocsLedger.FormalPairs | scripts/check_docs_sync.py:89-108 | each opener with the total that follows before the next opener or total; the segment search agrees with the search of the whole line |
| DocsLedger.FindOpens | scripts/check_docs_sync.py:97-97 | all openers of the line, in order, found by the scan that jumps over each match |
| DocsLedger.LinePairIs | scripts/check_docs_sync.py:111-116 | the line is read if and only if exactly one opener owns a total, and then both numbers come from that opener: pairs never mix |
| DocsLedger.LedgerGood | scripts/check_docs_sync.py:30-31 | the two recognisers in use: no opener or total begins inside an opener, and a total is recognised in a segment as in the whole line |
| DocsScript.DocsSound | scripts/check_docs_sync.py:30-70 | the patterns in use keep their numbers apart and read numerals, as all theorems above need |
| DocsScript.FixThenCheck | scripts/check_docs_sync.py:30-70 | `RepairThenCheck` for the patterns and the ledger reader in use |
| DocsText.CheckMeans | scripts/check_docs_sync.py:257-350 | the check passes if and only if the heading and each badge occur once, the three lines occur in front of the ledger, all of them say the total and the unit count of the last entry, the two integration counts agree, and the first one marked as current, if any, is the difference of the numbers |
| DocsText.FixableMeans | scripts/check_docs_sync.py:399-467 | the documents can be fixed if and only if the heading and each badge occur once, the cell's total occurs in front of the ledger, and the last entry gives three numbers of which the first is the sum of the others |
| DocsText.SumsAre | scripts/check_docs_sync.py:425-425 | three printed numbers add up if and only if the numbers do |
| Decimal.DecimalExample | scripts/check_docs_sync.py:425-425 | a numeral is read in base ten |
| DocsText.OnlyCountsChange | scripts/check_docs_sync.py:432-441 | a fix changes nothing in front of the ledger but the numbers of the first summary line and of the cell's first lines |
| DocsText.OnlyBadgesChange | scripts/check_docs_sync.py:478-494 | and nothing in a README but the numbers of the first badge and of the only end-to-end badge |
| DocsText.CheckedTexts | scripts/check_docs_sync.py:257-350 | where the check passes, the texts contain the summary line, the lines of the cell and the badges with the ledger's numbers in their places |
| DocsText.FixedTexts | scripts/check_docs_sync.py:432-494 | after a fix the texts contain them with the numbers of the last entry, the integration count included |
| DocsText.FixedE2eText | scripts/check_docs_sync.py:489-492 | and an unambiguous end-to-end badge contains the baseline, if that is a number |
| LedgerEntry.EntryIsRead | scripts/check_docs_sync.py:30-31 | an entry `- (A → **B** 단위 + 통합 N) = **C** 수집` at the end of the ledger gives the total C, the unit count B and the integration count N, for all numbers |
| LedgerEntry.EntryText | scripts/check_docs_sync.py:30-31 | how that entry is written |
| LedgerEntry.LaterSectionIgnored | scripts/check_docs_sync.py:158-178 | what follows the next heading of the ledger's level is not read |
| DocsExample.EarlierCountBlocksTheCheck | scripts/check_docs_sync.py:385-441 | three concrete texts in which all lines exist: the fix succeeds, and the check then fails |
| RowSecurity.NestedEqualsFlat | alembic/versions/0029_rls_5_missing_tables.py:40-127 | evaluating each policy over tables already filtered by their own policies, two hops for gate decisions, gives the same truth value as over the raw tables |
| RowSecurity.UnseenWriteHarmless | alembic/versions/0026_supabase_rls_policies.py:51-98 | a write of a row that the user's policies do not pass changes nothing the user sees |
| RowSecurity.Noninterference | alembic/versions/0029_rls_5_missing_tables.py:40-127 | any sequence of inserts, deletes and edits of other tenants' rows leaves every view of a user unchanged |
| RowSecurity.OtherTenantIff | alembic/versions/0029_rls_5_missing_tables.py:40-127 | where references are intact, the rows of other tenants are exactly those that the user's policies do not pass, alerts on ownerless repositories aside |
| RowSecurity.ApplyInOrder | alembic/versions/0029_rls_5_missing_tables.py:40-127 | a sequence of edits is applied one after the other |
| RowSecurity.EditIsSeen | alembic/versions/0026_supabase_rls_policies.py:51-98 | what an edit writes is then seen by exactly those whose policies it passes, what it removes by nobody |
| RowSecurity.SharedRows | alembic/versions/0044_claude_api_calls_legacy_rls.py:28-55 | the rows of the seven dependent tables that two different users both see, exactly |
| RowSecurity.SharedReposAndAnalyses | alembic/versions/0026_supabase_rls_policies.py:51-98 | two different users both see a repository if and only if it has no owner, and an analysis if and only if its repository has none |
| RowSecurity.CrossTenantChangesAreShared | alembic/versions/0026_supabase_rls_policies.py:51-98 | an edit one user sees that changes the view of another one touches an ownerless repository, something that hangs off one, or an API call both see |
| RowSecurity.CrossAttributedCallIsShared | alembic/versions/0043_claude_api_calls.py:42-55 | a concrete call visible to two users without any ownerless repository |
| RowSecurity.LegacyClauseAddsOwnerlessCalls | alembic/versions/0044_claude_api_calls_legacy_rls.py:28-55 | the later policy shows what the earlier one showed and exactly the calls on ownerless repositories |
| RowSecurity.AnonymousSeesOwnerlessOnly | src/database.py:285-288 | without a request user, or with id 0, exactly the ownerless rows of every policied table are visible |
| RowSecurity.UserSeesRepos | src/database.py:285-288 | a request of user n sees exactly the repositories of n and the ownerless ones, and the analyses of both |
| RowSecurity.UserSeesMine | src/database.py:285-288 | and of every other policied table exactly the rows that carry n or hang off a repository of n, or off an ownerless one where the policy admits that |
| Sql.Kleene | alembic/versions/0044_claude_api_calls_legacy_rls.py:28-55 | the connectives are true or false exactly if they are so whatever unknown operands turn out to be |
| Sql.InIsFalse | alembic/versions/0029_rls_5_missing_tables.py:40-127 | membership is false exactly if no element is, or may be, the value |
| UnifiedDiff.InsertedPosition | scripts/check_noqa_sideeffect.py:115-138 | the number listed for an added line is its position in the new file |
| UnifiedDiff.InsertedIncreasing | scripts/check_noqa_sideeffect.py:115-138 | the listed numbers increase strictly |
| UnifiedDiff.InsertedAll | scripts/check_noqa_sideeffect.py:115-138 | every line of the new file that is not one of the old file's is listed |
| UnifiedDiff.HunksStand | scripts/check_noqa_sideeffect.py:115-138 | a hunk is placed where its removed lines stand in the old file and its added lines in the new one |
| UnifiedDiff.ReadHunkOfHeader | scripts/check_noqa_sideeffect.py:42-42 | printing a hunk header and reading it back gives the new-file range |
| UnifiedDiff.HunkWritten | scripts/check_noqa_sideeffect.py:42-42 | every text of the shape of the pattern is read as its new-file range, leading zeros and omitted lengths included |
| UnifiedDiff.HunkRead | scripts/check_noqa_sideeffect.py:42-42 | and no other text is read as a hunk header |
| UnifiedDiff.HeaderExamples | scripts/check_noqa_sideeffect.py:42-42 | how two headers are printed |
| UnifiedDiff.GitIsSound | scripts/check_noqa_sideeffect.py:42-61 | a printed hunk header is read back, and no signed line is taken for one, and what reads as a hunk header reads the same when it is cut at a break |
| TextLines.SplitLinesOfText | scripts/check_noqa_sideeffect.py:115-138 | splitting a text at every kind of break cuts its lines one by one |
| TextLines.BreaksAre | scripts/check_noqa_sideeffect.py:115-138 | the line breaks are ten characters, all of them white space |
| TextLines.SplitDecoded | scripts/check_noqa_sideeffect.py:115-138 | the decoding of the output, which turns a lone carriage return and one before a line feed into a line feed, changes nothing for a reader that splits at every kind of break |
| DiffNumbers.AddedLinesWithNumbers | scripts/check_noqa_sideeffect.py:115-138 | the walk over the split diff, lines before any header included |
| DiffNumbers.HeaderlessKept | scripts/check_noqa_sideeffect.py:121-138 | without any hunk header every added line is still listed, with no number |
| DiffNumbers.WalkerExact | scripts/check_noqa_sideeffect.py:115-138 | on the diff of any edit script, whatever its lines hold, the walker lists exactly the added lines with their numbers, in order, if and only if no piece of the file headers looks like an added line and every hunk is faithful |
| DiffNumbers.UnbrokenHunk | scripts/check_noqa_sideeffect.py:115-138 | without other line breaks a hunk is faithful, and balanced, if and only if no added line begins with `++` |
| DiffNumbers.AddedLines | scripts/check_witness_set_predicates.py:368-377 | the union of the ranges of all headers of the decoded lines |
| DiffNumbers.HeaderOnlyExact | scripts/check_witness_set_predicates.py:368-377 | on the decoded diff of any edit script, the header-only parser returns exactly the numbers of the added lines if and only if every number of a hunk header in the file headers or behind a carriage return is one of them |
| DiffNumbers.ImplementationsAgreeIff | scripts/check_witness_set_predicates.py:368-377 | on the decoded text, where nothing cut off a line reads as a hunk header: both parsers give the same numbers if and only if in every hunk as many pieces look like added lines as there are added lines |
| DiffNumbers.FaithfulAgreeIff | scripts/check_witness_set_predicates.py:368-377 | with such pieces: where the walker is exact, both give the same numbers if and only if no hunk header in the file headers or behind a carriage return names a number that no added line has |
| DiffNumbers.BreakMisleads | scripts/check_noqa_sideeffect.py:115-138 | a removed line with a break before a plus sign: the walker reports a line that is not in the file and numbers the added one wrongly, the other parser does not |
| DiffNumbers.HeaderMisleads | scripts/check_noqa_sideeffect.py:115-138 | a removed line with a break before a hunk header: the walker takes its number from there, although every count is right |
| DiffNumbers.ReturnMisleadsBoth | scripts/check_witness_set_predicates.py:368-377 | a removed line with a carriage return before a hunk header: both parsers report numbers that are none |
| DiffNumbers.FormFeedMisleads | scripts/check_noqa_sideeffect.py:115-138 | a concrete diff on which the parsers disagree |
| VersionBump.ActionVersionBumpOnly | scripts/check_claim_review_trace.py:529-545 | the loop over the diff accepts exactly when every counted line uses an action and both bags agree and are not empty |
| VersionBump.IsVersionBump | scripts/check_claim_review_trace.py:488-545 | the whole classifier: workflow paths only, a readable diff, and the loop's verdict |
| VersionBump.BumpIff | scripts/check_claim_review_trace.py:488-545 | where cutting never changes how a line is read, a diff of workflows is accepted if and only if every removed line uses an action or begins with `--`, every added one uses one or begins with `++`, and the two bags of actions agree and are not empty |
| VersionBump.NothingIsNoBump | scripts/check_claim_review_trace.py:513-545 | without a path, without a diff or with an empty one there is no bump |
| VersionBump.AcceptedKeepsActions | scripts/check_claim_review_trace.py:529-545 | for every diff printer and list of edited files, acceptance preserves the bag of action paths where cutting the printed lines never changes how they are read |
| VersionBump.AcceptedKeepsOtherLines | scripts/check_claim_review_trace.py:531-545 | under the same condition on one file, acceptance preserves its ordered other lines if and only if no removed line begins with `--` and no added one with `++` |
| VersionBump.VersionBumpConserves | scripts/check_claim_review_trace.py:488-545 | both, for the text `git diff -U0` prints, whatever its lines hold |
| VersionBump.BreakFreeIsTame | scripts/check_claim_review_trace.py:531-545 | a line without another break keeps its reading when it is cut |
| VersionBump.CarriageReturnIsTame | scripts/check_claim_review_trace.py:531-545 | and so does a line that ends in a carriage return |
| VersionBump.UsesWritten | scripts/check_claim_review_trace.py:477-485 | a written `uses:` line gives its action path exactly when nothing but a comment follows the reference |
| VersionBump.StepWritten | scripts/check_claim_review_trace.py:477-485 | and so does a step at any depth, with a list dash or without, any blanks where the pattern has them |
| VersionBump.StepRead | scripts/check_claim_review_trace.py:477-485 | and every line that is read as using an action is such a step |
| VersionBump.CommentIs | scripts/check_claim_review_trace.py:477-485 | a comment behind the reference is nothing, or a number sign behind blanks |
| VersionBump.HashInReference | scripts/check_claim_review_trace.py:477-485 | a number sign right behind the reference is no comment: the line uses no action |
| VersionBump.BreakHidesText | scripts/check_claim_review_trace.py:531-545 | for every action, every break and every text without a sign behind it: the diff is accepted, no line is an escape, and both the bag of actions and the other lines have changed |
| VersionBump.BreakHidesStep | scripts/check_claim_review_trace.py:531-545 | a concrete workflow step behind a next-line character |
| VersionBump.EscapeHidesLine | scripts/check_claim_review_trace.py:531-545 | every removed line that begins with `--` passes next to a bump, and the other lines have changed |
| VersionBump.EscapeHidesMark | scripts/check_claim_review_trace.py:531-545 | a concrete document mark removed together with a bump |
| ConnectionUrl.DropBlankSslmode | src/config.py:16-41 | exactly the blank sslmode tokens are cut; the parts outside the query are the same |
| ConnectionUrl.KeepTokens | src/config.py:31-37 | the tokens that are not blank sslmode tokens, in order |
| ConnectionUrl.PinScheme | src/config.py:250-253 | a bare scheme is replaced by the one that names the driver |
| ConnectionUrl.NormalizePgUrl | src/config.py:240-270 | nothing if the URL parser rejects the network location; otherwise the text the code builds is the shown form of the normalised URL |
| ConnectionUrl.LocationKept | src/config.py:240-270 | the network location stays, so what can be read once can be read again |
| ConnectionUrl.IdempotentIff | src/config.py:264-270 | normalising twice is normalising once if and only if SSL was not asked for behind a fragment, for every string |
| ConnectionUrl.SslCertain | src/config.py:264-270 | for a Supabase host the result names an SSL mode if and only if the URL did or has no fragment |
| ConnectionUrl.DropTokens | src/config.py:31-40 | the other filled tokens stay, in order |
| ConnectionUrl.SecuredTokens | src/config.py:267-269 | the filled tokens of the result are the old ones less the blank sslmode ones, then the setting; the part before the query is unchanged |
| ConnectionUrl.OnlyMode | src/config.py:267-269 | the setting is the only sslmode token if and only if no token named a mode as it stands |
| ConnectionUrl.OnlyModePlain | src/config.py:264-269 | without tabs and line breaks there is exactly one sslmode token |
| ConnectionUrl.PlainView | src/config.py:23-27 | when a reader to whom `#` is an ordinary character sees the setting as a token of its own, exactly, by the tokens and the fragment of the original URL |
| SupabasePolicy.SupabaseSound | src/config.py:264-269 | the decoded key, the host test and the setting in use meet what the theorems assume |
| SupabasePolicy.SupabaseIdempotentIff | src/config.py:240-270 | `IdempotentIff` for the key decoding, host test and setting in use |
| SupabasePolicy.FragmentGrows | src/config.py:264-270 | every Supabase URL with a plain host name, a fragment and no query or an empty one changes again with a second normalisation |
| SupabasePolicy.NotIdempotent | src/config.py:264-270 | a concrete one |
| SupabasePolicy.NotSeenPlainly | src/config.py:23-27 | a concrete URL after whose normalisation such a reader does not see the setting |
| UrlParts.DriverNamed | src/config.py:250-253 | both bare schemes become `postgresql+psycopg2://`, any other URL is left alone |
| UrlParts.LocationIs | src/config.py:264-266 | the network location stands between the scheme and the path, the query or the fragment |
| UrlParts.HostNameIs | src/config.py:264-266 | the host stands behind the last at sign and in front of the port, in small letters |
| UrlParts.SupabaseIff | src/config.py:264-267 | a URL written part by part is a Supabase one if and only if its host ends so, whatever user, password, path and query say |
| UrlParts.PlainKey | src/config.py:31-35 | a key without percent and plus signs is only itself |
| UrlParts.KeyExamples | src/config.py:31-35 | three encoded keys |
| UrlParts.HexDigits | src/config.py:31-35 | the hexadecimal digits and their values, one by one |
| UrlParts.LowerIs | src/config.py:264-266 | capital letters of host names become small ones, other characters stay |
| UrlParts.StrippedIs | src/config.py:264-264 | blanks and control characters in front of the URL do not count |
| UrlParts.RemovedIs | src/config.py:264-264 | tabs and line ends within it do not count either, everything else does |
| UrlParts.SchemeCharacters | src/config.py:264-264 | the characters of a scheme, one by one |
| UrlParts.SettingAppended | src/config.py:240-270 | a plain Supabase URL with a bare scheme gets the driver and `?sslmode=require` |
| MemorySections.LinesWithSurface | scripts/check_memory_refs.py:190-206 | the single level agrees with the outline: a line is prescriptive if the file is the index, the word is in the line, or an unfenced entry heading above it has no later heading of its level or above |
| MemorySections.FencedIsOdd | scripts/check_memory_refs.py:190-206 | a line is between fences exactly with an odd number of fence lines before it |
| Scheduling.DailyShows | src/scheduler.py:67-71 | the daily instants are exactly those that show the hour and minute |
| Scheduling.WeeklyShows | src/scheduler.py:74-79 | the weekly instants are exactly those that show the hour and minute on the weekday |
| Scheduling.TimeOfDay | src/scheduler.py:67-71 | an instant shows hour and minute exactly at that distance from midnight |
| Scheduling.EveryMinuteShows | src/scheduler.py:67-79 | every full minute is an instant of some daily and some weekly schedule |
| Scheduling.NextDailyIsLeast | src/scheduler.py:67-71 | the next daily run is an instant of the schedule after now and at most a day away |
| Scheduling.NextWeeklyIsLeast | src/scheduler.py:74-79 | the same for a week, from any weekday |
| Scheduling.NextDailyIsFirst | src/scheduler.py:67-71 | the next daily run is the first instant after now that shows the hour and minute |
| Scheduling.NextWeeklyIsFirst | src/scheduler.py:74-79 | the next weekly run is the first instant after now that shows them on the weekday |
| Scheduling.LeastIsLeast | src/scheduler.py:67-79 | such an instant is the first one strictly after now |
| Scheduling.RunJob | src/scheduler.py:212-230 | each turn aims at the instant computed at its start; a failed job does not end the loop, a cancellation does, in the job or in the sleep before it, where the job does not run; the instants rise as in `IncreasingIff`, and with punctual turns none fires early |
| Scheduling.FiresInOrder | src/scheduler.py:212-230 | for jobs of any length and outcome, sleeps that never end early fire at strictly later instants |
| Scheduling.IncreasingIff | src/scheduler.py:202-230 | over a whole run the instants increase strictly if and only if every turn begins at or after the instant of the turn before; for an interval job, if and only if every turn begins later |
| Scheduling.OnTimeIsPunctual | src/scheduler.py:212-216 | turns that wake on time and begin when the one before woke are punctual |
| Scheduling.IntervalApart | src/scheduler.py:202-216 | the instants of a job every n seconds lie at least n seconds apart, and exactly so when every turn begins on time |
| Scheduling.JobsAreProper | src/scheduler.py:163-170 | the six schedules in use are proper |
| Scheduling.EarlyWakeRepeats | src/scheduler.py:202-216 | two next turns after a sleep that ended early: one repeats the instant, the other does not |
| Scheduling.SkippedExactly | src/scheduler.py:202-216 | the skipped instants are exactly those that pass before the next delay is computed |
| Scheduling.NoRepeatIff | src/scheduler.py:202-216 | a later turn gets a later instant if and only if it begins at or after the earlier one's |
| Backfill.Table.constructor | alembic/versions/0046_analysis_score_unreliable.py:49-52 | a table in key order, nothing updated yet |
| Backfill.Table.Update | alembic/versions/0046_analysis_score_unreliable.py:73-76 | the row with the id gets the flag, no other row changes |
| Backfill.Table.UpdatePage | alembic/versions/0046_analysis_score_unreliable.py:61-76 | the rows of a page get their own verdict, once each |
| Backfill.Table.RunPage | alembic/versions/0046_analysis_score_unreliable.py:53-78 | one turn: the next page behind the last id is judged, or there is none |
| Backfill.Table.Backfill | alembic/versions/0046_analysis_score_unreliable.py:49-80 | for every page size the loop ends, judges each row with a positive id exactly once and counts them |
| BodyLimit.Connection.CountingReceive | src/main.py:107-114 | the next message, or a refusal once the limit is passed; refused pieces never reach the application |
| BodyLimit.Connection.TrackingSend | src/main.py:116-120 | sent on unchanged, and whether a response began is known |
| BodyLimit.Connection.Run | src/main.py:122-123 | the application's actions are carried out in order, and how its part ends |
| BodyLimit.Connection.Call | src/main.py:86-140 | whatever the application does: delivered bytes never pass the limit; a malformed or too large declared length is answered with a whole 400 or 413 response; a request within the limit passes unchanged both ways; the application's return and its own exceptions pass through; the limiter's exception becomes a whole 413 response, or is raised on if a response has begun |
| BodyLimit.TotalIs | src/main.py:109-112 | the total counts the bytes of the pieces of the body and nothing else |
| CommentBlocks.CheckLines | scripts/check_bilingual_comments.py:58-112 | the streaming check reports exactly the lines with Korean alone whose maximal comment block has no Latin word, in order |
| CommentBlocks.ViolationsAre | scripts/check_bilingual_comments.py:58-112 | each such line is reported once, in the order of the file |
| CommentBlocks.Flush | scripts/check_bilingual_comments.py:76-90 | a flush reports the suspect lines of a block without Latin words |
| Translations.ApplyPair | scripts/i18n_comments/_apply_test_translations.py:334-350 | the first line that is the comment gets its translation unless it already follows |
| Translations.File.ApplyTranslations | scripts/i18n_comments/_apply_test_translations.py:323-354 | the text is cut into lines, the pairs are applied in order and the lines written back; the total is the number of lines put in |
| Translations.DeletingRestores | scripts/i18n_comments/_apply_test_translations.py:334-350 | deleting the added lines gives back the file, and their number is the growth |
| Translations.DeletingRestoresText | scripts/i18n_comments/_apply_test_translations.py:323-354 | deleting the added lines from what is written gives back the text, and their number is the growth |
| Translations.PassRereads | scripts/i18n_comments/_apply_test_translations.py:330-353 | a text that ends in a line break is, after a run, read again as the lines that were written, and ends in one again |
| Translations.ApplyRereads | scripts/i18n_comments/_apply_test_translations.py:342-353 | after one pair the lines are read again as written if and only if nothing was put in or the line of the comment was ended |
| Translations.SecondPassInsertsNothing | scripts/i18n_comments/_apply_test_translations.py:338-342 | on lines: when no pair undoes an earlier one, a second pass changes nothing |
| Translations.SecondRunIff | scripts/i18n_comments/_apply_test_translations.py:323-354 | for distinct comments, a second run leaves every text that ends in a line break as it is if and only if no translation is the comment of an earlier pair |
| Translations.RepeatedCommentGrows | scripts/i18n_comments/_apply_test_translations.py:338-353 | two translations of one comment: n runs add at least n lines to every file that has the comment |
| Translations.GluedToLastLine | scripts/i18n_comments/_apply_test_translations.py:342-353 | without a final line break the translation is written onto the comment |
| CommentStyle.CommentIsLost | scripts/i18n_comments/_apply_test_translations.py:342-353 | a concrete file |
| CommentStyle.StyleSound | scripts/i18n_comments/_apply_test_translations.py:344-346 | an indented translation is recognised again, and is one line |
| CommentStyle.IndentTaken | scripts/i18n_comments/_apply_test_translations.py:334-346 | the translation is indented by one blank for every white character before the comment, however its line ends |
| CommentStyle.TrimIs | scripts/i18n_comments/_apply_test_translations.py:334-340 | trimming takes the white space off both ends and nothing else |

## Left out

- FailoverFactory.FailoverSessionFactory.Call: one call without interference; interleaved calls are the protocol's. Errors raised by opening or closing a session, the engine pools and the worker session factory are not modelled.
- FailoverProtocol.NoDeadlock: that some thread can move; which thread the system runs next, and so fairness, is not modelled.
- ClaimReviewGate.Gate: every recogniser is a parameter. `GateRules.InUse` fixes the surfaces and the version bumps; the patterns of seals, exemptions and traces stay parameters, as does which characters beyond ASCII are letters of a file name. Messages and step summaries are not modelled.
- HiddenText.HiddenBodyIrrelevant: comments within one line are excluded, since the text around such a comment shares a line. Stripping twice is not claimed to equal stripping once.
- DocsSync.Project.Fix: the checks of the pins and of the lint value are parameters, judged on the fixed documents.
- DocsSync.Project.CheckConsistency: the verdict, not the messages.
- DocsSync.Project.ApplyFix: digits are 0 to 9, where the patterns of the script take any decimal digit. A document is its text as read, with line feeds at the ends of lines; that other line ends in the file become line feeds is not modelled.
- RowSecurity.Noninterference: reads only; the policies under which a write is allowed, roles that bypass row security and the pooling of the session setting are not modelled.
- DiffNumbers.ImplementationsAgreeIff: changes without a line between them are one hunk, as git prints them. Which bytes decode to which characters is not modelled, only what decoding does to line ends. Where pieces cut off a line read as hunk headers and the walker is not exact, there is an example (`HeaderMisleads`) and no exact condition.
- VersionBump.VersionBumpConserves: where cutting a line changes how it is read, nothing is promised, as both conclusions can then fail. Whether an action behaves the same in its new version is not a question of the diff.
- ConnectionUrl.NormalizePgUrl: which network locations the URL parser rejects is a parameter.
- SupabasePolicy.SupabaseSound: host names are lowered in ASCII only.
- MemorySections.LinesWithSurface: the patterns for fences, headings and the entry word are parameters.
- Scheduling.RunJob: the turns are given as a list; dates past the year 9999 are not modelled.
- Backfill.Table.Backfill: decoding the stored result and judging it are one parameter; the table is in key order and nothing else writes to it.
- BodyLimit.Connection.Call: HTTP scopes only; the declared length arrives parsed.
- Translations.File.ApplyTranslations: one file, which exists; the loop over the files and the decoding of their bytes are not modelled.
- Translations.SecondRunIff: comments and translations are single lines, and no translation is blank; with the same comment and translation listed twice only the sufficient condition of `SecondPassInsertsNothing` is proved.
- The Python syntax-tree checks, scoring and grading, the merge retry queue, the dashboards and every network call.
