# CoreFlow, verified

A Dafny model of CoreFlow: payroll money held by a Soroban contract, and a database that mirrors the contract's event
log. Every operation is modelled in the form its source has (objects whose methods change their fields, loops with
invariants, pure tables), each method is tied to a value-level step, and the theorems are about those steps and about
whole runs of them.

| part | files |
|---|---|
| The custody contract | `Escrow` (one step of each entry point), `CoreFlowContract` (the object and its loops), `ContractRuns`, `Custody`, `Solvency`, `SettlementGate`, `Registry`, `Payability` (whole runs), `ContractVerdicts` (every answer), `ContractWitnesses`, `OracleMessage` (the signed preimage) |
| Payment lifecycle | `StateMachine` (the table and every writer), `Permissions` (the table by actor), `Transitions` (compare-and-swap under interleaving) |
| Event projection | `Events`, `Projection` (one event on one escrow's picture), `Tables` and `Indexer` (the same on flat tables), `Ingestion`, `Backlog`, `Refinement`, `Disagreements` and `MirrorRuns` (the mirror theorem), `ProjectionReports` and `IngestionReports` (what is said and counted) |
| Reconciliation | `Reconcile`, `ReconcileReports` |
| Funding bridge | `Eligibility`, `Confirmation`, `FundedRuns`, `BatchPayments`, `Intents`, `DoubleFunding` and `Signing` (the concurrent protocol, its records and its money), `FundingService`, `DeskRuns` (opening to CONFIRMED), `FundingReasons` (blockers, differences, verdicts), `FundingWitnesses` |
| Claim verification | `ClaimFormat` (the 256-byte codec), `Attest` |
| Small kernels | `Prelude`, `Bytes`, `Decimal`, `Money`, `RateLimit`, `Csv` |

`dafny verify dfyconfig.toml` checks everything.

## Assumptions, stated as hypotheses

- No outside call carries the contract's own signature (`ContractRuns.Outside`), and a new escrow's rows do not all
  enter already finalized (`ContractRuns.EntersUnpaid`; the escrow of one that does is dead from birth,
  `Payability.EnteredFinalizedIsNeverReleased`, which assumes neither). The contract stores rows as passed; a row that entered marked
  proven shows up as such in the settlement-gate theorems rather than being excluded. The mirror theorems ask that the
  mirrored escrow's own rows entered Pending and unverified, as the client builds them (`src/lib/contracts.ts:305-316`).
- Tokens move balances as asked or refuse; an invocation names the transfers its tokens would refuse. No issuer claws
  custody back.
- SHA-256 is a parameter, required not to collide on the inputs at hand; Ed25519 verification (section 5.1.7 of
  RFC 8032) is a predicate whose failure aborts the call.
- The database applies each transaction atomically; a transaction it rejects, for whatever reason, is an outage at that
  event. Paging tokens are compared as numbers.
- The reconciler's and the funding verifier's chain reads are given facts. Where the double-funding results need it, they
  are truthful: a transaction reported settled or reverted is, and one reported settled was sent (`DoubleFunding.Truthful`).
- Settling an escrow later assumes that the oracle, asked, signs each unproven row's hours (`Payability.OracleAnswers`),
  that no token refuses those payouts, and that a token's supply fits its 128 bits (`Solvency.SupplyFits`).

## What the code does differently from what it says

- `src/lib/indexer/index.ts:430-450`: the contract takes the two approvals in either order, but the projection reaches
  READY_TO_SETTLE only when the manager comes first. A settled row is PAID exactly then
  (`MirrorRuns.PaidExactlyManagerFirst`); otherwise a finding names it.
- `src/lib/indexer/index.ts:796-824`: the replay is said to make a claimed escrow's history reachable. It takes the
  earliest 1000 pending events, so a claimed event is ever reached exactly when fewer than that many events of
  unclaimed escrows are ahead of it (`Backlog.ReplayServes`).
- `src/lib/payments/state-machine.ts:5-10` says only the indexer may write PAID; the table also lets the reconciler.
- `src/lib/payments/reconcile.ts:13-16` says a PAID payment the chain denies is moved to RECONCILIATION_REQUIRED; the
  table always refuses (`Reconcile.PaidStays`), and the finding is the only trace.
- `src/lib/payments/reconcile.ts:72` deduplicates "identical" findings; it compares organization, payment and kind, so
  all orphaned slots of an organization share one (`Reconcile.OrphansShareOneFinding`).
- `src/lib/payments/reconcile.ts:279-288`: a cancellation seen on-chain is mirrored from six states; from any other it is
  neither mirrored nor recorded (`Reconcile.CancellationIsSilent`).
- `contracts/core-flow/src/lib.rs:482-536` and `796-871`: rotating the oracle key after an approval, or approving before
  every row is proven, leaves a funded escrow that is never paid (`ContractWitnesses`). `Payability.SettleableExactly` is
  the exact line; such an escrow can still be cancelled (`Payability.RefundableExactly`).
- `contracts/core-flow/src/lib.rs:634`: rows are stored with the status they are passed; if any enters
  finalized, custody neither settles nor returns, ever (`Payability.EnteredFinalizedIsNeverReleased`).
- `src/lib/funding/eligibility.ts:264` compares periods in milliseconds, `src/lib/funding/service.ts:345-347` rounds them
  to seconds (`Eligibility.GuardExactly`).
- `src/lib/funding/service.ts:11-17` says a double-click, a refresh or a second tab cannot become a double payment. Signing
  is outside the index's reach, and the money can move twice in three ways. A second tab is shown the attempt in flight
  (`543-545`) and signs it too, and the second hash is dropped without a word (`638-658`):
  `FundingWitnesses.SecondTabPaysTwice`. An abandonment takes an absent hash to mean that nothing was sent (`718`), but the
  hash is reported only after sending: `FundingWitnesses.AbandonedInTheWindowPaysTwice`. A tab left open signs an attempt
  already abandoned and replaced: `FundingWitnesses.StaleTabPaysTwice`. The money moves at most once where each attempt has
  one transaction, signed while it is in flight, and is abandoned only if none was signed (`Signing.OneMovePerBatch`);
  recording the hash before sending, and abandoning only without a hash, gives that (`Signing.RecordingFirstSuffices`). What
  an abandonment outside that order costs is exactly `Signing.AbandonmentExactly`.
- In the records alone: `failFundingIntent` abandons a submitted attempt and leaves its payments fundable, and
  `confirmFunding` does not ask whether the batch is already linked, so two attempts of one batch can both be CONFIRMED
  (`FundingWitnesses.TwiceConfirmed`). That takes an abandonment written over an attempt whose recorded transaction settles
  (`DoubleFunding.OneFundingPerBatch`), and exactly when such a one suffices is `DoubleFunding.StrayAbandonmentExactly`.
- `src/lib/funding/service.ts:708-715`: abandoning re-reads nothing before it writes, so a confirmation that lands in
  between is overwritten (`Intents.ConfirmedIsFinalExactly`, `FundingWitnesses.OverwritableIsReached`). After that an
  opener that had read the payments before they were linked can still open the batch again
  (`FundingWitnesses.StaleOpenerReopens`); one that reads them afterwards cannot (`DoubleFunding.ConfirmingEndsOpening`).
- `src/lib/funding/service.ts:18-23` says the planned payments are read back before funding is recorded. Rates, periods,
  the oracle key and the proof marks are not compared (`FundedRuns.ConfirmedMayDiffer`).
- `src/lib/ratelimit.ts:13` calls `retryAfter` the seconds until the window resets; a caller that waits exactly so long is
  refused again when the time to the reset was whole seconds, as the window still stands at its reset
  (`RateLimit.WaitingExactly`).
- `src/lib/money.ts:72-93`: with no decimals and untrimmed zeros, or more minimum digits than decimals, the printed form
  cannot be read back (`Money.PrintThenRead`).

## Model

| member | source | states |
|---|---|---|
| CoreFlowContract.CoreFlowContract.InitAdmin | contracts/core-flow/src/lib.rs:166-192 | The first caller to authorise becomes admin, never a second one, and only the pinned address where one is pinned; the whole new state is stated. |
| CoreFlowContract.CoreFlowContract.AcceptAdmin | contracts/core-flow/src/lib.rs:219-236 | Only the proposed address, with its own signature, completes a handover. |
| CoreFlowContract.CoreFlowContract.RevokeOracleKey | contracts/core-flow/src/lib.rs:346-355 | An admin-only removal from the registry that touches nothing else. |
| CoreFlowContract.CoreFlowContract.InitializeMultiSigEscrow | contracts/core-flow/src/lib.rs:540-708 | The nested loops over rows and distinct tokens do exactly the closed-form step `Escrow.Initialize`: the same error in the same order, or one new escrow, one transfer per token, a zero nonce and one event per row; a trap leaves the state untouched. |
| CoreFlowContract.CoreFlowContract.TrackNonce | contracts/core-flow/src/lib.rs:460-480 | Accepts exactly the stored next nonce, refuses to pass the last u64, and advances by one. |
| CoreFlowContract.CoreFlowContract.SubmitHoursProof | contracts/core-flow/src/lib.rs:716-793 | Marks one row proven only for hours whose earnings equal its amount, under a signature over the preimage rebuilt from stored state, before any approval; consumes one nonce. |
| CoreFlowContract.CoreFlowContract.RotateOracleKey | contracts/core-flow/src/lib.rs:482-536 | Replaces the key, clears every row's proof, counts the rotation; refused once anything is settled or cancelled. |
| CoreFlowContract.CoreFlowContract.ManagerApprove | contracts/core-flow/src/lib.rs:796-832 | Sets one flag, once, with the manager's own signature. |
| CoreFlowContract.CoreFlowContract.FinanceApprove | contracts/core-flow/src/lib.rs:835-871 | Sets the other flag, once, with the finance approver's own signature. |
| CoreFlowContract.CoreFlowContract.PayBatch | contracts/core-flow/src/lib.rs:886-975 | The settlement loop: every guard in order, one transfer per row from custody to that row's worker, every row finalized, one event per row; all or nothing. |
| CoreFlowContract.CoreFlowContract.CancelEscrow | contracts/core-flow/src/lib.rs:979-1064 | The refund loops: one transfer per distinct token back to the manager, every row cancelled; allowed while paused. |
| Custody.GroupedEqualsRowwise | contracts/core-flow/src/lib.rs:604-628 | Grouping by token is invisible: one transfer per distinct token succeeds exactly when one transfer per row would, and leaves the same balances. |
| Solvency.Solvent | contracts/core-flow/src/lib.rs:599-628 | After any run over any number of escrows, the contract's balance in every token is its opening balance plus the rows of all escrows neither settled nor cancelled plus what was given to it from outside. |
| Solvency.SupplyConserved | contracts/core-flow/src/lib.rs:926-954 | No run creates or destroys a token. |
| Solvency.CustodyCovers | contracts/core-flow/src/lib.rs:929-956 | In every reachable state custody covers all rows of any one open escrow in every token. |
| Solvency.SettlementExactly | contracts/core-flow/src/lib.rs:886-975 | In every reachable state settlement succeeds if and only if the contract is unpaused, the escrow open, doubly approved and fully proven, the manager signs and no payee's token refuses; want of custody or overflow never stops it. |
| Solvency.CancellationExactly | contracts/core-flow/src/lib.rs:979-1064 | In every reachable state cancellation succeeds if and only if the escrow is open, the manager signs and no token refuses the refund; pausing does not stop it. |
| Solvency.CancelRestores | contracts/core-flow/src/lib.rs:1001-1034 | Creation followed later by cancellation returns to the manager, in every token, exactly what creation took, whatever runs in between. |
| Solvency.SettlementPays | contracts/core-flow/src/lib.rs:926-954 | A settlement pays every holder exactly the rows that named them when the escrow was created, each in its own token. |
| ContractRuns.TermsAreImmutable | contracts/core-flow/src/lib.rs:630-639 | Over any continuation an escrow keeps its parties and every row's worker, token, amount, rate and period; once settled or cancelled it never changes. |
| ContractRuns.ClosedIsFinal | contracts/core-flow/src/lib.rs:986-999 | Custody of an escrow leaves at most once: after a settlement or cancellation no later call on it succeeds. |
| SettlementGate.PaidOnlyThroughTheGate | contracts/core-flow/src/lib.rs:716-924 | Every settled escrow had distinct manager and finance addresses, each of which signed; every row was attested under the key in force at settlement, after the last rotation and before the first approval, for hours that earn exactly its amount (or entered already marked proven). |
| SettlementGate.PaidRowsAreAttested | contracts/core-flow/src/lib.rs:912-924 | Where the escrow's own rows entered unproven, every paid row carries such an attestation. |
| Registry.RegistryExactly | contracts/core-flow/src/lib.rs:313-355 | After any run a key is registered if and only if the admin of the moment registered it, under its own signature, and no admin of the moment has revoked it since. |
| Registry.OnlyRegisteredKeys | contracts/core-flow/src/lib.rs:369-386 | Once there is an admin, a creation or rotation that succeeds names a key that was so registered earlier in the run and not revoked since. |
| Registry.SettledUnderARegisteredKey | contracts/core-flow/src/lib.rs:313-323 | The key in force at any settlement was set by one step of the run, the last to set it; if there was an admin by then it was a key then registered; and every row was attested under it after that step (or entered marked proven). |
| Registry.AdminExactly | contracts/core-flow/src/lib.rs:158-236 | The admin is exactly the address appointed last: the first to set itself up, as pinned if one is, or one that accepted, under its own signature, what the admin before it proposed. |
| Registry.PendingExactly | contracts/core-flow/src/lib.rs:205-236 | An address may accept if and only if it is the last an admin proposed and has not accepted since. |
| Registry.PausedExactly | contracts/core-flow/src/lib.rs:245-254 | The contract is paused if and only if the admin of the moment's last word on it was to pause. |
| Registry.LogTellsAdministration | contracts/core-flow/src/lib.rs:166-355 | After any run, the event log alone tells the admin, the pending admin, the pause and the registry. |
| ContractVerdicts.CreationExactly | contracts/core-flow/src/lib.rs:540-639 | Every answer to a creation after any run: each error if and only if its requirement is the first that fails (of the rows, the first bad row), and success if and only if none does, the key being registered or there being no admin. |
| ContractVerdicts.RotationExactly | contracts/core-flow/src/lib.rs:482-536 | The same of a rotation. |
| ContractVerdicts.ProofExactly | contracts/core-flow/src/lib.rs:716-793 | The same of a proof: accepted if and only if the escrow is open and unapproved, the hours earn the row's amount, its oracle signed exactly this network, contract, payee, asset, slot, amount, hours, period and nonce, and the nonce is the number of proofs accepted. |
| ContractVerdicts.ApprovalsExactly | contracts/core-flow/src/lib.rs:796-871 | The same of both approvals, in any state. |
| ContractVerdicts.SettlementRefusals | contracts/core-flow/src/lib.rs:886-924 | Every error of a settlement after any run, and when: of the rows, the first settled or unproven one decides. |
| ContractVerdicts.CancellationRefusals | contracts/core-flow/src/lib.rs:979-999 | Every error of a cancellation, and when. |
| Payability.SettleableExactly | contracts/core-flow/src/lib.rs:716-975 | From any reachable state some continuation settles an escrow if and only if it is open with no row finalized, its finance approver is not the contract, its nonces suffice for the rows still unproven, and no approval stands before every row is proven; given that the oracle signs the rows' hours. A pause is no obstacle, since its administrator can lift it. |
| Payability.NeverPays | contracts/core-flow/src/lib.rs:737-739 | Past that line no continuation whatever settles it. |
| Payability.ApprovedTooEarlyNeverPays | contracts/core-flow/src/lib.rs:796-871 | An approval that takes effect while some row is unproven is a dead end: approving looks at no proof, and a standing approval bars new ones. |
| Payability.RotatedAfterApprovalNeverPays | contracts/core-flow/src/lib.rs:482-536 | So is a rotation after an approval. |
| Payability.RefundableExactly | contracts/core-flow/src/lib.rs:979-1064 | Custody can still be returned if and only if the escrow is open and no row is marked finalized; so a dead escrow can be cancelled, unless some of its rows entered finalized. |
| ContractWitnesses.ApprovedTooEarlyDies | contracts/core-flow/src/lib.rs:796-832 | A run of two successful calls after which a funded escrow is never paid. |
| ContractWitnesses.RotatedAfterApprovalDies | contracts/core-flow/src/lib.rs:482-536 | A run of four that ends the same way through a rotation. |
| SettlementGate.NoncesInOrder | contracts/core-flow/src/lib.rs:460-480 | Over any run an escrow's accepted nonces are exactly 0, 1, 2, ... and never the last u64. |
| Payability.EnteredFinalizedIsNeverReleased | contracts/core-flow/src/lib.rs:634 | An escrow accepted with any row marked finalized, even all of them, is never settled and never cancelled: from any state, by any calls under any signatures. |
| ContractWitnesses.WhollyFinalizedIsTrapped | contracts/core-flow/src/lib.rs:634 | A creation that succeeds with its only row finalized: custody moves in, and no later settlement or cancellation succeeds. |
| ContractWitnesses.PartlyFinalizedIsTrapped | contracts/core-flow/src/lib.rs:634 | A creation that succeeds with one of two rows already finalized: its custody is never paid and never returned. |
| OracleMessage.BuildProofMessage | contracts/core-flow/src/lib.rs:417-447 | Field after field appended to one buffer gives the closed-form preimage. |
| OracleMessage.ProofMessageLength | src/lib/oracle/index.ts:177-184 | The preimage is 198 bytes. |
| OracleMessage.ProofMessageLayout | src/lib/oracle/index.ts:9-23 | Each field sits at its documented offset and reads back as itself. |
| OracleMessage.ProofMessageInjective | src/lib/oracle/index.ts:154-186 | Two equal preimages agree on every field, given digests that do not collide on the addresses involved. |
| OracleMessage.I128BE | src/lib/oracle/index.ts:103-111 | The masking and shifting loop writes the sixteen two's-complement bytes. |
| ByteStrings.TwosComplementReadsBack | src/lib/oracle/index.ts:103-111 | Over the whole i128 range those bytes denote the number. |
| StateMachine.TerminalIsAbsorbing | src/lib/payments/state-machine.ts:302-308 | Over every writer, including the indexer's and the funding bridge's direct updates, no write leaves a terminal state. |
| StateMachine.PaidOnlyByObservers | src/lib/payments/state-machine.ts:74-300 | Only the indexer and the reconciler ever write PAID. |
| StateMachine.PaidPassedEveryGate | src/lib/payments/state-machine.ts:74-300 | Every history ending PAID entered ORACLE_VERIFIED, AWAITING_MANAGER, AWAITING_FINANCE and READY_TO_SETTLE in that order since it last awaited the oracle. |
| Permissions.CheckExactly | src/lib/payments/state-machine.ts:344-421 | Every answer of the check, for every actor and pair of states, from what each role and each machine may do: who may, who may not, and which refusal is given. |
| Permissions.RolesBindHistories | src/lib/payments/state-machine.ts:74-300 | In every lawful history a user's write is one its role may make (or the funding bridge's); workers and viewers make none, and a payment waiting for finance is never turned down by the manager. |
| Transitions.TransitionService.ApplyTransition | src/lib/payments/service.ts:76-171 | A read, the table check, and a compare-and-swap with its audit row; each refusal by name. |
| Transitions.AuditIsALinkedChain | src/lib/payments/service.ts:110-158 | However the reads and swaps of any actors interleave, a payment's audit rows form one chain of permitted transitions from its first state to exactly its current one. |
| Transitions.TrailIsLawful | src/lib/payments/service.ts:134-158 | Such a chain is a lawful history, so the results about histories apply to audit trails. |
| Transitions.SecondSwapIsRefused | src/lib/payments/service.ts:112-132 | Of two requests that read the same state, the second to swap changes nothing. |
| Transitions.TenantsAreSeparate | src/lib/payments/service.ts:76-100 | However requests interleave, payments never change organization, and a request naming another organization's payment is not found and changes nothing. |
| Transitions.AnswerExactly | src/lib/payments/service.ts:76-171 | With nobody in between: each refusal and each success, when it is given, and exactly what is written. |
| Events.PayloadRoundTrip | src/lib/indexer/index.ts:868-891 | Storing a record as JSON and reading it back restores it if and only if every big integer sits in a listed field and no listed field holds text. |
| Events.EventRoundTrip | src/lib/indexer/index.ts:867-891 | Every event survives being stored and read back. |
| Events.SerializePayload | src/lib/indexer/index.ts:884-891 | The field loop writes that JSON form. |
| Events.DeserializePayload | src/lib/indexer/index.ts:868-881 | The field loop reads it back, or fails on text that is no number. |
| Projection.ProjectKeepsTenant | src/lib/indexer/index.ts:253-262 | No event changes which organization or deployment an escrow belongs to. |
| Projection.ProjectAccounted | src/lib/indexer/index.ts:264-664 | Every event moves each payment only by writes the indexer may make; at most the named slot is added or turned PAID, and findings are counted. |
| Projection.CountsAreExact | src/lib/indexer/index.ts:762-773 | The counts an event reports are exactly the payments it added, turned PAID, and the findings it opened. |
| ProjectionReports.EventMoves | src/lib/indexer/index.ts:264-664 | In any picture whatever, an event leaves each payment as it was but for the state it goes to and the hours it shows, both stated by cases. |
| ProjectionReports.BatchExactly | src/lib/indexer/index.ts:163-173 | A batch is there once the escrow, or a slot of it, has been seen. |
| ProjectionReports.FindingsTellWhy | src/lib/indexer/index.ts:295-664 | In any picture, an event opens a finding if and only if there is that reason to, with both sides, once. |
| ProjectionReports.AuditsTellWhat | src/lib/indexer/index.ts:350-620 | Likewise each audit row. |
| ProjectionReports.FinalIsAudited | src/lib/indexer/index.ts:531-544 | Over any log, a payment stands PAID, or CANCELLED, if and only if an audit row says from which state it went there. |
| Disagreements.DisagreementsExactly | src/lib/indexer/index.ts:294-310 | Over any contract run, for payments linked beforehand with any figures and in any states: each keeps payee, amount, asset, rate and period, and a finding with both sides is opened when its slot is added if and only if payee or amount differ, and when it is settled if and only if the amount, or the payee, differs; each once. |
| Disagreements.NothingElseIsSaid | src/lib/indexer/index.ts:501-521 | No other finding about payees or amounts is ever opened. |
| Indexer.Indexer.ApplyTransition | src/lib/indexer/index.ts:531-544 | The state machine, as the indexer, on the payment table and the audit table. |
| Indexer.Indexer.OnPaymentAdded | src/lib/indexer/index.ts:278-376 | Creates the slot's payment, or recognises one the application linked: never overwrites it, records a disagreement of payee or amount, advances it from VALIDATING. |
| Indexer.Indexer.OnHours | src/lib/indexer/index.ts:378-415 | Moves only an AWAITING_ORACLE payment to ORACLE_VERIFIED, and always writes the audit row. |
| Indexer.Indexer.OnApproved | src/lib/indexer/index.ts:417-468 | The two staged updates and one audit row per payment moved. |
| Indexer.Indexer.OnPaid | src/lib/indexer/index.ts:471-564 | PAID only through the table; otherwise a finding; amount and payee disagreements are findings too. |
| Indexer.Indexer.OnPaymentCancelled | src/lib/indexer/index.ts:566-600 | CANCELLED through the table; a PAID payment is kept and a finding opened. |
| Indexer.Indexer.OnRotated | src/lib/indexer/index.ts:609-637 | Every verified or approved payment goes back to AWAITING_ORACLE. |
| Indexer.Indexer.OnFinalized | src/lib/indexer/index.ts:645-663 | Marks nothing paid; opens a finding exactly when some payment is not PAID. |
| Indexer.Indexer.Apply | src/lib/indexer/index.ts:239-665 | On the flat tables, one event changes exactly the picture of its own escrow, as `Projection.ApplyEvent` says; without a mapping, nothing. |
| Indexer.Indexer.IngestOne | src/lib/indexer/index.ts:712-760 | Event and marker are written together; an applied token is skipped, an unattributed one is not. |
| Indexer.Indexer.Process | src/lib/indexer/index.ts:694-794 | The loop over the sorted batch, stopping at the first event the database rejects, with its counts. |
| Indexer.Indexer.ReplayUnattributed | src/lib/indexer/index.ts:814-865 | The loop over the earliest pending markers, up to the limit: an event the database rejects stays pending and the rest go on, and a rejected update of a marker without a readable event ends the replay there; unless ended, the counts are exactly the examined events of mapped and of unmapped escrows, and the payments created and paid. |
| Ingestion.SortedUnique | src/lib/indexer/index.ts:704-708 | A list of events sorts into exactly one sequence. |
| Ingestion.OrderIndependent | src/lib/indexer/index.ts:704-708 | A batch gives the same store and counts in whatever order it arrives. |
| Ingestion.CrashesLeaveAPrefix | src/lib/indexer/index.ts:715-760 | After any number of interrupted runs the store is a prefix of the sorted batch applied once. |
| Ingestion.CrashSafe | src/lib/indexer/index.ts:683-693 | After them, a run that completes reaches what one uninterrupted run would have. |
| Ingestion.RacingWorkers | src/lib/indexer/index.ts:712-727 | Any number of workers racing through one batch, their transactions interleaved anyhow and some lost to the unique token: once one is through, the store is what one worker alone leaves. |
| Ingestion.CrewLeavesAPrefix | src/lib/indexer/index.ts:778-785 | At every moment of such a race it is the batch applied once, up to where the foremost worker is. |
| Ingestion.Idempotent | src/lib/indexer/index.ts:716-727 | Processing any part of a processed batch again changes nothing. |
| IngestionReports.RunReportsGains | src/lib/indexer/index.ts:700-793 | Over any events and any store: every event is processed or skipped, the last ledger is the highest, and the payments created, payments paid and findings reported are what the escrows' pictures gained together. |
| IngestionReports.HighestExactly | src/lib/indexer/index.ts:778-792 | That ledger is at or above every event's, and some event's. |
| IngestionReports.UnattributedExactly | src/lib/indexer/index.ts:740-773 | Of events never seen before, none is skipped and exactly those of unclaimed escrows are left unattributed. |
| IngestionReports.WorkersExactly | src/lib/indexer/index.ts:175-188 | An organization comes to know a worker if and only if some event adds a payment to it in an escrow the organization claimed. |
| Backlog.LateClaim | src/lib/indexer/index.ts:796-813 | Ingesting with an escrow unclaimed, claiming it and replaying its events equals claiming first and ingesting. |
| Backlog.MovableAreTheClaimed | src/lib/indexer/index.ts:819-824 | After a claim, what a replay can act on is exactly that escrow's events, in ledger order. |
| Backlog.BacklogMakesNoDifference | src/lib/indexer/index.ts:814-865 | A backlog claimed and replayed in one go leaves the same payments, findings, audit rows and markers as if the mapping had existed from the start. |
| Backlog.ReplayServes | src/lib/indexer/index.ts:819-824 | Replays with a limit ever reach a claimed event if and only if fewer than the limit of unclaimed escrows' events are pending ahead of it. |
| Backlog.StarvationIsReached | src/lib/indexer/index.ts:819-824 | For every limit, that many creations of unclaimed escrows ahead of a claimed one's starve it for good. |
| Refinement.ProjectionRefines | src/lib/indexer/index.ts:264-664 | Over any run of the contract, the picture of a claimed escrow is an exact function of the on-chain escrow and of which approval came first: flags, one payment per slot with its state, the figures of the slot (or, where the application had linked one, its own, agreeing or not) and hours that earn the slot's amount once proven, and every finding. |
| MirrorRuns.PaidOnlyIfFinalized | src/lib/indexer/index.ts:470-564 | A payment shown PAID is finalized on-chain, however the approvals were ordered. |
| MirrorRuns.FaithfulUnlessFinanceFirst | src/lib/indexer/index.ts:417-468 | Unless finance approved first: PAID iff finalized, CANCELLED iff cancelled, verified or later iff proven, and no finding but of linked payments whose figures disagree. |
| MirrorRuns.PaidExactlyManagerFirst | src/lib/indexer/index.ts:428-450 | A settled row is PAID if and only if the manager approved before finance. |
| MirrorRuns.FinanceFirstNeverPaid | src/lib/indexer/index.ts:548-562 | Otherwise it stays at AWAITING_FINANCE and a finding names it. |
| MirrorRuns.DatabaseMirrorsChain | src/lib/indexer/index.ts:694-794 | The same end to end: any run's log, in any order, through any number of interrupted attempts; and of each slot: PAID iff finalized with the manager first, CANCELLED iff cancelled, a finding naming every settled row left unpaid. |
| MirrorRuns.DatabaseNotesDisagreements | src/lib/indexer/index.ts:294-310 | Disagreements.DisagreementsExactly end to end: in any order, through any interruptions. |
| ContractWitnesses.FinanceFirstIsReached | src/lib/indexer/index.ts:428-450 | A run in which everything succeeds, finance approving first, whose settled row is never PAID. |
| MirrorRuns.LateClaimMirrorsChain | src/lib/indexer/index.ts:814-865 | The same for an escrow claimed only after its history was ingested. |
| Reconcile.ReconcileService.RecordFinding | src/lib/payments/reconcile.ts:73-109 | Opens a finding unless an unresolved one of that kind names the same payment, or likewise none. |
| Reconcile.ReconcileService.Examine | src/lib/payments/reconcile.ts:181-289 | One payment against its slot: identity, settlement, cancellation, in that order. |
| Reconcile.ReconcileService.ReconcileOrganization | src/lib/payments/reconcile.ts:114-293 | The nested loops over escrows, chain slots and payments. |
| Reconcile.NoSilentDisagreement | src/lib/payments/reconcile.ts:181-290 | After a run every examined payment of a readable escrow is PAID iff its slot is finalized, or an unresolved finding naming it says otherwise; a payment without a slot is reported. |
| Reconcile.SecondRunChangesNothing | src/lib/payments/reconcile.ts:85-95 | With the chain unchanged a second run moves no payment and opens no finding. |
| Reconcile.FindingsDoNotMultiply | src/lib/payments/reconcile.ts:85-95 | A run leaves at most one unresolved finding per payment and kind that had none. |
| Reconcile.OrphansShareOneFinding | src/lib/payments/reconcile.ts:162-179 | All orphaned slots of an organization share a single finding, since such findings name no payment. |
| Reconcile.VerdictExactly | src/lib/payments/reconcile.ts:197-288 | Exactly from which states a settlement is caught up and a cancellation mirrored. |
| Reconcile.CancellationIsSilent | src/lib/payments/reconcile.ts:279-288 | Exactly when a cancelled slot leaves the database untouched. |
| Reconcile.PaidStays | src/lib/payments/reconcile.ts:264-276 | The move from PAID to RECONCILIATION_REQUIRED is always refused. |
| ReconcileReports.RunExactly | src/lib/payments/reconcile.ts:112-293 | A run to the letter: a finding is open afterwards if and only if it was before or a slot and a row, as they were, give the reason; a payment of a readable escrow ends PAID or CANCELLED exactly when its slot says so and its state permits, with one audit row for the change and none otherwise; every other payment is untouched. |
| ReconcileReports.ReportExactly | src/lib/payments/reconcile.ts:60-68 | The report counts the escrows and payments looked at, the unreadable ones, the findings opened and the payments moved to PAID and to CANCELLED. |
| ReconcileReports.AtIndexExactly | src/lib/payments/reconcile.ts:158-159 | The chain's payment at a slot is the last one listed there. |
| Eligibility.AssessFundingEligibility | src/lib/funding/eligibility.ts:126-311 | Every blocker in order, with its row, and the exact total. |
| Eligibility.EligibleExactly | src/lib/funding/eligibility.ts:305-310 | Eligible if and only if every condition of funding holds. |
| FundingReasons.BlockersTell | src/lib/funding/eligibility.ts:130-311 | A blocker is reported if and only if it is so, about the batch or about a payment by its row, the rows in order. |
| Eligibility.GuardExactly | src/lib/funding/service.ts:344-347 | The contract's row guard passes an eligible batch if and only if its periods survive rounding to seconds. |
| Eligibility.WholeSecondsSurvive | src/lib/funding/service.ts:476-481 | Whole-second periods do. |
| Eligibility.EligibleIsAccepted | src/lib/funding/service.ts:457-506 | On a ready chain, initialization accepts an eligible batch's planned rows if and only if they do; it moves the exact total in one transfer, and every row's hours will satisfy the proof check. |
| Eligibility.HalfSecondPeriodIsRejected | src/lib/funding/eligibility.ts:264-271 | A half-second period is eligible and the contract rejects it. |
| FundingWitnesses.HalfSecondIsReached | src/lib/funding/eligibility.ts:264-271 | A request and a chain that satisfy every condition of that result together. |
| Confirmation.CompareWithPlan | src/lib/funding/service.ts:1004-1083 | The loops that push differences, in order. |
| Confirmation.NoDifferencesExactly | src/lib/funding/service.ts:1004-1083 | No difference if and only if the chain agrees with the stored plan in its parties and, row by row, in worker, token and amount, and the database still does in recipient, amount and rate; the rate, period, oracle key and proof mark on-chain are not compared. |
| FundingReasons.DifferencesTell | src/lib/funding/service.ts:1000-1083 | A difference is reported if and only if it is one. |
| FundingReasons.NamedExactly | src/lib/funding/service.ts:1057-1063 | The payment a plan row names is the last one listed under its id. |
| FundingReasons.VerdictExactly | src/lib/funding/service.ts:917-1160 | Every verdict and exactly when it is given: failed, several escrows, another escrow, untrusted plan, disagreement, confirmed. |
| Confirmation.JudgeFunding | src/lib/funding/service.ts:917-1160 | The verdict, read by read. |
| Confirmation.ConfirmedExactly | src/lib/funding/service.ts:917-1160 | CONFIRMED if and only if the transaction succeeded, created this escrow, everything compared agrees with the plan, and the exact total moved from its manager to custody in that transaction. |
| Confirmation.FundedAsPlanned | src/lib/funding/service.ts:986-1083 | An escrow with the planned parties, workers, tokens and amounts shows no difference, if and only if it is not cancelled. |
| FundedRuns.EligibleIsConfirmed | src/lib/funding/service.ts:869-1160 | From eligible to confirmed, over any run: an eligible batch's plan, executed on a ready chain, is accepted and moves its exact total in one transfer; at any later moment confirmation answers CONFIRMED with that escrow if and only if it is not cancelled. |
| DeskRuns.JudgedByWhatWasOpened | src/lib/funding/service.ts:556-579 | However the desk goes on, once an attempt records a hash its record is that hash with the plan of the request it was opened for. |
| DeskRuns.ReportSticks | src/lib/funding/service.ts:638-652 | The first report to an unsubmitted attempt, of a hash no other has, is recorded and stays. |
| DeskRuns.OpenedIsConfirmed | src/lib/funding/service.ts:529-1235 | From opening to CONFIRMED: an attempt opened for an eligible batch, its plan executed on a ready chain, the desk and the chain going on in any way: confirming with that transaction's evidence answers CONFIRMED with that escrow, records it and links the payments in order, if and only if the escrow has not been cancelled. |
| DeskRuns.GivenUpIsReopened | src/lib/funding/service.ts:717-733 | A batch whose latest attempt failed on-chain, or was abandoned with nothing recorded, opens again for whoever it was clear for, under the next number, its payments in review. |
| DeskRuns.ReplyExactly | src/lib/funding/service.ts:538-556 | What opening answers: the attempt in flight exactly when it is all that stands in the way (or its next key is taken), a new one exactly when nothing does, and otherwise everything that does. |
| DeskRuns.ReachedThroughItsBatch | src/lib/funding/service.ts:639-648 | An attempt named with another batch is neither reported, abandoned nor confirmed, and a confirmed one is answered once. |
| FundingWitnesses.PlanIsExecuted | src/lib/funding/service.ts:869-1160 | A request and a chain that satisfy every condition of that result together. |
| FundedRuns.SubmittedIsThePlan | src/lib/funding/client.ts:162-189 | What is signed is what was planned: payees, asset, amounts, rates and whole-second periods row by row, the parties, the key and the total, every row unproven and pending. |
| FundedRuns.ConfirmedMayDiffer | src/lib/funding/service.ts:1027-1046 | A CONFIRMED escrow may hold other rates and periods, another oracle key and rows already marked proven: an example the contract accepts, for every eligible batch. |
| Confirmation.ConfirmedIsPrelinked | src/lib/funding/service.ts:1189-1201 | What confirmation links agrees with the escrow slot by slot, so the projection finds nothing to note of it. |
| Intents.AttemptsAreNumbered | src/lib/funding/service.ts:529-630 | In every interleaving of openers, submitters, abandoners, confirmers, the reconciler and other writers a batch's attempts are numbered 1..n without gap or repeat, and at most one, the last, is in flight. |
| Intents.FinishedForGood | src/lib/funding/service.ts:638-652 | A finished attempt never becomes in flight again. |
| Intents.ConfirmedIsFinalExactly | src/lib/funding/service.ts:695-715 | A confirmed attempt stays confirmed in every interleaving if and only if it names its escrow (or has no transaction to look up) and no abandonment or failure decided earlier is still to be written. |
| Signing.OneMovePerBatch | src/lib/funding/service.ts:11-17 | In every interleaving of openers, signers, submitters, abandoners, confirmers, the reconciler and other writers, with truthful chain reads: if each attempt has one transaction, signed while the attempt is in flight, and is abandoned only when nothing was signed for it, at most one signed transaction of a batch settles, recorded or not. |
| Signing.RecordingFirstSuffices | src/lib/funding/service.ts:633-652 | The same under a condition read off the attempt's own row before each step: a transaction is sent only once the attempt is SUBMITTED with its hash, and only an attempt without a hash is abandoned. The code does neither. |
| Signing.AbandonmentExactly | src/lib/funding/service.ts:695-733 | The first abandonment outside that order lets the money move twice if and only if a transaction signed for the attempt settles, recorded or not, and the batch's payments are fundable, as they are or as a pending opener saw them. |
| FundingWitnesses.SecondTabPaysTwice | src/lib/funding/service.ts:543-545 | A run with one attempt and no abandonment: a second tab is shown the attempt in flight, both tabs sign, the second report is dropped, and both transactions settle. |
| FundingWitnesses.AbandonedInTheWindowPaysTwice | src/lib/funding/service.ts:718-733 | A run in which each attempt is signed once and abandoned only with no hash recorded: the abandonment falls between sending and reporting, the batch is funded again, and both settle. |
| FundingWitnesses.StaleTabPaysTwice | src/components/funding/FundingPanel.tsx:203-225 | A run in which nothing signed is ever abandoned: a tab signs an attempt that another tab has abandoned and replaced, and both settle. |
| DoubleFunding.OneFundingPerBatch | src/lib/funding/service.ts:917-1235 | Of the recorded hashes alone: in every interleaving with truthful chain reads in which no abandonment is written over an attempt whose recorded transaction settles, at most one recorded transaction of a batch settles, at most one attempt is ever CONFIRMED, and it stays so. |
| DoubleFunding.StrayAbandonmentExactly | src/lib/funding/service.ts:680-733 | Of the recorded hashes alone: the first abandonment that breaks that guard lets the protocol confirm two attempts of the batch if and only if the abandoned attempt's recorded transaction settles and the batch's payments are fundable, as they are or as a pending opener saw them. |
| FundingWitnesses.TwiceConfirmed | src/lib/funding/service.ts:695-733 | A run with truthful reads that ends with two attempts of one batch CONFIRMED. |
| FundingWitnesses.OverwritableIsReached | src/lib/funding/service.ts:708-715 | A reachable CONFIRMED attempt that a pending abandonment overwrites. |
| DoubleFunding.LinkedBarsNewAttempts | src/lib/funding/eligibility.ts:208-216 | Once a batch is linked and nobody is left in the middle of opening it, no interleaving opens another attempt of it. |
| DoubleFunding.ConfirmingEndsOpening | src/lib/funding/service.ts:1189-1217 | A confirmation written while nobody is in the middle of opening its batch ends that: however the run goes on, no later attempt is of that batch. |
| FundingWitnesses.StaleOpenerReopens | src/lib/funding/service.ts:363-371 | An opener that looked before the link can: a run in which a fully linked batch gets a second attempt. |
| Intents.KeysAreDistinct | src/lib/funding/service.ts:52-55 | Batch ids without a colon give every attempt its own key. |
| Intents.HashesAreDistinct | prisma/schema.prisma:588-590 | In every interleaving each transaction is recorded on one attempt at most. |
| Intents.KeysCanCollide | src/lib/funding/service.ts:52-55 | With a colon, two batches can share one. |
| FundingService.FundingDesk.OpenFundingIntent | src/lib/funding/service.ts:529-630 | Returns the open attempt, refuses an unfundable batch, or inserts the next attempt and moves its drafts to VALIDATING. |
| FundingService.FundingDesk.RecordFundingSubmitted | src/lib/funding/service.ts:633-671 | Only an attempt not yet submitted becomes SUBMITTED. |
| FundingService.FundingDesk.FailFundingIntent | src/lib/funding/service.ts:680-754 | Refused once confirmed; payments return to DRAFT only when nothing was submitted. |
| FundingService.FundingDesk.ConfirmFunding | src/lib/funding/service.ts:869-1287 | Links payments and confirms only on the verdict above; a reverted transaction fails the attempt; a mismatch with the plan leaves a finding; anything else writes nothing. |
| FundingService.FindingExactly | src/lib/funding/service.ts:1085-1130 | A mismatch leaves a finding if and only if one escrow was found and it is the one the caller named, if any. |
| FundingService.OpeningIsReadThenCommit | src/lib/funding/service.ts:529-630 | With nobody in between, opening is the protocol's two reads followed by its commit, on attempts and payments alike. |
| FundingService.AbandoningIsReadThenCommit | src/lib/funding/service.ts:680-733 | Likewise abandoning. |
| FundingService.ConfirmingIsReadThenCommit | src/lib/funding/service.ts:917-1235 | Likewise confirming, whatever the verdict. |
| FundingService.LinkedNeverReopens | src/lib/funding/eligibility.ts:208-216 | With nobody in between, once confirmation has linked a batch no later status of its attempt lets it be opened again. |
| ClaimFormat.LayoutTiles | packages/sdk/src/layout.ts:37-52 | The regions are contiguous, in order, cover 256 bytes, and have their fields' widths. |
| ClaimFormat.FieldAt | packages/sdk/src/decode.ts:38-41 | In a preimage each region holds exactly its field. |
| ClaimFormat.AppendPreimage | packages/attest/src/claim.rs:74-93 | The appending builder writes the preimage. |
| ClaimFormat.EncodeClaim | packages/sdk/src/encode.ts:72-100 | The offset writer gives the same bytes as the appending builder, for exactly the well-shaped claims. |
| ClaimFormat.DecodeInvertsEncode | packages/sdk/src/decode.ts:59-84 | Decoding a preimage returns every field. |
| ClaimFormat.EncodeInvertsDecode | packages/sdk/src/decode.ts:59-84 | Writing the decoded fields of any accepted 256 bytes gives them back. |
| ClaimFormat.PreimageInjective | packages/attest/src/claim.rs:64-73 | Equal preimages mean equal network, contract and claim. |
| ClaimFormat.ReservedNeverAliases | packages/attest/src/claim.rs:71-75 | A reserved encoding never aliases a valid one. |
| ClaimFormat.ComparePreimages | packages/sdk/src/decode.ts:129-139 | The differing fields, in layout order. |
| ClaimFormat.CompareEmptyExactly | packages/sdk/src/decode.ts:117-128 | None differ if and only if the bytes are identical. |
| ClaimFormat.CompareNamesTheFields | packages/sdk/src/decode.ts:117-139 | Comparing two claims' preimages reports a field if and only if the claims differ in it, under its name, with both sides' bytes, once, in layout order. |
| ClaimFormat.ClientClaimIsRead | packages/sdk/src/encode.ts:72-100 | The reader finds what the client wrote: raw as 0, XDR as 1, a sequence as mode 0 with its nonce and a zero id, an id as mode 1 with a zero nonce. |
| Attest.AttestStore.Verify | packages/attest/src/verify.rs:32-78 | The ordered checks, the signature over the rebuilt preimage, then the consumption; nothing is written on any other path. |
| Attest.AttestStore.RegisterIssuer | packages/attest/src/registry.rs:54-67 | Adds a key that is not registered, and only that. |
| Attest.AttestStore.RevokeIssuer | packages/attest/src/registry.rs:75-90 | Removes a key that is registered, and only that. |
| Attest.AttestStore.RotateIssuer | packages/attest/src/registry.rs:99-122 | Both checks run before any write. |
| Attest.AcceptedExactly | packages/attest/src/verify.rs:7-31 | Exactly when a claim is accepted, in a given state. |
| Attest.VerdictExactly | packages/attest/src/verify.rs:7-78 | Every answer to a claim after any run, in terms of that run alone: who was let in and not taken out, how many claims its scope has had accepted, whether its pair has been; the first failing requirement names the error. |
| Attest.RegistryExactly | packages/attest/src/registry.rs:46-122 | An issuer is trusted if and only if it was registered, or rotated in, and has not been revoked or rotated out since. |
| Attest.UsedExactly | packages/attest/src/replay.rs:88-91 | A pair is used if and only if a claim with it was accepted. |
| Attest.AcceptedAtMostOnce | packages/attest/src/replay.rs:58-65 | Over any run an (issuer, claim id) pair is accepted at most once, through revocations, re-registrations and rotations. |
| Attest.ScopesAreIndependent | packages/attest/src/replay.rs:9-37 | A claim accepted for one (issuer, claim type, subject) leaves every other triple's counter where it was, given that SHA-256 does not collide on the two triples' 96 bytes. |
| Attest.NoncesInOrder | packages/attest/src/replay.rs:50-57 | A scope's accepted nonces are exactly 0, 1, 2, ... and never the largest u64, given that SHA-256 does not collide on the 96-byte inputs in play. |
| Attest.ScopeInputInjective | packages/attest/src/replay.rs:9-21 | Scopes whose 96 bytes SHA-256 keeps apart share a storage key only if they are the same in all three fields. |
| Attest.ReplayStateSurvives | packages/attest/src/replay.rs:69-94 | No operation forgets a used pair or lowers a next nonce. |
| Attest.FailureChangesNothing | packages/attest/src/verify.rs:32-78 | A rejected or aborted call changes nothing. |
| Attest.RotateKeepsSize | packages/attest/src/registry.rs:99-122 | Rotation preserves the registry's size. |
| Money.FormatAmount | src/lib/money.ts:72-93 | The printing loop writes the closed form. |
| Money.PrintThenRead | src/lib/money.ts:45-93 | Reading a printed amount returns the same units if and only if there is a decimal place or zeros are trimmed, and the minimum digits fit the decimals; otherwise reading refuses. |
| Money.GroupThenRead | src/lib/money.ts:96-107 | The same for the comma-grouped form. |
| Money.PrintedExactly | src/lib/money.ts:72-93 | What is printed: a minus exactly when negative, the whole units, and after a point the fraction if there is one. |
| Money.FractionExactly | src/lib/money.ts:84-90 | The fraction's digits denote the remainder at their scale, no fewer than asked for; trimmed, not one more than needed; untrimmed, every place. |
| Money.GroupedExactly | src/lib/money.ts:103 | From the right: three digits, a comma, three digits, and so on, in their order. |
| Money.ReadExactly | src/lib/money.ts:45-63 | Text is read if and only if it is an optional minus, digits, and a point with digits or neither, no more than the asset has places; and then as what its digits denote. |
| Money.TypedLooselyIsRead | src/lib/money.ts:45-50 | White space around and commas within do not matter. |
| Money.HoursExactly | src/lib/money.ts:127-130 | The hours offered are exactly those the contract's check accepts. |
| RateLimit.RateLimiter.CleanupExpiredBuckets | src/lib/ratelimit.ts:26-33 | Deletes exactly the buckets past their reset time. |
| RateLimit.RateLimiter.Request | src/lib/ratelimit.ts:35-57 | The verdict and the new buckets. |
| RateLimit.CleanupIsInvisible | src/lib/ratelimit.ts:35-41 | Under a clock that never goes back, every call gets the answer it would have had without cleanup. |
| RateLimit.FewerThanTwiceTheLimit | src/lib/ratelimit.ts:46-56 | Any span of one window length holds fewer than twice the limit of a key's accepted calls. |
| RateLimit.TheBoundIsReached | src/lib/ratelimit.ts:46-56 | For every limit and window, one less than twice the limit is reached. |
| RateLimit.RemainingIsTrue | src/lib/ratelimit.ts:46-56 | After an accepted call, of further calls before the reset exactly `remaining` are accepted, and then none. |
| RateLimit.WaitingExactly | src/lib/ratelimit.ts:49-51 | A refused caller that waits exactly `retryAfter` seconds is accepted if and only if the time to the reset was not a whole number of seconds. |
| RateLimit.BucketExactly | src/lib/ratelimit.ts:46-56 | When a call is accepted and what its bucket becomes. |
| RateLimit.CleanedEveryThousand | src/lib/ratelimit.ts:36-41 | On every thousandth call no bucket but the caller's outlives its reset. |
| Csv.ParseCsv | src/app/bulk-pay/page.tsx:54-77 | The index loop computes the character-by-character scan. |
| Csv.ScanInvertsWriting | src/app/bulk-pay/page.tsx:54-77 | Of any table of non-empty rows, each cell written bare where it holds no comma, quote or line end, quoted, or in pieces of both, each row ended by LF, CRLF or CR, it returns exactly the rows with a non-blank cell, each cell as it was. |
| Csv.EveryTableIsWritten | src/app/bulk-pay/page.tsx:54-77 | Every table can be so written, bare wherever a cell allows or quoted throughout. |
| Csv.SameTableExactly | src/app/bulk-pay/page.tsx:76 | So the table itself comes back if and only if every row holds a character that is not white space. |

## Left out

- Storage lifetimes and rent, contract upgrade, read-only getters and `finalize_payment`, an alias of `pay_batch`: host
  behaviour or no further state.
- Soroban RPC, wallets, the web interface, sessions, roles of API callers, schemas and logging: input and output.
- Cursor persistence and paging: properties are about a given list of events.
- Event values of a shape this contract never emits: parsing yields nothing for them, where the source would coerce.
- Times, messages, labels, transaction hashes on payments and audit metadata: states are compared up to these. Audit rows
  keep the payment, the kind and both states.
- Payments linked to an escrow without a slot index: the indexer's bulk updates would reach them; linking always sets
  both.
- Refinement.ProjectionRefines: does not state the audit rows, which are `ProjectionReports.AuditsTellWhat` event by event, and
  asks that payments linked beforehand are to slots of the escrow and in VALIDATING; of others in any state,
  `Disagreements.DisagreementsExactly` says what becomes of their figures and `ProjectionReports.EventMoves` of their states.
- Indexer.Indexer.Process: is one worker by itself; workers racing on a token are `Ingestion.RacingWorkers`.
- Reconcile.ReconcileService.ReconcileOrganization: the escrows are those the query returned, up to its limit of 200 in
  no stated order.
- `reconcileFailedTransactions` appears only as the correction of an attempt in `Intents`; its findings, and `rollupBatch`, `sumAmounts` and
  `selectFinanceApprover`, would only add easy members.
- FundingService.FundingDesk.ConfirmFunding: does not model the error text or the audit rows, and links payments by their
  position in the batch.
- DoubleFunding.OneFundingPerBatch: is about the transactions the records hold; every signed one is `Signing.OneMovePerBatch`.
- Signing.AbandonmentExactly: gives the exact condition for an abandonment; a signing outside the order of
  `Signing.OneMovePerBatch` has its witness runs and no exact condition. It too asks for batch ids without a colon.
- Other writers change a payment's state and hours only (`Intents.Edit`), as those in the repository do once a batch has an
  attempt; recipient, amount and rate stay as they are.
- DoubleFunding.StrayAbandonmentExactly: asks for batch ids without a colon, as generated ids are (`Intents.KeysCanCollide`),
  and speaks of continuations by the funding protocol itself; other writers may appear before, and anywhere in
  `DoubleFunding.OneFundingPerBatch`.
- Confirmation.ConfirmedIsPrelinked: asks that the batch still lists its payments in the plan's order, which the source's
  fixed ordering gives.
- `assertReplayFields`, a guard for untyped callers that the typed claim cannot trigger, would add only an easy member.
- `resolveEscrowFromTransaction`: which escrow a transaction created is given as `Confirmation.Evidence.resolution`.
- The plan's digest: a plan that does not match it is the absent plan of `Confirmation.AttemptRecord`.
- Money.PrintThenRead: white space is the ASCII kind; the source also trims the rest of Unicode's.
- Attest and the contract treat a ledger's clock as a given number per call; the client-side claim signing and
  verification helpers are not part of this model.
