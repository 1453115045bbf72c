# Librarian vault agent: verified model

This project models the parts of Librarian that decide whether a secret may leave the vault agent, and
proves what they promise over every run:

- **Request machine** (`dispatch*.dfy`, `session.dfy`). Requests of many connections are admitted under an
  unlock epoch, run concurrently, become durable and are answered only inside the commit gate, while lock,
  shutdown, cancellation, disconnect and unlock race with them. One action of `Dispatch.Step` is one section
  of the runtime that holds the gate, the vault mutex or one map's mutex; the scheduler is any sequence of
  actions, and every choice of the environment (time, ciphertext, tokens, store failures) is a parameter.
  `trace`, `holder`, `gone`, `made`, `binding` and the trace indices kept with a lease or a secret are history
  that no runtime guard reads (`made` says that new credential identifiers are fresh, `gone` that the transport
  disconnects a connection once).
- **Protocols on top of it**: the idempotency cache (`idempotency.dfy`, joined to the machine in
  `idempotency_dispatch.dfy`), the single-use browser lease, two-phase passkeys, and
  Windows Hello credential replacement with its crash points.
- **Wire formats**: CBOR heads, operation bodies, envelopes, frame headers, the desktop's own reader and
  writer, size arithmetic and account paging.
- **Desktop shell** and **vault sessions**: the view model's transitions and the permits of the vault core.

Code that changes objects in place is modelled as classes (`Session.Connection`, `IdempotencyState`,
`HelloAgent`, `VaultAgent`, `ShellViewModel`, `CborWriter`, `CborReader`, `SecretWriter`), each method proved
against a function or an explicit property; the theorems are about those functions and about runs.

## Reading the request machine

| action | section of the runtime |
|---|---|
| Begin, Admit, Reject | `crates/vault-agent/src/runtime.rs` 851-952; `begin_request` runs before the gate, with an epoch read earlier; Reject answers a refusal of `begin_request` or the global limit, under the gate |
| ApplyCancel, Disconnect | 631-639; the gate-held part of 649-669 |
| LockGate, LockTail, Release, Shutdown | 2464-2492 (gate section, vault section, end of the answer), 753-769 |
| OpenGate, OpenAbort, RecoverList, RecoverDelete, Publish, CreatePublish | 1423-1523, 1813-1975, 2318-2462, 1319-1412 |
| Claim, Take, EnterCore, BrowserRead, WriteSlot | 2538-2682, 3549-3567; the vault stays held from the read of a match until its slot is written |
| Commit (acknowledged or not), CoreFail, FailGate, CoreStale | 2782-3507, 2503-2517, 3569-3590; `sqlite.rs` 424-437 commits before it reads the result back |
| ReadExpected, RollbackMissing, Sweep, SweepFailGate | 3443-3507, 671-746 |
| Finish | 1050-1154 |

A commit whose result cannot be read back is durable, skips the in-memory bookkeeping (`acked` is false), closes
the core's session before it leaves the vault, and is followed later by the failure's own gate section.

## Findings

Each is shown at an input or a run, together with the condition that decides it for all of them.

- The account counter is advanced only for changes the runtime saw succeed. An account change that the store
  committed but whose verification failed can lie between the read of a secret and the answer that discloses it
  (`DispatchWitness.StaleDisclosureIsReachable`, a complete run). `UnchangedAccounts` shows that nothing else can:
  between offer and read no account write became durable at all, and up to the answer none succeeded.
- For the same reason a passkey confirmed in the store, whose verification failed, can be deleted by the
  cleanup of its disconnected provider (`UnacknowledgedConfirmationIsLost`). `ConfirmedPasskeySurvives` shows
  that an acknowledged confirmation never is.
- A request whose connection is disconnected, or that is cancelled, between `begin_request` and the gate is
  answered Busy (or DeadlineExceeded) at the global limit, not Cancelled (`RefusalOutlivesDisconnect`).
  `CancelledAnswer`: such an answer is the cancellation exactly when the request had passed admission before.
- `disconnect` runs before the connection's workers are joined (`crates/vault-agent/src/main.rs` 494), so a worker
  can claim a lease slot for a connection that is gone. `SlotOfTheGone`: a gone connection holds a slot exactly
  when such a claim took effect after its disconnect; `LeakIsPermanent`: the slot is never returned. All eight can
  leak (`DeadConnectionsHoldEverySlot`), and from then on every claim of a connection that is still there ends
  Busy (`ExhaustedClaims`) and no credential is disclosed any more (`ExhaustedIsSilent`).
- In the shell, LockedError clears the lock intent only as the answer to the lock itself, so after a lost lock
  answer a refresh refused as locked shows Locked with the intent set, and the next confirmed unlock is shown as
  an error (`IntentOutlivesLockedError`). `IntentLasts` says exactly which completions clear the intent,
  `UnlockShown` that a confirmed unlock is shown as Unlocked exactly when it is clear.
- A lock request hides the accounts but not the passkeys: under the intent passkeys are listed exactly while a
  lock requested of an unlocked shell is unanswered, and they are that shell's (`LockingKeepsPasskeys`).
- Removing a Windows Hello enrollment drops the credential before its record. From a usable state it passes a
  point whose record names a missing credential exactly when it reaches the credential (`Strips`: the record
  loads and is of this vault, an earlier retirement is finished, nothing stops it, the removal succeeds); every
  other point is vouched for (`RemoveEnrollment`).
- The desktop refuses a whole account page for one all-zero record identifier, which the agent admits; every other
  page the agent encodes is read back (`ClientReadsPage`), and nothing else is accepted (`ClientAcceptsExactly`).

## Model

| member | source | states |
|---|---|---|
| DispatchOrder.LockCutOff | crates/vault-agent/src/runtime.rs:1050-1154 | In every interleaving, after an advance of the epoch (or a lock or shutdown refused at the last epoch) no epoch-bound request begun before is answered with an uncommitted success or NotFound, whatever is unlocked in between |
| DispatchOrder.UnlockIsFresh | crates/vault-agent/src/runtime.rs:2442-2462 | Epochs never decrease, and every entry into Unlocked takes an epoch above all earlier ones |
| DispatchOrder.CommitOrdering | crates/vault-agent/src/runtime.rs:2805-2821 | Nothing a request makes durable follows a cancellation of it, a disconnect of its connection or an advance past its permit |
| DispatchOrder.LockStopsUnlock | crates/vault-agent/src/runtime.rs:2400-2420 | An unlock or creation in progress when a lock, shutdown or core failure took the gate never opens the vault |
| DispatchOrder.CancelledAnswer | crates/vault-agent/src/runtime.rs:851-952 | After a cancellation or disconnect, an answer without a commit point is Cancelled if and only if the request had passed admission; otherwise it is the refusal |
| DispatchOrder.GlobalLimit | crates/vault-agent/src/runtime.rs:917-934 | At most 32 admitted dispatches are unanswered at once in every reachable state |
| DispatchOrder.StepKeepsHistory | crates/vault-agent/src/runtime.rs:143-200 | Every step keeps what past cancellations, disconnects and advances forbid, and all orderings between events |
| DispatchFrame.StepGrows | crates/vault-agent/src/runtime.rs:851-952 | Every step keeps request identities and in-flight entries, never reactivates a cancelled identifier, and registers a request only together with its cancellation |
| DispatchBrowser.SingleDisclosure | crates/vault-agent/src/runtime.rs:2538-2572 | Over a connection's whole life at most one credential is disclosed and at most one offer made; the lease map never exceeds MAX_CONNECTIONS |
| DispatchBrowser.UnchangedAccounts | crates/vault-agent/src/runtime.rs:2608-2682 | A disclosure names the record and revision of the connection's own earlier offer with equal context, selection and epoch; no account write became durable between the offer and the read, and none succeeded before the answer |
| DispatchBrowser.GenerationCounts | crates/vault-agent/src/runtime.rs:2684-2692 | The account generation is one plus the number of successful account changes, until it saturates |
| DispatchBrowser.SecretFinal | crates/vault-agent/src/runtime.rs:1078-1098 | An answer still carrying a secret passed every terminal check unchanged, its request not cancelled and its generation current |
| DispatchPasskeys.ConfirmedPasskeySurvives | crates/vault-agent/src/runtime.rs:3338-3407 | An acknowledged confirmation is never undone by cleanup or recovery; the passkey stays until DeletePasskey or a rollback with the creation's own binding |
| DispatchPasskeys.RollbackIsBound | crates/vault-agent/src/runtime.rs:3443-3507 | A rollback deletes only under the connection, transaction, process and epoch that made the passkey |
| DispatchPasskeys.PendingEntries | crates/vault-agent/src/runtime.rs:649-669 | No pending entry is both confirmed and disconnected, entries of a gone connection are disconnected, and no credential has two entries |
| DispatchPasskeys.RecoveryDeletesTentative | crates/vault-agent/src/runtime.rs:2318-2398 | Unlock recovery deletes only passkeys still tentative at that moment, whatever ran since it listed them |
| DispatchPasskeys.CreationSlotIsFree | crates/vault-agent/src/runtime.rs:3041-3055 | The internal-error branch of the pending-map insertion is unreachable |
| DispatchWitness.StaleDisclosureIsReachable | crates/vault-agent/src/runtime.rs:2503-2517 | A run in which a durable but unverified account change lies between an offer and its disclosure |
| DispatchWitness.UnacknowledgedConfirmationIsLost | crates/vault-agent/src/runtime.rs:671-746 | A run in which a durable but unverified confirmation is deleted by disconnect cleanup after the next unlock |
| DispatchWitness.RefusalOutlivesDisconnect | crates/vault-agent/src/runtime.rs:917-934 | A run in which a request begun and then disconnected is answered Busy at the global limit |
| DispatchWitness.DeadConnectionsHoldEverySlot | crates/vault-agent/src/main.rs:494-497 | A run after which every lease slot is held by a connection that is gone |
| DispatchSlots.SlotOfTheGone | crates/vault-agent/src/runtime.rs:649-669 | In every run a gone connection holds a slot if and only if a claim of its took effect after its disconnect, and any other connection if and only if it ever claimed one |
| DispatchSlots.LeakIsPermanent | crates/vault-agent/src/runtime.rs:649-669 | The slot of a gone connection stays in every continuation |
| DispatchSlots.ExhaustedClaims | crates/vault-agent/src/runtime.rs:2560-2570 | Once as many gone connections as there are slots hold one, every later claim of a connection still there ends Busy |
| DispatchSlots.ExhaustedIsSilent | crates/vault-agent/src/runtime.rs:2538-2572 | And no credential is disclosed any more |
| Session.Connection.BeginRequest | crates/agent-protocol/src/session.rs:313-356 | Admission updates the state and replies exactly as the specification: header, identifier, role, feature, key, epoch, capacity, in that order |
| Session.Connection.CancelOne | crates/agent-protocol/src/session.rs:367-379 | A cancel marks an issued in-flight request, ignores a finished one, and closes on anything else |
| Session.Connection.FinishOne | crates/agent-protocol/src/session.rs:393-403 | Finishing returns the request's mark and removes it, or closes the connection |
| Session.Connection.CloseAll | crates/agent-protocol/src/session.rs:406-414 | Closing marks every in-flight request cancelled |
| Session.RunsKeepInvariant | crates/agent-protocol/src/session.rs:313-475 | After any calls, in-flight identifiers are issued ones, at most the negotiated limit; closed stays closed |
| Session.IdentifiersIncrease | crates/agent-protocol/src/session.rs:451-468 | Issued identifiers start at 1, strictly increase, and are exactly the recorded ones |
| Session.CancellationIsPermanent | crates/agent-protocol/src/session.rs:367-414 | A cancelled identifier never becomes active again and a finished one never returns |
| Session.FirstFinishSucceeds | crates/agent-protocol/src/session.rs:393-403 | A permit stays in flight until its first finish, which succeeds |
| Session.ClosedAdmitsNothing | crates/agent-protocol/src/session.rs:431-449 | After any further calls a closed connection admits nothing |
| Session.NegotiationFacts | crates/agent-protocol/src/session.rs:173-265 | An accepted profile has the derived role, valid limits, a supported version, and only features that version defines |
| Session.AdmittedIsEntitled | crates/agent-protocol/src/types.rs:133-235 | Every admitted operation fits the derived role, its feature was granted and supported, and the selected version defines it |
| Tables.FromCode | crates/agent-protocol/src/types.rs:237-265 | Exactly the numbers 1-12, 20-23 and 30-36 name operations, each its own |
| Idempotency.IdempotencyState.ReserveOne | crates/vault-agent/src/runtime.rs:962-1010 | A reservation replays, conflicts, waits or evicts oldest outcomes exactly as specified |
| Idempotency.IdempotencyState.EvictForRoom | crates/vault-agent/src/runtime.rs:988-998 | The eviction loop computes the specified eviction and reports whether there is room |
| Idempotency.IdempotencyState.CompleteOne | crates/vault-agent/src/runtime.rs:3688-3701 | Completion releases the key and appends its outcome, or reports the internal error |
| Idempotency.IdempotencyState.AbandonOne | crates/vault-agent/src/runtime.rs:3704-3712 | A dropped reservation only releases its key |
| Idempotency.IdempotencyState.BindVault | crates/vault-agent/src/runtime.rs:3654-3669 | Binding another vault clears the cache, and is refused while anything is in flight |
| Idempotency.IdempotencyState.InitializeVault | crates/vault-agent/src/runtime.rs:3635-3652 | Creation binds an unbound cache, keeping reservations in flight |
| Idempotency.CacheInvariant | crates/vault-agent/src/runtime.rs:954-1029 | In every run of registered dispatches that reserve, complete or drop only what they hold: cached keys are the duplicate-free insertion order, disjoint from keys in flight, at most 1024 with them; keys in flight are the held ones, each with one owner, at most 32; no reservation finds the cache full and no completion meets an internal error |
| Idempotency.OutcomesSurvive | crates/vault-agent/src/runtime.rs:984-1009 | In the same runs an outcome with fewer than 992 newer ones since the last clearing is still cached, and asking again replays it or conflicts |
| IdempotencyDispatch.JointCache | crates/vault-agent/src/runtime.rs:917-1029 | The same in every interleaving with the request machine, whose registered requests are the dispatches that use the cache: the bound of 32 is derived, not assumed |
| IdempotencyDispatch.JointSurvival | crates/vault-agent/src/runtime.rs:984-1009 | And so is the survival of every outcome with fewer than 992 newer ones |
| Idempotency.NoDoubleExecution | crates/vault-agent/src/runtime.rs:962-987 | A key cached or in flight is never reserved again |
| Idempotency.EvictFacts | crates/vault-agent/src/runtime.rs:988-998 | Eviction drops the fewest oldest outcomes that make room and changes no other entry |
| Hello.HelloAgent.Enroll | crates/vault-agent/src/runtime.rs:1559-1807 | At every effect of an enrollment the persisted active credential exists (or was missing before); at the end every credential the agent made is named as active or pending, except the new one when neither its removal nor its cleanup record succeeded, and then the answer is a permanent failure |
| Hello.CrashesCompose | crates/vault-agent/src/runtime.rs:1559-1807 | What holds at one crash point carries through a restart and another enrollment from there |
| Hello.HelloAgent.Prepare | crates/vault-agent/src/runtime.rs:1559-1600 | Loading and finishing an earlier retirement keeps both properties, and leaves an enrollment without pending removal or a reason to stop |
| Hello.HelloAgent.Perform | crates/vault-agent/src/runtime.rs:1600-1643 | From the ceremony on, both properties hold at every point, and only the new credential can be left untracked |
| Hello.HelloAgent.Save | crates/vault-agent/src/runtime.rs:2157-2185 | A save writes the record exactly when it reports success or publication |
| Hello.HelloAgent.EnsureAbsent | crates/vault-agent/src/runtime.rs:2236-2244 | The record is absent on success; a failure may still have deleted it |
| Hello.HelloAgent.Install | crates/vault-agent/src/runtime.rs:1624-1766 | From a fresh credential to the replacement record or back, both properties hold at every point |
| Hello.HelloAgent.Retire | crates/vault-agent/src/runtime.rs:1740-1806 | With the replacement on disk, the old credential is retired or the enrollment rolled back |
| Hello.HelloAgent.Rollback | crates/vault-agent/src/runtime.rs:2268-2299 | Rollback restores the previous record before the new credential is removed or recorded for removal |
| Hello.HelloAgent.RetryRetirement | crates/vault-agent/src/runtime.rs:2246-2266 | A persisted pending removal is finished without losing the active credential or tracking; the result says whether its credential was removed and the record rewritten or deleted, or nothing was pending |
| Hello.HelloAgent.RemoveOr | crates/vault-agent/src/runtime.rs:2119-2135 | The new credential is removed, or recorded for removal, or the failure is permanent |
| Hello.HelloAgent.PersistCleanup | crates/vault-agent/src/runtime.rs:2207-2234 | The cleanup record is written beside the active credential, or alone, or not at all |
| Hello.HelloAgent.RemoveEnrollment | crates/vault-agent/src/runtime.rs:1977-2054 | Removal never loses tracking and succeeds exactly when it reaches the credential and the record is deleted; from a usable start some point names a missing credential if and only if it reaches the credential, every other point is vouched for, and the end does so only if the record then could not be deleted |
| Vault.PermitValidity | crates/vault-agent/src/lifecycle.rs:339-388 | After any calls on any number of agents sharing the session counter, a permit is authorized at an agent exactly when that agent issued it since its latest lock or unlock, saturated epochs included |
| Vault.VaultAgent.Unlock | crates/vault-agent/src/lifecycle.rs:279-336 | Unlocking locks first and opens a session only with a fresh identifier and a fresh epoch |
| Vault.VaultAgent.Lock | crates/vault-agent/src/lifecycle.rs:339-345 | Locking drops session, identifier and manifest, and advances the epoch unless saturated |
| Vault.SessionCounter.Take | crates/vault-agent/src/lifecycle.rs:382-388 | Session identifiers are handed out once each, and none at saturation |
| Vault.VaultAgent.Read | crates/vault-agent/src/records.rs:539-557 | A result is returned only under a permit not overtaken by a lock, from the authenticated manifest |
| Vault.VaultAgent.LoadSnapshot | crates/vault-agent/src/records.rs:632-662 | A stored manifest other than the authenticated one locks the vault |
| Vault.VaultAgent.PersistMutation | crates/vault-agent/src/records.rs:664-706 | A manifest is adopted exactly when the permit is authorized and store and session both commit; an abort changes nothing, any other failure locks |
| Cbor.CborWriter.TypeValue | apps/windows/Librarian.Windows/DesktopTransport.cpp:668-703 | The writer appends the shortest head of the value |
| Cbor.CborWriter.Append | apps/windows/Librarian.Windows/DesktopTransport.cpp:686-702 | The shift loop appends the big-endian bytes |
| Cbor.CborWriter.Bytes | apps/windows/Librarian.Windows/DesktopTransport.cpp:633-643 | A string is its shortest head and its content |
| Cbor.CborReader.NextIsNull | apps/windows/Librarian.Windows/DesktopTransport.cpp:755-758 | True exactly when the next byte is null |
| Cbor.CborReader.TypeValue | apps/windows/Librarian.Windows/DesktopTransport.cpp:799-828 | The reader returns the value of a shortest head and advances past it, and refuses everything else |
| Cbor.CborReader.ReadInteger | apps/windows/Librarian.Windows/DesktopTransport.cpp:785-797 | The byte loop reads a big-endian integer if that many bytes remain |
| Cbor.CborReader.Slice | apps/windows/Librarian.Windows/DesktopTransport.cpp:725-751 | A string is returned exactly when its shortest head, length bound and content are there |
| Cbor.AcceptsExactlyWrittenHeads | apps/windows/Librarian.Windows/DesktopTransport.cpp:668-828 | The reader accepts exactly the heads its writer produces |
| Cbor.StrictReadsShortest | apps/windows/Librarian.Windows/DesktopTransport.cpp:799-828 | A head is read with a value and a length exactly when the bytes start with that value's shortest head |
| Fields.SecretWriter.WriteAll | crates/agent-protocol/src/cbor.rs:27-42 | A write succeeds exactly when the bytes fit the capacity, and otherwise changes nothing |
| Fields.WriteFields | crates/agent-protocol/src/cbor.rs:44-120 | Heads and contents written one by one never overflow exactly when the whole message fits the capacity |
| Fields.ExactlyTheEncodings | crates/agent-protocol/src/cbor.rs:122-208 | Lenient decoding compared with its re-encoding accepts exactly the encodings of the schema's values |
| Operations.RequestCodec | crates/agent-protocol/src/operations.rs:413-605 | A body is accepted under an operation exactly when it is the encoding of the well-formed request returned |
| Operations.RequestEncodes | crates/agent-protocol/src/operations.rs:516-605 | Every well-formed request encodes within the body limit |
| Operations.UnsupportedOperations | crates/agent-protocol/src/operations.rs:499-501 | Exactly the reserved operations are unsupported |
| Message.EnvelopeCodec | crates/agent-protocol/src/message.rs:499-593 | Request envelopes are accepted exactly as the encodings of valid envelopes |
| Message.ExactResponseLength | crates/agent-protocol/src/message.rs:613-745 | The computed length is the encoded length, within the frame bound, and 21 for every failure |
| Message.BoundedNeverFails | crates/vault-agent/src/runtime.rs:1114-1132 | Under every negotiable limit a response or a bodiless failure is sent and fits; failures are sent unchanged |
| Message.BrowserAnswersFit | crates/agent-protocol/src/browser.rs:157-229 | No selection or credential overflows its pre-sized writer |
| Message.SingleBodiesFit | crates/agent-protocol/src/operations.rs:824-990 | No status, identifier, passkey, assertion or account body exceeds the response limit or overflows its writer |
| Message.PasskeyListsFit | crates/agent-protocol/src/operations.rs:903-969 | Both passkey lists fit for up to 64 entries, although they are written without an estimate |
| Message.SelectionRoundTrip | crates/agent-protocol/src/browser.rs:157-189 | An encoded selection decodes to itself |
| Message.SelectionIsCanonical | crates/agent-protocol/src/browser.rs:169-189 | An accepted selection answer is the encoding of what it decodes to |
| Message.CredentialCodec | crates/agent-protocol/src/browser.rs:202-249 | A credential answer is accepted exactly as the encoding of two texts within their bounds |
| Message.HeaderRoundTrip | crates/agent-protocol/src/frame.rs:121-167 | A valid header decodes from its encoding |
| Message.HeaderIsCanonical | crates/agent-protocol/src/frame.rs:141-189 | An accepted header is valid for its kind and re-encodes to the same 40 bytes |
| Desktop.RequestBytes | apps/windows/Librarian.Windows/DesktopTransport.cpp:1847-1870 | The desktop writes exactly the envelope's canonical encoding, refused only beyond the frame limit |
| Desktop.KeysAgree | apps/windows/Librarian.Windows/DesktopTransport.cpp:1805-1812 | Client and agent agree which of the client's operations carry an idempotency key |
| Desktop.AgentReadsDesktop | crates/agent-protocol/src/message.rs:575-593 | The agent accepts the desktop's envelope with identical fields exactly when the timeout is not zero and the body is within its limit |
| Desktop.ReadResponse | apps/windows/Librarian.Windows/DesktopTransport.cpp:1821-1845 | The desktop's response decoder computes the specified reading |
| Desktop.DesktopReadsAgent | apps/windows/Librarian.Windows/DesktopTransport.cpp:1821-1845 | The desktop accepts exactly the responses the agent encodes, field for field |
| Paging.EncodeAccountSummaries | crates/agent-protocol/src/operations.rs:996-1038 | The encoder refuses exactly what exceeds count, field or estimate bounds, and otherwise writes the page without overflow |
| Paging.EstimateBoundsLength | crates/agent-protocol/src/operations.rs:1003-1016 | The estimate bounds the true encoded length |
| Paging.FitMonotone | crates/agent-protocol/src/operations.rs:996-1016 | A prefix of what fits, fits |
| Paging.EncodeSummaryPage | crates/vault-agent/src/runtime.rs:3592-3633 | The binary search returns the page of the longest fitting prefix, or an internal error only for an offset beyond 32 bits |
| Paging.Probe | crates/vault-agent/src/runtime.rs:3609-3631 | One probe encodes a prefix that fits, reports one that does not, or meets an offset beyond 32 bits |
| Paging.LongestIsLongest | crates/vault-agent/src/runtime.rs:3605-3632 | Every non-empty prefix up to the longest fits and no longer one does |
| Paging.FirstAccountFits | crates/vault-agent/src/runtime.rs:3592-3633 | A non-empty list of accounts within their bounds gives a non-empty page |
| Paging.ServedPage | apps/windows/Librarian.Windows/DesktopTransport.cpp:2306-2321 | For every legal limit the served page passes the client's offset check, has at most that many accounts and continues exactly after itself |
| Paging.PagingIsComplete | crates/vault-agent/src/runtime.rs:2694-2738 | Following the next offsets from 0 terminates with the whole list, whatever legal limit is asked each time |
| Paging.AcceptedIsChecked | apps/windows/Librarian.Windows/DesktopTransport.cpp:2306-2321 | A page the client accepts passes the check that the shell's page stack relies on |
| Paging.DecodeAccountPage | apps/windows/Librarian.Windows/DesktopTransport.cpp:2130-2180 | The client's page decoder computes the specified reading of any bytes, those refusals included |
| Paging.NextPageOffset | apps/windows/Librarian.Windows/DesktopTransport.cpp:2137-2150 | The next offset is null or a shortest number within 32 bits |
| Paging.ReadAccounts | apps/windows/Librarian.Windows/DesktopTransport.cpp:2156-2177 | The account loop computes the specified reading, refusing identifiers that are not 16 bytes or all zero and texts that are not UTF-8 |
| Paging.ClientReadsPage | apps/windows/Librarian.Windows/DesktopTransport.cpp:1994-2016 | The client reads back the very page the agent encoded if and only if every identifier on it is non-zero |
| Paging.ClientAcceptsExactly | apps/windows/Librarian.Windows/DesktopTransport.cpp:2130-2180 | The client accepts exactly the encodings of pages of at most 100 accounts within their bounds, with UTF-8 texts and 16-byte identifiers that are not all zero |
| Shell.PendingIffOccupied | apps/windows/Librarian.Windows/ShellViewModel.cpp:551-709 | In every run an action is pending exactly while the shell shows work in progress; a lock intent hides the accounts; the page stack ascends below the current offset |
| Shell.LockIntentHolds | apps/windows/Librarian.Windows/ShellViewModel.cpp:231-264 | From a lock request on, the intent is set throughout if and only if no pending action completes with a report that the vault is locked; until then the state is never Unlocked and the account list stays empty |
| Shell.IntentLasts | apps/windows/Librarian.Windows/ShellViewModel.cpp:892-926 | The intent is dropped if and only if the pending action completes with a locked status, or the pending lock with LockedError |
| Shell.UnlockShown | apps/windows/Librarian.Windows/ShellViewModel.cpp:892-926 | A confirmed unlock or status is shown as Unlocked if and only if the intent is clear, and as an error otherwise |
| Shell.StrayCompletions | apps/windows/Librarian.Windows/ShellViewModel.cpp:589-635 | A completion that does not match the pending action changes nothing |
| Shell.PreviousUndoesNext | apps/windows/Librarian.Windows/ShellViewModel.cpp:332-364 | Going to the next page and back restores the offset and the stack |
| Shell.IntentOutlivesLockedError | apps/windows/Librarian.Windows/ShellViewModel.cpp:828-890 | From any unlocked shell, a lost lock answer and a refresh refused as locked leave the intent set, and the next unlock is shown as an error |
| Shell.LockingKeepsPasskeys | apps/windows/Librarian.Windows/ShellViewModel.cpp:637-651 | In every run, under the intent passkeys are listed if and only if a lock requested of an unlocked shell is unanswered, and they are the ones that shell listed; without a pending lock none are |
| Shell.ShellViewModel.ShowStatus | apps/windows/Librarian.Windows/ShellViewModel.cpp:892-926 | Showing a status equals the specified transition |
| Shell.ShellViewModel.ShowError | apps/windows/Librarian.Windows/ShellViewModel.cpp:828-890 | Showing an error equals the specified transition |
| Shell.ShellViewModel.ShowOutcome | apps/windows/Librarian.Windows/ShellViewModel.cpp:757-782 | Applying an outcome equals the specified transition |
| Shell.ShellViewModel.ShowAccounts | apps/windows/Librarian.Windows/ShellViewModel.cpp:784-809 | Showing accounts restarts the page stack, or hides the vault on an error |
| Shell.ShellViewModel.ShowPasskeys | apps/windows/Librarian.Windows/ShellViewModel.cpp:811-826 | A cancelled passkey list empties it and keeps the vault shown; other errors hide it |
| Shell.ShellViewModel.StartStatus | apps/windows/Librarian.Windows/ShellViewModel.cpp:551-573 | A status request starts exactly when nothing is pending |
| Shell.ShellViewModel.StartRetry | apps/windows/Librarian.Windows/ShellViewModel.cpp:77-90 | A retry is sent exactly from an error state with nothing pending, and repeats the lock while the intent is set |
| Shell.ShellViewModel.StartLock | apps/windows/Librarian.Windows/ShellViewModel.cpp:231-242 | A lock is sent exactly from an unlocked shell with nothing pending, and sets the intent before its request |
| Shell.ShellViewModel.StartLockRequest | apps/windows/Librarian.Windows/ShellViewModel.cpp:637-651 | A lock request starts exactly when nothing is pending |
| Shell.ShellViewModel.StartFrom | apps/windows/Librarian.Windows/ShellViewModel.cpp:113-150 | Create and unlock start exactly from their state |
| Shell.ShellViewModel.StartHello | apps/windows/Librarian.Windows/ShellViewModel.cpp:163-212 | A Hello request is sent exactly from its state with nothing pending |
| Shell.ShellViewModel.StartSave | apps/windows/Librarian.Windows/ShellViewModel.cpp:279-291 | Saving is sent exactly from an open editor on an unlocked vault |
| Shell.ShellViewModel.StartDelete | apps/windows/Librarian.Windows/ShellViewModel.cpp:308-320 | Deleting a passkey is sent exactly on an unlocked vault with nothing pending |
| Shell.ShellViewModel.StartPage | apps/windows/Librarian.Windows/ShellViewModel.cpp:653-672 | A page request asks for the next or the last previous offset |
| Shell.ShellViewModel.FinishStatus | apps/windows/Librarian.Windows/ShellViewModel.cpp:606-635 | Completing a status request equals the specified transition |
| Shell.ShellViewModel.FinishLock | apps/windows/Librarian.Windows/ShellViewModel.cpp:244-264 | Completing a lock clears the intent only on a locked vault |
| Shell.ShellViewModel.FinishRetry | apps/windows/Librarian.Windows/ShellViewModel.cpp:92-101 | A retry completes the lock it repeated, or its status request |
| Shell.ShellViewModel.FinishRequest | apps/windows/Librarian.Windows/ShellViewModel.cpp:127-136 | Completing a create, unlock, Hello, save or delete request equals the specified transition |
| Shell.ShellViewModel.FinishPage | apps/windows/Librarian.Windows/ShellViewModel.cpp:674-709 | Completing a page pushes or pops the offset stack |

## Left out

- Cryptography, SQLite, file-system guards, Windows identity, pipes, COM and the Hello ceremony itself: foreign code; their replies are parameters, a failed credential removal leaves the credential, and new credential identifiers are fresh.
- The size of the listener pool, which limits concurrent connections in the transport: any number may connect here, which allows more runs.
- Poisoned mutexes and exhaustion of the system's random source: a dispatch may die at any point (`Die`), which covers their effect on others.
- Commit ordering at the very last epoch: a lock refused there is an `AdvanceRefused` event; it cuts off answers (`LockCutOff`), but a commit already past its check is not ordered against it.
- The `mutation_active`, `kdf_active` and `windows_hello_active` flags in the request machine: they only turn requests away as busy, so leaving them out allows more runs.
- The vault session inside the request machine is one flag, open or closed, read by the browser reads, the commits and the deletions; other reads may still succeed without it, which allows more runs. Sessions are modelled in full in `Vault`.
- Replay validation of idempotent passkey requests, and the request fingerprint's MAC: a fingerprint is a number here.
- Decoders of success bodies other than account pages, selections and credentials; for the others only that they fit their writer.
- `ClientHello`, `ServerHello`, endpoint descriptors, the event queue and complete frames: easy codecs of the same kind.
- Decode errors other than unsupported operations are one refusal, as the dispatcher answers them.
- Message texts of the shell, window code, browser extension and launch arguments.
