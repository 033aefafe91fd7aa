# Adapter Sign: verified model

A Dafny 4.11 model of the core of Adapter Sign, an electronic signature service, with machine-checked proofs of what
that core promises. `dafny verify dfyconfig.toml` checks everything.

The system lets an organization send an envelope of documents to signers in groups. Signers open a link, prove who they
are, and sign or decline; when every required signature is there, a background job produces final documents and an
evidence report. Every event goes into a hash-chained audit log. Templates find their fields by text markers inside the
PDFs. Plans and document credits are paid through a payment provider.

| file | what it models |
|---|---|
| Basics, EnvelopeState | optional values; transition tables, signing order, authentication methods |
| SigningProtocol | every transaction of the signing protocol as a function from one database state to the next |
| EnvelopeStore | the same transactions as methods of a class that updates table after table, proved to do what the functions say and, from a state that satisfies the invariant, to lead to one that does by permitted changes |
| ProtocolOutcomes | which condition of the rows gives which answer, and what each transaction writes |
| ProtocolBase, ProtocolSteps, ProtocolInvariant, ProtocolTables, ProtocolTheorems, ProtocolLiveness | what every step keeps and may change, what holds in every reachable state, and why every envelope can be completed |
| ProtocolCodes, ProtocolTrail | what one-time codes and the trail are worth, over whole runs |
| ProtocolClosing | exactly what a cancellation, an expiry or a refusal leaves open |
| Finalization, FinalizationService, FinalizationLiveness | any number of interleaved finalization attempts, the service method as written, and its progress |
| Json, KeyOrder, CanonicalJson, AuditChain, AuditLog | JSON text, the order of keys, canonical JSON, hash chains, the append-only log |
| Anchors, AnchorTheorems, AnchorOutcomes, FieldGeometry, FieldBoxes, TemplatePlan, TemplateOutcomes | marker scanning, page geometry over real numbers, field planning |
| BillingPeriod, Billing, BillingBacking, BillingOutcomes, BillingService | calendar periods, the charge ledger, credits and quota |
| WrapText | the line breaker of the PDF writer |

Conventions. A database transaction is one atomic step; where the source leaves a transaction (mails between check,
link and delivery, links between check and session, finalization, the reset of a pay request) the pieces are separate steps. Clocks, random identifiers, codes,
hashes, text widths, storage answers and the provider's payments are parameters, quantified over. The hash is an
arbitrary function to 64-character strings: since no such function is injective, results that rest on collision
freedom end in "or this collision". History fields (how often a product was granted, where an envelope's quota came
from) record what happened and decide nothing.

The files named Outcomes say what each operation answers and writes with definitions of their own, so that an operation
cannot change without one of their lemmas failing; the other theorems say what follows over runs.

Findings stated as theorems. No signer is ever VIEWED (`ProtocolTheorems.ReachableIsCoherent`): a first view needs an
authenticated session, and authentication has already moved the signer further. Ten roles, which templates allow, do not
fit one corner of an A4 page: the exact bound is `FieldBoxes.CornerHasRoom`. The pay methods check a charge and reset it
later without checking again; `Billing.GrantedAgainExactly` says exactly what that costs. Links are issued and sessions
written after a check that is not repeated, so a closing can fall in between: `ProtocolClosing.LinksAfterClosing` and
`SessionsAfterClosing` say exactly what stays open then, and `ClosedSignsNothing` that nothing can be signed with it.
Text is made safe before it is split into paragraphs, so that split never happens (`WrapText.SafeTextIsOneParagraph`).

## Model

| member | source | states |
|---|---|---|
| EnvelopeState.NextGroupIsLeastOpen | apps/api/src/modules/envelopes/envelope-state.ts:70-80 | The next signing group is the least group that still misses a required signature; there is none exactly when no required signature is missing. |
| EnvelopeState.TurnMeansReached | apps/api/src/modules/envelopes/envelope-state.ts:95-98 | It is a group's turn exactly when some required signature is missing and none of an earlier group is. |
| EnvelopeState.InvitedMeansReached | apps/api/src/modules/envelopes/envelope-state.ts:84-92 | Who is to be invited: exactly the pending, non-integration signers whose group has been reached. |
| AuthMethods.ChannelsSatisfy | apps/api/src/modules/signing/auth-methods.ts:99-118 | Any code that may be sent satisfies the method it is sent for, and a default channel exists for every signer an active envelope can have. |
| ProtocolInvariant.StepKeepsInv | apps/api/src/modules/signing/signature-engine.ts:153-307 | Every transaction of the protocol, accepted or rejected, keeps the whole invariant (coherence, signing order, invitations, sessions, codes, signatures). |
| ProtocolInvariant.ReachableInv | apps/api/src/modules/signing/signature-engine.ts:153-307 | The invariant holds after every run of any length from a new draft. |
| ProtocolSteps.StepMoves | apps/api/src/modules/envelopes/envelope-state.ts:6-14 | Every status change is an edge of the transition table, a finalization request is set at most once and leads to no status but COMPLETED, trail, outbox, signatures and consumed codes only grow, and after the draft signer rows only move up the ranks. |
| ProtocolTheorems.ReachableIsCoherent | apps/api/src/modules/signing/signature-engine.ts:456-492 | ACTIVE has no signed signer and PARTIALLY_SIGNED has one, SIGNED holds exactly when a signature record exists, COMPLETED and EXPIRED leave everyone terminal, a request means all required signers signed. Beyond the promise: nobody is ever VIEWED, because a first view needs an authenticated session. |
| ProtocolTheorems.ReachableSignsInOrder | apps/api/src/modules/envelopes/envelope-state.ts:95-98 | A signed signer of group g found every required signer of each lower group signed, manual and integration signing alike. |
| ProtocolTheorems.ReachableInvitesAreExact | apps/api/src/modules/envelopes/envelope-state.ts:84-92 | While signatures are awaited an invite event names a signer exactly if their group is up to the current one and they are not the integration's. |
| ProtocolTheorems.ReachableOtpIsSound | apps/api/src/modules/signing/otp.service.ts:122-193 | A signer with a code method signed in a session of their own, proven by a satisfying code of that session and signer that was consumed once, in time and before its attempts ran out; and, a code request being one step that does not overlap another, no signer has two live codes. That the code entered was the right one is ProtocolCodes.SignedByTheRightCode. |
| ProtocolTheorems.ReachableStrandsNobody | apps/api/src/modules/envelopes/envelope-state.ts:70-102 | While signatures are awaited some required signer is not terminal and in turn. |
| ProtocolTheorems.GroupNeverDecreases | apps/api/src/modules/signing/signature-engine.ts:493-505 | Between any two moments of a run at which signatures are awaited, the current signing group does not decrease. |
| ProtocolTheorems.RequestFreezes | apps/api/src/modules/signing/signature-engine.ts:456-492 | After a finalization request no step changes signatures, signed signers, documents or fields, and the status can only become COMPLETED. |
| ProtocolTheorems.RequestFreezesForever | apps/api/src/modules/signing/signature-engine.ts:456-492 | The same over runs of any length. |
| ProtocolLiveness.Completable | apps/api/src/modules/signing/signature-engine.ts:456-505 | From every reachable envelope that awaits signatures and does not expire within the resend cooldown, at most 7n+2 steps complete it, n being the number of missing required signatures. |
| ProtocolLiveness.SomeRunCompletes | apps/api/src/modules/signing/signature-engine.ts:456-505 | From a new draft a run to COMPLETED exists, whatever the configuration. |
| ProtocolTables.ReachableRowsFit | apps/api/src/modules/envelopes/envelopes.service.ts:264-553 | In every reachable state a document is in the envelope once, the limits hold, every field lies on an existing page of an existing document and belongs to an existing signer, and without a sequence everyone is in group 1. |
| ProtocolClosing.ClosingShuts | apps/api/src/modules/envelopes/envelopes.service.ts:637-684 | Whatever closes an envelope (cancellation, expiry, a required refusal) revokes every link and every session there is, and leaves mails and links that are between their check and their write as they are. |
| ProtocolClosing.LinksAfterClosing | apps/api/src/modules/notifications/email-sender.service.ts:141-151 | After a closing a link is live if and only if its mail had been checked and its link not yet issued at the closing, the link was issued later, and the mail was not reported undeliverable. |
| ProtocolClosing.SessionsAfterClosing | apps/api/src/modules/signing/signing.service.ts:47-88 | After a cancellation or an expiry a session resolves if and only if its link had been checked and its session not yet written at the closing, the session was written later and not ended, and its time is not up. |
| ProtocolClosing.SessionLiveAfterRefusal | apps/api/src/modules/signing/signing.service.ts:47-88 | DECLINED is not among the statuses that the check of a link refuses: there a session resolves if and only if it was written, not ended and is in time, and every one written comes from a link, or from the mail of a link, checked before the refusal. |
| ProtocolClosing.ReachableClosed | apps/api/src/modules/envelopes/envelopes.service.ts:637-684 | Every reachable closed envelope was closed by one step of its run, so the results on closings speak of all of them. |
| ProtocolClosing.NothingPendingNothingOpens | apps/api/src/modules/envelopes/envelopes.service.ts:680-684 | With nothing between check and write at the closing, no link is live and no session resolves ever after. |
| ProtocolClosing.SomeCancelLeavesAccess | apps/api/src/modules/signing/signing.service.ts:47-88 | The case exists: whatever the configuration, a reachable cancelled envelope with a session that resolves and a link that is live. |
| ProtocolClosing.ClosedSignsNothing | apps/api/src/modules/signing/signature-engine.ts:183-214 | Whatever is left open, no run on a closed envelope changes its status, documents, fields or signatures. |
| EnvelopeStore.Store.AddDocument | apps/api/src/modules/envelopes/envelopes.service.ts:264-298 | Adds a document row in a draft, or refuses: not a draft, too many, already there. |
| EnvelopeStore.Store.RemoveDocument | apps/api/src/modules/envelopes/envelopes.service.ts:300-321 | Removes the row and the fields placed on it. |
| EnvelopeStore.Store.AddSigner | apps/api/src/modules/envelopes/envelopes.service.ts:332-401 | Adds a signer in the group the mode and the input give, or refuses in the source's order of checks. |
| EnvelopeStore.Store.RemoveSigner | apps/api/src/modules/envelopes/envelopes.service.ts:403-421 | Removes the signer and their fields. |
| EnvelopeStore.Store.UpdateDraft | apps/api/src/modules/envelopes/envelopes.service.ts:227-253 | Sets the parts that are given and leaves the others alone: a deadline is checked only if one is given and can be cleared, and switching to parallel puts everyone in group 1. |
| EnvelopeStore.Store.ReplaceFields | apps/api/src/modules/envelopes/envelopes.service.ts:505-553 | Replaces all fields exactly if every one of them passes the four checks. |
| EnvelopeStore.Store.DiscardDraft | apps/api/src/modules/envelopes/envelopes.service.ts:721-738 | Discards a draft only. |
| EnvelopeStore.Store.Activate | apps/api/src/modules/envelopes/envelopes.service.ts:557-633 | Activates after the source's checks, reserving quota, and invites whoever is in turn. |
| EnvelopeStore.Store.Cancel | apps/api/src/modules/envelopes/envelopes.service.ts:637-677 | Cancels unless finalizing, revokes links and sessions, leaves signer statuses as they are. |
| EnvelopeStore.Store.RevokeSignerAccess | apps/api/src/modules/envelopes/envelopes.service.ts:680-684 | Afterwards no session resolves and every link is revoked; no row is lost and nothing else about one changes. |
| EnvelopeStore.Store.Expire | apps/api/src/modules/envelopes/envelope-lifecycle.service.ts:26-62 | Expires an overdue envelope without a finalization request: open signers expire, access is revoked. |
| EnvelopeStore.Store.Remind | apps/api/src/modules/envelopes/envelopes.service.ts:688-716 | Emits a reminder for exactly the contacted, unfinished signers asked for whose last reminder went out more than an hour ago. |
| EnvelopeStore.Store.CheckInvite | apps/api/src/modules/notifications/email-sender.service.ts:141-148 | Looks whether envelope and signer still wait for a signature, and remembers the deadline read. |
| EnvelopeStore.Store.IssueLink | apps/api/src/modules/notifications/email-sender.service.ts:149-151 | Issues the link in a later transaction, whatever has become of the envelope; it ends with the deadline read or its own time. |
| EnvelopeStore.Store.InviteSent | apps/api/src/modules/notifications/email-sender.service.ts:168-197 | Moves a signer from PENDING to INVITED only, whatever happened since the mail was prepared; a reminder is dated instead. |
| EnvelopeStore.Store.InviteFailed | apps/api/src/modules/notifications/email-sender.service.ts:165-167 | Revokes the link of a mail that never left. |
| EnvelopeStore.Store.CheckLink | apps/api/src/modules/signing/signing.service.ts:47-69 | Reads link and envelope outside the transaction: refuses revoked, expired and unavailable ones, expires an overdue envelope, and decides on automatic authentication. |
| EnvelopeStore.Store.OpenSession | apps/api/src/modules/signing/signing.service.ts:71-120 | Writes the session as the check decided and dated it, looking at nothing again; method EMAIL advances the signer from an earlier status only. |
| EnvelopeStore.Store.EndSession | apps/api/src/modules/signing/signing.service.ts:355-358 | Revokes the session. |
| EnvelopeStore.Store.RequestOtp | apps/api/src/modules/signing/otp.service.ts:53-120 | Invalidates the signer's live codes and creates one, unless a check refuses. |
| EnvelopeStore.Store.VerifyOtp | apps/api/src/modules/signing/otp.service.ts:122-193 | Expired, exhausted, wrong and right codes: each changes exactly the rows the source changes, also where the answer is an error. It succeeds exactly for the code of a latest live challenge of the session and its signer, in time and with attempts left. |
| EnvelopeStore.Store.ViewDocument | apps/api/src/modules/signing/signing.service.ts:244-277 | Records the first view. |
| EnvelopeStore.Store.Eligibility | apps/api/src/modules/signing/signature-engine.ts:183-214 | The checks under the lock, in order; none refuses exactly if signatures are awaited, the deadline is ahead, the signer is in turn and authenticated well enough, and every digest shown is the one stored. |
| EnvelopeStore.Store.Sign | apps/api/src/modules/signing/signature-engine.ts:153-307 | Signs once: the record, the status, and what follows for the envelope; repeats are answered as before. It signs exactly if session, consent, turn, authentication and shown digests are all as they have to be. |
| EnvelopeStore.Store.SignByIntegration | apps/api/src/modules/signing/signature-engine.ts:315-449 | Signs for the company from any status that is not terminal, in turn, through a technical session. |
| EnvelopeStore.Store.EvaluateProgress | apps/api/src/modules/signing/signature-engine.ts:456-505 | Requests finalization, or becomes PARTIALLY_SIGNED and invites the next signers. |
| EnvelopeStore.Store.Decline | apps/api/src/modules/signing/signing.service.ts:304-353 | A required signer's refusal closes the envelope, an optional one's lets it go on. |
| EnvelopeStore.Store.Complete | apps/api/src/modules/evidence/finalization.service.ts:229-262 | The locked commit: final keys per document, open signers expire, COMPLETED; a second commit changes nothing. |
| AuthMethods.DefaultChannelExactly | apps/api/src/modules/signing/auth-methods.ts:99-111 | The channel offered first: WhatsApp where the link came by phone or nothing else is offered, otherwise e-mail, and none for methods without a code. |
| ProtocolOutcomes.SignAnswers | apps/api/src/modules/signing/signature-engine.ts:153-214 | The answer to a signing request, check by check in the source's order: which condition of the rows gives which error. |
| ProtocolOutcomes.SignsExactly | apps/api/src/modules/signing/signature-engine.ts:153-214 | A signature is recorded if and only if the session is live and authenticated, consent and mark are valid, there is no signature yet, signatures are awaited in time, no required signature of a lower group is missing, the authentication is good enough, and every digest shown is the one stored; otherwise nothing changes. |
| ProtocolOutcomes.SignWrites | apps/api/src/modules/signing/signature-engine.ts:216-307 | What a signature writes: the record with the method that authenticated it, SIGNED, three events, and then either the finalization request or an invitation to exactly those who are in turn now. |
| ProtocolOutcomes.IntegrationAnswers | apps/api/src/modules/signing/signature-engine.ts:315-360 | The answer to a signature by integration, check by check. |
| ProtocolOutcomes.IntegrationWrites | apps/api/src/modules/signing/signature-engine.ts:360-449 | What it writes: the technical session, the record, SIGNED, two events, and what follows for the envelope. |
| ProtocolOutcomes.DeclineAnswers | apps/api/src/modules/signing/signing.service.ts:304-335 | The answer to a refusal, check by check. |
| ProtocolOutcomes.DeclineClosesExactly | apps/api/src/modules/signing/signing.service.ts:337-349 | An accepted refusal makes the envelope DECLINED exactly if the signer is required. |
| ProtocolOutcomes.RequiredDeclineWrites | apps/api/src/modules/signing/signing.service.ts:337-349 | A required signer's refusal declines the envelope and revokes every link and session, keeping their other columns. |
| ProtocolOutcomes.OptionalDeclineWrites | apps/api/src/modules/signing/signing.service.ts:337-349 | An optional signer's refusal leaves links and sessions alone and lets the envelope go on as after a signature. |
| ProtocolOutcomes.VerifyAnswers | apps/api/src/modules/signing/otp.service.ts:122-193 | The answer to a code, check by check, the last wrong one being answered as locked. |
| ProtocolOutcomes.RightCodeAuthenticates | apps/api/src/modules/signing/otp.service.ts:122-193 | A session becomes authenticated by a code if and only if the code is that of a latest live challenge of the session and its signer, in time and with attempts left. |
| ProtocolOutcomes.RightCodeWrites | apps/api/src/modules/signing/otp.service.ts:155-186 | What the right code writes: the challenge is consumed, the session authenticated by its method, the signer AUTHENTICATED unless already that far. |
| ProtocolOutcomes.WrongCodeCounts | apps/api/src/modules/signing/otp.service.ts:145-154 | Any other code leaves sessions, signers and consumed challenges alone, raises the attempts by exactly one and invalidates exactly with the last attempt. |
| ProtocolOutcomes.UnanswerableChanges | apps/api/src/modules/signing/otp.service.ts:137-144 | A challenge that is too late or has no attempts left is invalidated; every other refusal changes nothing. |
| ProtocolOutcomes.RequestAnswers | apps/api/src/modules/signing/otp.service.ts:53-85 | The answer to a code request, check by check: method, authentication, channel, cooldown over all of the signer's codes. |
| ProtocolOutcomes.RequestWrites | apps/api/src/modules/signing/otp.service.ts:86-117 | The new code replaces every unconsumed one of the signer in whichever session, and no other row changes. |
| ProtocolOutcomes.CheckInviteAnswers | apps/api/src/modules/notifications/email-sender.service.ts:141-148 | Which invite events are skipped, and that the deadline read is remembered. |
| ProtocolOutcomes.IssueLinkAnswers | apps/api/src/modules/notifications/email-sender.service.ts:149-151 | The link lasts its own time from now, but no longer than the deadline that the check read. |
| ProtocolOutcomes.InviteSentAnswers | apps/api/src/modules/notifications/email-sender.service.ts:168-197 | A delivered invitation moves a PENDING signer only; a delivered reminder is dated. |
| ProtocolOutcomes.InviteFailedAnswers | apps/api/src/modules/notifications/email-sender.service.ts:165-167 | A mail that never left takes its link with it. |
| ProtocolOutcomes.CheckLinkAnswers | apps/api/src/modules/signing/signing.service.ts:47-69 | Which links are refused and why; an overdue envelope expires unless it is being finalized; method EMAIL is authenticated while the envelope is out for signature. |
| ProtocolOutcomes.OpenSessionAnswers | apps/api/src/modules/signing/signing.service.ts:71-120 | The session is written with the time and the authentication that the check decided. |
| ProtocolOutcomes.EndSessionAnswers | apps/api/src/modules/signing/signing.service.ts:355-358 | Ending a session revokes that session only. |
| ProtocolOutcomes.ViewAnswers | apps/api/src/modules/signing/signing.service.ts:244-277 | Which views are recorded, and that only a signer who was not further yet becomes VIEWED. |
| ProtocolOutcomes.ExpireAnswers | apps/api/src/modules/envelopes/envelope-lifecycle.service.ts:26-62 | An envelope expires exactly if signatures are awaited and the deadline has come; open signers expire with it and all access is revoked. |
| ProtocolOutcomes.CancelAnswers | apps/api/src/modules/envelopes/envelopes.service.ts:637-677 | The answer to a cancellation, check by check, and what it writes; a draft's cancellation is not announced. |
| ProtocolOutcomes.RemindAnswers | apps/api/src/modules/envelopes/envelopes.service.ts:688-716 | Exactly the signers asked for who are contacted, not through and last reminded more than an hour ago are reminded. |
| ProtocolOutcomes.ActivateAnswers | apps/api/src/modules/envelopes/envelopes.service.ts:557-633 | The answer to an activation, check by check, and that exactly those in turn are invited. |
| ProtocolOutcomes.CompleteAnswers | apps/api/src/modules/evidence/finalization.service.ts:229-262 | The answer to the commit, and that each document gets the key stored for it and every open signer expires. |
| ProtocolOutcomes.AddDocumentAnswers | apps/api/src/modules/envelopes/envelopes.service.ts:264-298 | The answer to a document, check by check: twenty at most, none twice. |
| ProtocolOutcomes.RemoveDocumentAnswers | apps/api/src/modules/envelopes/envelopes.service.ts:300-321 | The document and exactly the fields placed on it go. |
| ProtocolOutcomes.AddSignerAnswers | apps/api/src/modules/envelopes/envelopes.service.ts:332-380 | The answer to a signer, check by check: methods that can be delivered, fifty at most, a phone for WhatsApp. |
| ProtocolOutcomes.AddSignerWrites | apps/api/src/modules/envelopes/envelopes.service.ts:370-401 | The new row; without a sequence its group is 1, otherwise the one asked for or the one after the last. |
| ProtocolOutcomes.RemoveSignerAnswers | apps/api/src/modules/envelopes/envelopes.service.ts:403-421 | The signer and exactly their fields go. |
| ProtocolOutcomes.UpdateAnswers | apps/api/src/modules/envelopes/envelopes.service.ts:227-253 | Given parts are set, absent ones stay, a deadline has to be a minute ahead, and everyone is in group 1 when the sequence is switched off. |
| ProtocolOutcomes.ReplaceFieldsAnswers | apps/api/src/modules/envelopes/envelopes.service.ts:505-553 | Replaced exactly if every field is on an existing page of a document of the envelope, belongs to a signer of it and lies on the page. |
| ProtocolOutcomes.DiscardAnswers | apps/api/src/modules/envelopes/envelopes.service.ts:721-738 | Drafts only. |
| ProtocolCodes.CodesAreCounted | apps/api/src/modules/signing/otp.service.ts:122-193 | Over any run a challenge's attempts are the number of wrong codes entered for it while it could be answered, and it is consumed exactly if its own code was entered, which happens at most once. |
| ProtocolCodes.ConsumedWasAnswered | apps/api/src/modules/signing/otp.service.ts:155-160 | A consumed challenge was answered by its own code, in its own session, at the time noted. |
| ProtocolCodes.SignedByTheRightCode | apps/api/src/modules/signing/signature-engine.ts:196-208 | Whoever signs with a code method had the code of a challenge of their own entered in the very session they signed in, after fewer wrong codes than are allowed. |
| ProtocolTrail.ReachableTrailTells | apps/api/src/modules/signing/signature-engine.ts:284-307 | In every reachable state the trail holds exactly one event for each signature, for the finalization request, for the activation and for the closing or completion that there was, and none for what did not happen. |
| FinalizationInvariant.SystemStepKeepsInv | apps/api/src/modules/evidence/finalization.service.ts:77-282 | Every step of every attempt and of everybody else keeps: reads still agree with the tables, uploads belong to their attempt, exactly the committed attempt owns the report. |
| FinalizationInvariant.AtMostOneCommits | apps/api/src/modules/evidence/finalization.service.ts:225-262 | In every interleaving of any number of attempts at most one commits. |
| FinalizationInvariant.ReportIsFaithful | apps/api/src/modules/evidence/finalization.service.ts:103-228 | A report exists exactly when the envelope is COMPLETED, and it states its documents, its fields, exactly its signatures, and a prefix of its trail in which the request and each signature of the envelope occur once. |
| FinalizationInvariant.ReportReachesBack | apps/api/src/modules/evidence/finalization.service.ts:103-228 | From any state of the system: a report holds all of the trail that there was before its attempt began, and nothing that is not in the trail. |
| FinalizationInvariant.ReportSpansItsAttempt | apps/api/src/modules/evidence/finalization.service.ts:103-228 | The same of whole runs from a new envelope, before and after the step that begins the attempt. |
| FinalizationInvariant.StartsExactly | apps/api/src/modules/evidence/finalization.service.ts:77-89 | There is something to do exactly if the envelope is out for signature and its finalization was requested. |
| FinalizationInvariant.ChecksExactly | apps/api/src/modules/evidence/finalization.service.ts:90-107 | What was read passes exactly if there are signers, every required one signed, every signed one has its record, and the originals are unchanged. |
| FinalizationInvariant.CommitAnswers | apps/api/src/modules/evidence/finalization.service.ts:225-262 | Which condition ends an attempt how, and that a commit records the stored key of each document and the report of what its attempt read. |
| FinalizationInvariant.RecordedKeysAreNeverDeleted | apps/api/src/modules/evidence/finalization.service.ts:261-282 | Whatever happens after a commit, the report stays and its objects stay in storage. |
| FinalizationInvariant.NoOrphansRemain | apps/api/src/modules/evidence/finalization.service.ts:276-282 | Once every attempt has ended and no delete failed, storage holds the recorded objects and nothing else. |
| FinalizationLiveness.UndisturbedAttemptCompletes | apps/api/src/modules/evidence/finalization.service.ts:77-268 | An undisturbed attempt on a requested envelope with n documents commits in n+9 steps. |
| FinalizationService.Service.Finalize | apps/api/src/modules/evidence/finalization.service.ts:77-270 | A call, together with everything others do between its steps, is a run of the modelled system, so all of the above holds of it; it ends as completed exactly if the recorded report is its own, which then matches what was signed and holds all of the trail from before the call, the request and every signature once. Left alone, with storage that works, it completes every requested envelope. |
| FinalizationService.Service.LoadRows | apps/api/src/modules/evidence/finalization.service.ts:78-89 | The related rows come from separate queries with others' steps in between. |
| FinalizationService.Service.Validate | apps/api/src/modules/evidence/finalization.service.ts:90-113 | Valid exactly if all required signers signed, every signed signer has evidence, the originals are unchanged and the trail verifies; what was read then is what the tables say, the trail included. |
| FinalizationService.Service.UploadAll | apps/api/src/modules/evidence/finalization.service.ts:119-224 | Final documents one by one, then the report; the first failure stops the uploads. |
| FinalizationService.Service.CommitLocked | apps/api/src/modules/evidence/finalization.service.ts:225-262 | Commits exactly if the envelope is out for signature with its finalization requested and has as many documents as were stored; otherwise turns to the cleanup. |
| FinalizationService.Service.Cleanup | apps/api/src/modules/evidence/finalization.service.ts:278-282 | Tries to delete every uploaded object and goes on after a failure; nothing stays behind when all deletes succeed. |
| Json.PrintRoundTrips | apps/api/src/common/crypto/crypto.util.ts:51-53 | The compact text of canonical data parses back to the same data (strings as in section 7 of RFC 8259), so the printer is injective. |
| CanonicalJson.Normalize | apps/api/src/common/crypto/crypto.util.ts:55-74 | Refuses exactly the values with a number that is not finite (dates are taken to be valid); otherwise yields the normal form, filled key by key in the order of UTF-16 code units. |
| CanonicalJson.NormalizedIsCanonical | apps/api/src/common/crypto/crypto.util.ts:55-74 | The normal form is plain data with sorted keys and means the same as the value. |
| CanonicalJson.TextIsMeaning | apps/api/src/common/crypto/crypto.util.ts:43-53 | Two values have the same canonical text if and only if they mean the same data: key order, undefined properties, dates and big integers make no other difference. |
| CanonicalJson.TextSurvivesParsing | apps/api/src/modules/audit/audit.service.ts:61-62 | Parsing the canonical text gives data with the same meaning and the same canonical text. |
| KeyOrder.BeforeIsUnitOrder | apps/api/src/common/crypto/crypto.util.ts:66-72 | Keys are in order exactly if their UTF-16 code units are, surrogate pairs included (section 7.2.13 of ECMA-262). |
| KeyOrder.EscapesExactly | apps/api/src/common/crypto/crypto.util.ts:51-53 | Which characters are escaped and how: quotes, backslashes and control characters and no others. |
| AuditChain.HashedTextSays | apps/api/src/modules/audit/audit-chain.ts:23-40 | The hashed text is JSON of an object with exactly the fourteen names of the source. |
| AuditChain.ActorIsWritten | apps/api/src/modules/audit/audit-chain.ts:23-40 | Chain and actor stand under their own names. |
| AuditChain.ScopeIsWritten | apps/api/src/modules/audit/audit-chain.ts:23-40 | Organization, envelope, document and signer stand under their own names, an absent one as null. |
| AuditChain.CircumstancesAreWritten | apps/api/src/modules/audit/audit-chain.ts:23-40 | Number, event, time, address, agent, request and metadata stand under their own names. |
| AuditChain.FaultExactly | apps/api/src/modules/audit/audit-chain.ts:60-78 | Which fault an event has: a wrong number before a wrong link, a wrong link before a wrong hash; the link is the hash before it, or 64 zeros. |
| AuditChain.TextIsContent | apps/api/src/modules/audit/audit-chain.ts:23-40 | The hashed texts of two events are equal if and only if all fields are equal and the metadata means the same, null and {} included. |
| AuditChain.VerifyChain | apps/api/src/modules/audit/audit-chain.ts:60-78 | Valid exactly for intact chains; otherwise the returned head is that of the longest intact prefix and the failure names the event after it and the first check it fails. |
| AuditChain.HeadDeterminesChain | apps/api/src/modules/audit/audit-chain.ts:43-78 | Two intact chains with the same head have the same length and content event by event, or a hash collision among the texts they hash is exhibited. |
| AuditChain.ChainKeysSeparate | apps/api/src/modules/audit/audit-chain.ts:80-84 | Two events share a chain key exactly when they concern the same envelope, the same organization, or the platform. |
| AuditLog.Log.Record | apps/api/src/modules/audit/audit.service.ts:45-94 | Appends one event to its chain, whose head and length it returns, and keeps every chain intact; the event has every column of the call and metadata of the same meaning; metadata with a number that is not finite is refused and nothing is written. |
| AuditLog.NewRowSays | apps/api/src/modules/audit/audit.service.ts:62-80 | The row says what the call said, column by column, in the chain of the call's envelope, failing that of its organization, failing that of the platform. |
| AuditLog.EveryCallIsRecorded | apps/api/src/modules/audit/audit.service.ts:45-94 | Over any calls each chain is, event by event and in order, the calls of its scope whose metadata was not refused. |
| AuditLog.AppendedAllIsIntact | apps/api/src/modules/audit/audit.service.ts:45-94 | After any sequence of calls over interleaved chain keys every chain is intact. |
| AuditLog.EveryRecordedChainVerifies | apps/api/src/modules/audit/audit.service.ts:96-118 | Every recorded chain, reloaded with metadata keys in any order, is intact with sequences 1 to n and says, event by event, what the calls said. |
| AuditLog.ChainsOnlyGrow | apps/api/src/modules/audit/audit.service.ts:45-94 | What is recorded later only extends a chain, so a head noted in a report stays the head of a prefix of the final chain. |
| AuditLog.Log.VerifyEnvelopeChain | apps/api/src/modules/audit/audit.service.ts:120-122 | Loading and verifying right away succeeds. |
| Anchors.ScanPage | apps/api/src/modules/templates/anchors.ts:80-116 | Drops spaces, matches markers from left to right, and reports each match as an anchor with its box or as invalid, in order. |
| Anchors.MeasureChars | apps/api/src/modules/templates/anchors.ts:119-156 | The bounding box of all character corners and the mean baseline, or nothing for degenerate items. |
| AnchorTheorems.PrintedMarkersAreFound | apps/web/src/components/templates.tsx:26 | Any list of markers over known types and legal roles, printed between bracket-free texts, is found in order with nothing invalid, in any case, with any spaces inserted and however the text is cut into items. |
| AnchorTheorems.MarkerNames | apps/api/src/modules/templates/anchors.ts:77-78 | A marker in any letter case names its type and role. |
| AnchorTheorems.CuttingChangesNothing | apps/api/src/modules/templates/anchors.ts:84-156 | Cutting a text item before any character, with proportional width and shifted origin, leaves every box and baseline unchanged. |
| AnchorTheorems.StraightBox | apps/api/src/modules/templates/anchors.ts:119-156 | The box of a marker that reads straight to the right starts, and its baseline lies, where its first character does. |
| AnchorOutcomes.SpacesExactly | apps/api/src/modules/templates/anchors.ts:91 | What counts as a space: white space and line terminators (sections 12.2 and 12.3 of ECMA-262). |
| AnchorOutcomes.LowersExactly | apps/api/src/modules/templates/anchors.ts:101 | Capital letters become small ones, and so does the Kelvin sign; every other character that matters stays. |
| AnchorOutcomes.MatchesExactly | apps/api/src/modules/templates/anchors.ts:80-99 | The matches are markers, in order and apart, and no marker of the text is passed over. |
| AnchorOutcomes.NamesExactly | apps/api/src/modules/templates/anchors.ts:81-102 | A marker names a field and a role exactly if it holds one of the four words, a colon and a role of 1 to 40 legal characters, in any case. |
| AnchorOutcomes.RecognisedExactly | apps/api/src/modules/templates/anchors.ts:99-113 | A match becomes an anchor exactly if it names a field and a role and all its characters can be placed; otherwise it is invalid, with its text. |
| AnchorOutcomes.PageIsAccounted | apps/api/src/modules/templates/anchors.ts:80-116 | Every marker on a page is an anchor with its field, role and box or is reported as invalid, and a page has no invalid marker exactly if all of them are well formed and placed. |
| AnchorOutcomes.PlacedExactly | apps/api/src/modules/templates/anchors.ts:127-131 | A character has a place exactly if its item has a direction, a size and a width. |
| AnchorOutcomes.CornersExactly | apps/api/src/modules/templates/anchors.ts:127-142 | A character takes its equal share of the item's width along the baseline, up to the height of the item. |
| AnchorOutcomes.CornersListed | apps/api/src/modules/templates/anchors.ts:138-146 | All four corners of each character are measured and nothing else, and both ends of its baseline. |
| AnchorOutcomes.MeasureBounds | apps/api/src/modules/templates/anchors.ts:148-156 | The box reaches from the least to the greatest corner, cut to the page, and the baseline is the mean. |
| FieldBoxes.FieldIsNominal | apps/api/src/modules/templates/anchors.ts:21-27 | Each type of field has its size in points, as far as the page is large enough. |
| FieldBoxes.FieldFollowsMarker | apps/api/src/modules/templates/anchors.ts:188-194 | Signatures and initials start at their marker and hang a fifth below its baseline, names and dates are centred on its line, and what would leave the page is pushed back to its edge and no further. |
| FieldBoxes.CornerIsInset | apps/api/src/modules/templates/anchors.ts:197-211 | Automatic initials are 56 by 28 points, 18 points from the two edges that their corner names, and each further role is 62 points further in, on every page with the room. |
| FieldBoxes.BoxesAreOnPage | apps/api/src/modules/templates/anchors.ts:169-211 | Every box made from an anchor or a corner lies on the page. |
| FieldBoxes.CornerHasRoom | apps/api/src/modules/templates/anchors.ts:197-211 | The automatic initials of n roles in one corner are pairwise disjoint if and only if n is at most 1 or the page is at least 62n+6 points wide. |
| FieldBoxes.SignatureStartsAtMarker | apps/api/src/modules/templates/anchors.ts:188-194 | For an upright field that needs no clamping the local point (0, a fifth of the height) is drawn at the start of the marker's baseline in PDF space, for every rotation. |
| FieldGeometry.RotationIsNearestQuarter | apps/api/src/modules/evidence/field-geometry.ts:19-22 | The rotation is one of the four quarter turns, within 45 degrees of the angle up to full turns. |
| FieldGeometry.PlacementFollowsView | apps/api/src/modules/evidence/field-geometry.ts:62-80 | toPage(lx, ly) equals viewToPdf at the matching view point, for every rotation. |
| FieldGeometry.PlacementStaysInside | apps/api/src/modules/evidence/field-geometry.ts:62-80 | Every point of a field that lies on the visible page is a point of the PDF page. |
| FieldGeometry.PlacementKeepsDistances | apps/api/src/modules/evidence/field-geometry.ts:62-80 | toPage preserves distances. |
| FieldGeometry.TopCornersShown | apps/api/src/modules/evidence/field-geometry.ts:26-38 | For each quarter turn, which corners of the page box are seen at the top left, top right and bottom left (clockwise, section 7.7.3.3 of ISO 32000-1). |
| TemplateOutcomes.PlannedExactly | apps/api/src/modules/templates/anchors.ts:246-281 | A field is planned if and only if a marker of a known role stands there, or it is the automatic initials of a role that wants them on every page and has no marker for them on that one, in the next free place of its corner. |
| TemplateOutcomes.ComplaintsExactly | apps/api/src/modules/templates/anchors.ts:283-289 | A role is reported unsigned exactly if no signature marker names it anywhere, and unknown exactly if a marker names it and the template does not have it. |
| TemplateOutcomes.ValidExactly | apps/api/src/modules/templates/templates.service.ts:33-35 | A plan is valid exactly if every role has a signature marker, every marker names a role of the template, and no marker is malformed. |
| TemplatePlan.PlanTemplateFields | apps/api/src/modules/templates/anchors.ts:246-289 | The nested loops build the plan the theorems below are about: a field per known anchor, initials in the next free slot of their corner, unknown roles, missing signatures, invalid anchors. |
| TemplatePlan.ValidPlanFollowsAnchors | apps/api/src/modules/templates/anchors.ts:246-289 | In a valid plan the fields that come from anchors are the anchors' fields, one each and in order. |
| TemplatePlan.EveryRoleSigns | apps/api/src/modules/templates/templates.service.ts:33-35 | In a valid plan every role has a SIGNATURE field. |
| TemplatePlan.EveryPageIsInitialed | apps/api/src/modules/templates/anchors.ts:263-280 | Every role that initials all pages has an INITIALS field on each page. |
| TemplatePlan.CornerFieldsApart | apps/api/src/modules/templates/anchors.ts:266-279 | The automatic initials planned for one corner of a page are pairwise disjoint if and only if they are at most one or the page is at least 62 points wide for each and 6 more. |
| TemplatePlan.NineFitOnA4 | apps/api/src/modules/templates/templates.dto.ts:83 | On an upright A4 page they are pairwise disjoint exactly for up to nine; of the ten roles a template may have, two overlap. |
| TemplatePlan.PlannedFieldsAreAccepted | apps/api/src/modules/envelopes/envelopes.service.ts:521-527 | Whichever signers take the roles, replacing the envelope's fields by the planned ones passes every check. |
| BillingPeriod.ShiftMonths | apps/api/src/modules/billing/billing-period.ts:4-12 | Moving to the first, to the month and back to the day gives the same day and time in the later month, or its last day. |
| BillingPeriod.PeriodEndsLater | apps/api/src/modules/billing/billing-period.ts:18-28 | A paid period ends after now and after its start, and an extension starts at the current end. |
| BillingPeriod.RenewedIs | apps/api/src/modules/billing/billing-period.ts:4-28 | k renewals end in the month k later, on the least of the first day and every visited month's length, at the same time of day. |
| BillingPeriod.RenewingExtends | apps/api/src/modules/billing/billing-period.ts:18-28 | Each renewal strictly extends the end. |
| BillingPeriod.RenewingLosesAtMostThreeDays | apps/api/src/modules/billing/billing-period.ts:4-12 | k renewals never go past adding k months at once and fall at most three days short of it. |
| BillingOutcomes.MonthLengths | apps/api/src/modules/billing/billing-period.ts:4-12 | The months of the Gregorian calendar have their lengths. |
| BillingOutcomes.BeforeIsEarlier | apps/api/src/modules/billing/billing-period.ts:18-28 | Moments are compared as points in time. |
| BillingOutcomes.AddedMonthsAreLater | apps/api/src/modules/billing/billing-period.ts:4-12 | Months later: that many months, the same time, the same day or the last one of a shorter month. |
| BillingOutcomes.StatusWords | apps/api/src/modules/billing/billing-period.ts:31-50 | What each word of the provider means. |
| BillingOutcomes.ApplyAnswers | apps/api/src/modules/billing/billing.service.ts:434-537 | The whole answer to a payment in the provider's words and the ledger's rows: when nothing happens, when it is a duplicate, what an approval grants, what a refund takes back, what else an open charge becomes. |
| BillingOutcomes.PackApproval | apps/api/src/modules/billing/billing.service.ts:471-505 | A matching approval of an open pack raises the balance by exactly its documents and touches no other charge nor the subscription. |
| BillingOutcomes.PackRefund | apps/api/src/modules/billing/billing.service.ts:507-527 | A refund of an approved pack of n documents by the payment that bought it lowers the balance by n or to 0, by no more than n, and touches no other charge nor the subscription. |
| BillingOutcomes.PlanRefund | apps/api/src/modules/billing/billing.service.ts:507-527 | A refund of an approved plan suspends the subscription exactly if it is active and carried by that payment. |
| BillingOutcomes.CheckoutAnswers | apps/api/src/modules/billing/billing.service.ts:254-282 | A new charge is pending, unpaid and granted nothing. |
| BillingOutcomes.PayAnswers | apps/api/src/modules/billing/billing.service.ts:290-305 | A pay request opens a charge exactly if it is neither approved nor refunded and its time is not up. |
| BillingOutcomes.QuotaIs | apps/api/src/modules/billing/billing-period.ts:67-73 | Where the next envelope comes from, each source exactly; it is refused exactly if the plan is limited, its limit and the percentage on top are used up and no credit is left. |
| BillingOutcomes.ActivateAnswers | apps/api/src/modules/billing/limits.service.ts:29-54 | What a reservation writes; only one from a credit costs a credit. |
| BillingBacking.PaidIsNeverTaken | apps/api/src/modules/billing/billing.service.ts:507-527 | In every run, late resets or not: the balance and the credits used so far make up at least the documents of all packs that are paid and not refunded. |
| Billing.RenewalsStack | apps/api/src/modules/billing/billing.service.ts:539-556 | Any number of renewals, each before the end reached so far and each by its own payment: the plan ends where month-by-month renewal says, keeps its start, and names the latest payment. |
| Billing.GrantsExactly | apps/api/src/modules/billing/billing.service.ts:471-505 | A product goes out exactly for an approval in the charge's amount and currency while the charge is neither approved nor refunded. |
| Billing.PunctualRunsAreNotLate | apps/api/src/modules/billing/billing.service.ts:434-537 | For any sequence of payments, repeated, reordered and with several ids per charge, and no late reset of the charge, the product is granted at most once, and exactly once when the charge is approved. |
| Billing.GrantsAreCounted | apps/api/src/modules/billing/billing.service.ts:335-505 | Over any actions at all a charge's product goes out exactly once for every matching approval that finds the charge open: open from the start, or since a late reset with no refund and no matching approval in between. |
| Billing.GrantedAgainExactly | apps/api/src/modules/billing/billing.service.ts:335-371 | The product of a settled charge goes out again if and only if some late reset of it is followed by a matching approval with no refund and no other matching approval in between; and then some reset met a status that cannot be paid. |
| Billing.GrantedAtMostOnce | apps/api/src/modules/billing/billing.service.ts:335-347 | So in every reachable ledger grants exceed one by at most the number of resets that hit a settled charge. |
| Billing.LateResetReopens | apps/api/src/modules/billing/billing.service.ts:371 | One step and then a matching approval: for a charge approved or refunded alike, the product goes out again exactly if that step is a late reset. |
| Billing.DuplicateExactly | apps/api/src/modules/billing/billing.service.ts:456-469 | The answer is "duplicate" exactly for an approval under another id while the charge is approved, and then nothing changes. |
| Billing.ApprovedStays | apps/api/src/modules/billing/billing.service.ts:456-527 | Over runs of any length without late resets of it: after an approval by id q the charge stays as it is until q is refunded, and then stays refunded. |
| Billing.RefundedAbsorbs | apps/api/src/modules/billing/billing.service.ts:471-533 | Over runs of any length without late resets of it, a refunded charge is changed by nothing. |
| Billing.CreditsAreConserved | apps/api/src/modules/billing/billing.service.ts:507-565 | Credits granted equal balance plus credits debited plus credits taken back, and the balance is never negative. |
| BillingBacking.WhatIsActiveIsPaid | apps/api/src/modules/billing/billing.service.ts:507-565 | In every run without late resets an active plan bought by a payment is carried by an approved charge for that plan paid by it, and the credit balance never exceeds the documents of credit packs paid and not refunded. |
| Billing.QuotaIsTakenInOrder | apps/api/src/modules/billing/billing-period.ts:67-73 | In a month under one limited plan the first envelopes come from the plan, the next from the bonus, and exactly max(0, used - limit - bonus), all later ones, from credits. |
| Billing.BonusIsCeiling | apps/api/src/modules/billing/billing-period.ts:67-73 | The bonus is the percentage of the limit, rounded up. |
| BillingService.Service.Apply | apps/api/src/modules/billing/billing.service.ts:434-537 | One provider payment: grant, refund, status update, duplicate or nothing, told by the provider's words, each with exactly its effects on charge, subscription and credits (a refunded pack loses at most its own documents), keeping the ledger invariant. |
| BillingService.Service.AssertCanCreateEnvelope | apps/api/src/modules/billing/limits.service.ts:29-54 | Reserves the next envelope's quota, debiting a credit only after plan and bonus; it refuses exactly if the plan is limited, limit and bonus are used up and no credit is left. |
| BillingService.Service.ResetForPayment | apps/api/src/modules/billing/billing.service.ts:335-347 | The reset that follows a passed check: the charge is PENDING whatever it was, no other charge changes, and it counts as late exactly if the charge was settled; the ledger invariant holds on. |
| WrapText.WrapText | apps/api/src/modules/evidence/pdf-writer.ts:21-45 | The nested loops terminate whenever the empty text fits; every line fits or is one character, the lines hold all characters that are not spaces, in order, and every break is forced. |
| WrapText.ChopWord | apps/api/src/modules/evidence/pdf-writer.ts:34-40 | The two inner loops chop a word into pieces that join to the word again and leave a rest that fits. |
| WrapText.ParagraphIsKept | apps/api/src/modules/evidence/pdf-writer.ts:21-45 | The lines hold all characters that are not spaces, in order. |
| WrapText.EveryBreakIsForced | apps/api/src/modules/evidence/pdf-writer.ts:26-41 | Every line fits or is one character. Each but the last ends before a word of the text that would not have fitted after it, or inside one after the longest prefix that fits; and the next line goes on with exactly that word or what remains of it, whole if it fits on a line and chopped otherwise. |
| WrapText.NoNeedlessBreak | apps/api/src/modules/evidence/pdf-writer.ts:26-33 | Of the strings returned: where every word fits on a line and the width is monotone, no line could have taken the first word of the next one. |
| WrapText.FewestLines | apps/api/src/modules/evidence/pdf-writer.ts:26-33 | For single-spaced text whose words all fit and a monotone width, no other way of breaking between words uses fewer lines. |
| WrapText.SafeExactly | apps/api/src/common/util/text.ts:25-35 | Exactly the characters of windows-1252 stay, line feeds and tabs become spaces, everything else a question mark; safe text is not changed again. |
| WrapText.ParagraphsSplit | apps/api/src/modules/evidence/pdf-writer.ts:24 | The first line feed ends the first paragraph, with the carriage return right before it if there is one; a text without a line feed is one paragraph. |
| WrapText.SafeTextIsOneParagraph | apps/api/src/common/util/text.ts:25-35 | Text made safe for the standard fonts has no line feed, so the split into paragraphs never splits. |

## Left out

- Overlap inside a transaction: reads that the source makes before or without the envelope's lock (the cooldown and live-code reads of two simultaneous code requests, the resolution of a session before a code, view, signature or refusal, the balance read of a refund beside an activation) are part of the atomic step.
- Links that the integration interface hands out (contracts.service.ts) and those in the mails of a completed envelope (email-sender.service.ts:212): only links of invitation and reminder mails are modelled.
- Storage calls with unknown outcome: a put that fails after storing, a delete that reports failure after deleting, and a commit whose answer is lost.
- The content of final documents, reports, mails and messages; only which rows and events they are made from is modelled.
- The expiry and reminder sweeps, automatic refunds of duplicates and cancellation of other pending payments: loops around steps that are modelled, or calls to the provider.
- Rate limits, masking, request validation, controllers, access control, organizations other than one, archived envelopes.
- Argon2, HMAC, AES-GCM and random tokens: tokens, codes and identifiers are opaque values; `sha256Stream`, `safeEqual` and `randomNumericCode` are not modelled.
- JavaScript object quirks: integer-like keys enumerated first, `__proto__`, inherited names looked up in the marker types, lone surrogates, functions and symbols as values.
- Unicode normalisation before line breaking, and text items with characters outside the basic plane (a character is one unit of width here).
- Infinite and undefined numbers in page geometry: pages have a positive size, coordinates are real numbers.
- The first part of a month's usage when a plan changes within the month: the quota theorem is about a month under one plan.
- EnvelopeStore.Store.Activate: the organization's quota is one answer here; how it is computed is Billing.Activate.
- Invalid dates and dates outside the range of JavaScript's Date.
