/** Positioned fields of an envelope draft (envelopes.service.ts, field checks). */
module EnvelopeFields {
  import opened EnvelopeState

  type DocumentRowId = nat

  datatype FieldType = SignatureField | InitialsField | NameField | DateField

  /** Normalised box on the visible page: 0..1, origin at the top left. */
  datatype Box = Box(x: real, y: real, width: real, height: real)

  datatype Field = Field(document: DocumentRowId, signer: SignerId, kind: FieldType, page: int, box: Box)

  predicate FieldAccepted(f: Field, pages: map<DocumentRowId, int>, signers: set<SignerId>) {
    && f.document in pages
    && f.signer in signers
    && f.page <= pages[f.document]
    && f.box.x + f.box.width <= 1.000001
    && f.box.y + f.box.height <= 1.000001
  }

  predicate FieldsAccepted(fields: seq<Field>, pages: map<DocumentRowId, int>, signers: set<SignerId>) {
    forall f | f in fields :: FieldAccepted(f, pages, signers)
  }
}

/** The envelope signing protocol. Every transaction of the source is one function from a
    database state to the next state and an outcome; a rejected transaction leaves the state as it was,
    except where the source commits anyway (a wrong code, an expiry found on opening a link). */
module SigningProtocol {
  import opened Basics
  import opened AuthMethods
  import opened EnvelopeState
  import opened EnvelopeFields

  type Time = nat
  type TokenId = nat
  type SessionId = nat
  type ChallengeId = nat
  type DocumentId = nat
  type Digest = nat
  type Code = nat
  type AttemptId = nat

  const MAX_DOCUMENTS := 20
  const MAX_SIGNERS := 50
  const REMINDER_GAP := 3_600_000

  datatype Config = Config(
    whatsapp: bool,
    sessionTtl: nat,
    linkTtl: nat,
    otpTtl: nat,
    otpCooldown: nat,
    otpMaxAttempts: nat)

  datatype StorageKey = FinalKey(document: DocumentId, attempt: AttemptId) | EvidenceKey(attempt: AttemptId)

  datatype EnvelopeDocument = EnvelopeDocument(
    row: DocumentRowId,
    document: DocumentId,
    sha256: Digest,
    pageCount: int,
    finalKey: Option<StorageKey>)

  datatype Envelope = Envelope(
    status: EnvelopeStatus,
    sequential: bool,
    expiresAt: Option<Time>,
    finalizationRequestedAt: Option<Time>,
    discarded: bool)

  datatype Token = Token(signer: SignerId, expiresAt: Time, revoked: bool)

  /** An invitation on its way: checked but its link not yet issued, or prepared (its link exists) and not yet reported
      sent or failed. The deadline is the envelope's as the check read it. */
  datatype Mailing =
    | MailChecked(signer: SignerId, reminder: bool, deadline: Option<Time>)
    | MailPrepared(signer: SignerId, reminder: bool)

  /** A link that passed its check and whose session is not yet written; `automatic` is what the check decided. */
  datatype Opening = Opening(signer: SignerId, checkedAt: Time, automatic: bool)

  datatype Session = Session(
    signer: SignerId,
    expiresAt: Time,
    revoked: bool,
    authenticatedAt: Option<Time>,
    authMethod: Option<AuthMethod>)

  datatype Challenge = Challenge(
    signer: SignerId,
    session: SessionId,
    via: AuthMethod,
    code: Code,
    attempts: nat,
    maxAttempts: nat,
    createdAt: Time,
    expiresAt: Time,
    consumedAt: Option<Time>,
    invalidated: bool)

  datatype Signature = Signature(session: SessionId, via: AuthMethod, signedAt: Time)

  datatype EventType =
    | EnvelopeUpdated | EnvelopeDiscarded | EnvelopeActivated | InvitationSent | ReminderSent | InvitationOpened
    | OtpRequested | OtpFailed | OtpValidated | SignerAuthenticated | DocumentViewed
    | SignatureStarted | ConsentAccepted | SignatureByIntegration | SignatureCompleted
    | SignerDeclined | EnvelopeDeclined | EnvelopeCancelled | EnvelopeExpired
    | FinalizationRequested | EnvelopeCompleted

  /** One event of the envelope's chained audit trail (its hashing is module AuditChain). */
  datatype TrailEvent = TrailEvent(kind: EventType, signer: Option<SignerId>)

  datatype Message =
    | InviteRequested(signers: set<SignerId>, reminder: bool)
    | Notice(kind: EventType, signer: Option<SignerId>)

  datatype State = State(
    config: Config,
    now: Time,
    envelope: Envelope,
    documents: seq<EnvelopeDocument>,
    signers: Signers,
    fields: seq<Field>,
    tokens: map<TokenId, Token>,
    mailings: map<TokenId, Mailing>,
    reminded: map<SignerId, Time>,
    openings: map<SessionId, Opening>,
    sessions: map<SessionId, Session>,
    challenges: map<ChallengeId, Challenge>,
    signatures: map<SignerId, Signature>,
    outbox: seq<Message>,
    trail: seq<TrailEvent>)

  datatype Error =
    | NotFound | InvalidTransition | NotEditable | Invalid | TooMany | Duplicate
    | WithoutDocuments | WithoutSigners | WithoutRequiredSigner | MethodUnavailable | PlanLimit
    | Finalizing | NotActive | NothingToRemind | Skipped | LinkInvalid | EnvelopeHasExpired | NotAvailable
    | OtpNotRequired | AlreadyAuthenticated | ChannelUnavailable | Cooldown
    | NoChallenge | OtpExpired | OtpLocked | OtpInvalid
    | Unauthenticated | AuthenticationRequired | ConsentRequired | ConsentVersionMismatch
    | AlreadySigned | NotSignable | NotYourTurn | HashMismatch | Forbidden | CannotDecline | NotDue

  datatype Outcome = Done | Replayed | Rejected(error: Error)

  /** The part of a signing request that does not depend on the database. */
  datatype SignInput = SignInput(
    consentAccepted: bool,
    consentCurrent: bool,
    markValid: bool,
    shown: map<DocumentRowId, Digest>)

  // ---------------------------------------------------------------- helpers shared by the transactions

  function WithStatus(signers: Signers, id: SignerId, to: SignerStatus): Signers
    requires id in signers
  {
    signers[id := signers[id].(status := to)]
  }

  /** UPDATE ... WHERE status IN (sources of `to`), the sources being the statuses that can advance to `to`. */
  function Advance(signers: Signers, id: SignerId, to: SignerStatus): Signers {
    if id in signers && SignerCanAdvance(signers[id].status, to) then WithStatus(signers, id, to) else signers
  }

  function ExpireOpenSigners(signers: Signers): Signers {
    map id | id in signers :: if Terminal(signers[id].status) then signers[id]
                              else signers[id].(status := SignerStatus.Expired)
  }

  function RevokedTokens(tokens: map<TokenId, Token>): map<TokenId, Token> {
    map t | t in tokens :: tokens[t].(revoked := true)
  }

  function RevokedSessions(sessions: map<SessionId, Session>): map<SessionId, Session> {
    map i | i in sessions :: sessions[i].(revoked := true)
  }

  predicate AcceptsActions(e: Envelope) {
    Signable(e.status) && e.finalizationRequestedAt.None?
  }

  predicate Overdue(e: Envelope, now: Time) {
    e.expiresAt.Some? && e.expiresAt.value <= now
  }

  /** The session cookie resolves: the session exists, is not revoked and has not expired. */
  predicate Resolves(s: State, id: SessionId) {
    id in s.sessions && !s.sessions[id].revoked && s.now < s.sessions[id].expiresAt && s.sessions[id].signer in s.signers
  }

  predicate Live(c: Challenge) {
    c.consumedAt.None? && !c.invalidated
  }

  function PageCounts(documents: seq<EnvelopeDocument>): map<DocumentRowId, int> {
    if documents == [] then map[]
    else PageCounts(documents[..|documents| - 1])[documents[|documents| - 1].row := documents[|documents| - 1].pageCount]
  }

  // ---------------------------------------------------------------- draft edits

  function EditDraft(e: Envelope): Option<Error> {
    if e.discarded then Some(NotFound)
    else if !e.status.Draft? then Some(NotEditable)
    else None
  }

  function AddDocument(s: State, d: EnvelopeDocument): (State, Outcome) {
    if EditDraft(s.envelope).Some? then (s, Rejected(EditDraft(s.envelope).value))
    else if |s.documents| >= MAX_DOCUMENTS then (s, Rejected(TooMany))
    else if exists e | e in s.documents :: e.document == d.document || e.row == d.row then (s, Rejected(Duplicate))
    else (s.(documents := s.documents + [d.(finalKey := None)],
             trail := s.trail + [TrailEvent(EnvelopeUpdated, None)]), Done)
  }

  /** Deleting a document row cascades to the fields placed on it. */
  function RemoveDocument(s: State, i: nat): (State, Outcome) {
    if EditDraft(s.envelope).Some? then (s, Rejected(EditDraft(s.envelope).value))
    else if i >= |s.documents| then (s, Rejected(NotFound))
    else
      var row := s.documents[i].row;
      (s.(documents := s.documents[..i] + s.documents[i + 1..],
          fields := Kept(s.fields, (f: Field) => f.document != row),
          trail := s.trail + [TrailEvent(EnvelopeUpdated, None)]), Done)
  }

  function Kept(fields: seq<Field>, keep: Field -> bool): seq<Field> {
    if fields == [] then []
    else Kept(fields[..|fields| - 1], keep)
         + if keep(fields[|fields| - 1]) then [fields[|fields| - 1]] else []
  }

  function AddSignerError(s: State, id: SignerId, m: AuthMethod, phone: bool, byIntegration: bool): Option<Error> {
    if EditDraft(s.envelope).Some? then EditDraft(s.envelope)
    else if !byIntegration && !Available(m, s.config.whatsapp) then Some(MethodUnavailable)
    else if |s.signers| >= MAX_SIGNERS then Some(TooMany)
    else if !byIntegration && m.WhatsappOtp? && !phone then Some(Invalid)
    else if id in s.signers then Some(Duplicate)
    else None
  }

  /** In sequence unless told otherwise: a new signer comes after the last group. */
  function GroupFor(s: State, group: Option<nat>): int {
    if !s.envelope.sequential then 1
    else if group.Some? && group.value != 0 then group.value
    else LastGroup(s.signers) + 1
  }

  function AddSigner(s: State, id: SignerId, group: Option<nat>, required: bool, m: AuthMethod, phone: bool, byIntegration: bool): (State, Outcome) {
    var refused := AddSignerError(s, id, m, phone, byIntegration);
    if refused.Some? then (s, Rejected(refused.value))
    else
      var row := Signer(GroupFor(s, group), required, if byIntegration then Integration else m, phone, byIntegration, Pending);
      (s.(signers := s.signers[id := row], trail := s.trail + [TrailEvent(EnvelopeUpdated, Some(id))]), Done)
  }

  function LastGroup(signers: Signers): int {
    var negated := set id | id in signers :: -signers[id].signingGroup;
    if negated == {} then 0 else -Least(negated)
  }

  function RemoveSigner(s: State, id: SignerId): (State, Outcome) {
    if EditDraft(s.envelope).Some? then (s, Rejected(EditDraft(s.envelope).value))
    else if id !in s.signers then (s, Rejected(NotFound))
    else (s.(signers := s.signers - {id},
             fields := Kept(s.fields, (f: Field) => f.signer != id),
             trail := s.trail + [TrailEvent(EnvelopeUpdated, Some(id))]), Done)
  }

  function Ungrouped(signers: Signers): Signers {
    map id | id in signers :: signers[id].(signingGroup := 1)
  }

  function WithParts(e: Envelope, sequential: Option<bool>, deadline: Option<Option<Time>>): Envelope {
    e.(sequential := if sequential.Some? then sequential.value else e.sequential,
       expiresAt := if deadline.Some? then deadline.value else e.expiresAt)
  }

  /** Absent parts stay as they are; a deadline is checked only if one is given, and null clears it. */
  function UpdateDraft(s: State, sequential: Option<bool>, deadline: Option<Option<Time>>): (State, Outcome) {
    if EditDraft(s.envelope).Some? then (s, Rejected(EditDraft(s.envelope).value))
    else if deadline.Some? && deadline.value.Some? && deadline.value.value <= s.now + 60000 then (s, Rejected(Invalid))
    else (Edited(s, sequential, deadline), Done)
  }

  function Edited(s: State, sequential: Option<bool>, deadline: Option<Option<Time>>): State {
    s.(envelope := WithParts(s.envelope, sequential, deadline),
       signers := if sequential == Some(false) then Ungrouped(s.signers) else s.signers,
       trail := s.trail + [TrailEvent(EnvelopeUpdated, None)])
  }

  function ReplaceFields(s: State, fields: seq<Field>): (State, Outcome) {
    if EditDraft(s.envelope).Some? then (s, Rejected(EditDraft(s.envelope).value))
    else if !FieldsAccepted(fields, PageCounts(s.documents), s.signers.Keys) then (s, Rejected(Invalid))
    else (s.(fields := fields, trail := s.trail + [TrailEvent(EnvelopeUpdated, None)]), Done)
  }

  function DiscardDraft(s: State): (State, Outcome) {
    if EditDraft(s.envelope).Some? then (s, Rejected(EditDraft(s.envelope).value))
    else (s.(envelope := s.envelope.(discarded := true), trail := s.trail + [TrailEvent(EnvelopeDiscarded, None)]), Done)
  }

  // ---------------------------------------------------------------- activation, cancellation, expiry

  function Activate(s: State, quota: bool): (State, Outcome) {
    if s.envelope.discarded then (s, Rejected(NotFound))
    else if s.envelope.status.Active? then (s, Replayed)
    else if !CanTransition(s.envelope.status, Active) then (s, Rejected(InvalidTransition))
    else if Overdue(s.envelope, s.now) then (s, Rejected(Invalid))
    else if s.documents == [] then (s, Rejected(WithoutDocuments))
    else if s.signers == map[] then (s, Rejected(WithoutSigners))
    else if forall id | id in s.signers :: !s.signers[id].required then (s, Rejected(WithoutRequiredSigner))
    else if exists id | id in s.signers :: !Activatable(s.signers[id].authMethod, s.config.whatsapp) then (s, Rejected(MethodUnavailable))
    else if !quota then (s, Rejected(PlanLimit))
    else (Sent(s), Done)
  }

  function Sent(s: State): State {
    s.(envelope := s.envelope.(status := Active),
       outbox := s.outbox + [InviteRequested(SignersToInvite(s.signers, NextSigningGroup(s.signers)), false),
                             Notice(EnvelopeActivated, None)],
       trail := s.trail + [TrailEvent(EnvelopeActivated, None)])
  }

  function Cancel(s: State): (State, Outcome) {
    if s.envelope.discarded then (s, Rejected(NotFound))
    else if s.envelope.status.Cancelled? then (s, Replayed)
    else if !CanTransition(s.envelope.status, Cancelled) then (s, Rejected(InvalidTransition))
    else if s.envelope.finalizationRequestedAt.Some? then (s, Rejected(Finalizing))
    else (Withdrawn(s), Done)
  }

  function Withdrawn(s: State): State {
    s.(envelope := s.envelope.(status := Cancelled),
       tokens := RevokedTokens(s.tokens),
       sessions := RevokedSessions(s.sessions),
       outbox := s.outbox + if s.envelope.status.Draft? then [] else [Notice(EnvelopeCancelled, None)],
       trail := s.trail + [TrailEvent(EnvelopeCancelled, None)])
  }

  function Expire(s: State): (State, Outcome) {
    if !AcceptsActions(s.envelope) || !Overdue(s.envelope, s.now) then (s, Rejected(NotDue))
    else (Lapsed(s), Done)
  }

  function Lapsed(s: State): State {
    s.(envelope := s.envelope.(status := EnvelopeStatus.Expired),
       signers := ExpireOpenSigners(s.signers),
       tokens := RevokedTokens(s.tokens),
       sessions := RevokedSessions(s.sessions),
       outbox := s.outbox + [Notice(EnvelopeExpired, None)],
       trail := s.trail + [TrailEvent(EnvelopeExpired, None)])
  }

  /** INVITED, VIEWED or AUTHENTICATED. */
  predicate Remindable(s: SignerStatus) {
    s.Invited? || s.Viewed? || s.Authenticated?
  }

  /** Contacted, unfinished, and not reminded within the last hour. */
  function DueForReminder(s: State, targets: set<SignerId>): set<SignerId> {
    set id | id in targets && id in s.signers && Remindable(s.signers[id].status)
             && (id in s.reminded ==> s.reminded[id] + REMINDER_GAP < s.now)
  }

  function Remind(s: State, targets: set<SignerId>): (State, Outcome) {
    if s.envelope.discarded then (s, Rejected(NotFound))
    else if !AcceptsActions(s.envelope) then (s, Rejected(NotActive))
    else if DueForReminder(s, targets) == {} then (s, Rejected(NothingToRemind))
    else (s.(outbox := s.outbox + [InviteRequested(DueForReminder(s, targets), true)]), Done)
  }

  // ---------------------------------------------------------------- invitations

  predicate Named(outbox: seq<Message>, id: SignerId) {
    exists m | m in outbox :: m.InviteRequested? && id in m.signers
  }

  function LinkExpiry(now: Time, ttl: nat, deadline: Option<Time>): Time {
    if deadline.Some? && deadline.value < now + ttl then deadline.value else now + ttl
  }

  /** The worker handles an invite event: it looks whether signer and envelope still wait for a signature. */
  function CheckInvite(s: State, id: SignerId, token: TokenId, reminder: bool): (State, Outcome) {
    if !Named(s.outbox, id) || id !in s.signers || token in s.tokens || token in s.mailings then (s, Rejected(NotFound))
    else if !AcceptsActions(s.envelope) || Terminal(s.signers[id].status) then (s, Rejected(Skipped))
    else (s.(mailings := s.mailings[token := MailChecked(id, reminder, s.envelope.expiresAt)]), Done)
  }

  /** A later transaction issues the link, whatever has become of the envelope; the mail goes to the provider. */
  function IssueLink(s: State, token: TokenId): (State, Outcome) {
    if token !in s.mailings || !s.mailings[token].MailChecked? || token in s.tokens then (s, Rejected(NotFound))
    else
      var mail := s.mailings[token];
      (s.(tokens := s.tokens[token := Token(mail.signer, LinkExpiry(s.now, s.config.linkTtl, mail.deadline), false)],
          mailings := s.mailings[token := MailPrepared(mail.signer, mail.reminder)]), Done)
  }

  /** The provider took the mail; the envelope and the signer may have moved on since it was prepared. */
  function InviteSent(s: State, token: TokenId): (State, Outcome) {
    if token !in s.mailings || !s.mailings[token].MailPrepared? then (s, Rejected(NotFound))
    else
      var mail := s.mailings[token];
      (s.(mailings := s.mailings - {token},
          reminded := if mail.reminder then s.reminded[mail.signer := s.now] else s.reminded,
          signers := if mail.reminder then s.signers else Advance(s.signers, mail.signer, Invited),
          trail := s.trail + [TrailEvent(if mail.reminder then ReminderSent else InvitationSent, Some(mail.signer))]), Done)
  }

  function InviteFailed(s: State, token: TokenId): (State, Outcome) {
    if token !in s.mailings || !s.mailings[token].MailPrepared? || token !in s.tokens then (s, Rejected(NotFound))
    else (s.(mailings := s.mailings - {token}, tokens := s.tokens[token := s.tokens[token].(revoked := true)]), Done)
  }

  // ---------------------------------------------------------------- sessions and codes

  predicate Automatic(s: State, id: SignerId)
    requires id in s.signers
  {
    s.signers[id].authMethod.Email? && Signable(s.envelope.status)
  }

  /** A link is looked at; a link of an overdue envelope expires it. */
  function CheckLink(s: State, token: TokenId, session: SessionId): (State, Outcome) {
    if token !in s.tokens || s.tokens[token].revoked || s.tokens[token].expiresAt <= s.now
       || s.tokens[token].signer !in s.signers || session in s.sessions || session in s.openings then (s, Rejected(LinkInvalid))
    else if Signable(s.envelope.status) && Overdue(s.envelope, s.now) then (Expire(s).0, Rejected(EnvelopeHasExpired))
    else if s.envelope.status.Draft? || s.envelope.status.Cancelled? || s.envelope.status.Expired? then (s, Rejected(NotAvailable))
    else
      var id := s.tokens[token].signer;
      (s.(openings := s.openings[session := Opening(id, s.now, Automatic(s, id))]), Done)
  }

  function SessionOf(o: Opening, ttl: nat): Session {
    Session(o.signer, o.checkedAt + ttl, false, if o.automatic then Some(o.checkedAt) else None, if o.automatic then Some(Email) else None)
  }

  /** The transaction behind an accepted link. Method EMAIL: holding the individual link is the authentication factor. */
  function Opened(s: State, session: SessionId, o: Opening): State {
    s.(sessions := s.sessions[session := SessionOf(o, s.config.sessionTtl)],
       openings := s.openings - {session},
       signers := if o.automatic then Advance(s.signers, o.signer, Authenticated) else s.signers,
       outbox := s.outbox + if o.automatic then [Notice(SignerAuthenticated, Some(o.signer))] else [],
       trail := s.trail + [TrailEvent(InvitationOpened, Some(o.signer))]
                        + if o.automatic then [TrailEvent(SignerAuthenticated, Some(o.signer))] else [])
  }

  /** The session is written later, and nothing is looked at again. */
  function OpenSession(s: State, session: SessionId): (State, Outcome) {
    if session !in s.openings then (s, Rejected(LinkInvalid)) else (Opened(s, session, s.openings[session]), Done)
  }

  function EndSession(s: State, session: SessionId): (State, Outcome) {
    if !Resolves(s, session) then (s, Rejected(Unauthenticated))
    else (s.(sessions := s.sessions[session := s.sessions[session].(revoked := true)]), Done)
  }

  predicate CoolingDown(s: State, id: SignerId) {
    exists c | c in s.challenges :: s.challenges[c].signer == id && s.now - s.challenges[c].createdAt < s.config.otpCooldown
  }

  function InvalidateLive(challenges: map<ChallengeId, Challenge>, id: SignerId): map<ChallengeId, Challenge> {
    map c | c in challenges :: if challenges[c].signer == id && Live(challenges[c]) then challenges[c].(invalidated := true)
                               else challenges[c]
  }

  function Requested(s: State, id: SignerId, session: SessionId, challenge: ChallengeId, via: AuthMethod, code: Code): State {
    var row := Challenge(id, session, via, code, 0, s.config.otpMaxAttempts, s.now, s.now + s.config.otpTtl, None, false);
    s.(challenges := InvalidateLive(s.challenges, id)[challenge := row],
       trail := s.trail + [TrailEvent(OtpRequested, Some(id))])
  }

  function RequestOtp(s: State, session: SessionId, challenge: ChallengeId, channel: OtpChannel, code: Code): (State, Outcome) {
    if !Resolves(s, session) || challenge in s.challenges then (s, Rejected(Unauthenticated))
    else
      var id := s.sessions[session].signer;
      var signer := s.signers[id];
      if !RequiresChallenge(signer.authMethod) then (s, Rejected(OtpNotRequired))
      else if s.sessions[session].authenticatedAt.Some? then (s, Rejected(AlreadyAuthenticated))
      else if channel !in OtpChannels(signer.authMethod, signer.phone, s.config.whatsapp) then (s, Rejected(ChannelUnavailable))
      else if CoolingDown(s, id) then (s, Rejected(Cooldown))
      else (Requested(s, id, session, challenge, ChannelMethod(channel), code), Done)
  }

  /** `chosen` is the row the query returns: a latest live challenge of this signer and session. */
  predicate IsChosen(s: State, session: SessionId, chosen: ChallengeId) {
    && chosen in s.challenges && session in s.sessions
    && s.challenges[chosen].session == session && s.challenges[chosen].signer == s.sessions[session].signer && Live(s.challenges[chosen])
    && forall c | c in s.challenges && s.challenges[c].session == session
                  && s.challenges[c].signer == s.sessions[session].signer && Live(s.challenges[c]) ::
         s.challenges[c].createdAt <= s.challenges[chosen].createdAt
  }

  function Invalidated(s: State, chosen: ChallengeId): State
    requires chosen in s.challenges
  {
    s.(challenges := s.challenges[chosen := s.challenges[chosen].(invalidated := true)])
  }

  function WrongCode(s: State, chosen: ChallengeId): State
    requires chosen in s.challenges
  {
    var c := s.challenges[chosen];
    s.(challenges := s.challenges[chosen := c.(attempts := c.attempts + 1, invalidated := c.attempts + 1 >= c.maxAttempts)],
       trail := s.trail + [TrailEvent(OtpFailed, Some(c.signer))])
  }

  function Consumed(s: State, chosen: ChallengeId): State
    requires chosen in s.challenges
  {
    s.(challenges := s.challenges[chosen := s.challenges[chosen].(consumedAt := Some(s.now))])
  }

  function ProvenSession(s: State, session: SessionId, via: AuthMethod): State
    requires session in s.sessions
  {
    var id := s.sessions[session].signer;
    s.(sessions := s.sessions[session := s.sessions[session].(authenticatedAt := Some(s.now), authMethod := Some(via))],
       signers := Advance(s.signers, id, Authenticated),
       outbox := s.outbox + [Notice(SignerAuthenticated, Some(id))],
       trail := s.trail + [TrailEvent(OtpValidated, Some(id)), TrailEvent(SignerAuthenticated, Some(id))])
  }

  function VerifyOtp(s: State, session: SessionId, chosen: ChallengeId, code: Code): (State, Outcome) {
    if !Resolves(s, session) then (s, Rejected(Unauthenticated))
    else if s.sessions[session].authenticatedAt.Some? then (s, Replayed)
    else if !IsChosen(s, session, chosen) then (s, Rejected(NoChallenge))
    else
      var c := s.challenges[chosen];
      if c.expiresAt <= s.now then (Invalidated(s, chosen), Rejected(OtpExpired))
      else if c.attempts >= c.maxAttempts then (Invalidated(s, chosen), Rejected(OtpLocked))
      else if code != c.code then (WrongCode(s, chosen), Rejected(if c.attempts + 1 >= c.maxAttempts then OtpLocked else OtpInvalid))
      else (ProvenSession(Consumed(s, chosen), session, c.via), Done)
  }

  /** First opening of a document in the viewer. `seen`: this signer already has a view event for it. */
  function ViewDocument(s: State, session: SessionId, seen: bool): (State, Outcome) {
    if !Resolves(s, session) then (s, Rejected(Unauthenticated))
    else if s.sessions[session].authenticatedAt.None? then (s, Rejected(AuthenticationRequired))
    else if seen || s.envelope.status.Completed? then (s, Replayed)
    else (FirstView(s, s.sessions[session].signer), Done)
  }

  function FirstView(s: State, id: SignerId): State {
    s.(signers := Advance(s.signers, id, Viewed),
       outbox := s.outbox + [Notice(DocumentViewed, Some(id))],
       trail := s.trail + [TrailEvent(DocumentViewed, Some(id))])
  }

  // ---------------------------------------------------------------- signing and declining

  predicate ShownMatches(documents: seq<EnvelopeDocument>, shown: map<DocumentRowId, Digest>) {
    forall d | d in documents && d.row in shown :: shown[d.row] == d.sha256
  }

  /** After a signer reached a terminal state: ask for finalization, or move on to whoever is in turn now. */
  function ProgressEnvelope(e: Envelope, signers: Signers, now: Time): Envelope {
    if AllRequiredSigned(signers) then
      e.(finalizationRequestedAt := Some(now), status := if e.status.Active? then PartiallySigned else e.status)
    else if (exists id | id in signers :: signers[id].status.Signed?) && e.status.Active? then e.(status := PartiallySigned)
    else e
  }

  function ProgressMessages(signers: Signers): seq<Message> {
    if AllRequiredSigned(signers) then [Notice(FinalizationRequested, None)]
    else
      var toInvite := SignersToInvite(signers, NextSigningGroup(signers));
      if toInvite != {} then [InviteRequested(toInvite, false)] else []
  }

  function ProgressTrail(signers: Signers): seq<TrailEvent> {
    if AllRequiredSigned(signers) then [TrailEvent(FinalizationRequested, None)] else []
  }

  /** Checks that depend on the database, in the engine's order. */
  function SignError(s: State, session: SessionId, input: SignInput): Option<Error>
    requires Resolves(s, session)
  {
    var row := s.sessions[session];
    var signer := s.signers[row.signer];
    if !AcceptsActions(s.envelope) then Some(NotSignable)
    else if Overdue(s.envelope, s.now) then Some(EnvelopeHasExpired)
    else if !IsSignersTurn(s.signers, signer.signingGroup) then Some(NotYourTurn)
    else if !signer.status.Authenticated? then Some(AuthenticationRequired)
    else if RequiresChallenge(signer.authMethod) && !SessionSatisfies(signer.authMethod, row.authMethod) then Some(AuthenticationRequired)
    else if !ShownMatches(s.documents, input.shown) then Some(HashMismatch)
    else None
  }

  /** The signature record, the status SIGNED, and what follows for the envelope. */
  function RecordSignature(s: State, id: SignerId, signature: Signature, before: seq<TrailEvent>): State
    requires id in s.signers
  {
    var signers := WithStatus(s.signers, id, Signed);
    s.(envelope := ProgressEnvelope(s.envelope, signers, s.now),
       signers := signers,
       signatures := s.signatures[id := signature],
       outbox := s.outbox + ([Notice(SignatureCompleted, Some(id))] + ProgressMessages(signers)),
       trail := s.trail + (before + [TrailEvent(SignatureCompleted, Some(id))] + ProgressTrail(signers)))
  }

  function Sign(s: State, session: SessionId, input: SignInput): (State, Outcome) {
    if !Resolves(s, session) then (s, Rejected(Unauthenticated))
    else
      var row := s.sessions[session];
      var id := row.signer;
      if row.authenticatedAt.None? then (s, Rejected(AuthenticationRequired))
      else if !input.consentAccepted then (s, Rejected(ConsentRequired))
      else if !input.consentCurrent then (s, Rejected(ConsentVersionMismatch))
      else if !input.markValid then (s, Rejected(Invalid))
      else if id in s.signatures then (s, if s.signatures[id].session == session then Replayed else Rejected(AlreadySigned))
      else if SignError(s, session, input).Some? then (s, Rejected(SignError(s, session, input).value))
      else
        var used := if row.authMethod.Some? then row.authMethod.value else s.signers[id].authMethod;
        (RecordSignature(s, id, Signature(session, used, s.now),
                         [TrailEvent(SignatureStarted, Some(id)), TrailEvent(ConsentAccepted, Some(id))]), Done)
  }

  /** The technical session of an integration signature: authenticated and revoked from the start. */
  function WithTechnicalSession(s: State, id: SignerId, session: SessionId): State {
    s.(sessions := s.sessions[session := Session(id, s.now, true, Some(s.now), Some(Integration))])
  }

  /** The company's signature, attested by an authorised integration, from any non-terminal status. */
  function SignByIntegration(s: State, id: SignerId, session: SessionId): (State, Outcome) {
    if id !in s.signers || session in s.sessions || session in s.openings then (s, Rejected(NotFound))
    else if id in s.signatures then (s, Replayed)
    else
      var signer := s.signers[id];
      if !signer.authMethod.Integration? || !signer.representing then (s, Rejected(Forbidden))
      else if !AcceptsActions(s.envelope) then (s, Rejected(NotSignable))
      else if Overdue(s.envelope, s.now) then (s, Rejected(EnvelopeHasExpired))
      else if !IsSignersTurn(s.signers, signer.signingGroup) then (s, Rejected(NotYourTurn))
      else if Terminal(signer.status) then (s, Rejected(AlreadySigned))
      else (RecordSignature(WithTechnicalSession(s, id, session), id, Signature(session, Integration, s.now),
                            [TrailEvent(SignatureByIntegration, Some(id))]), Done)
  }

  function DeclinedByRequired(s: State, id: SignerId): State
    requires id in s.signers
  {
    s.(envelope := s.envelope.(status := EnvelopeStatus.Declined),
       signers := WithStatus(s.signers, id, SignerStatus.Declined),
       tokens := RevokedTokens(s.tokens),
       sessions := RevokedSessions(s.sessions),
       outbox := s.outbox + [Notice(SignerDeclined, Some(id))],
       trail := s.trail + [TrailEvent(SignerDeclined, Some(id)), TrailEvent(EnvelopeDeclined, None)])
  }

  function DeclinedByOptional(s: State, id: SignerId): State
    requires id in s.signers
  {
    var signers := WithStatus(s.signers, id, SignerStatus.Declined);
    s.(envelope := ProgressEnvelope(s.envelope, signers, s.now),
       signers := signers,
       outbox := s.outbox + ([Notice(SignerDeclined, Some(id))] + ProgressMessages(signers)),
       trail := s.trail + ([TrailEvent(SignerDeclined, Some(id))] + ProgressTrail(signers)))
  }

  /** A required signer's refusal closes the envelope; an optional one's lets the others go on. */
  function Decline(s: State, session: SessionId): (State, Outcome) {
    if !Resolves(s, session) then (s, Rejected(Unauthenticated))
    else
      var id := s.sessions[session].signer;
      if s.sessions[session].authenticatedAt.None? then (s, Rejected(AuthenticationRequired))
      else if !AcceptsActions(s.envelope) then (s, Rejected(NotSignable))
      else if !SignerCanAdvance(s.signers[id].status, SignerStatus.Declined) then (s, Rejected(CannotDecline))
      else (if s.signers[id].required then DeclinedByRequired(s, id) else DeclinedByOptional(s, id), Done)
  }

  // ---------------------------------------------------------------- the locked commit of finalization

  function RecordFinals(documents: seq<EnvelopeDocument>, finals: seq<StorageKey>): seq<EnvelopeDocument>
    requires |finals| == |documents|
  {
    seq(|documents|, i requires 0 <= i < |documents| => documents[i].(finalKey := Some(finals[i])))
  }

  function Complete(s: State, finals: seq<StorageKey>): (State, Outcome) {
    if s.envelope.status.Completed? then (s, Replayed)
    else if !Signable(s.envelope.status) || s.envelope.finalizationRequestedAt.None? then (s, Rejected(NotActive))
    else if |finals| != |s.documents| then (s, Rejected(NotFound))
    else (Concluded(s, finals), Done)
  }

  function Concluded(s: State, finals: seq<StorageKey>): State
    requires |finals| == |s.documents|
  {
    s.(documents := RecordFinals(s.documents, finals),
       signers := ExpireOpenSigners(s.signers),
       envelope := s.envelope.(status := Completed),
       outbox := s.outbox + [Notice(EnvelopeCompleted, None)],
       trail := s.trail + [TrailEvent(EnvelopeCompleted, None)])
  }

  // ---------------------------------------------------------------- runs

  datatype Action =
    | DoAddDocument(document: EnvelopeDocument)
    | DoRemoveDocument(position: nat)
    | DoAddSigner(signer: SignerId, group: Option<nat>, required: bool, authMethod: AuthMethod, phone: bool, byIntegration: bool)
    | DoRemoveSigner(signer: SignerId)
    | DoUpdateDraft(sequential: Option<bool>, deadline: Option<Option<Time>>)
    | DoReplaceFields(fields: seq<Field>)
    | DoDiscardDraft
    | DoActivate(quota: bool)
    | DoCancel
    | DoExpire
    | DoRemind(targets: set<SignerId>)
    | DoCheckInvite(signer: SignerId, token: TokenId, reminder: bool)
    | DoIssueLink(token: TokenId)
    | DoInviteSent(token: TokenId)
    | DoInviteFailed(token: TokenId)
    | DoCheckLink(token: TokenId, session: SessionId)
    | DoOpenSession(session: SessionId)
    | DoEndSession(session: SessionId)
    | DoRequestOtp(session: SessionId, challenge: ChallengeId, channel: OtpChannel, code: Code)
    | DoVerifyOtp(session: SessionId, challenge: ChallengeId, code: Code)
    | DoViewDocument(session: SessionId, seen: bool)
    | DoSign(session: SessionId, input: SignInput)
    | DoSignByIntegration(signer: SignerId, session: SessionId)
    | DoDecline(session: SessionId)
    | DoComplete(finals: seq<StorageKey>)
    | Tick(elapsed: nat)

  predicate InviteAction(a: Action) {
    a.DoCheckInvite? || a.DoIssueLink? || a.DoInviteSent? || a.DoInviteFailed?
  }

  predicate SessionAction(a: Action) {
    a.DoCheckLink? || a.DoOpenSession? || a.DoEndSession?
  }

  predicate EnvelopeAction(a: Action) {
    a.DoActivate? || a.DoCancel? || a.DoExpire? || a.DoComplete? || a.DoRemind?
  }

  /** Steps of codes and views. */
  predicate CodeAction(a: Action) {
    a.DoRequestOtp? || a.DoVerifyOtp? || a.DoViewDocument?
  }

  function Step(s: State, a: Action): (State, Outcome) {
    match a
    case DoAddDocument(d) => AddDocument(s, d)
    case DoRemoveDocument(i) => RemoveDocument(s, i)
    case DoAddSigner(id, g, r, m, p, i) => AddSigner(s, id, g, r, m, p, i)
    case DoRemoveSigner(id) => RemoveSigner(s, id)
    case DoUpdateDraft(q, x) => UpdateDraft(s, q, x)
    case DoReplaceFields(f) => ReplaceFields(s, f)
    case DoDiscardDraft => DiscardDraft(s)
    case DoActivate(q) => Activate(s, q)
    case DoCancel => Cancel(s)
    case DoExpire => Expire(s)
    case DoRemind(t) => Remind(s, t)
    case DoCheckInvite(id, t, r) => CheckInvite(s, id, t, r)
    case DoIssueLink(t) => IssueLink(s, t)
    case DoInviteSent(t) => InviteSent(s, t)
    case DoInviteFailed(t) => InviteFailed(s, t)
    case DoCheckLink(t, i) => CheckLink(s, t, i)
    case DoOpenSession(i) => OpenSession(s, i)
    case DoEndSession(i) => EndSession(s, i)
    case DoRequestOtp(i, c, ch, code) => RequestOtp(s, i, c, ch, code)
    case DoVerifyOtp(i, c, code) => VerifyOtp(s, i, c, code)
    case DoViewDocument(i, seen) => ViewDocument(s, i, seen)
    case DoSign(i, input) => Sign(s, i, input)
    case DoSignByIntegration(id, i) => SignByIntegration(s, id, i)
    case DoDecline(i) => Decline(s, i)
    case DoComplete(f) => Complete(s, f)
    case Tick(ms) => (s.(now := s.now + ms), Done)
  }

  /** The state after a run of actions, accepted or rejected. */
  function Run(s: State, actions: seq<Action>): State
    decreases |actions|
  {
    if actions == [] then s
    else Step(Run(s, actions[..|actions| - 1]), actions[|actions| - 1]).0
  }

  function NewEnvelope(config: Config, now: Time, sequential: bool): State {
    State(config, now, Envelope(Draft, sequential, None, None, false),
          [], map[], [], map[], map[], map[], map[], map[], map[], map[], [], [])
  }

  ghost predicate ValidConfig(c: Config) {
    c.sessionTtl > 0 && c.linkTtl > 0 && c.otpTtl > 0 && c.otpCooldown > 0 && c.otpMaxAttempts > 0
  }

  /** States that some run from a new draft leads to. */
  ghost predicate Reachable(s: State) {
    exists config, now, sequential, actions ::
      ValidConfig(config) && s == Run(NewEnvelope(config, now, sequential), actions)
  }
}
