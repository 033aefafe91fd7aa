/** What one transaction may change, for every transaction of the protocol. */
module ProtocolSteps {
  import opened Basics
  import opened AuthMethods
  import opened EnvelopeState
  import opened EnvelopeFields
  import opened SigningProtocol
  import opened ProtocolBase

  /** A status change follows an edge of the table (COMPLETED is only entered from PARTIALLY_SIGNED);
      a finalization request stays, and leads to no status but COMPLETED. */
  ghost predicate EnvelopeMoves(e: Envelope, f: Envelope) {
    && (e.status == f.status || CanTransition(e.status, f.status))
    && (f.status.Completed? && !e.status.Completed? ==> e.status.PartiallySigned?)
    && (e.finalizationRequestedAt.Some? ==> f.finalizationRequestedAt == e.finalizationRequestedAt)
    && (f.finalizationRequestedAt.Some? && e.finalizationRequestedAt.None? ==> AcceptsActions(e))
    && (e.finalizationRequestedAt.Some? ==> f.status == e.status || f.status.Completed?)
    && (!e.status.Draft? ==> f.expiresAt == e.expiresAt)
  }

  ghost predicate SameDocuments(a: seq<EnvelopeDocument>, b: seq<EnvelopeDocument>) {
    |a| == |b| && forall i | 0 <= i < |a| :: b[i] == a[i].(finalKey := b[i].finalKey)
  }

  ghost predicate SignaturesGrow(a: map<SignerId, Signature>, b: map<SignerId, Signature>) {
    forall id | id in a :: id in b && b[id] == a[id]
  }

  ghost predicate ProofsStay(a: map<ChallengeId, Challenge>, b: map<ChallengeId, Challenge>) {
    forall c | c in a && a[c].consumedAt.Some? :: c in b && b[c] == a[c]
  }

  ghost predicate SessionsStay(a: map<SessionId, Session>, b: map<SessionId, Session>) {
    forall i | i in a ::
      && i in b && b[i].signer == a[i].signer && (a[i].revoked ==> b[i].revoked)
      && (a[i].authenticatedAt.Some? ==> b[i].authenticatedAt == a[i].authenticatedAt && b[i].authMethod == a[i].authMethod)
  }

  ghost predicate Moves(s: State, t: State) {
    && EnvelopeMoves(s.envelope, t.envelope)
    && s.trail <= t.trail && s.outbox <= t.outbox
    && s.now <= t.now && t.config == s.config
    && SignaturesGrow(s.signatures, t.signatures)
    && (s.envelope.finalizationRequestedAt.Some? ==> t.signatures == s.signatures)
    && ProofsStay(s.challenges, t.challenges) && SessionsStay(s.sessions, t.sessions)
    && (!s.envelope.status.Draft? ==>
          SignersEvolve(s.signers, t.signers) && SameDocuments(s.documents, t.documents) && t.fields == s.fields)
  }

  lemma StayingMoves(s: State)
    ensures Moves(s, s)
  {
    SameIsEvolution(s.signers);
  }

  lemma DocumentEditMoves(s: State, a: Action)
    requires a.DoAddDocument? || a.DoRemoveDocument? || a.DoReplaceFields? || a.DoDiscardDraft?
    ensures Moves(s, Step(s, a).0)
  {
    StayingMoves(s);
  }

  lemma AddSignerMoves(s: State, id: SignerId, group: Option<nat>, required: bool, m: AuthMethod, phone: bool, byIntegration: bool)
    ensures Moves(s, AddSigner(s, id, group, required, m, phone, byIntegration).0)
  {
    StayingMoves(s);
  }

  lemma SignerEditMoves(s: State, a: Action)
    requires a.DoAddSigner? || a.DoRemoveSigner? || a.DoUpdateDraft?
    ensures Moves(s, Step(s, a).0)
  {
    StayingMoves(s);
    if a.DoAddSigner? {
      AddSignerMoves(s, a.signer, a.group, a.required, a.authMethod, a.phone, a.byIntegration);
    }
  }

  lemma SentMoves(s: State)
    requires s.envelope.status.Draft? && s.envelope.finalizationRequestedAt.None?
    ensures Moves(s, Sent(s))
  {
  }

  lemma ActivateMoves(s: State, quota: bool)
    requires s.envelope.status.Draft? ==> s.envelope.finalizationRequestedAt.None?
    ensures Moves(s, Activate(s, quota).0)
  {
    if Activate(s, quota).1.Done? {
      SentMoves(s);
    } else {
      StayingMoves(s);
    }
  }

  lemma WithdrawnMoves(s: State)
    requires CanTransition(s.envelope.status, Cancelled) && s.envelope.finalizationRequestedAt.None?
    ensures Moves(s, Withdrawn(s))
  {
    SameIsEvolution(s.signers);
  }

  lemma CancelMoves(s: State)
    ensures Moves(s, Cancel(s).0)
  {
    if Cancel(s).1.Done? {
      WithdrawnMoves(s);
    } else {
      StayingMoves(s);
    }
  }

  lemma LapsedMoves(s: State)
    requires AcceptsActions(s.envelope)
    ensures Moves(s, Lapsed(s))
  {
    ExpiringEvolves(s.signers);
  }

  lemma ExpireMoves(s: State)
    ensures Moves(s, Expire(s).0)
  {
    if Expire(s).1.Done? {
      LapsedMoves(s);
    } else {
      StayingMoves(s);
    }
  }

  lemma ConcludedMoves(s: State, finals: seq<StorageKey>)
    requires |finals| == |s.documents| && s.envelope.status.PartiallySigned? && s.envelope.finalizationRequestedAt.Some?
    ensures Moves(s, Concluded(s, finals))
  {
    ExpiringEvolves(s.signers);
    RecordedAreSame(s.documents, finals);
  }

  lemma RecordedAreSame(documents: seq<EnvelopeDocument>, finals: seq<StorageKey>)
    requires |finals| == |documents|
    ensures SameDocuments(documents, RecordFinals(documents, finals))
  {
  }

  lemma CompleteMoves(s: State, finals: seq<StorageKey>)
    requires s.envelope.finalizationRequestedAt.Some? ==> !s.envelope.status.Active?
    ensures Moves(s, Complete(s, finals).0)
  {
    if Complete(s, finals).1 == Done {
      ConcludedMoves(s, finals);
    } else {
      StayingMoves(s);
    }
  }

  lemma EmitMoves(s: State, m: Message)
    ensures Moves(s, s.(outbox := s.outbox + [m]))
  {
    SameIsEvolution(s.signers);
  }

  lemma RemindMoves(s: State, targets: set<SignerId>)
    ensures Moves(s, Remind(s, targets).0)
  {
    StayingMoves(s);
    EmitMoves(s, InviteRequested(DueForReminder(s, targets), true));
  }

  lemma MailingsMove(s: State, mailings: map<TokenId, Mailing>)
    ensures Moves(s, s.(mailings := mailings))
  {
    SameIsEvolution(s.signers);
  }

  lemma CheckInviteMoves(s: State, id: SignerId, token: TokenId, reminder: bool)
    ensures Moves(s, CheckInvite(s, id, token, reminder).0)
  {
    if CheckInvite(s, id, token, reminder).1.Done? {
      MailingsMove(s, s.mailings[token := MailChecked(id, reminder, s.envelope.expiresAt)]);
    } else {
      StayingMoves(s);
    }
  }

  lemma IssueLinkMoves(s: State, token: TokenId)
    ensures Moves(s, IssueLink(s, token).0)
  {
    SameIsEvolution(s.signers);
  }

  lemma InviteFailedMoves(s: State, token: TokenId)
    ensures Moves(s, InviteFailed(s, token).0)
  {
    SameIsEvolution(s.signers);
  }

  lemma InviteSentMoves(s: State, token: TokenId)
    ensures Moves(s, InviteSent(s, token).0)
  {
    SameIsEvolution(s.signers);
    if token in s.mailings {
      AdvanceEvolves(s.signers, s.mailings[token].signer, Invited);
    }
  }

  lemma CheckLinkMoves(s: State, token: TokenId, session: SessionId)
    ensures Moves(s, CheckLink(s, token, session).0)
  {
    ExpireMoves(s);
    StayingMoves(s);
  }

  lemma OpenedMoves(s: State, session: SessionId, o: Opening)
    requires session !in s.sessions
    ensures Moves(s, Opened(s, session, o))
  {
    SameIsEvolution(s.signers);
    AdvanceEvolves(s.signers, o.signer, Authenticated);
  }

  lemma OpenSessionMoves(s: State, session: SessionId)
    requires OpeningsOk(s)
    ensures Moves(s, OpenSession(s, session).0)
  {
    StayingMoves(s);
    if session in s.openings {
      OpenedMoves(s, session, s.openings[session]);
    }
  }

  lemma EndSessionMoves(s: State, session: SessionId)
    ensures Moves(s, EndSession(s, session).0)
  {
    SameIsEvolution(s.signers);
  }

  lemma RequestedMoves(s: State, id: SignerId, session: SessionId, challenge: ChallengeId, via: AuthMethod, code: Code)
    requires challenge !in s.challenges
    ensures Moves(s, Requested(s, id, session, challenge, via, code))
  {
    SameIsEvolution(s.signers);
  }

  lemma RequestOtpMoves(s: State, session: SessionId, challenge: ChallengeId, channel: OtpChannel, code: Code)
    ensures Moves(s, RequestOtp(s, session, challenge, channel, code).0)
  {
    StayingMoves(s);
    if RequestOtp(s, session, challenge, channel, code).1.Done? {
      RequestedMoves(s, s.sessions[session].signer, session, challenge, ChannelMethod(channel), code);
    }
  }

  lemma AnswerMoves(s: State, chosen: ChallengeId)
    requires chosen in s.challenges && s.challenges[chosen].consumedAt.None?
    ensures Moves(s, Invalidated(s, chosen)) && Moves(s, WrongCode(s, chosen))
  {
    SameIsEvolution(s.signers);
  }

  lemma AcceptedCodeMoves(s: State, session: SessionId, chosen: ChallengeId)
    requires chosen in s.challenges && s.challenges[chosen].consumedAt.None?
    requires session in s.sessions && s.sessions[session].authenticatedAt.None?
    ensures Moves(s, ProvenSession(Consumed(s, chosen), session, s.challenges[chosen].via))
  {
    AdvanceEvolves(s.signers, s.sessions[session].signer, Authenticated);
  }

  lemma VerifyOtpMoves(s: State, session: SessionId, chosen: ChallengeId, code: Code)
    ensures Moves(s, VerifyOtp(s, session, chosen, code).0)
  {
    StayingMoves(s);
    if Resolves(s, session) && s.sessions[session].authenticatedAt.None? && IsChosen(s, session, chosen) {
      AnswerMoves(s, chosen);
      AcceptedCodeMoves(s, session, chosen);
    }
  }

  lemma ViewMoves(s: State, session: SessionId, seen: bool)
    ensures Moves(s, ViewDocument(s, session, seen).0)
  {
    if ViewDocument(s, session, seen).1 == Done {
      FirstViewMoves(s, s.sessions[session].signer);
    } else {
      StayingMoves(s);
    }
  }

  lemma FirstViewMoves(s: State, id: SignerId)
    ensures Moves(s, FirstView(s, id))
  {
    AdvanceEvolves(s.signers, id, Viewed);
  }

  lemma ProgressMoves(e: Envelope, signers: Signers, now: Time)
    requires AcceptsActions(e)
    ensures EnvelopeMoves(e, ProgressEnvelope(e, signers, now))
  {
  }

  lemma RecordSignatureMoves(s: State, id: SignerId, g: Signature, before: seq<TrailEvent>)
    requires AcceptsActions(s.envelope) && id in s.signers && !Terminal(s.signers[id].status) && id !in s.signatures
    ensures Moves(s, RecordSignature(s, id, g, before))
  {
    WithStatusEvolves(s.signers, id, Signed);
    ProgressMoves(s.envelope, WithStatus(s.signers, id, Signed), s.now);
  }

  lemma SignMoves(s: State, session: SessionId, input: SignInput)
    ensures Moves(s, Sign(s, session, input).0)
  {
    if !Sign(s, session, input).1.Done? {
      StayingMoves(s);
    } else {
      var id := s.sessions[session].signer;
      var used := if s.sessions[session].authMethod.Some? then s.sessions[session].authMethod.value else s.signers[id].authMethod;
      RecordSignatureMoves(s, id, Signature(session, used, s.now), [TrailEvent(SignatureStarted, Some(id)), TrailEvent(ConsentAccepted, Some(id))]);
    }
  }

  lemma IntegrationSignatureMoves(s: State, id: SignerId, session: SessionId)
    requires AcceptsActions(s.envelope) && id in s.signers && !Terminal(s.signers[id].status) && id !in s.signatures && session !in s.sessions
    ensures Moves(s, RecordSignature(WithTechnicalSession(s, id, session), id, Signature(session, Integration, s.now), [TrailEvent(SignatureByIntegration, Some(id))]))
  {
    RecordSignatureMoves(WithTechnicalSession(s, id, session), id, Signature(session, Integration, s.now), [TrailEvent(SignatureByIntegration, Some(id))]);
  }

  lemma SignByIntegrationMoves(s: State, id: SignerId, session: SessionId)
    ensures Moves(s, SignByIntegration(s, id, session).0)
  {
    StayingMoves(s);
    if SignByIntegration(s, id, session).1.Done? {
      IntegrationSignatureMoves(s, id, session);
    }
  }

  lemma DeclinedMoves(s: State, id: SignerId)
    requires AcceptsActions(s.envelope) && id in s.signers && !Terminal(s.signers[id].status)
    ensures Moves(s, DeclinedByRequired(s, id)) && Moves(s, DeclinedByOptional(s, id))
  {
    WithStatusEvolves(s.signers, id, SignerStatus.Declined);
    ProgressMoves(s.envelope, WithStatus(s.signers, id, SignerStatus.Declined), s.now);
  }

  lemma DeclineMoves(s: State, session: SessionId)
    ensures Moves(s, Decline(s, session).0)
  {
    StayingMoves(s);
    if Decline(s, session).1.Done? {
      DeclinedMoves(s, s.sessions[session].signer);
    }
  }

  // ---------------------------------------------------------------- every step

  lemma EnvelopeActionMoves(s: State, a: Action)
    requires BaseInv(s) && EnvelopeAction(a)
    ensures Moves(s, Step(s, a).0)
  {
    match a
    case DoActivate(q) => assert Step(s, a) == Activate(s, q); ActivateMoves(s, q);
    case DoCancel => assert Step(s, a) == Cancel(s); CancelMoves(s);
    case DoExpire => assert Step(s, a) == Expire(s); ExpireMoves(s);
    case DoComplete(f) => assert Step(s, a) == Complete(s, f); CompleteMoves(s, f);
    case DoRemind(t) => assert Step(s, a) == Remind(s, t); RemindMoves(s, t);
  }

  lemma InviteActionMoves(s: State, a: Action)
    requires InviteAction(a)
    ensures Moves(s, Step(s, a).0)
  {
    match a
    case DoCheckInvite(id, t, r) => assert Step(s, a) == CheckInvite(s, id, t, r); CheckInviteMoves(s, id, t, r);
    case DoIssueLink(t) => assert Step(s, a) == IssueLink(s, t); IssueLinkMoves(s, t);
    case DoInviteSent(t) => assert Step(s, a) == InviteSent(s, t); InviteSentMoves(s, t);
    case DoInviteFailed(t) => assert Step(s, a) == InviteFailed(s, t); InviteFailedMoves(s, t);
  }

  lemma SessionActionMoves(s: State, a: Action)
    requires SessionAction(a) && OpeningsOk(s)
    ensures Moves(s, Step(s, a).0)
  {
    match a
    case DoCheckLink(t, i) => assert Step(s, a) == CheckLink(s, t, i); CheckLinkMoves(s, t, i);
    case DoOpenSession(i) => assert Step(s, a) == OpenSession(s, i); OpenSessionMoves(s, i);
    case DoEndSession(i) => assert Step(s, a) == EndSession(s, i); EndSessionMoves(s, i);
  }

  lemma CodeActionMoves(s: State, a: Action)
    requires CodeAction(a)
    ensures Moves(s, Step(s, a).0)
  {
    match a
    case DoRequestOtp(i, c, ch, code) => assert Step(s, a) == RequestOtp(s, i, c, ch, code); RequestOtpMoves(s, i, c, ch, code);
    case DoVerifyOtp(i, c, code) => assert Step(s, a) == VerifyOtp(s, i, c, code); VerifyOtpMoves(s, i, c, code);
    case DoViewDocument(i, seen) => assert Step(s, a) == ViewDocument(s, i, seen); ViewMoves(s, i, seen);
  }

  lemma SigningActionMoves(s: State, a: Action)
    requires a.DoSign? || a.DoSignByIntegration? || a.DoDecline?
    ensures Moves(s, Step(s, a).0)
  {
    match a
    case DoSign(i, input) => assert Step(s, a) == Sign(s, i, input); SignMoves(s, i, input);
    case DoSignByIntegration(id, i) => assert Step(s, a) == SignByIntegration(s, id, i); SignByIntegrationMoves(s, id, i);
    case DoDecline(i) => assert Step(s, a) == Decline(s, i); DeclineMoves(s, i);
  }

  lemma StepMoves(s: State, a: Action)
    requires BaseInv(s) && OpeningsOk(s)
    ensures Moves(s, Step(s, a).0)
  {
    if a.DoAddSigner? || a.DoRemoveSigner? || a.DoUpdateDraft? {
      SignerEditMoves(s, a);
    } else if DraftEdit(a) {
      DocumentEditMoves(s, a);
    } else if a.Tick? {
      StayingMoves(s);
    } else if EnvelopeAction(a) {
      EnvelopeActionMoves(s, a);
    } else if InviteAction(a) {
      InviteActionMoves(s, a);
    } else if SessionAction(a) {
      SessionActionMoves(s, a);
    } else if CodeAction(a) {
      CodeActionMoves(s, a);
    } else {
      SigningActionMoves(s, a);
    }
  }
}
