/** The transactions as the source writes them: guards that reject, then updates of one table after another.
    Each method is proved to do what its function in SigningProtocol says, so every theorem about runs of
    those functions is one about calls of these methods. */
module EnvelopeStore {
  import opened Basics
  import opened AuthMethods
  import opened EnvelopeState
  import opened EnvelopeFields
  import opened SigningProtocol
  import opened ProtocolBase
  import opened ProtocolInvariant
  import opened ProtocolOutcomes

  class Store {
    var config: Config
    var now: Time
    var envelope: Envelope
    var documents: seq<EnvelopeDocument>
    var signers: Signers
    var fields: seq<Field>
    var tokens: map<TokenId, Token>
    var mailings: map<TokenId, Mailing>
    var reminded: map<SignerId, Time>
    var openings: map<SessionId, Opening>
    var sessions: map<SessionId, Session>
    var challenges: map<ChallengeId, Challenge>
    var signatures: map<SignerId, Signature>
    var outbox: seq<Message>
    var trail: seq<TrailEvent>

    function Snapshot(): State
      reads this
    {
      State(config, now, envelope, documents, signers, fields, tokens, mailings, reminded, openings, sessions, challenges,
            signatures, outbox, trail)
    }

    constructor (config: Config, now: Time, sequential: bool)
      ensures Snapshot() == NewEnvelope(config, now, sequential)
      ensures ValidConfig(config) ==> Inv(Snapshot())
    {
      if ValidConfig(config) {
        InitInv(config, now, sequential);
      }
      this.config := config;
      this.now := now;
      envelope := Envelope(Draft, sequential, None, None, false);
      documents, signers, fields := [], map[], [];
      tokens, mailings, reminded, openings := map[], map[], map[], map[];
      sessions, challenges, signatures := map[], map[], map[];
      outbox, trail := [], [];
    }

    method Record(kind: EventType, signer: Option<SignerId>)
      modifies `trail
      ensures trail == old(trail) + [TrailEvent(kind, signer)]
    {
      trail := trail + [TrailEvent(kind, signer)];
    }

    method Emit(m: Message)
      modifies `outbox
      ensures outbox == old(outbox) + [m]
    {
      outbox := outbox + [m];
    }

    // -------------------------------------------------------------- drafts

    method AddDocument(d: EnvelopeDocument) returns (outcome: Outcome)
      modifies this
      ensures (Snapshot(), outcome) == SigningProtocol.AddDocument(old(Snapshot()), d)
      ensures Upholds(old(Snapshot()), Snapshot())
    {
      AddDocumentUpholds(Snapshot(), d);
      var refused := EditDraft(envelope);
      if refused.Some? { return Rejected(refused.value); }
      if |documents| >= MAX_DOCUMENTS { return Rejected(TooMany); }
      if exists e | e in documents :: e.document == d.document || e.row == d.row { return Rejected(Duplicate); }
      documents := documents + [d.(finalKey := None)];
      Record(EnvelopeUpdated, None);
      return Done;
    }

    /** Deleting the row deletes the fields placed on the document. */
    method RemoveDocument(i: nat) returns (outcome: Outcome)
      modifies this
      ensures (Snapshot(), outcome) == SigningProtocol.RemoveDocument(old(Snapshot()), i)
      ensures Upholds(old(Snapshot()), Snapshot())
    {
      RemoveDocumentUpholds(Snapshot(), i);
      var refused := EditDraft(envelope);
      if refused.Some? { return Rejected(refused.value); }
      if i >= |documents| { return Rejected(NotFound); }
      var row := documents[i].row;
      documents := documents[..i] + documents[i + 1..];
      fields := Kept(fields, (f: Field) => f.document != row);
      Record(EnvelopeUpdated, None);
      return Done;
    }

    method RemoveSigner(id: SignerId) returns (outcome: Outcome)
      modifies this
      ensures (Snapshot(), outcome) == SigningProtocol.RemoveSigner(old(Snapshot()), id)
      ensures Upholds(old(Snapshot()), Snapshot())
    {
      RemoveSignerUpholds(Snapshot(), id);
      var refused := EditDraft(envelope);
      if refused.Some? { return Rejected(refused.value); }
      if id !in signers { return Rejected(NotFound); }
      signers := signers - {id};
      fields := Kept(fields, (f: Field) => f.signer != id);
      Record(EnvelopeUpdated, Some(id));
      return Done;
    }

    method DiscardDraft() returns (outcome: Outcome)
      modifies this
      ensures (Snapshot(), outcome) == SigningProtocol.DiscardDraft(old(Snapshot()))
      ensures Upholds(old(Snapshot()), Snapshot())
    {
      DiscardDraftUpholds(Snapshot());
      var refused := EditDraft(envelope);
      if refused.Some? { return Rejected(refused.value); }
      envelope := envelope.(discarded := true);
      Record(EnvelopeDiscarded, None);
      return Done;
    }

    method AddSigner(id: SignerId, group: Option<nat>, required: bool, m: AuthMethod, phone: bool, byIntegration: bool)
      returns (outcome: Outcome)
      modifies this
      ensures (Snapshot(), outcome) == SigningProtocol.AddSigner(old(Snapshot()), id, group, required, m, phone, byIntegration)
      ensures Upholds(old(Snapshot()), Snapshot())
    {
      AddSignerUpholds(Snapshot(), id, group, required, m, phone, byIntegration);
      var refused := CheckSigner(id, m, phone, byIntegration);
      if refused.Some? { return Rejected(refused.value); }
      var signingGroup := PlaceInOrder(group);
      InsertSigner(id, Signer(signingGroup, required, if byIntegration then Integration else m, phone, byIntegration, Pending));
      return Done;
    }

    method CheckSigner(id: SignerId, m: AuthMethod, phone: bool, byIntegration: bool) returns (refused: Option<Error>)
      ensures refused == AddSignerError(Snapshot(), id, m, phone, byIntegration)
    {
      refused := EditDraft(envelope);
      if refused.Some? { return; }
      if !byIntegration && !Available(m, config.whatsapp) { return Some(MethodUnavailable); }
      if |signers| >= MAX_SIGNERS { return Some(TooMany); }
      var authMethod := if byIntegration then Integration else m;
      if authMethod.WhatsappOtp? && !phone { return Some(Invalid); }
      if id in signers { return Some(Duplicate); }
      return None;
    }

    method PlaceInOrder(group: Option<nat>) returns (signingGroup: int)
      ensures signingGroup == GroupFor(Snapshot(), group)
    {
      if !envelope.sequential { return 1; }
      if group.Some? && group.value != 0 { return group.value; }
      return LastGroup(signers) + 1;
    }

    method InsertSigner(id: SignerId, row: Signer)
      modifies this
      ensures Snapshot() == old(Snapshot()).(signers := old(signers)[id := row], trail := old(trail) + [TrailEvent(EnvelopeUpdated, Some(id))])
    {
      signers := signers[id := row];
      Record(EnvelopeUpdated, Some(id));
    }

    /** Absent parts of the input leave their fields alone. */
    method UpdateDraft(sequential: Option<bool>, deadline: Option<Option<Time>>) returns (outcome: Outcome)
      modifies this
      ensures (Snapshot(), outcome) == SigningProtocol.UpdateDraft(old(Snapshot()), sequential, deadline)
      ensures Upholds(old(Snapshot()), Snapshot())
    {
      UpdateDraftUpholds(Snapshot(), sequential, deadline);
      var refused := EditDraft(envelope);
      if refused.Some? { return Rejected(refused.value); }
      if deadline.Some? && deadline.value.Some? && deadline.value.value <= now + 60000 { return Rejected(Invalid); }
      SetGivenParts(sequential, deadline);
      return Done;
    }

    method SetGivenParts(sequential: Option<bool>, deadline: Option<Option<Time>>)
      modifies `envelope, `signers, `trail
      ensures Snapshot() == Edited(old(Snapshot()), sequential, deadline)
    {
      Record(EnvelopeUpdated, None);
      if deadline.Some? {
        envelope := envelope.(expiresAt := deadline.value);
      }
      if sequential.Some? {
        envelope := envelope.(sequential := sequential.value);
        if !sequential.value {
          signers := Ungrouped(signers);
        }
      }
    }

    /** The new fields replace the old ones only if every one of them passes. */
    method ReplaceFields(input: seq<Field>) returns (outcome: Outcome)
      modifies this
      ensures (Snapshot(), outcome) == SigningProtocol.ReplaceFields(old(Snapshot()), input)
      ensures Upholds(old(Snapshot()), Snapshot())
    {
      ReplaceFieldsUpholds(Snapshot(), input);
      var refused := EditDraft(envelope);
      if refused.Some? { return Rejected(refused.value); }
      var pages := PageCounts(documents);
      var i := 0;
      while i < |input|
        invariant 0 <= i <= |input|
        invariant FieldsAccepted(input[..i], pages, signers.Keys)
        invariant Snapshot() == old(Snapshot())
      {
        if !FieldAccepted(input[i], pages, signers.Keys) {
          assert input[i] in input;
          return Rejected(Invalid);
        }
        i := i + 1;
      }
      assert input[..i] == input;
      fields := input;
      Record(EnvelopeUpdated, None);
      return Done;
    }

    // -------------------------------------------------------------- sending, closing, reminding

    method Activate(quota: bool) returns (outcome: Outcome)
      modifies this
      ensures (Snapshot(), outcome) == SigningProtocol.Activate(old(Snapshot()), quota)
      ensures Upholds(old(Snapshot()), Snapshot())
    {
      ActivateUpholds(Snapshot(), quota);
      if envelope.discarded { return Rejected(NotFound); }
      if envelope.status.Active? { return Replayed; }
      if !CanTransition(envelope.status, Active) { return Rejected(InvalidTransition); }
      if Overdue(envelope, now) { return Rejected(Invalid); }
      if documents == [] { return Rejected(WithoutDocuments); }
      if signers == map[] { return Rejected(WithoutSigners); }
      if forall id | id in signers :: !signers[id].required { return Rejected(WithoutRequiredSigner); }
      if exists id | id in signers :: !Activatable(signers[id].authMethod, config.whatsapp) { return Rejected(MethodUnavailable); }
      if !quota { return Rejected(PlanLimit); }
      Send();
      return Done;
    }

    method Send()
      modifies `envelope, `outbox, `trail
      ensures envelope == old(envelope).(status := Active) && trail == old(trail) + [TrailEvent(EnvelopeActivated, None)]
      ensures outbox == old(outbox) + [InviteRequested(SignersToInvite(signers, NextSigningGroup(signers)), false),
                                       Notice(EnvelopeActivated, None)]
    {
      envelope := envelope.(status := Active);
      Record(EnvelopeActivated, None);
      Emit(InviteRequested(SignersToInvite(signers, NextSigningGroup(signers)), false));
      Emit(Notice(EnvelopeActivated, None));
    }

    /** Nobody's link opens and nobody's session resolves any more; no link, no session and no other table is lost
        or changed otherwise. */
    method RevokeSignerAccess()
      modifies `tokens, `sessions
      ensures tokens.Keys == old(tokens.Keys) && sessions.Keys == old(sessions.Keys)
      ensures forall t | t in tokens :: tokens[t] == old(tokens)[t].(revoked := true)
      ensures forall i | i in sessions :: sessions[i] == old(sessions)[i].(revoked := true) && !Resolves(Snapshot(), i)
      ensures tokens == RevokedTokens(old(tokens)) && sessions == RevokedSessions(old(sessions))
    {
      tokens := RevokedTokens(tokens);
      sessions := RevokedSessions(sessions);
    }

    method Cancel() returns (outcome: Outcome)
      modifies this
      ensures (Snapshot(), outcome) == SigningProtocol.Cancel(old(Snapshot()))
      ensures Upholds(old(Snapshot()), Snapshot())
    {
      CancelUpholds(Snapshot());
      if envelope.discarded { return Rejected(NotFound); }
      if envelope.status.Cancelled? { return Replayed; }
      if !CanTransition(envelope.status, Cancelled) { return Rejected(InvalidTransition); }
      if envelope.finalizationRequestedAt.Some? { return Rejected(Finalizing); }
      Withdraw();
      return Done;
    }

    method Withdraw()
      modifies `envelope, `tokens, `sessions, `outbox, `trail
      ensures envelope == old(envelope).(status := Cancelled)
      ensures tokens == RevokedTokens(old(tokens)) && sessions == RevokedSessions(old(sessions))
      ensures outbox == old(outbox) + if old(envelope).status.Draft? then [] else [Notice(EnvelopeCancelled, None)]
      ensures trail == old(trail) + [TrailEvent(EnvelopeCancelled, None)]
    {
      var sent := !envelope.status.Draft?;
      envelope := envelope.(status := Cancelled);
      RevokeSignerAccess();
      Record(EnvelopeCancelled, None);
      if sent {
        Emit(Notice(EnvelopeCancelled, None));
      }
    }

    method Expire() returns (outcome: Outcome)
      modifies this
      ensures (Snapshot(), outcome) == SigningProtocol.Expire(old(Snapshot()))
      ensures Upholds(old(Snapshot()), Snapshot())
    {
      ExpireUpholds(Snapshot());
      if !AcceptsActions(envelope) || !Overdue(envelope, now) { return Rejected(NotDue); }
      Lapse();
      return Done;
    }

    method Lapse()
      modifies `envelope, `signers, `tokens, `sessions, `outbox, `trail
      ensures envelope == old(envelope).(status := EnvelopeStatus.Expired) && signers == ExpireOpenSigners(old(signers))
      ensures tokens == RevokedTokens(old(tokens)) && sessions == RevokedSessions(old(sessions))
      ensures outbox == old(outbox) + [Notice(EnvelopeExpired, None)] && trail == old(trail) + [TrailEvent(EnvelopeExpired, None)]
    {
      envelope := envelope.(status := EnvelopeStatus.Expired);
      signers := ExpireOpenSigners(signers);
      RevokeSignerAccess();
      Record(EnvelopeExpired, None);
      Emit(Notice(EnvelopeExpired, None));
    }

    method Remind(targets: set<SignerId>) returns (outcome: Outcome)
      modifies this
      ensures (Snapshot(), outcome) == SigningProtocol.Remind(old(Snapshot()), targets)
      ensures Upholds(old(Snapshot()), Snapshot())
    {
      RemindUpholds(Snapshot(), targets);
      if envelope.discarded { return Rejected(NotFound); }
      if !AcceptsActions(envelope) { return Rejected(NotActive); }
      var due := DueForReminder(Snapshot(), targets);
      if due == {} { return Rejected(NothingToRemind); }
      Emit(InviteRequested(due, true));
      return Done;
    }

    // -------------------------------------------------------------- invitations

    method CheckInvite(id: SignerId, token: TokenId, reminder: bool) returns (outcome: Outcome)
      modifies this
      ensures (Snapshot(), outcome) == SigningProtocol.CheckInvite(old(Snapshot()), id, token, reminder)
      ensures Upholds(old(Snapshot()), Snapshot())
    {
      CheckInviteUpholds(Snapshot(), id, token, reminder);
      if !Named(outbox, id) || id !in signers || token in tokens || token in mailings { return Rejected(NotFound); }
      if !AcceptsActions(envelope) || Terminal(signers[id].status) { return Rejected(Skipped); }
      mailings := mailings[token := MailChecked(id, reminder, envelope.expiresAt)];
      return Done;
    }

    method IssueLink(token: TokenId) returns (outcome: Outcome)
      modifies this
      ensures (Snapshot(), outcome) == SigningProtocol.IssueLink(old(Snapshot()), token)
      ensures Upholds(old(Snapshot()), Snapshot())
    {
      IssueLinkUpholds(Snapshot(), token);
      if token !in mailings || !mailings[token].MailChecked? || token in tokens { return Rejected(NotFound); }
      var mail := mailings[token];
      tokens := tokens[token := Token(mail.signer, LinkExpiry(now, config.linkTtl, mail.deadline), false)];
      mailings := mailings[token := MailPrepared(mail.signer, mail.reminder)];
      return Done;
    }

    method InviteSent(token: TokenId) returns (outcome: Outcome)
      modifies this
      ensures (Snapshot(), outcome) == SigningProtocol.InviteSent(old(Snapshot()), token)
      ensures Upholds(old(Snapshot()), Snapshot())
    {
      InviteSentUpholds(Snapshot(), token);
      if token !in mailings || !mailings[token].MailPrepared? { return Rejected(NotFound); }
      var mail := mailings[token];
      mailings := mailings - {token};
      NoteSent(mail);
      return Done;
    }

    method NoteSent(mail: Mailing)
      modifies `reminded, `signers, `trail
      ensures reminded == if mail.reminder then old(reminded)[mail.signer := now] else old(reminded)
      ensures signers == if mail.reminder then old(signers) else Advance(old(signers), mail.signer, Invited)
      ensures trail == old(trail) + [TrailEvent(if mail.reminder then ReminderSent else InvitationSent, Some(mail.signer))]
    {
      if mail.reminder {
        reminded := reminded[mail.signer := now];
        Record(ReminderSent, Some(mail.signer));
      } else {
        signers := Advance(signers, mail.signer, Invited);
        Record(InvitationSent, Some(mail.signer));
      }
    }

    /** The link of a mail that never left is worth nothing. */
    method InviteFailed(token: TokenId) returns (outcome: Outcome)
      modifies this
      ensures (Snapshot(), outcome) == SigningProtocol.InviteFailed(old(Snapshot()), token)
      ensures Upholds(old(Snapshot()), Snapshot())
    {
      InviteFailedUpholds(Snapshot(), token);
      if token !in mailings || !mailings[token].MailPrepared? || token !in tokens { return Rejected(NotFound); }
      mailings := mailings - {token};
      tokens := tokens[token := tokens[token].(revoked := true)];
      return Done;
    }

    // -------------------------------------------------------------- sessions and codes

    method EndSession(session: SessionId) returns (outcome: Outcome)
      modifies this
      ensures (Snapshot(), outcome) == SigningProtocol.EndSession(old(Snapshot()), session)
      ensures Upholds(old(Snapshot()), Snapshot())
    {
      EndSessionUpholds(Snapshot(), session);
      if !Resolves(Snapshot(), session) { return Rejected(Unauthenticated); }
      sessions := sessions[session := sessions[session].(revoked := true)];
      return Done;
    }

    /** Outside any transaction the link and its envelope are read. */
    method CheckLink(token: TokenId, session: SessionId) returns (outcome: Outcome)
      modifies this
      ensures (Snapshot(), outcome) == SigningProtocol.CheckLink(old(Snapshot()), token, session)
      ensures Upholds(old(Snapshot()), Snapshot())
    {
      CheckLinkUpholds(Snapshot(), token, session);
      if token !in tokens || tokens[token].revoked || tokens[token].expiresAt <= now
         || tokens[token].signer !in signers || session in sessions || session in openings {
        return Rejected(LinkInvalid);
      }
      if Signable(envelope.status) && Overdue(envelope, now) {
        var _ := Expire();
        return Rejected(EnvelopeHasExpired);
      }
      if envelope.status.Draft? || envelope.status.Cancelled? || envelope.status.Expired? { return Rejected(NotAvailable); }
      var id := tokens[token].signer;
      openings := openings[session := Opening(id, now, signers[id].authMethod.Email? && Signable(envelope.status))];
      return Done;
    }

    /** The transaction that follows a passed check writes the session; it looks at nothing again. */
    method OpenSession(session: SessionId) returns (outcome: Outcome)
      modifies this
      ensures (Snapshot(), outcome) == SigningProtocol.OpenSession(old(Snapshot()), session)
      ensures Upholds(old(Snapshot()), Snapshot())
    {
      OpenSessionUpholds(Snapshot(), session);
      if session !in openings { return Rejected(LinkInvalid); }
      Open(session);
      return Done;
    }

    method Open(session: SessionId)
      requires session in openings
      modifies `sessions, `openings, `signers, `outbox, `trail
      ensures var o := old(openings)[session];
              && sessions == old(sessions)[session := SessionOf(o, config.sessionTtl)] && openings == old(openings) - {session}
              && signers == (if o.automatic then Advance(old(signers), o.signer, Authenticated) else old(signers))
              && outbox == old(outbox) + (if o.automatic then [Notice(SignerAuthenticated, Some(o.signer))] else [])
              && trail == old(trail) + [TrailEvent(InvitationOpened, Some(o.signer))]
                          + (if o.automatic then [TrailEvent(SignerAuthenticated, Some(o.signer))] else [])
    {
      var o := openings[session];
      var row := Session(o.signer, o.checkedAt + config.sessionTtl, false, None, None);
      Record(InvitationOpened, Some(o.signer));
      if o.automatic {
        row := row.(authenticatedAt := Some(o.checkedAt), authMethod := Some(Email));
        signers := Advance(signers, o.signer, Authenticated);
        Record(SignerAuthenticated, Some(o.signer));
        Emit(Notice(SignerAuthenticated, Some(o.signer)));
      }
      sessions := sessions[session := row];
      openings := openings - {session};
      assert outbox == old(outbox) + if o.automatic then [Notice(SignerAuthenticated, Some(o.signer))] else [];
    }

    method RequestOtp(session: SessionId, challenge: ChallengeId, channel: OtpChannel, code: Code) returns (outcome: Outcome)
      modifies this
      ensures (Snapshot(), outcome) == SigningProtocol.RequestOtp(old(Snapshot()), session, challenge, channel, code)
      ensures Upholds(old(Snapshot()), Snapshot())
    {
      RequestOtpUpholds(Snapshot(), session, challenge, channel, code);
      if !Resolves(Snapshot(), session) || challenge in challenges { return Rejected(Unauthenticated); }
      var id := sessions[session].signer;
      if !RequiresChallenge(signers[id].authMethod) { return Rejected(OtpNotRequired); }
      if sessions[session].authenticatedAt.Some? { return Rejected(AlreadyAuthenticated); }
      if channel !in OtpChannels(signers[id].authMethod, signers[id].phone, config.whatsapp) { return Rejected(ChannelUnavailable); }
      if CoolingDown(Snapshot(), id) { return Rejected(Cooldown); }
      challenges := InvalidateLive(challenges, id);
      challenges := challenges[challenge := Challenge(id, session, ChannelMethod(channel), code, 0, config.otpMaxAttempts,
                                                      now, now + config.otpTtl, None, false)];
      Record(OtpRequested, Some(id));
      return Done;
    }

    method VerifyOtp(session: SessionId, chosen: ChallengeId, code: Code) returns (outcome: Outcome)
      modifies this
      ensures (Snapshot(), outcome) == SigningProtocol.VerifyOtp(old(Snapshot()), session, chosen, code)
      ensures outcome == Done <==> Answerable(old(Snapshot()), session, chosen) && code == old(challenges)[chosen].code
      ensures Upholds(old(Snapshot()), Snapshot())
    {
      VerifyAnswers(Snapshot(), session, chosen, code);
      VerifyOtpUpholds(Snapshot(), session, chosen, code);
      if !Resolves(Snapshot(), session) { return Rejected(Unauthenticated); }
      if sessions[session].authenticatedAt.Some? { return Replayed; }
      if !IsChosen(Snapshot(), session, chosen) { return Rejected(NoChallenge); }
      var c := challenges[chosen];
      if c.expiresAt <= now {
        challenges := challenges[chosen := c.(invalidated := true)];
        return Rejected(OtpExpired);
      }
      if c.attempts >= c.maxAttempts {
        challenges := challenges[chosen := c.(invalidated := true)];
        return Rejected(OtpLocked);
      }
      if code != c.code {
        var locked := c.attempts + 1 >= c.maxAttempts;
        challenges := challenges[chosen := c.(attempts := c.attempts + 1, invalidated := locked)];
        Record(OtpFailed, Some(c.signer));
        return Rejected(if locked then OtpLocked else OtpInvalid);
      }
      Accept(session, chosen);
      return Done;
    }

    method Accept(session: SessionId, chosen: ChallengeId)
      requires session in sessions && chosen in challenges
      modifies this
      ensures Snapshot() == ProvenSession(Consumed(old(Snapshot()), chosen), session, old(challenges)[chosen].via)
    {
      var c := challenges[chosen];
      var id := sessions[session].signer;
      challenges := challenges[chosen := c.(consumedAt := Some(now))];
      sessions := sessions[session := sessions[session].(authenticatedAt := Some(now), authMethod := Some(c.via))];
      signers := Advance(signers, id, Authenticated);
      Record(OtpValidated, Some(id));
      Record(SignerAuthenticated, Some(id));
      Emit(Notice(SignerAuthenticated, Some(id)));
    }

    method ViewDocument(session: SessionId, seen: bool) returns (outcome: Outcome)
      modifies this
      ensures (Snapshot(), outcome) == SigningProtocol.ViewDocument(old(Snapshot()), session, seen)
      ensures Upholds(old(Snapshot()), Snapshot())
    {
      ViewDocumentUpholds(Snapshot(), session, seen);
      if !Resolves(Snapshot(), session) { return Rejected(Unauthenticated); }
      if sessions[session].authenticatedAt.None? { return Rejected(AuthenticationRequired); }
      if seen || envelope.status.Completed? { return Replayed; }
      var id := sessions[session].signer;
      signers := Advance(signers, id, Viewed);
      Record(DocumentViewed, Some(id));
      Emit(Notice(DocumentViewed, Some(id)));
      return Done;
    }

    // -------------------------------------------------------------- signing and declining

    /** Request finalization, or become PARTIALLY_SIGNED and invite whoever is in turn now. */
    method EvaluateProgress()
      modifies `envelope, `outbox, `trail
      ensures envelope == ProgressEnvelope(old(envelope), signers, now)
      ensures outbox == old(outbox) + ProgressMessages(signers)
      ensures trail == old(trail) + ProgressTrail(signers)
    {
      var anySigned := exists id | id in signers :: signers[id].status.Signed?;
      if AllRequiredSigned(signers) {
        envelope := envelope.(finalizationRequestedAt := Some(now), status := if envelope.status.Active? then PartiallySigned else envelope.status);
        Record(FinalizationRequested, None);
        Emit(Notice(FinalizationRequested, None));
        return;
      }
      if anySigned && envelope.status.Active? {
        envelope := envelope.(status := PartiallySigned);
      }
      var toInvite := SignersToInvite(signers, NextSigningGroup(signers));
      if toInvite != {} {
        Emit(InviteRequested(toInvite, false));
      }
    }

    method Finish(id: SignerId, signature: Signature)
      requires id in signers
      modifies `signatures, `signers, `envelope, `outbox, `trail
      ensures signatures == old(signatures)[id := signature] && signers == WithStatus(old(signers), id, Signed)
      ensures envelope == ProgressEnvelope(old(envelope), signers, now)
      ensures outbox == old(outbox) + ([Notice(SignatureCompleted, Some(id))] + ProgressMessages(signers))
      ensures trail == old(trail) + ([TrailEvent(SignatureCompleted, Some(id))] + ProgressTrail(signers))
    {
      signatures := signatures[id := signature];
      signers := WithStatus(signers, id, Signed);
      Record(SignatureCompleted, Some(id));
      Emit(Notice(SignatureCompleted, Some(id)));
      EvaluateProgress();
    }

    method Sign(session: SessionId, input: SignInput) returns (outcome: Outcome)
      modifies this
      ensures (Snapshot(), outcome) == SigningProtocol.Sign(old(Snapshot()), session, input)
      ensures Upholds(old(Snapshot()), Snapshot())
      ensures outcome == Done <==> old(MaySign(Snapshot(), session, input))
    {
      SignsExactly(Snapshot(), session, input);
      SignUpholds(Snapshot(), session, input);
      if !Resolves(Snapshot(), session) { return Rejected(Unauthenticated); }
      if sessions[session].authenticatedAt.None? { return Rejected(AuthenticationRequired); }
      if !input.consentAccepted { return Rejected(ConsentRequired); }
      if !input.consentCurrent { return Rejected(ConsentVersionMismatch); }
      if !input.markValid { return Rejected(Invalid); }
      outcome := SignLocked(session, input);
    }

    /** The part of signing that holds the envelope's lock. */
    method SignLocked(session: SessionId, input: SignInput) returns (outcome: Outcome)
      requires Resolves(Snapshot(), session) && sessions[session].authenticatedAt.Some?
      requires input.consentAccepted && input.consentCurrent && input.markValid
      modifies `signatures, `signers, `envelope, `outbox, `trail
      ensures (Snapshot(), outcome) == SigningProtocol.Sign(old(Snapshot()), session, input)
    {
      var row := sessions[session];
      var id := row.signer;
      if id in signatures { return if signatures[id].session == session then Replayed else Rejected(AlreadySigned); }
      var refused := Eligibility(session, input);
      if refused.Some? { return Rejected(refused.value); }
      var used := if row.authMethod.Some? then row.authMethod.value else signers[id].authMethod;
      Consent(id, Signature(session, used, now));
      return Done;
    }

    method Consent(id: SignerId, signature: Signature)
      requires id in signers
      modifies `signatures, `signers, `envelope, `outbox, `trail
      ensures signatures == old(signatures)[id := signature] && signers == WithStatus(old(signers), id, Signed)
      ensures envelope == ProgressEnvelope(old(envelope), signers, now)
      ensures outbox == old(outbox) + ([Notice(SignatureCompleted, Some(id))] + ProgressMessages(signers))
      ensures trail == old(trail) + ([TrailEvent(SignatureStarted, Some(id)), TrailEvent(ConsentAccepted, Some(id))]
                                     + [TrailEvent(SignatureCompleted, Some(id))] + ProgressTrail(signers))
    {
      Record(SignatureStarted, Some(id));
      Record(ConsentAccepted, Some(id));
      Finish(id, signature);
    }

    /** The checks under the envelope's lock, in order. */
    method Eligibility(session: SessionId, input: SignInput) returns (refused: Option<Error>)
      requires Resolves(Snapshot(), session)
      ensures refused == SignError(Snapshot(), session, input)
      ensures refused == None <==> Eligible(Snapshot(), session, input)
    {
      EligibleExactly(Snapshot(), session, input);
      var row := sessions[session];
      var signer := signers[row.signer];
      if !AcceptsActions(envelope) { return Some(NotSignable); }
      if Overdue(envelope, now) { return Some(EnvelopeHasExpired); }
      if !IsSignersTurn(signers, signer.signingGroup) { return Some(NotYourTurn); }
      if !signer.status.Authenticated? { return Some(AuthenticationRequired); }
      if RequiresChallenge(signer.authMethod) && !SessionSatisfies(signer.authMethod, row.authMethod) {
        return Some(AuthenticationRequired);
      }
      var i := 0;
      while i < |documents|
        invariant 0 <= i <= |documents|
        invariant ShownMatches(documents[..i], input.shown)
      {
        var d := documents[i];
        if d.row in input.shown && input.shown[d.row] != d.sha256 {
          assert d in documents;
          return Some(HashMismatch);
        }
        i := i + 1;
      }
      assert documents[..i] == documents;
      return None;
    }

    method SignByIntegration(id: SignerId, session: SessionId) returns (outcome: Outcome)
      modifies this
      ensures (Snapshot(), outcome) == SigningProtocol.SignByIntegration(old(Snapshot()), id, session)
      ensures Upholds(old(Snapshot()), Snapshot())
    {
      SignByIntegrationUpholds(Snapshot(), id, session);
      if id !in signers || session in sessions || session in openings { return Rejected(NotFound); }
      if id in signatures { return Replayed; }
      var signer := signers[id];
      if !signer.authMethod.Integration? || !signer.representing { return Rejected(Forbidden); }
      if !AcceptsActions(envelope) { return Rejected(NotSignable); }
      if Overdue(envelope, now) { return Rejected(EnvelopeHasExpired); }
      if !IsSignersTurn(signers, signer.signingGroup) { return Rejected(NotYourTurn); }
      if Terminal(signer.status) { return Rejected(AlreadySigned); }
      Attest(id, session);
      return Done;
    }

    method Attest(id: SignerId, session: SessionId)
      requires id in signers
      modifies `sessions, `signatures, `signers, `envelope, `outbox, `trail
      ensures sessions == old(sessions)[session := Session(id, now, true, Some(now), Some(Integration))]
      ensures signatures == old(signatures)[id := Signature(session, Integration, now)] && signers == WithStatus(old(signers), id, Signed)
      ensures envelope == ProgressEnvelope(old(envelope), signers, now)
      ensures outbox == old(outbox) + ([Notice(SignatureCompleted, Some(id))] + ProgressMessages(signers))
      ensures trail == old(trail) + ([TrailEvent(SignatureByIntegration, Some(id))]
                                     + [TrailEvent(SignatureCompleted, Some(id))] + ProgressTrail(signers))
    {
      sessions := sessions[session := Session(id, now, true, Some(now), Some(Integration))];
      Record(SignatureByIntegration, Some(id));
      Finish(id, Signature(session, Integration, now));
    }

    method Decline(session: SessionId) returns (outcome: Outcome)
      modifies this
      ensures (Snapshot(), outcome) == SigningProtocol.Decline(old(Snapshot()), session)
      ensures Upholds(old(Snapshot()), Snapshot())
    {
      DeclineUpholds(Snapshot(), session);
      if !Resolves(Snapshot(), session) { return Rejected(Unauthenticated); }
      var id := sessions[session].signer;
      if sessions[session].authenticatedAt.None? { return Rejected(AuthenticationRequired); }
      if !AcceptsActions(envelope) { return Rejected(NotSignable); }
      if !SignerCanAdvance(signers[id].status, SignerStatus.Declined) { return Rejected(CannotDecline); }
      if signers[id].required {
        RefuseRequired(id);
      } else {
        RefuseOptional(id);
      }
      return Done;
    }

    method RefuseRequired(id: SignerId)
      requires id in signers
      modifies `signers, `envelope, `tokens, `sessions, `outbox, `trail
      ensures envelope == old(envelope).(status := EnvelopeStatus.Declined) && signers == WithStatus(old(signers), id, SignerStatus.Declined)
      ensures tokens == RevokedTokens(old(tokens)) && sessions == RevokedSessions(old(sessions))
      ensures outbox == old(outbox) + [Notice(SignerDeclined, Some(id))]
      ensures trail == old(trail) + [TrailEvent(SignerDeclined, Some(id)), TrailEvent(EnvelopeDeclined, None)]
    {
      signers := WithStatus(signers, id, SignerStatus.Declined);
      Record(SignerDeclined, Some(id));
      Emit(Notice(SignerDeclined, Some(id)));
      envelope := envelope.(status := EnvelopeStatus.Declined);
      RevokeSignerAccess();
      Record(EnvelopeDeclined, None);
    }

    method RefuseOptional(id: SignerId)
      requires id in signers
      modifies `signers, `envelope, `outbox, `trail
      ensures signers == WithStatus(old(signers), id, SignerStatus.Declined) && envelope == ProgressEnvelope(old(envelope), signers, now)
      ensures outbox == old(outbox) + ([Notice(SignerDeclined, Some(id))] + ProgressMessages(signers))
      ensures trail == old(trail) + ([TrailEvent(SignerDeclined, Some(id))] + ProgressTrail(signers))
    {
      signers := WithStatus(signers, id, SignerStatus.Declined);
      Record(SignerDeclined, Some(id));
      Emit(Notice(SignerDeclined, Some(id)));
      EvaluateProgress();
    }

    // -------------------------------------------------------------- the commit of finalization

    method RecordKeys(finals: seq<StorageKey>)
      requires |finals| == |documents|
      modifies `documents
      ensures documents == RecordFinals(old(documents), finals)
    {
      var i := 0;
      while i < |finals|
        invariant 0 <= i <= |finals| == |documents| == |old(documents)|
        invariant documents[..i] == RecordFinals(old(documents), finals)[..i]
        invariant documents[i..] == old(documents)[i..]
      {
        documents := documents[i := documents[i].(finalKey := Some(finals[i]))];
        i := i + 1;
      }
    }

    method Complete(finals: seq<StorageKey>) returns (outcome: Outcome)
      modifies this
      ensures (Snapshot(), outcome) == SigningProtocol.Complete(old(Snapshot()), finals)
      ensures Upholds(old(Snapshot()), Snapshot())
    {
      CompleteUpholds(Snapshot(), finals);
      if envelope.status.Completed? { return Replayed; }
      if !Signable(envelope.status) || envelope.finalizationRequestedAt.None? { return Rejected(NotActive); }
      if |finals| != |documents| { return Rejected(NotFound); }
      Conclude(finals);
      return Done;
    }

    method Conclude(finals: seq<StorageKey>)
      requires |finals| == |documents|
      modifies `documents, `signers, `envelope, `outbox, `trail
      ensures documents == RecordFinals(old(documents), finals) && signers == ExpireOpenSigners(old(signers))
      ensures envelope == old(envelope).(status := Completed)
      ensures outbox == old(outbox) + [Notice(EnvelopeCompleted, None)] && trail == old(trail) + [TrailEvent(EnvelopeCompleted, None)]
    {
      RecordKeys(finals);
      signers := ExpireOpenSigners(signers);
      envelope := envelope.(status := Completed);
      Record(EnvelopeCompleted, None);
      Emit(Notice(EnvelopeCompleted, None));
    }

    /** Everybody else's transactions, as one change of the whole database. */
    method Become(s: State)
      modifies this
      ensures Snapshot() == s
    {
      BecomeEnvelope(s);
      BecomeAccess(s);
      BecomeRest(s);
    }

    method BecomeEnvelope(s: State)
      modifies `config, `now, `envelope, `documents, `signers, `fields
      ensures config == s.config && now == s.now && envelope == s.envelope
      ensures documents == s.documents && signers == s.signers && fields == s.fields
    {
      config, now, envelope, documents, signers, fields := s.config, s.now, s.envelope, s.documents, s.signers, s.fields;
    }

    method BecomeAccess(s: State)
      modifies `tokens, `mailings, `reminded, `openings, `sessions
      ensures tokens == s.tokens && mailings == s.mailings && reminded == s.reminded && openings == s.openings
      ensures sessions == s.sessions
    {
      tokens, mailings, reminded, openings, sessions := s.tokens, s.mailings, s.reminded, s.openings, s.sessions;
    }

    method BecomeRest(s: State)
      modifies `challenges, `signatures, `outbox, `trail
      ensures challenges == s.challenges && signatures == s.signatures && outbox == s.outbox && trail == s.trail
    {
      challenges, signatures, outbox, trail := s.challenges, s.signatures, s.outbox, s.trail;
    }
  }
}
