/** The invariant of every reachable state: the tables of ProtocolBase, and what links are worth between the check
    of a link and the session that is written later. */
module ProtocolInvariant {
  import opened Basics
  import opened AuthMethods
  import opened EnvelopeState
  import opened EnvelopeFields
  import opened SigningProtocol
  import opened ProtocolBase
  import opened ProtocolSteps

  ghost predicate Inv(s: State) {
    BaseInv(s) && OpeningsOk(s)
  }

  // ---------------------------------------------------------------- links between check and session

  predicate SameOpenings(s: State, t: State) {
    t.openings == s.openings && t.sessions.Keys == s.sessions.Keys
  }

  lemma SignerEditSameOpenings(s: State, a: Action)
    requires a.DoAddSigner? || a.DoRemoveSigner? || a.Tick?
    ensures SameOpenings(s, Step(s, a).0)
  {
  }

  lemma DraftEditSameOpenings(s: State, a: Action)
    requires DraftEdit(a) && !a.DoAddSigner? && !a.DoRemoveSigner?
    ensures SameOpenings(s, Step(s, a).0)
  {
  }

  lemma EnvelopeSameOpenings(s: State, a: Action)
    requires EnvelopeAction(a)
    ensures SameOpenings(s, Step(s, a).0)
  {
  }

  lemma InviteSameOpenings(s: State, a: Action)
    requires InviteAction(a) || a.DoEndSession?
    ensures SameOpenings(s, Step(s, a).0)
  {
  }

  lemma RequestSameOpenings(s: State, session: SessionId, challenge: ChallengeId, channel: OtpChannel, code: Code)
    ensures SameOpenings(s, RequestOtp(s, session, challenge, channel, code).0)
  {
  }

  lemma AnswerSameOpenings(s: State, session: SessionId, chosen: ChallengeId)
    requires session in s.sessions && chosen in s.challenges
    ensures SameOpenings(s, Invalidated(s, chosen)) && SameOpenings(s, WrongCode(s, chosen))
    ensures SameOpenings(s, ProvenSession(Consumed(s, chosen), session, s.challenges[chosen].via))
  {
  }

  lemma VerifySameOpenings(s: State, session: SessionId, chosen: ChallengeId, code: Code)
    ensures SameOpenings(s, VerifyOtp(s, session, chosen, code).0)
  {
    if Resolves(s, session) && IsChosen(s, session, chosen) {
      AnswerSameOpenings(s, session, chosen);
    }
  }

  lemma ViewSameOpenings(s: State, session: SessionId, seen: bool)
    ensures SameOpenings(s, ViewDocument(s, session, seen).0)
  {
  }

  lemma SignSameOpenings(s: State, session: SessionId, input: SignInput)
    ensures SameOpenings(s, Sign(s, session, input).0)
  {
  }

  lemma RefusalSameOpenings(s: State, id: SignerId)
    requires id in s.signers
    ensures SameOpenings(s, DeclinedByRequired(s, id)) && SameOpenings(s, DeclinedByOptional(s, id))
  {
  }

  lemma DeclineSameOpenings(s: State, session: SessionId)
    ensures SameOpenings(s, Decline(s, session).0)
  {
    if Decline(s, session).1.Done? {
      RefusalSameOpenings(s, s.sessions[session].signer);
    }
  }

  lemma OtherSameOpenings(s: State, a: Action)
    requires !a.DoCheckLink? && !a.DoOpenSession? && !a.DoSignByIntegration?
    ensures SameOpenings(s, Step(s, a).0)
  {
    if a.DoAddSigner? || a.DoRemoveSigner? || a.Tick? {
      SignerEditSameOpenings(s, a);
    } else if DraftEdit(a) {
      DraftEditSameOpenings(s, a);
    } else if a.DoSign? {
      SignSameOpenings(s, a.session, a.input);
    } else if a.DoDecline? {
      DeclineSameOpenings(s, a.session);
    } else if a.DoRequestOtp? {
      RequestSameOpenings(s, a.session, a.challenge, a.channel, a.code);
    } else if a.DoVerifyOtp? {
      VerifySameOpenings(s, a.session, a.challenge, a.code);
    } else if a.DoViewDocument? {
      ViewSameOpenings(s, a.session, a.seen);
    } else if EnvelopeAction(a) {
      EnvelopeSameOpenings(s, a);
    } else {
      InviteSameOpenings(s, a);
    }
  }

  lemma OpeningStays(o: Opening, s: State, t: State)
    requires OpeningOk(o, s.signers, s.outbox, s.now) && SignersEvolve(s.signers, t.signers) && s.outbox <= t.outbox && s.now <= t.now
    ensures OpeningOk(o, t.signers, t.outbox, t.now)
  {
    assert t.outbox == s.outbox + t.outbox[|s.outbox|..];
    NamedKept(s.outbox, t.outbox[|s.outbox|..]);
    assert SignerEvolves(s.signers[o.signer], t.signers[o.signer]);
  }

  /** Every opening of `t` was one of `s`, or is a new one, and no session was written under its name. */
  lemma OpeningsStayOk(s: State, t: State)
    requires Inv(s) && Moves(s, t)
    requires forall i | i in t.openings :: i !in t.sessions
    requires forall i | i in t.openings ::
               (i in s.openings && t.openings[i] == s.openings[i])
               || (!s.envelope.status.Draft? && OpeningOk(t.openings[i], s.signers, s.outbox, s.now))
    ensures OpeningsOk(t)
  {
    forall i | i in t.openings ensures OpeningOk(t.openings[i], t.signers, t.outbox, t.now) {
      assert !s.envelope.status.Draft?;
      OpeningStays(t.openings[i], s, t);
    }
  }

  lemma CheckedLinkIsOk(s: State, token: TokenId, session: SessionId)
    requires BaseInv(s) && CheckLink(s, token, session).1.Done?
    ensures OpeningOk(Opening(s.tokens[token].signer, s.now, Automatic(s, s.tokens[token].signer)), s.signers, s.outbox, s.now)
  {
  }

  lemma StepKeepsOpenings(s: State, a: Action)
    requires Inv(s) && Moves(s, Step(s, a).0)
    ensures OpeningsOk(Step(s, a).0)
  {
    if a.DoCheckLink? {
      CheckLinkKeepsOpenings(s, a.token, a.session);
    } else if a.DoOpenSession? {
      OpenSessionKeepsOpenings(s, a.session);
    } else if a.DoSignByIntegration? {
      IntegrationKeepsOpenings(s, a.signer, a.session);
    } else {
      OtherSameOpenings(s, a);
      OpeningsStayOk(s, Step(s, a).0);
    }
  }

  lemma CheckLinkKeepsOpenings(s: State, token: TokenId, session: SessionId)
    requires Inv(s) && Moves(s, CheckLink(s, token, session).0)
    ensures OpeningsOk(CheckLink(s, token, session).0)
  {
    if CheckLink(s, token, session).1.Done? {
      CheckedLinkIsOk(s, token, session);
    }
    CheckLinkAdds(s, token, session);
    OpeningsStayOk(s, CheckLink(s, token, session).0);
  }

  lemma CheckLinkAdds(s: State, token: TokenId, session: SessionId)
    ensures var t := CheckLink(s, token, session).0;
            && t.sessions.Keys == s.sessions.Keys
            && t.openings == if CheckLink(s, token, session).1.Done?
                             then s.openings[session := Opening(s.tokens[token].signer, s.now, Automatic(s, s.tokens[token].signer))]
                             else s.openings
    ensures CheckLink(s, token, session).1.Done? ==> session !in s.sessions && !s.envelope.status.Draft?
  {
  }

  lemma OpenSessionKeepsOpenings(s: State, session: SessionId)
    requires Inv(s) && Moves(s, OpenSession(s, session).0)
    ensures OpeningsOk(OpenSession(s, session).0)
  {
    OpeningsStayOk(s, OpenSession(s, session).0);
  }

  lemma IntegrationKeepsOpenings(s: State, id: SignerId, session: SessionId)
    requires Inv(s) && Moves(s, SignByIntegration(s, id, session).0)
    ensures OpeningsOk(SignByIntegration(s, id, session).0)
  {
    IntegrationAdds(s, id, session);
    OpeningsStayOk(s, SignByIntegration(s, id, session).0);
  }

  lemma RecordSameOpenings(s: State, id: SignerId, g: Signature, before: seq<TrailEvent>)
    requires id in s.signers
    ensures SameOpenings(s, RecordSignature(s, id, g, before))
  {
  }

  lemma IntegrationAdds(s: State, id: SignerId, session: SessionId)
    ensures var t := SignByIntegration(s, id, session).0;
            && t.openings == s.openings
            && t.sessions.Keys == s.sessions.Keys + if SignByIntegration(s, id, session).1.Done? then {session} else {}
    ensures SignByIntegration(s, id, session).1.Done? ==> session !in s.openings
  {
    if SignByIntegration(s, id, session).1.Done? {
      RecordSameOpenings(WithTechnicalSession(s, id, session), id, Signature(session, Integration, s.now),
                         [TrailEvent(SignatureByIntegration, Some(id))]);
    }
  }

  // ---------------------------------------------------------------- every step, every run

  lemma StepKeepsInv(s: State, a: Action)
    requires Inv(s)
    ensures Inv(Step(s, a).0)
  {
    StepKeepsBase(s, a);
    StepMoves(s, a);
    StepKeepsOpenings(s, a);
  }

  lemma {:induction false} RunKeepsInv(s: State, actions: seq<Action>)
    requires Inv(s)
    ensures Inv(Run(s, actions))
    decreases |actions|
  {
    if actions != [] {
      RunKeepsInv(s, actions[..|actions| - 1]);
      StepKeepsInv(Run(s, actions[..|actions| - 1]), actions[|actions| - 1]);
    }
  }

  lemma ReachableInv(s: State)
    requires Reachable(s)
    ensures Inv(s)
  {
    var config, now, sequential, actions :| ValidConfig(config) && s == Run(NewEnvelope(config, now, sequential), actions);
    InitInv(config, now, sequential);
    RunKeepsInv(NewEnvelope(config, now, sequential), actions);
  }

  // ---------------------------------------------------------------- transaction by transaction

  /** From a state that satisfies the invariant to one that does too, by changes that are permitted. */
  ghost predicate Upholds(s: State, t: State) {
    Inv(s) ==> Inv(t) && Moves(s, t)
  }

  lemma StepUpholds(s: State, a: Action)
    ensures Upholds(s, Step(s, a).0)
  {
    if Inv(s) {
      StepKeepsInv(s, a);
      StepMoves(s, a);
    }
  }

  lemma AddDocumentUpholds(s: State, d: EnvelopeDocument)
    ensures Upholds(s, AddDocument(s, d).0)
  {
    assert Step(s, DoAddDocument(d)) == AddDocument(s, d);
    StepUpholds(s, DoAddDocument(d));
  }

  lemma RemoveDocumentUpholds(s: State, i: nat)
    ensures Upholds(s, RemoveDocument(s, i).0)
  {
    assert Step(s, DoRemoveDocument(i)) == RemoveDocument(s, i);
    StepUpholds(s, DoRemoveDocument(i));
  }

  lemma AddSignerUpholds(s: State, id: SignerId, group: Option<nat>, required: bool, m: AuthMethod, phone: bool, byIntegration: bool)
    ensures Upholds(s, AddSigner(s, id, group, required, m, phone, byIntegration).0)
  {
    assert Step(s, DoAddSigner(id, group, required, m, phone, byIntegration)) == AddSigner(s, id, group, required, m, phone, byIntegration);
    StepUpholds(s, DoAddSigner(id, group, required, m, phone, byIntegration));
  }

  lemma RemoveSignerUpholds(s: State, id: SignerId)
    ensures Upholds(s, RemoveSigner(s, id).0)
  {
    assert Step(s, DoRemoveSigner(id)) == RemoveSigner(s, id);
    StepUpholds(s, DoRemoveSigner(id));
  }

  lemma UpdateDraftUpholds(s: State, sequential: Option<bool>, deadline: Option<Option<Time>>)
    ensures Upholds(s, UpdateDraft(s, sequential, deadline).0)
  {
    assert Step(s, DoUpdateDraft(sequential, deadline)) == UpdateDraft(s, sequential, deadline);
    StepUpholds(s, DoUpdateDraft(sequential, deadline));
  }

  lemma ReplaceFieldsUpholds(s: State, fields: seq<Field>)
    ensures Upholds(s, ReplaceFields(s, fields).0)
  {
    assert Step(s, DoReplaceFields(fields)) == ReplaceFields(s, fields);
    StepUpholds(s, DoReplaceFields(fields));
  }

  lemma DiscardDraftUpholds(s: State)
    ensures Upholds(s, DiscardDraft(s).0)
  {
    assert Step(s, DoDiscardDraft) == DiscardDraft(s);
    StepUpholds(s, DoDiscardDraft);
  }

  lemma ActivateUpholds(s: State, quota: bool)
    ensures Upholds(s, Activate(s, quota).0)
  {
    assert Step(s, DoActivate(quota)) == Activate(s, quota);
    StepUpholds(s, DoActivate(quota));
  }

  lemma CancelUpholds(s: State)
    ensures Upholds(s, Cancel(s).0)
  {
    assert Step(s, DoCancel) == Cancel(s);
    StepUpholds(s, DoCancel);
  }

  lemma ExpireUpholds(s: State)
    ensures Upholds(s, Expire(s).0)
  {
    assert Step(s, DoExpire) == Expire(s);
    StepUpholds(s, DoExpire);
  }

  lemma RemindUpholds(s: State, targets: set<SignerId>)
    ensures Upholds(s, Remind(s, targets).0)
  {
    assert Step(s, DoRemind(targets)) == Remind(s, targets);
    StepUpholds(s, DoRemind(targets));
  }

  lemma CheckInviteUpholds(s: State, id: SignerId, token: TokenId, reminder: bool)
    ensures Upholds(s, CheckInvite(s, id, token, reminder).0)
  {
    assert Step(s, DoCheckInvite(id, token, reminder)) == CheckInvite(s, id, token, reminder);
    StepUpholds(s, DoCheckInvite(id, token, reminder));
  }

  lemma IssueLinkUpholds(s: State, token: TokenId)
    ensures Upholds(s, IssueLink(s, token).0)
  {
    assert Step(s, DoIssueLink(token)) == IssueLink(s, token);
    StepUpholds(s, DoIssueLink(token));
  }

  lemma InviteSentUpholds(s: State, token: TokenId)
    ensures Upholds(s, InviteSent(s, token).0)
  {
    assert Step(s, DoInviteSent(token)) == InviteSent(s, token);
    StepUpholds(s, DoInviteSent(token));
  }

  lemma InviteFailedUpholds(s: State, token: TokenId)
    ensures Upholds(s, InviteFailed(s, token).0)
  {
    assert Step(s, DoInviteFailed(token)) == InviteFailed(s, token);
    StepUpholds(s, DoInviteFailed(token));
  }

  lemma CheckLinkUpholds(s: State, token: TokenId, session: SessionId)
    ensures Upholds(s, CheckLink(s, token, session).0)
  {
    assert Step(s, DoCheckLink(token, session)) == CheckLink(s, token, session);
    StepUpholds(s, DoCheckLink(token, session));
  }

  lemma OpenSessionUpholds(s: State, session: SessionId)
    ensures Upholds(s, OpenSession(s, session).0)
  {
    assert Step(s, DoOpenSession(session)) == OpenSession(s, session);
    StepUpholds(s, DoOpenSession(session));
  }

  lemma EndSessionUpholds(s: State, session: SessionId)
    ensures Upholds(s, EndSession(s, session).0)
  {
    assert Step(s, DoEndSession(session)) == EndSession(s, session);
    StepUpholds(s, DoEndSession(session));
  }

  lemma RequestOtpUpholds(s: State, session: SessionId, challenge: ChallengeId, channel: OtpChannel, code: Code)
    ensures Upholds(s, RequestOtp(s, session, challenge, channel, code).0)
  {
    assert Step(s, DoRequestOtp(session, challenge, channel, code)) == RequestOtp(s, session, challenge, channel, code);
    StepUpholds(s, DoRequestOtp(session, challenge, channel, code));
  }

  lemma VerifyOtpUpholds(s: State, session: SessionId, chosen: ChallengeId, code: Code)
    ensures Upholds(s, VerifyOtp(s, session, chosen, code).0)
  {
    assert Step(s, DoVerifyOtp(session, chosen, code)) == VerifyOtp(s, session, chosen, code);
    StepUpholds(s, DoVerifyOtp(session, chosen, code));
  }

  lemma ViewDocumentUpholds(s: State, session: SessionId, seen: bool)
    ensures Upholds(s, ViewDocument(s, session, seen).0)
  {
    assert Step(s, DoViewDocument(session, seen)) == ViewDocument(s, session, seen);
    StepUpholds(s, DoViewDocument(session, seen));
  }

  lemma SignUpholds(s: State, session: SessionId, input: SignInput)
    ensures Upholds(s, Sign(s, session, input).0)
  {
    assert Step(s, DoSign(session, input)) == Sign(s, session, input);
    StepUpholds(s, DoSign(session, input));
  }

  lemma SignByIntegrationUpholds(s: State, id: SignerId, session: SessionId)
    ensures Upholds(s, SignByIntegration(s, id, session).0)
  {
    assert Step(s, DoSignByIntegration(id, session)) == SignByIntegration(s, id, session);
    StepUpholds(s, DoSignByIntegration(id, session));
  }

  lemma DeclineUpholds(s: State, session: SessionId)
    ensures Upholds(s, Decline(s, session).0)
  {
    assert Step(s, DoDecline(session)) == Decline(s, session);
    StepUpholds(s, DoDecline(session));
  }

  lemma CompleteUpholds(s: State, finals: seq<StorageKey>)
    ensures Upholds(s, Complete(s, finals).0)
  {
    assert Step(s, DoComplete(finals)) == Complete(s, finals);
    StepUpholds(s, DoComplete(finals));
  }
}
