/** What a cancellation, an expiry or a required signer's refusal leaves open. The closing revokes every link and every
    session there is; but links are issued, and sessions written, after a check that is not repeated. */
module ProtocolClosing {
  import opened Basics
  import opened AuthMethods
  import opened EnvelopeState
  import opened EnvelopeFields
  import opened SigningProtocol
  import opened ProtocolBase
  import opened ProtocolSteps
  import opened ProtocolInvariant
  import opened ProtocolLiveness

  predicate Closed(status: EnvelopeStatus) {
    status.Cancelled? || status.Expired? || status.Declined?
  }

  predicate LiveLink(s: State, token: TokenId) {
    token in s.tokens && !s.tokens[token].revoked
  }

  predicate LiveSession(s: State, session: SessionId) {
    session in s.sessions && !s.sessions[session].revoked
  }

  /** Every link and every session is revoked. */
  ghost predicate Shut(s: State) {
    (forall t | t in s.tokens :: s.tokens[t].revoked) && (forall i | i in s.sessions :: s.sessions[i].revoked)
  }

  // ---------------------------------------------------------------- the closing step

  /** Links, mails and checks under way as they were, but for revocation. */
  predicate ShutsAll(s: State, t: State) {
    && t.tokens == RevokedTokens(s.tokens) && t.sessions == RevokedSessions(s.sessions)
    && t.openings == s.openings && t.mailings == s.mailings
  }

  lemma EditCloses(s: State, a: Action)
    requires DraftEdit(a) || a.Tick?
    ensures Step(s, a).0.envelope.status == s.envelope.status
  {
  }

  lemma CancelCloses(s: State)
    requires !Closed(s.envelope.status) && Closed(Cancel(s).0.envelope.status)
    ensures ShutsAll(s, Cancel(s).0)
  {
  }

  lemma EnvelopeActionCloses(s: State, a: Action)
    requires EnvelopeAction(a) && !Closed(s.envelope.status) && Closed(Step(s, a).0.envelope.status)
    ensures ShutsAll(s, Step(s, a).0)
  {
    match a
    case DoCancel => assert Step(s, a) == Cancel(s); CancelCloses(s);
    case DoExpire => assert Step(s, a) == Expire(s); ExpireCloses(s);
    case _ =>
  }

  lemma InviteActionCloses(s: State, a: Action)
    requires InviteAction(a) || a.DoOpenSession? || a.DoEndSession?
    ensures Step(s, a).0.envelope == s.envelope
  {
  }

  lemma CheckLinkCloses(s: State, token: TokenId, session: SessionId)
    requires !Closed(s.envelope.status) && Closed(CheckLink(s, token, session).0.envelope.status)
    ensures ShutsAll(s, CheckLink(s, token, session).0)
  {
    assert CheckLink(s, token, session).0 == Expire(s).0;
    ExpireCloses(s);
  }

  lemma ExpireCloses(s: State)
    requires !Closed(s.envelope.status) && Closed(Expire(s).0.envelope.status)
    ensures ShutsAll(s, Expire(s).0)
  {
  }

  lemma RequestLeavesEnvelope(s: State, session: SessionId, challenge: ChallengeId, channel: OtpChannel, code: Code)
    ensures RequestOtp(s, session, challenge, channel, code).0.envelope == s.envelope
  {
  }

  lemma VerifyLeavesEnvelope(s: State, session: SessionId, challenge: ChallengeId, code: Code)
    ensures VerifyOtp(s, session, challenge, code).0.envelope == s.envelope
  {
  }

  lemma ViewLeavesEnvelope(s: State, session: SessionId, seen: bool)
    ensures ViewDocument(s, session, seen).0.envelope == s.envelope
  {
  }

  lemma ProgressClosesNothing(e: Envelope, signers: Signers, now: Time)
    ensures Closed(ProgressEnvelope(e, signers, now).status) <==> Closed(e.status)
  {
  }

  lemma SigningClosesNothing(s: State, session: SessionId, input: SignInput)
    requires !Closed(s.envelope.status)
    ensures !Closed(Sign(s, session, input).0.envelope.status)
  {
    if Sign(s, session, input).1.Done? {
      ProgressClosesNothing(s.envelope, WithStatus(s.signers, s.sessions[session].signer, Signed), s.now);
    }
  }

  lemma IntegrationClosesNothing(s: State, id: SignerId, session: SessionId)
    requires !Closed(s.envelope.status)
    ensures !Closed(SignByIntegration(s, id, session).0.envelope.status)
  {
    if SignByIntegration(s, id, session).1.Done? {
      ProgressClosesNothing(s.envelope, WithStatus(s.signers, id, Signed), s.now);
    }
  }

  lemma DeclineCloses(s: State, session: SessionId)
    requires !Closed(s.envelope.status) && Closed(Decline(s, session).0.envelope.status)
    ensures ShutsAll(s, Decline(s, session).0)
  {
    var id := s.sessions[session].signer;
    if !s.signers[id].required {
      ProgressClosesNothing(s.envelope, WithStatus(s.signers, id, SignerStatus.Declined), s.now);
    }
  }

  /** Whatever closes an envelope revokes every link and every session, and leaves what is between check and
      write as it is. */
  lemma ClosingShuts(s: State, a: Action)
    requires !Closed(s.envelope.status) && Closed(Step(s, a).0.envelope.status)
    ensures Shut(Step(s, a).0) && ShutsAll(s, Step(s, a).0)
  {
    if EnvelopeAction(a) {
      EnvelopeActionCloses(s, a);
    } else if a.DoCheckLink? {
      CheckLinkCloses(s, a.token, a.session);
    } else if a.DoDecline? {
      DeclineCloses(s, a.session);
    } else {
      OthersCloseNothing(s, a);
    }
  }

  lemma OthersCloseNothing(s: State, a: Action)
    requires !Closed(s.envelope.status) && !EnvelopeAction(a) && !a.DoCheckLink? && !a.DoDecline?
    ensures !Closed(Step(s, a).0.envelope.status)
  {
    if DraftEdit(a) || a.Tick? {
      EditCloses(s, a);
    } else if a.DoRequestOtp? {
      RequestLeavesEnvelope(s, a.session, a.challenge, a.channel, a.code);
    } else if a.DoVerifyOtp? {
      VerifyLeavesEnvelope(s, a.session, a.challenge, a.code);
    } else if a.DoViewDocument? {
      ViewLeavesEnvelope(s, a.session, a.seen);
    } else if a.DoSign? {
      SigningClosesNothing(s, a.session, a.input);
    } else if a.DoSignByIntegration? {
      IntegrationClosesNothing(s, a.signer, a.session);
    } else {
      InviteActionCloses(s, a);
    }
  }

  // ---------------------------------------------------------------- steps on a closed envelope

  /** The steps that a closed envelope does not refuse. */
  predicate Writes(a: Action) {
    a.DoIssueLink? || a.DoInviteSent? || a.DoInviteFailed? || SessionAction(a) || CodeAction(a) || a.Tick?
  }

  lemma ClosedRefusesEdits(s: State, a: Action)
    requires Closed(s.envelope.status) && DraftEdit(a)
    ensures Step(s, a).0 == s
  {
  }

  lemma ClosedRefusesEnvelopeActions(s: State, a: Action)
    requires Closed(s.envelope.status) && EnvelopeAction(a)
    ensures Step(s, a).0 == s
  {
  }

  lemma ClosedRefusesSignatures(s: State, a: Action)
    requires Closed(s.envelope.status) && (a.DoSign? || a.DoSignByIntegration? || a.DoDecline? || a.DoCheckInvite?)
    ensures Step(s, a).0 == s
  {
  }

  lemma ClosedRefuses(s: State, a: Action)
    requires Closed(s.envelope.status) && !Writes(a)
    ensures Step(s, a).0 == s
  {
    if DraftEdit(a) {
      ClosedRefusesEdits(s, a);
    } else if EnvelopeAction(a) {
      ClosedRefusesEnvelopeActions(s, a);
    } else {
      ClosedRefusesSignatures(s, a);
    }
  }

  /** Nothing that was agreed on changes. */
  predicate Settles(s: State, t: State) {
    && t.envelope == s.envelope && t.documents == s.documents && t.fields == s.fields && t.signatures == s.signatures
    && t.config == s.config && s.now <= t.now
  }

  predicate SameAccess(s: State, t: State) {
    t.openings == s.openings && t.sessions == s.sessions
  }

  /** Sessions keep their time and their revocation, and no link is between check and write that was not before. */
  ghost predicate SessionsLeft(s: State, t: State) {
    && t.openings == s.openings && t.sessions.Keys == s.sessions.Keys
    && forall i | i in s.sessions :: t.sessions[i].revoked == s.sessions[i].revoked && t.sessions[i].expiresAt == s.sessions[i].expiresAt
  }

  predicate LinksLeft(s: State, t: State) {
    t.tokens == s.tokens && t.mailings == s.mailings
  }

  lemma SameAccessIsLeft(s: State, t: State)
    requires SameAccess(s, t)
    ensures SessionsLeft(s, t)
  {
  }

  lemma IssueLeaves(s: State, token: TokenId)
    ensures Settles(s, IssueLink(s, token).0) && SameAccess(s, IssueLink(s, token).0)
  {
  }

  lemma ReportLeaves(s: State, token: TokenId)
    ensures Settles(s, InviteSent(s, token).0) && SameAccess(s, InviteSent(s, token).0)
    ensures Settles(s, InviteFailed(s, token).0) && SameAccess(s, InviteFailed(s, token).0)
  {
  }

  lemma MailActionLeaves(s: State, a: Action)
    requires a.DoIssueLink? || a.DoInviteSent? || a.DoInviteFailed? || a.Tick?
    ensures Settles(s, Step(s, a).0) && SameAccess(s, Step(s, a).0)
  {
    match a
    case DoIssueLink(k) => assert Step(s, a) == IssueLink(s, k); IssueLeaves(s, k);
    case DoInviteSent(k) => assert Step(s, a) == InviteSent(s, k); ReportLeaves(s, k);
    case DoInviteFailed(k) => assert Step(s, a) == InviteFailed(s, k); ReportLeaves(s, k);
    case Tick(ms) =>
  }

  lemma RequestedLeavesAccess(s: State, id: SignerId, session: SessionId, challenge: ChallengeId, via: AuthMethod, code: Code)
    ensures var t := Requested(s, id, session, challenge, via, code); Settles(s, t) && SameAccess(s, t) && LinksLeft(s, t)
  {
  }

  lemma RequestLeavesAccess(s: State, session: SessionId, challenge: ChallengeId, channel: OtpChannel, code: Code)
    ensures var t := RequestOtp(s, session, challenge, channel, code).0; Settles(s, t) && SameAccess(s, t) && LinksLeft(s, t)
  {
    if RequestOtp(s, session, challenge, channel, code).1.Done? {
      RequestedLeavesAccess(s, s.sessions[session].signer, session, challenge, ChannelMethod(channel), code);
    }
  }

  lemma AnswerLeavesAccess(s: State, session: SessionId, chosen: ChallengeId)
    requires session in s.sessions && chosen in s.challenges
    ensures var t := Invalidated(s, chosen); Settles(s, t) && SameAccess(s, t) && LinksLeft(s, t)
    ensures var t := WrongCode(s, chosen); Settles(s, t) && SameAccess(s, t) && LinksLeft(s, t)
    ensures var t := ProvenSession(Consumed(s, chosen), session, s.challenges[chosen].via);
            Settles(s, t) && SessionsLeft(s, t) && LinksLeft(s, t)
  {
  }

  lemma VerifyLeavesAccess(s: State, session: SessionId, chosen: ChallengeId, code: Code)
    ensures var t := VerifyOtp(s, session, chosen, code).0; Settles(s, t) && SessionsLeft(s, t) && LinksLeft(s, t)
  {
    SameAccessIsLeft(s, s);
    if Resolves(s, session) && IsChosen(s, session, chosen) {
      AnswerLeavesAccess(s, session, chosen);
      SameAccessIsLeft(s, Invalidated(s, chosen));
      SameAccessIsLeft(s, WrongCode(s, chosen));
    }
  }

  lemma SeenLeavesAccess(s: State, id: SignerId)
    ensures var t := FirstView(s, id); Settles(s, t) && SameAccess(s, t) && LinksLeft(s, t)
  {
  }

  lemma ViewLeavesAccess(s: State, session: SessionId, seen: bool)
    ensures var t := ViewDocument(s, session, seen).0; Settles(s, t) && SameAccess(s, t) && LinksLeft(s, t)
  {
    if ViewDocument(s, session, seen).1.Done? {
      SeenLeavesAccess(s, s.sessions[session].signer);
    }
  }

  lemma CodeActionLeavesAccess(s: State, a: Action)
    requires CodeAction(a)
    ensures Settles(s, Step(s, a).0) && SessionsLeft(s, Step(s, a).0) && LinksLeft(s, Step(s, a).0)
  {
    match a
    case DoRequestOtp(i, c, ch, code) => RequestLeavesAccess(s, i, c, ch, code); SameAccessIsLeft(s, Step(s, a).0);
    case DoVerifyOtp(i, c, code) => VerifyLeavesAccess(s, i, c, code);
    case DoViewDocument(i, seen) => ViewLeavesAccess(s, i, seen); SameAccessIsLeft(s, Step(s, a).0);
  }

  /** The link of a DECLINED envelope that is still live passes its check; no other closed envelope's does. */
  lemma ClosedCheckLink(s: State, token: TokenId, session: SessionId)
    requires Closed(s.envelope.status)
    ensures var r := CheckLink(s, token, session);
            && (r.1.Done? ==> s.envelope.status.Declined? && LiveLink(s, token) && session !in s.sessions)
            && r.0 == if r.1.Done? then s.(openings := s.openings[session := Opening(s.tokens[token].signer, s.now, false)]) else s
  {
  }

  lemma SessionActionSettles(s: State, a: Action)
    requires Closed(s.envelope.status) && SessionAction(a)
    ensures Settles(s, Step(s, a).0) && LinksLeft(s, Step(s, a).0)
  {
    if a.DoCheckLink? {
      ClosedCheckLink(s, a.token, a.session);
    }
  }

  lemma ClosedStepSettles(s: State, a: Action)
    requires Closed(s.envelope.status)
    ensures Settles(s, Step(s, a).0)
  {
    if !Writes(a) {
      ClosedRefuses(s, a);
    } else if CodeAction(a) {
      CodeActionLeavesAccess(s, a);
    } else if SessionAction(a) {
      SessionActionSettles(s, a);
    } else {
      MailActionLeaves(s, a);
    }
  }

  // ---------------------------------------------------------------- what happened in a run

  /** Some action of the run was this one and was carried out. */
  predicate Happened(s: State, actions: seq<Action>, a: Action)
    decreases |actions|
  {
    actions != []
    && (Happened(s, actions[..|actions| - 1], a)
        || (actions[|actions| - 1] == a && DoneIn(Run(s, actions[..|actions| - 1]), a)))
  }

  predicate DoneIn(s: State, a: Action) {
    Step(s, a).1.Done?
  }

  lemma HappenedStep(s: State, before: seq<Action>, last: Action, a: Action)
    ensures Happened(s, before + [last], a) <==> Happened(s, before, a) || (last == a && DoneIn(Run(s, before), a))
  {
    assert (before + [last])[..|before|] == before;
  }

  lemma RunSnoc(s: State, before: seq<Action>, last: Action)
    ensures Run(s, before + [last]) == Step(Run(s, before), last).0
  {
    assert (before + [last])[..|before|] == before;
  }

  /** After the closing nothing is signed, agreed or undone any more. */
  lemma {:induction false} ClosedSignsNothing(s: State, actions: seq<Action>)
    requires Closed(s.envelope.status)
    ensures Settles(s, Run(s, actions))
    decreases |actions|
  {
    if actions != [] {
      ClosedSignsNothing(s, actions[..|actions| - 1]);
      ClosedStepSettles(Run(s, actions[..|actions| - 1]), actions[|actions| - 1]);
    }
  }

  // ---------------------------------------------------------------- links

  /** The mail was checked, its link not yet issued. */
  predicate LinkPending(s: State, token: TokenId) {
    token in s.mailings && s.mailings[token].MailChecked? && token !in s.tokens
  }

  /** What one step means for one link; `done` says whether it was carried out. */
  predicate LinkMoved(s: State, a: Action, t: State, done: bool, token: TokenId) {
    && (LiveLink(t, token) <==> (a == DoIssueLink(token) && done) || (LiveLink(s, token) && !(a == DoInviteFailed(token) && done)))
    && (token in t.tokens <==> token in s.tokens || (a == DoIssueLink(token) && done))
    && (LinkPending(t, token) <==> LinkPending(s, token) && a != DoIssueLink(token))
    && (a == DoIssueLink(token) ==> (done <==> LinkPending(s, token)))
    && (a == DoInviteFailed(token) && done ==> token in s.tokens)
  }

  lemma IssueOnLink(s: State, issued: TokenId, token: TokenId)
    ensures LinkMoved(s, DoIssueLink(issued), IssueLink(s, issued).0, IssueLink(s, issued).1.Done?, token)
  {
  }

  lemma SentOnLink(s: State, sent: TokenId, token: TokenId)
    ensures LinkMoved(s, DoInviteSent(sent), InviteSent(s, sent).0, InviteSent(s, sent).1.Done?, token)
  {
  }

  lemma FailedOnLink(s: State, failed: TokenId, token: TokenId)
    ensures LinkMoved(s, DoInviteFailed(failed), InviteFailed(s, failed).0, InviteFailed(s, failed).1.Done?, token)
  {
  }

  lemma MailActionOnLink(s: State, a: Action, token: TokenId)
    requires a.DoIssueLink? || a.DoInviteSent? || a.DoInviteFailed? || a.Tick?
    ensures LinkMoved(s, a, Step(s, a).0, DoneIn(s, a), token)
  {
    match a
    case DoIssueLink(k) => assert Step(s, a) == IssueLink(s, k); IssueOnLink(s, k, token);
    case DoInviteSent(k) => assert Step(s, a) == InviteSent(s, k); SentOnLink(s, k, token);
    case DoInviteFailed(k) => assert Step(s, a) == InviteFailed(s, k); FailedOnLink(s, k, token);
    case Tick(ms) =>
  }

  lemma ClosedStepOnLink(s: State, a: Action, token: TokenId)
    requires Closed(s.envelope.status)
    ensures LinkMoved(s, a, Step(s, a).0, DoneIn(s, a), token)
  {
    if a.DoIssueLink? || a.DoInviteSent? || a.DoInviteFailed? || a.Tick? {
      MailActionOnLink(s, a, token);
    } else {
      OtherActionLeavesLinks(s, a);
      LeftOnLink(s, a, Step(s, a).0, DoneIn(s, a), token);
    }
  }

  lemma OtherActionLeavesLinks(s: State, a: Action)
    requires Closed(s.envelope.status) && !a.DoIssueLink? && !a.DoInviteSent? && !a.DoInviteFailed? && !a.Tick?
    ensures LinksLeft(s, Step(s, a).0)
  {
    if CodeAction(a) {
      CodeActionLeavesAccess(s, a);
    } else if SessionAction(a) {
      SessionActionSettles(s, a);
    } else {
      ClosedRefuses(s, a);
    }
  }

  lemma LeftOnLink(s: State, a: Action, t: State, done: bool, token: TokenId)
    requires LinksLeft(s, t) && !a.DoIssueLink? && !a.DoInviteFailed?
    ensures LinkMoved(s, a, t, done, token)
  {
  }

  /** Where a link stands after a run on a closed envelope: still pending, or issued by it, or neither. */
  ghost predicate LinkTraced(s: State, actions: seq<Action>, t: State, token: TokenId) {
    && (LinkPending(t, token) <==> LinkPending(s, token) && DoIssueLink(token) !in actions)
    && (token in t.tokens <==> token in s.tokens || (LinkPending(s, token) && DoIssueLink(token) in actions))
    && (LiveLink(t, token) <==> LinkPending(s, token) && DoIssueLink(token) in actions
                                && !Happened(s, actions, DoInviteFailed(token)))
  }

  lemma {:induction false} LinkTrace(s: State, actions: seq<Action>, token: TokenId)
    requires Closed(s.envelope.status) && Shut(s)
    ensures LinkTraced(s, actions, Run(s, actions), token)
    ensures !LinkPending(Run(s, actions), token) || !Happened(s, actions, DoInviteFailed(token))
    decreases |actions|
  {
    if actions != [] {
      var before, last := actions[..|actions| - 1], actions[|actions| - 1];
      assert actions == before + [last];
      LinkTrace(s, before, token);
      ClosedSignsNothing(s, before);
      RunSnoc(s, before, last);
      HappenedStep(s, before, last, DoInviteFailed(token));
      LinkTraceStep(s, before, last, Run(s, before), token);
    }
  }

  lemma LinkTraceStep(s: State, before: seq<Action>, last: Action, m: State, token: TokenId)
    requires Closed(m.envelope.status) && LinkTraced(s, before, m, token)
    requires !LinkPending(m, token) || !Happened(s, before, DoInviteFailed(token))
    requires Happened(s, before + [last], DoInviteFailed(token))
             <==> Happened(s, before, DoInviteFailed(token)) || (last == DoInviteFailed(token) && DoneIn(m, last))
    ensures LinkTraced(s, before + [last], Step(m, last).0, token)
    ensures !LinkPending(Step(m, last).0, token) || !Happened(s, before + [last], DoInviteFailed(token))
  {
    ClosedStepOnLink(m, last, token);
    assert DoIssueLink(token) in before + [last] <==> DoIssueLink(token) in before || last == DoIssueLink(token);
  }

  /** After the closing a link is live if and only if its mail had been checked before, the link was issued
      afterwards, and that mail was not reported undeliverable. */
  lemma LinkLiveAfterClosing(s: State, actions: seq<Action>, token: TokenId)
    requires Closed(s.envelope.status) && Shut(s)
    ensures LiveLink(Run(s, actions), token)
            <==> LinkPending(s, token) && DoIssueLink(token) in actions && !Happened(s, actions, DoInviteFailed(token))
  {
    LinkTrace(s, actions, token);
  }

  // ---------------------------------------------------------------- sessions

  lemma OpenSessionEffect(s: State, written: SessionId, session: SessionId)
    requires OpeningsOk(s)
    ensures var t, done := OpenSession(s, written).0, OpenSession(s, written).1.Done?;
            && (done <==> written in s.openings)
            && (session in t.openings <==> session in s.openings && session != written)
            && (session in t.sessions <==> session in s.sessions || (session == written && done))
            && (LiveSession(t, session) <==> LiveSession(s, session) || (session == written && done))
            && (session in s.sessions ==> t.sessions[session] == s.sessions[session])
            && (session in s.openings && session == written ==>
                  t.sessions[session].expiresAt == s.openings[session].checkedAt + s.config.sessionTtl)
  {
  }

  lemma EndSessionEffect(s: State, ended: SessionId, session: SessionId)
    ensures var t, done := EndSession(s, ended).0, EndSession(s, ended).1.Done?;
            && (done <==> Resolves(s, ended)) && t.openings == s.openings && t.sessions.Keys == s.sessions.Keys
            && (LiveSession(t, session) <==> LiveSession(s, session) && !(session == ended && done))
            && (session in s.sessions ==> t.sessions[session].expiresAt == s.sessions[session].expiresAt)
  {
  }

  /** What one step on a closed envelope means for one session. */
  ghost predicate SessionMoved(s: State, a: Action, t: State, session: SessionId) {
    && (session in t.sessions <==> session in s.sessions || (a == DoOpenSession(session) && session in s.openings))
    && (LiveSession(t, session) <==> (a == DoOpenSession(session) && session in s.openings)
                                     || (LiveSession(s, session) && !(a == DoEndSession(session) && Resolves(s, session))))
    && (session in s.sessions ==> session in t.sessions && t.sessions[session].expiresAt == s.sessions[session].expiresAt)
    && (a == DoOpenSession(session) && session in s.openings ==>
          session in t.sessions && t.sessions[session].expiresAt == s.openings[session].checkedAt + s.config.sessionTtl)
  }

  /** ... and for the link it may come from. */
  ghost predicate OpeningMoved(s: State, a: Action, t: State, session: SessionId) {
    && (session in t.openings
        <==> if a == DoOpenSession(session) then false
             else session in s.openings || (a.DoCheckLink? && a.session == session && CheckLink(s, a.token, session).1.Done?))
    && (session in s.openings && session in t.openings ==> t.openings[session] == s.openings[session])
  }

  lemma LeftMeansMoved(s: State, a: Action, t: State, session: SessionId)
    requires SessionsLeft(s, t) && !SessionAction(a)
    ensures SessionMoved(s, a, t, session) && OpeningMoved(s, a, t, session)
  {
  }

  lemma CheckMoves(s: State, token: TokenId, checked: SessionId, session: SessionId)
    requires Closed(s.envelope.status)
    ensures var t := CheckLink(s, token, checked).0;
            SessionMoved(s, DoCheckLink(token, checked), t, session) && OpeningMoved(s, DoCheckLink(token, checked), t, session)
  {
    ClosedCheckLink(s, token, checked);
  }

  lemma OpenMoves(s: State, written: SessionId, session: SessionId)
    requires OpeningsOk(s)
    ensures var t := OpenSession(s, written).0;
            SessionMoved(s, DoOpenSession(written), t, session) && OpeningMoved(s, DoOpenSession(written), t, session)
  {
    OpenSessionEffect(s, written, session);
  }

  lemma EndMoves(s: State, ended: SessionId, session: SessionId)
    ensures var t := EndSession(s, ended).0;
            SessionMoved(s, DoEndSession(ended), t, session) && OpeningMoved(s, DoEndSession(ended), t, session)
  {
    EndSessionEffect(s, ended, session);
  }

  lemma SessionActionMoved(s: State, a: Action, session: SessionId)
    requires Closed(s.envelope.status) && OpeningsOk(s) && SessionAction(a)
    ensures SessionMoved(s, a, Step(s, a).0, session) && OpeningMoved(s, a, Step(s, a).0, session)
  {
    match a
    case DoCheckLink(t, i) => assert Step(s, a) == CheckLink(s, t, i); CheckMoves(s, t, i, session);
    case DoOpenSession(i) => assert Step(s, a) == OpenSession(s, i); OpenMoves(s, i, session);
    case DoEndSession(i) => assert Step(s, a) == EndSession(s, i); EndMoves(s, i, session);
  }

  lemma ClosedStepMoved(s: State, a: Action, session: SessionId)
    requires Closed(s.envelope.status) && OpeningsOk(s)
    ensures SessionMoved(s, a, Step(s, a).0, session) && OpeningMoved(s, a, Step(s, a).0, session)
  {
    if SessionAction(a) {
      SessionActionMoved(s, a, session);
    } else {
      OtherStepLeavesSessions(s, a);
      LeftMeansMoved(s, a, Step(s, a).0, session);
    }
  }

  lemma OtherStepLeavesSessions(s: State, a: Action)
    requires Closed(s.envelope.status) && !SessionAction(a)
    ensures SessionsLeft(s, Step(s, a).0)
  {
    if !Writes(a) {
      ClosedRefuses(s, a);
      SameAccessIsLeft(s, s);
    } else if CodeAction(a) {
      CodeActionLeavesAccess(s, a);
    } else {
      MailActionLeaves(s, a);
      SameAccessIsLeft(s, Step(s, a).0);
    }
  }

  lemma DoneOpening(s: State, session: SessionId)
    ensures DoneIn(s, DoOpenSession(session)) <==> session in s.openings
  {
  }

  lemma DoneEnding(s: State, session: SessionId)
    ensures DoneIn(s, DoEndSession(session)) <==> Resolves(s, session)
  {
  }

  lemma DoneChecking(s: State, token: TokenId, session: SessionId)
    requires Closed(s.envelope.status)
    ensures DoneIn(s, DoCheckLink(token, session)) <==> CheckLink(s, token, session).1.Done?
    ensures DoneIn(s, DoCheckLink(token, session)) ==> s.envelope.status.Declined? && LiveLink(s, token)
  {
    ClosedCheckLink(s, token, session);
  }

  /** The link was checked before the run or in it. */
  ghost predicate LinkChecked(s: State, actions: seq<Action>, session: SessionId) {
    session in s.openings || exists token :: Happened(s, actions, DoCheckLink(token, session))
  }

  /** How a session of a closed envelope came about. */
  ghost predicate SessionTraced(s: State, actions: seq<Action>, t: State, session: SessionId) {
    var written, ended := Happened(s, actions, DoOpenSession(session)), Happened(s, actions, DoEndSession(session));
    && (session in t.sessions <==> session in s.sessions || written)
    && (LiveSession(t, session) <==> written && !ended)
    && (ended ==> written)
    && (session in t.openings || written <==> LinkChecked(s, actions, session))
    && (session in s.openings && session in t.openings ==> t.openings[session] == s.openings[session])
    && (session in s.openings && written ==> t.sessions[session].expiresAt == s.openings[session].checkedAt + s.config.sessionTtl)
    && (session in s.openings && DoOpenSession(session) in actions ==> written)
  }

  lemma {:induction false} SessionTrace(s: State, actions: seq<Action>, session: SessionId)
    requires Inv(s) && Closed(s.envelope.status) && Shut(s)
    ensures SessionTraced(s, actions, Run(s, actions), session)
    decreases |actions|
  {
    if actions != [] {
      var before, last := actions[..|actions| - 1], actions[|actions| - 1];
      assert actions == before + [last];
      SessionTrace(s, before, session);
      ClosedSignsNothing(s, before);
      RunKeepsInv(s, before);
      SessionTraceStep(s, before, last, session);
    }
  }

  lemma LinkCheckedStep(s: State, before: seq<Action>, last: Action, session: SessionId)
    ensures LinkChecked(s, before + [last], session)
            <==> LinkChecked(s, before, session)
                 || (last.DoCheckLink? && last.session == session && DoneIn(Run(s, before), last))
  {
    forall token
      ensures Happened(s, before + [last], DoCheckLink(token, session))
              <==> Happened(s, before, DoCheckLink(token, session))
                   || (last == DoCheckLink(token, session) && DoneIn(Run(s, before), last))
    {
      HappenedStep(s, before, last, DoCheckLink(token, session));
    }
    if last.DoCheckLink? && last.session == session && DoneIn(Run(s, before), last) {
      assert last == DoCheckLink(last.token, session);
      assert Happened(s, before + [last], DoCheckLink(last.token, session));
    }
  }

  lemma SessionTraceStep(s: State, before: seq<Action>, last: Action, session: SessionId)
    requires SessionTraced(s, before, Run(s, before), session) && Run(s, before).config == s.config
    requires Inv(Run(s, before)) && Closed(Run(s, before).envelope.status)
    ensures SessionTraced(s, before + [last], Run(s, before + [last]), session)
  {
    var m := Run(s, before);
    RunSnoc(s, before, last);
    HappenedStep(s, before, last, DoOpenSession(session));
    HappenedStep(s, before, last, DoEndSession(session));
    LinkCheckedStep(s, before, last, session);
    DoneOpening(m, session);
    DoneEnding(m, session);
    if last.DoCheckLink? {
      DoneChecking(m, last.token, last.session);
    }
    ClosedStepMoved(m, last, session);
    TraceMoves(s, before, last, m, Step(m, last).0, session);
  }

  lemma TraceMoves(s: State, before: seq<Action>, last: Action, m: State, t: State, session: SessionId)
    requires SessionTraced(s, before, m, session) && m.config == s.config && OpeningsOk(m)
    requires SessionMoved(m, last, t, session) && OpeningMoved(m, last, t, session)
    requires Happened(s, before + [last], DoOpenSession(session))
             <==> Happened(s, before, DoOpenSession(session)) || (last == DoOpenSession(session) && session in m.openings)
    requires Happened(s, before + [last], DoEndSession(session))
             <==> Happened(s, before, DoEndSession(session)) || (last == DoEndSession(session) && Resolves(m, session))
    requires LinkChecked(s, before + [last], session)
             <==> LinkChecked(s, before, session)
                  || (last.DoCheckLink? && last.session == session && CheckLink(m, last.token, session).1.Done?)
    ensures SessionTraced(s, before + [last], t, session)
  {
    assert DoOpenSession(session) in before + [last] <==> DoOpenSession(session) in before || last == DoOpenSession(session);
  }

  lemma LiveResolves(s: State, session: SessionId)
    requires BaseInv(s)
    ensures Resolves(s, session) <==> LiveSession(s, session) && s.now < s.sessions[session].expiresAt
  {
    if session in s.sessions {
      assert SessionJustified(s.sessions[session], session, s.signers, s.challenges);
    }
  }

  /** A link that passes its check on a closed envelope is one of a DECLINED envelope, live, and so one whose mail was
      checked before the closing. */
  lemma {:induction false} LateChecks(s: State, actions: seq<Action>, token: TokenId, session: SessionId)
    requires Closed(s.envelope.status) && Shut(s) && Happened(s, actions, DoCheckLink(token, session))
    ensures s.envelope.status.Declined? && LinkPending(s, token) && DoIssueLink(token) in actions
    decreases |actions|
  {
    var before, last := actions[..|actions| - 1], actions[|actions| - 1];
    assert actions == before + [last];
    if Happened(s, before, DoCheckLink(token, session)) {
      LateChecks(s, before, token, session);
    } else {
      ClosedSignsNothing(s, before);
      DoneChecking(Run(s, before), token, session);
      LinkLiveAfterClosing(s, before, token);
    }
  }

  /** After a cancellation or an expiry a session resolves if and only if its link had been checked before, the session
      was written afterwards, it was not ended, and its time is not up. */
  lemma SessionLiveAfterClosing(s: State, actions: seq<Action>, session: SessionId)
    requires Inv(s) && (s.envelope.status.Cancelled? || s.envelope.status.Expired?) && Shut(s)
    ensures Resolves(Run(s, actions), session)
            <==> session in s.openings && DoOpenSession(session) in actions && !Happened(s, actions, DoEndSession(session))
                 && Run(s, actions).now < s.openings[session].checkedAt + s.config.sessionTtl
  {
    SessionTrace(s, actions, session);
    RunKeepsInv(s, actions);
    LiveResolves(Run(s, actions), session);
    if token :| Happened(s, actions, DoCheckLink(token, session)) {
      LateChecks(s, actions, token, session);
    }
    if Happened(s, actions, DoOpenSession(session)) {
      HappenedIsListed(s, actions, DoOpenSession(session));
    }
  }

  lemma {:induction false} HappenedIsListed(s: State, actions: seq<Action>, a: Action)
    requires Happened(s, actions, a)
    ensures a in actions
    decreases |actions|
  {
    if actions[|actions| - 1] != a {
      HappenedIsListed(s, actions[..|actions| - 1], a);
    }
  }

  /** After a required signer's refusal links still open: a session resolves if and only if it was written, not ended and
      is in time; and then its link had been checked, or the mail of its link had been checked, before the closing. */
  lemma SessionLiveAfterRefusal(s: State, actions: seq<Action>, session: SessionId)
    requires Inv(s) && s.envelope.status.Declined? && Shut(s)
    ensures var t := Run(s, actions);
            Resolves(t, session)
            <==> Happened(s, actions, DoOpenSession(session)) && !Happened(s, actions, DoEndSession(session))
                 && session in t.sessions && t.now < t.sessions[session].expiresAt
    ensures Happened(s, actions, DoOpenSession(session)) ==>
              session in s.openings
              || exists token :: Happened(s, actions, DoCheckLink(token, session)) && LinkPending(s, token) && DoIssueLink(token) in actions
  {
    SessionTrace(s, actions, session);
    RunKeepsInv(s, actions);
    LiveResolves(Run(s, actions), session);
    if token :| Happened(s, actions, DoCheckLink(token, session)) {
      LateChecks(s, actions, token, session);
    }
  }

  /** With nothing between check and write at the closing, a closed envelope lets nobody in. */
  lemma NothingPendingNothingOpens(s: State, actions: seq<Action>, token: TokenId, session: SessionId)
    requires Inv(s) && Closed(s.envelope.status) && Shut(s)
    requires s.openings == map[] && forall k | k in s.mailings :: s.mailings[k].MailPrepared?
    ensures !LiveLink(Run(s, actions), token) && !Resolves(Run(s, actions), session)
  {
    LinkLiveAfterClosing(s, actions, token);
    if s.envelope.status.Declined? {
      SessionLiveAfterRefusal(s, actions, session);
    } else {
      SessionLiveAfterClosing(s, actions, session);
    }
  }

  // ---------------------------------------------------------------- every reachable closed envelope

  /** `close` takes an envelope from `s`, where signatures are awaited or it is a draft, to a closed one. */
  ghost predicate Closes(s: State, close: Action) {
    Inv(s) && !Closed(s.envelope.status) && Closed(Step(s, close).0.envelope.status)
  }

  lemma ClosedByClosing(s: State, close: Action)
    requires Closes(s, close)
    ensures var c := Step(s, close).0;
            && Inv(c) && Shut(c) && c.openings == s.openings && c.config == s.config
            && forall token :: LinkPending(c, token) <==> LinkPending(s, token)
  {
    ClosingShuts(s, close);
    StepKeepsInv(s, close);
    StepMoves(s, close);
  }

  /** A link is live after a closing if and only if its mail was checked and its link not yet issued at the closing, the
      link was issued later, and the mail was not reported undeliverable. */
  lemma LinksAfterClosing(s: State, close: Action, actions: seq<Action>, token: TokenId)
    requires Closes(s, close)
    ensures var c := Step(s, close).0;
            LiveLink(Run(c, actions), token)
            <==> LinkPending(s, token) && DoIssueLink(token) in actions && !Happened(c, actions, DoInviteFailed(token))
  {
    ClosedByClosing(s, close);
    LinkLiveAfterClosing(Step(s, close).0, actions, token);
  }

  /** A session resolves after a cancellation or an expiry if and only if its link was checked and its session not yet
      written at the closing, the session was written later and not ended, and its time is not up. */
  lemma SessionsAfterClosing(s: State, close: Action, actions: seq<Action>, session: SessionId)
    requires Closes(s, close) && !Step(s, close).0.envelope.status.Declined?
    ensures var c := Step(s, close).0; var t := Run(c, actions);
            Resolves(t, session)
            <==> session in s.openings && DoOpenSession(session) in actions && !Happened(c, actions, DoEndSession(session))
                 && t.now < s.openings[session].checkedAt + s.config.sessionTtl
  {
    ClosedByClosing(s, close);
    SessionLiveAfterClosing(Step(s, close).0, actions, session);
  }

  /** Every closed envelope was closed by one step of its run, so the two theorems above speak of all of them. */
  lemma {:induction false} ClosedSometime(start: State, actions: seq<Action>) returns (s: State, close: Action, rest: seq<Action>)
    requires Inv(start) && !Closed(start.envelope.status) && Closed(Run(start, actions).envelope.status)
    ensures Closes(s, close) && Run(start, actions) == Run(Step(s, close).0, rest)
    decreases |actions|
  {
    var before, last := actions[..|actions| - 1], actions[|actions| - 1];
    RunKeepsInv(start, before);
    if Closed(Run(start, before).envelope.status) {
      s, close, rest := ClosedSometime(start, before);
      RunSnoc(Step(s, close).0, rest, last);
      rest := rest + [last];
    } else {
      s, close, rest := Run(start, before), last, [];
    }
  }

  lemma ReachableClosed(t: State) returns (s: State, close: Action, rest: seq<Action>)
    requires Reachable(t) && Closed(t.envelope.status)
    ensures Closes(s, close) && t == Run(Step(s, close).0, rest)
  {
    var config, now, sequential, actions :| ValidConfig(config) && t == Run(NewEnvelope(config, now, sequential), actions);
    InitInv(config, now, sequential);
    s, close, rest := ClosedSometime(NewEnvelope(config, now, sequential), actions);
  }

  // ---------------------------------------------------------------- such envelopes exist

  lemma CancelKeepsPending(s: State)
    requires AcceptsActions(s.envelope) && !s.envelope.discarded
    ensures var t := Cancel(s).0;
            t.envelope == s.envelope.(status := Cancelled) && ShutsAll(s, t)
            && t.signers == s.signers && t.now == s.now && t.config == s.config
  {
  }

  lemma WrittenResolves(s: State, session: SessionId)
    requires session in s.openings && s.openings[session].checkedAt == s.now && s.openings[session].signer in s.signers
    requires s.config.sessionTtl > 0
    ensures var t := OpenSession(s, session).0;
            Resolves(t, session) && LinksLeft(s, t) && t.envelope == s.envelope && t.now == s.now && t.config == s.config
  {
  }

  lemma IssuedIsLive(s: State, token: TokenId, session: SessionId)
    requires LinkPending(s, token) && s.config.linkTtl > 0 && Resolves(s, session)
    requires s.mailings[token].deadline.Some? ==> s.now < s.mailings[token].deadline.value
    ensures var t := IssueLink(s, token).0;
            LiveLink(t, token) && t.now < t.tokens[token].expiresAt && Resolves(t, session) && t.envelope == s.envelope
  {
  }

  /** A cancellation that falls between check and write. */
  lemma CancelBetween(s: State, token: TokenId, session: SessionId)
    requires Inv(s) && AcceptsActions(s.envelope) && !Overdue(s.envelope, s.now)
    requires session in s.openings && s.openings[session].checkedAt == s.now
    requires LinkPending(s, token) && s.mailings[token].deadline == s.envelope.expiresAt
    ensures var t := IssueLink(OpenSession(Cancel(s).0, session).0, token).0;
            && t.envelope.status.Cancelled? && Resolves(t, session)
            && LiveLink(t, token) && t.now < t.tokens[token].expiresAt
  {
    assert OpeningOk(s.openings[session], s.signers, s.outbox, s.now);
    var u := Cancel(s).0;
    CancelKeepsPending(s);
    WrittenResolves(u, session);
    IssuedIsLive(OpenSession(u, session).0, token, session);
  }

  lemma RunThree(s: State, a: Action, b: Action, c: Action)
    ensures Run(s, [a] + [b] + [c]) == Step(Step(Step(s, a).0, b).0, c).0
  {
    RunTwo(s, a, b);
    RunSnoc(s, [a] + [b], c);
  }

  lemma RunCancelBetween(s: State, token: TokenId, session: SessionId)
    ensures Run(s, [DoCancel] + [DoOpenSession(session)] + [DoIssueLink(token)])
            == IssueLink(OpenSession(Cancel(s).0, session).0, token).0
  {
    RunThree(s, DoCancel, DoOpenSession(session), DoIssueLink(token));
  }

  lemma RunChecks(s: State, id: SignerId, token: TokenId, session: SessionId, next: TokenId)
    ensures Run(s, [DoCheckLink(token, session)] + [DoCheckInvite(id, next, false)])
            == CheckInvite(CheckLink(s, token, session).0, id, next, false).0
  {
    RunTwo(s, DoCheckLink(token, session), DoCheckInvite(id, next, false));
  }

  /** Both checks pass, nothing is written yet. */
  lemma ReachBetween(s: State, id: SignerId, token: TokenId) returns (actions: seq<Action>, session: SessionId, next: TokenId)
    requires Waiting(s, id) && !s.signers[id].authMethod.Integration?
    requires token in s.tokens && s.tokens[token].signer == id && !s.tokens[token].revoked && s.now < s.tokens[token].expiresAt
    ensures var t := Run(s, actions);
            && Waiting(t, id) && session in t.openings && t.openings[session].checkedAt == t.now
            && LinkPending(t, next) && t.mailings[next].deadline == t.envelope.expiresAt
  {
    session := Fresh(s.sessions.Keys + s.openings.Keys);
    next := Fresh(s.tokens.Keys + s.mailings.Keys);
    LinkIsChecked(s, id, token, session);
    LinkCheckedWaits(s, id, token, session);
    var u := s.(openings := s.openings[session := OpeningOf(s, id)]);
    MailIsChecked(u, id, next);
    MailCheckedWaits(u, id, next);
    RunChecks(s, id, token, session, next);
    actions := [DoCheckLink(token, session)] + [DoCheckInvite(id, next, false)];
  }

  /** From every envelope with a waiting signer, a run to a cancelled envelope with a session that resolves and a link
      that is live. */
  lemma CancelCanLeaveAccess(s: State, id: SignerId) returns (actions: seq<Action>, session: SessionId, token: TokenId)
    requires Waiting(s, id) && !s.signers[id].authMethod.Integration?
    ensures var t := Run(s, actions);
            && t.envelope.status.Cancelled? && Resolves(t, session)
            && LiveLink(t, token) && t.now < t.tokens[token].expiresAt
  {
    var first := Fresh(s.tokens.Keys + s.mailings.Keys);
    InviteRuns(s, id, first);
    var s1 := Run(s, Inviting(id, first));
    var between;
    between, session, token := ReachBetween(s1, id, first);
    var s2 := Run(s1, between);
    var last := [DoCancel] + [DoOpenSession(session)] + [DoIssueLink(token)];
    CancelBetween(s2, token, session);
    RunCancelBetween(s2, token, session);
    RunConcat(s, Inviting(id, first), between);
    RunConcat(s, Inviting(id, first) + between, last);
    actions := Inviting(id, first) + between + last;
  }

  /** Whatever the configuration, such a state is reachable. */
  lemma SomeCancelLeavesAccess(config: Config, now: Time, d: EnvelopeDocument) returns (t: State, session: SessionId, token: TokenId)
    requires ValidConfig(config)
    ensures Reachable(t) && t.envelope.status.Cancelled? && Resolves(t, session) && LiveLink(t, token)
  {
    var s0 := NewEnvelope(config, now, false);
    SendingSends(config, now, d);
    InitInv(config, now, false);
    RunKeepsInv(s0, Sending(d));
    var s := Run(s0, Sending(d));
    SentWaits(s);
    var actions;
    actions, session, token := CancelCanLeaveAccess(s, 0);
    RunConcat(s0, Sending(d), actions);
    t := Run(s0, Sending(d) + actions);
  }

  lemma SentWaits(s: State)
    requires Inv(s) && AcceptsActions(s.envelope) && s.envelope.expiresAt.None? && s.signers.Keys == {0} && Open(s.signers[0])
    requires s.challenges == map[]
    ensures Waiting(s, 0)
  {
  }
}
