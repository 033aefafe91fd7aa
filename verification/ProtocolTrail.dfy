/** The audit trail tells the story of the envelope: one event for each signature, for the finalization request and for
    each closing that there was, and none for one that there was not. */
module ProtocolTrail {
  import opened Basics
  import opened AuthMethods
  import opened EnvelopeState
  import opened EnvelopeFields
  import opened SigningProtocol
  import opened ProtocolBase
  import opened ProtocolInvariant

  /** How often an event is in the trail. */
  function Times(trail: seq<TrailEvent>, kind: EventType, signer: Option<SignerId>): nat {
    if trail == [] then 0
    else Times(trail[..|trail| - 1], kind, signer) + Once(trail[|trail| - 1] == TrailEvent(kind, signer))
  }

  function Once(b: bool): nat {
    if b then 1 else 0
  }

  ghost predicate TellsSignatures(trail: seq<TrailEvent>, signatures: map<SignerId, Signature>) {
    forall id: SignerId :: Times(trail, SignatureCompleted, Some(id)) == Once(id in signatures)
  }

  ghost predicate TellsStatus(trail: seq<TrailEvent>, e: Envelope) {
    && Times(trail, FinalizationRequested, None) == Once(e.finalizationRequestedAt.Some?)
    && Times(trail, EnvelopeCompleted, None) == Once(e.status == Completed)
    && Times(trail, EnvelopeCancelled, None) == Once(e.status == Cancelled)
    && Times(trail, EnvelopeExpired, None) == Once(e.status == EnvelopeStatus.Expired)
    && Times(trail, EnvelopeDeclined, None) == Once(e.status == EnvelopeStatus.Declined)
    && (e.status == Draft ==> Times(trail, EnvelopeActivated, None) == 0)
    && (e.status != Draft && e.status != Cancelled ==> Times(trail, EnvelopeActivated, None) == 1)
    && Times(trail, EnvelopeActivated, None) <= 1
  }

  ghost predicate Told(s: State) {
    TellsSignatures(s.trail, s.signatures) && TellsStatus(s.trail, s.envelope)
  }

  // ---------------------------------------------------------------- steps that add nothing to the story

  predicate Telling(k: EventType) {
    k.SignatureCompleted? || k.FinalizationRequested? || k.EnvelopeCompleted? || k.EnvelopeCancelled?
    || k.EnvelopeExpired? || k.EnvelopeDeclined? || k.EnvelopeActivated?
  }

  ghost predicate Untold(s: State, t: State) {
    && t.envelope.status == s.envelope.status && t.envelope.finalizationRequestedAt == s.envelope.finalizationRequestedAt
    && t.signatures == s.signatures
    && s.trail <= t.trail && forall j | |s.trail| <= j < |t.trail| :: !Telling(t.trail[j].kind)
  }

  lemma {:induction false} AsideTimes(trail: seq<TrailEvent>, n: nat, kind: EventType, signer: Option<SignerId>)
    requires n <= |trail| && Telling(kind) && forall j | n <= j < |trail| :: !Telling(trail[j].kind)
    ensures Times(trail, kind, signer) == Times(trail[..n], kind, signer)
    decreases |trail|
  {
    if n == |trail| {
      assert trail[..n] == trail;
    } else {
      var front := trail[..|trail| - 1];
      assert front[..n] == trail[..n];
      AsideTimes(front, n, kind, signer);
    }
  }

  lemma {:induction false} TimesAdd(trail: seq<TrailEvent>, more: seq<TrailEvent>, kind: EventType, signer: Option<SignerId>)
    ensures Times(trail + more, kind, signer) == Times(trail, kind, signer) + Times(more, kind, signer)
    decreases |more|
  {
    if more == [] {
      assert trail + more == trail;
    } else {
      assert (trail + more)[..|trail + more| - 1] == trail + more[..|more| - 1];
      TimesAdd(trail, more[..|more| - 1], kind, signer);
    }
  }

  lemma UntoldKeepsTold(s: State, t: State)
    requires Told(s) && Untold(s, t)
    ensures Told(t)
  {
    forall kind, signer | Telling(kind) ensures Times(t.trail, kind, signer) == Times(s.trail, kind, signer) {
      AsideTimes(t.trail, |s.trail|, kind, signer);
      assert t.trail[..|s.trail|] == s.trail;
    }
  }

  predicate SameStory(s: State, t: State) {
    && t.envelope.status == s.envelope.status && t.envelope.finalizationRequestedAt == s.envelope.finalizationRequestedAt
    && t.signatures == s.signatures
  }

  predicate Unsaid(s: State, t: State) {
    SameStory(s, t) && t.trail == s.trail
  }

  lemma Silent(s: State, t: State)
    requires Unsaid(s, t)
    ensures Untold(s, t)
  {
  }

  lemma Said(s: State, t: State, e: TrailEvent)
    requires SameStory(s, t) && t.trail == s.trail + [e] && !Telling(e.kind)
    ensures Untold(s, t)
  {
  }

  lemma DocumentEditUntold(s: State, a: Action)
    requires a.DoAddDocument? || a.DoRemoveDocument? || a.DoReplaceFields? || a.DoDiscardDraft?
    ensures Untold(s, Step(s, a).0)
  {
    if Step(s, a).1 == Done {
      Said(s, Step(s, a).0, TrailEvent(if a.DoDiscardDraft? then EnvelopeDiscarded else EnvelopeUpdated, None));
    } else {
      Silent(s, Step(s, a).0);
    }
  }

  lemma UpdateUntold(s: State, sequential: Option<bool>, deadline: Option<Option<Time>>)
    ensures Untold(s, UpdateDraft(s, sequential, deadline).0)
  {
    Said(s, Edited(s, sequential, deadline), TrailEvent(EnvelopeUpdated, None));
    Silent(s, s);
  }

  lemma AddSignerUntold(s: State, id: SignerId, group: Option<nat>, required: bool, m: AuthMethod, phone: bool, byIntegration: bool)
    ensures Untold(s, AddSigner(s, id, group, required, m, phone, byIntegration).0)
  {
    if AddSignerError(s, id, m, phone, byIntegration).None? {
      Said(s, AddSigner(s, id, group, required, m, phone, byIntegration).0, TrailEvent(EnvelopeUpdated, Some(id)));
    } else {
      Silent(s, s);
    }
  }

  lemma RemoveSignerUntold(s: State, id: SignerId)
    ensures Untold(s, RemoveSigner(s, id).0)
  {
    if RemoveSigner(s, id).1 == Done {
      Said(s, RemoveSigner(s, id).0, TrailEvent(EnvelopeUpdated, Some(id)));
    } else {
      Silent(s, s);
    }
  }

  lemma MailUnsaid(s: State, a: Action)
    requires a.DoCheckInvite? || a.DoIssueLink? || a.DoInviteFailed?
    ensures Unsaid(s, Step(s, a).0)
  {
  }

  lemma RemindUnsaid(s: State, targets: set<SignerId>)
    ensures Unsaid(s, Remind(s, targets).0)
  {
    var t := Remind(s, targets).0;
    assert t == s.(outbox := t.outbox);
  }

  lemma OtherUnsaid(s: State, a: Action)
    requires a.DoEndSession? || a.Tick?
    ensures Unsaid(s, Step(s, a).0)
  {
  }

  lemma UnsaidUntold(s: State, a: Action)
    requires a.DoCheckInvite? || a.DoIssueLink? || a.DoInviteFailed? || a.DoRemind? || a.DoEndSession? || a.Tick?
    ensures Untold(s, Step(s, a).0)
  {
    if a.DoRemind? {
      assert Step(s, a) == Remind(s, a.targets);
      RemindUnsaid(s, a.targets);
    } else if a.DoEndSession? || a.Tick? {
      OtherUnsaid(s, a);
    } else {
      MailUnsaid(s, a);
    }
    Silent(s, Step(s, a).0);
  }

  lemma InviteSentUntold(s: State, token: TokenId)
    ensures Untold(s, InviteSent(s, token).0)
  {
    if InviteSent(s, token).1 == Done {
      var mail := s.mailings[token];
      Said(s, InviteSent(s, token).0, TrailEvent(if mail.reminder then ReminderSent else InvitationSent, Some(mail.signer)));
    } else {
      Silent(s, s);
    }
  }

  lemma OpenedUntold(s: State, session: SessionId, o: Opening)
    ensures Untold(s, Opened(s, session, o))
  {
  }

  lemma OpenSessionUntold(s: State, session: SessionId)
    ensures Untold(s, OpenSession(s, session).0)
  {
    if session in s.openings {
      OpenedUntold(s, session, s.openings[session]);
    }
  }

  lemma RequestUntold(s: State, session: SessionId, challenge: ChallengeId, channel: OtpChannel, code: Code)
    ensures Untold(s, RequestOtp(s, session, challenge, channel, code).0)
  {
    if RequestOtp(s, session, challenge, channel, code).1 == Done {
      Said(s, RequestOtp(s, session, challenge, channel, code).0, TrailEvent(OtpRequested, Some(s.sessions[session].signer)));
    } else {
      Silent(s, s);
    }
  }

  lemma AnswerUntold(s: State, session: SessionId, chosen: ChallengeId)
    requires session in s.sessions && chosen in s.challenges
    ensures Untold(s, Invalidated(s, chosen)) && Untold(s, WrongCode(s, chosen))
    ensures Untold(s, ProvenSession(Consumed(s, chosen), session, s.challenges[chosen].via))
  {
  }

  lemma VerifyUntold(s: State, session: SessionId, chosen: ChallengeId, code: Code)
    ensures Untold(s, VerifyOtp(s, session, chosen, code).0)
  {
    if Resolves(s, session) && IsChosen(s, session, chosen) {
      AnswerUntold(s, session, chosen);
    }
  }

  lemma ViewUntold(s: State, session: SessionId, seen: bool)
    ensures Untold(s, ViewDocument(s, session, seen).0)
  {
    if ViewDocument(s, session, seen).1 == Done {
      Said(s, FirstView(s, s.sessions[session].signer), TrailEvent(DocumentViewed, Some(s.sessions[session].signer)));
    } else {
      Silent(s, s);
    }
  }

  // ---------------------------------------------------------------- steps of the story

  lemma OneMore(trail: seq<TrailEvent>, e: TrailEvent)
    ensures forall kind, signer :: Times(trail + [e], kind, signer) == Times(trail, kind, signer) + Once(e == TrailEvent(kind, signer))
  {
    assert (trail + [e])[..|trail|] == trail;
  }

  lemma ActivateTells(s: State, quota: bool)
    requires Told(s)
    ensures Told(Activate(s, quota).0)
  {
    if Activate(s, quota).1 == Done {
      SentTells(s);
    }
  }

  lemma SentTells(s: State)
    requires Told(s) && s.envelope.status == Draft
    ensures Told(Sent(s))
  {
    OneMore(s.trail, TrailEvent(EnvelopeActivated, None));
  }

  lemma CancelTells(s: State)
    requires Told(s)
    ensures Told(Cancel(s).0)
  {
    OneMore(s.trail, TrailEvent(EnvelopeCancelled, None));
  }

  lemma ExpireTells(s: State)
    requires Told(s)
    ensures Told(Expire(s).0)
  {
    OneMore(s.trail, TrailEvent(EnvelopeExpired, None));
  }

  lemma CompleteTells(s: State, finals: seq<StorageKey>)
    requires Told(s)
    ensures Told(Complete(s, finals).0)
  {
    OneMore(s.trail, TrailEvent(EnvelopeCompleted, None));
  }

  lemma CheckLinkTells(s: State, token: TokenId, session: SessionId)
    requires Told(s)
    ensures Told(CheckLink(s, token, session).0)
  {
    ExpireTells(s);
  }

  /** What follows a signature or an optional signer's refusal: at most the request for finalization. */
  lemma ProgressTells(trail: seq<TrailEvent>, e: Envelope, signers: Signers, now: Time)
    requires TellsStatus(trail, e) && AcceptsActions(e)
    ensures TellsStatus(trail + ProgressTrail(signers), ProgressEnvelope(e, signers, now))
    ensures forall signer :: Times(trail + ProgressTrail(signers), SignatureCompleted, signer) == Times(trail, SignatureCompleted, signer)
  {
    if AllRequiredSigned(signers) {
      OneMore(trail, TrailEvent(FinalizationRequested, None));
    } else {
      assert trail + ProgressTrail(signers) == trail;
    }
  }

  lemma {:induction false} AsideTells(trail: seq<TrailEvent>, more: seq<TrailEvent>, e: Envelope, signatures: map<SignerId, Signature>)
    requires TellsStatus(trail, e) && TellsSignatures(trail, signatures) && forall x | x in more :: !Telling(x.kind)
    ensures TellsStatus(trail + more, e) && TellsSignatures(trail + more, signatures)
  {
    forall kind, signer | Telling(kind) ensures Times(trail + more, kind, signer) == Times(trail, kind, signer) {
      AsideTimes(trail + more, |trail|, kind, signer);
      assert (trail + more)[..|trail|] == trail;
    }
  }

  lemma SignatureTells(trail: seq<TrailEvent>, e: Envelope, signatures: map<SignerId, Signature>, id: SignerId, g: Signature)
    requires TellsStatus(trail, e) && TellsSignatures(trail, signatures) && id !in signatures
    ensures var more := trail + [TrailEvent(SignatureCompleted, Some(id))];
            TellsStatus(more, e) && TellsSignatures(more, signatures[id := g])
  {
    OneMore(trail, TrailEvent(SignatureCompleted, Some(id)));
  }

  lemma RecordTells(s: State, id: SignerId, g: Signature, before: seq<TrailEvent>)
    requires Told(s) && id in s.signers && id !in s.signatures && AcceptsActions(s.envelope)
    requires forall e | e in before :: !Telling(e.kind)
    ensures Told(RecordSignature(s, id, g, before))
  {
    var t := RecordSignature(s, id, g, before);
    var signers := WithStatus(s.signers, id, Signed);
    var signed := s.trail + before + [TrailEvent(SignatureCompleted, Some(id))];
    AsideTells(s.trail, before, s.envelope, s.signatures);
    SignatureTells(s.trail + before, s.envelope, s.signatures, id, g);
    ProgressTells(signed, s.envelope, signers, s.now);
    assert t.trail == signed + ProgressTrail(signers);
  }

  lemma RequiredRefusalTells(s: State, id: SignerId)
    requires Told(s) && id in s.signers && AcceptsActions(s.envelope)
    ensures Told(DeclinedByRequired(s, id))
  {
    var first := s.trail + [TrailEvent(SignerDeclined, Some(id))];
    OneMore(s.trail, TrailEvent(SignerDeclined, Some(id)));
    OneMore(first, TrailEvent(EnvelopeDeclined, None));
    assert DeclinedByRequired(s, id).trail == first + [TrailEvent(EnvelopeDeclined, None)];
  }

  lemma OptionalRefusalTells(s: State, id: SignerId)
    requires Told(s) && id in s.signers && AcceptsActions(s.envelope)
    ensures Told(DeclinedByOptional(s, id))
  {
    var first := s.trail + [TrailEvent(SignerDeclined, Some(id))];
    var signers := WithStatus(s.signers, id, SignerStatus.Declined);
    AsideTells(s.trail, [TrailEvent(SignerDeclined, Some(id))], s.envelope, s.signatures);
    ProgressTells(first, s.envelope, signers, s.now);
    assert DeclinedByOptional(s, id).trail == first + ProgressTrail(signers);
  }

  lemma SignTells(s: State, session: SessionId, input: SignInput)
    requires Told(s)
    ensures Told(Sign(s, session, input).0)
  {
    if Sign(s, session, input).1 == Done {
      var id := s.sessions[session].signer;
      var used := if s.sessions[session].authMethod.Some? then s.sessions[session].authMethod.value else s.signers[id].authMethod;
      RecordTells(s, id, Signature(session, used, s.now), [TrailEvent(SignatureStarted, Some(id)), TrailEvent(ConsentAccepted, Some(id))]);
    }
  }

  lemma AttestedTells(s: State, id: SignerId, session: SessionId)
    requires Told(s) && id in s.signers && id !in s.signatures && AcceptsActions(s.envelope)
    ensures Told(RecordSignature(WithTechnicalSession(s, id, session), id, Signature(session, Integration, s.now),
                                 [TrailEvent(SignatureByIntegration, Some(id))]))
  {
    assert Told(WithTechnicalSession(s, id, session));
    RecordTells(WithTechnicalSession(s, id, session), id, Signature(session, Integration, s.now), [TrailEvent(SignatureByIntegration, Some(id))]);
  }

  lemma IntegrationTells(s: State, id: SignerId, session: SessionId)
    requires Told(s)
    ensures Told(SignByIntegration(s, id, session).0)
  {
    if SignByIntegration(s, id, session).1 == Done {
      AttestedTells(s, id, session);
    }
  }

  lemma DeclineTells(s: State, session: SessionId)
    requires Told(s)
    ensures Told(Decline(s, session).0)
  {
    if Decline(s, session).1 == Done {
      RequiredRefusalTells(s, s.sessions[session].signer);
      OptionalRefusalTells(s, s.sessions[session].signer);
    }
  }

  // ---------------------------------------------------------------- every step, every run

  lemma StepTells(s: State, a: Action)
    requires Told(s)
    ensures Told(Step(s, a).0)
  {
    if (EnvelopeAction(a) || a.DoCheckLink? || a.DoSign? || a.DoSignByIntegration? || a.DoDecline?) && !a.DoRemind? {
      EnvelopeTells(s, a);
    } else {
      OtherUntold(s, a);
      UntoldKeepsTold(s, Step(s, a).0);
    }
  }

  lemma OtherUntold(s: State, a: Action)
    requires DraftEdit(a) || InviteAction(a) || CodeAction(a) || a.DoRemind? || a.DoOpenSession? || a.DoEndSession? || a.Tick?
    ensures Untold(s, Step(s, a).0)
  {
    match a
    case DoAddSigner(id, g, r, m, p, i) => assert Step(s, a) == AddSigner(s, id, g, r, m, p, i); AddSignerUntold(s, id, g, r, m, p, i);
    case DoRemoveSigner(id) => assert Step(s, a) == RemoveSigner(s, id); RemoveSignerUntold(s, id);
    case DoUpdateDraft(q, x) => assert Step(s, a) == UpdateDraft(s, q, x); UpdateUntold(s, q, x);
    case DoInviteSent(t) => assert Step(s, a) == InviteSent(s, t); InviteSentUntold(s, t);
    case DoOpenSession(i) => assert Step(s, a) == OpenSession(s, i); OpenSessionUntold(s, i);
    case DoRequestOtp(i, c, ch, code) => assert Step(s, a) == RequestOtp(s, i, c, ch, code); RequestUntold(s, i, c, ch, code);
    case DoVerifyOtp(i, c, code) => assert Step(s, a) == VerifyOtp(s, i, c, code); VerifyUntold(s, i, c, code);
    case DoViewDocument(i, seen) => assert Step(s, a) == ViewDocument(s, i, seen); ViewUntold(s, i, seen);
    case _ =>
      if DraftEdit(a) {
        DocumentEditUntold(s, a);
      } else {
        UnsaidUntold(s, a);
      }
  }

  lemma EnvelopeTells(s: State, a: Action)
    requires Told(s) && (EnvelopeAction(a) || a.DoCheckLink? || a.DoSign? || a.DoSignByIntegration? || a.DoDecline?) && !a.DoRemind?
    ensures Told(Step(s, a).0)
  {
    match a
    case DoActivate(q) => assert Step(s, a) == Activate(s, q); ActivateTells(s, q);
    case DoCancel => assert Step(s, a) == Cancel(s); CancelTells(s);
    case DoExpire => assert Step(s, a) == Expire(s); ExpireTells(s);
    case DoComplete(f) => assert Step(s, a) == Complete(s, f); CompleteTells(s, f);
    case DoCheckLink(t, i) => assert Step(s, a) == CheckLink(s, t, i); CheckLinkTells(s, t, i);
    case DoSign(i, input) => assert Step(s, a) == Sign(s, i, input); SignTells(s, i, input);
    case DoSignByIntegration(id, i) => assert Step(s, a) == SignByIntegration(s, id, i); IntegrationTells(s, id, i);
    case DoDecline(i) => assert Step(s, a) == Decline(s, i); DeclineTells(s, i);
  }

  lemma {:induction false} RunTells(s: State, actions: seq<Action>)
    requires Told(s)
    ensures Told(Run(s, actions))
    decreases |actions|
  {
    if actions != [] {
      RunTells(s, actions[..|actions| - 1]);
      StepTells(Run(s, actions[..|actions| - 1]), actions[|actions| - 1]);
    }
  }

  lemma NewIsTold(config: Config, now: Time, sequential: bool)
    ensures Told(NewEnvelope(config, now, sequential))
  {
  }

  /** In every reachable state the trail holds one event for each signature, for the finalization request and for the
      closing that there was, and none for anything that did not happen. */
  lemma ReachableTrailTells(s: State)
    requires Reachable(s)
    ensures forall id: SignerId :: Times(s.trail, SignatureCompleted, Some(id)) == Once(id in s.signatures)
    ensures TellsStatus(s.trail, s.envelope)
  {
    var config, now, sequential, actions :| ValidConfig(config) && s == Run(NewEnvelope(config, now, sequential), actions);
    NewIsTold(config, now, sequential);
    RunTells(NewEnvelope(config, now, sequential), actions);
  }
}
