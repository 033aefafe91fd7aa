/** No reachable envelope is stuck: as long as it cannot expire first, a short schedule completes it. */
module ProtocolLiveness {
  import opened Basics
  import opened AuthMethods
  import opened EnvelopeState
  import opened SigningProtocol
  import opened ProtocolBase
  import opened ProtocolInvariant
  import opened ProtocolSteps

  const GOOD_INPUT := SignInput(true, true, true, map[])

  ghost predicate Waiting(s: State, id: SignerId) {
    && Inv(s) && AcceptsActions(s.envelope) && !Overdue(s.envelope, s.now)
    && id in s.signers && Open(s.signers[id]) && Reached(s.signers, s.signers[id].signingGroup)
    && !CoolingDown(s, id)
  }

  lemma WaitingFacts(s: State, id: SignerId)
    requires Waiting(s, id)
    ensures !Terminal(s.signers[id].status) && !s.signers[id].status.Viewed?
    ensures IsSignersTurn(s.signers, s.signers[id].signingGroup)
    ensures id !in s.signatures
    ensures !s.signers[id].authMethod.Integration? ==> Named(s.outbox, id)
    ensures s.signers[id].authMethod.Integration? ==> s.signers[id].representing
    ensures Activatable(s.signers[id].authMethod, s.config.whatsapp)
  {
    assert SomeOpen(s.signers);
    TurnMeansReached(s.signers, s.signers[id].signingGroup);
    if !s.signers[id].authMethod.Integration? {
      assert InviteJustified(s.signers, id);
    }
  }

  // ---------------------------------------------------------------- the steps of one signer

  /** Everything about the envelope and the other signers that the steps of signer `id` leave alone. */
  ghost predicate OnlySigner(s: State, t: State, id: SignerId) {
    && t.config == s.config && t.now == s.now && t.documents == s.documents
    && t.envelope.expiresAt == s.envelope.expiresAt
    && t.signers.Keys == s.signers.Keys && (forall x | x in s.signers && x != id :: t.signers[x] == s.signers[x])
    && (forall c | c in t.challenges && t.challenges[c].signer != id :: c in s.challenges && t.challenges[c] == s.challenges[c])
  }

  lemma MailIsChecked(s: State, id: SignerId, token: TokenId)
    requires Waiting(s, id) && !s.signers[id].authMethod.Integration? && token !in s.tokens && token !in s.mailings
    ensures CheckInvite(s, id, token, false).0 == s.(mailings := s.mailings[token := MailChecked(id, false, s.envelope.expiresAt)])
  {
    WaitingFacts(s, id);
  }

  lemma LinkIsIssued(s: State, id: SignerId, token: TokenId)
    requires Waiting(s, id) && token !in s.tokens && token in s.mailings && s.mailings[token] == MailChecked(id, false, s.envelope.expiresAt)
    ensures var t := IssueLink(s, token).0;
            && OnlySigner(s, t, id) && t.signers == s.signers && t.envelope == s.envelope && t.challenges == s.challenges
            && t.sessions == s.sessions && t.openings == s.openings
            && token in t.tokens && t.tokens[token].signer == id && !t.tokens[token].revoked && t.now < t.tokens[token].expiresAt
  {
  }

  /** The state after the link was opened: a fresh session of this signer, already authenticated for method EMAIL. */
  ghost predicate Seated(s: State, id: SignerId, session: SessionId) {
    && Resolves(s, session) && s.sessions[session].signer == id
    && (s.sessions[session].authenticatedAt.Some? <==> s.signers[id].authMethod.Email?)
    && (s.signers[id].authMethod.Email? ==> s.signers[id].status.Authenticated?)
  }

  function OpeningOf(s: State, id: SignerId): Opening
    requires id in s.signers
  {
    Opening(id, s.now, Automatic(s, id))
  }

  lemma LinkIsChecked(s: State, id: SignerId, token: TokenId, session: SessionId)
    requires Waiting(s, id) && session !in s.sessions && session !in s.openings
    requires token in s.tokens && s.tokens[token].signer == id && !s.tokens[token].revoked && s.now < s.tokens[token].expiresAt
    ensures CheckLink(s, token, session).0 == s.(openings := s.openings[session := OpeningOf(s, id)])
  {
  }

  lemma EnterLeavesOthers(s: State, id: SignerId, session: SessionId)
    requires Waiting(s, id) && session in s.openings && s.openings[session] == OpeningOf(s, id)
    ensures var t := OpenSession(s, session).0;
            && OnlySigner(s, t, id) && t.challenges == s.challenges && t.envelope == s.envelope
            && t.signers[id] == s.signers[id].(status := t.signers[id].status) && Open(t.signers[id])
  {
  }

  lemma EnterSeats(s: State, id: SignerId, session: SessionId)
    requires Waiting(s, id) && session in s.openings && s.openings[session] == OpeningOf(s, id)
    ensures Seated(OpenSession(s, session).0, id, session)
  {
    WaitingFacts(s, id);
  }

  lemma Enter(s: State, id: SignerId, session: SessionId)
    requires Waiting(s, id) && session in s.openings && s.openings[session] == OpeningOf(s, id)
    ensures var t := OpenSession(s, session).0;
            && OnlySigner(s, t, id) && t.challenges == s.challenges && t.envelope == s.envelope && Seated(t, id, session)
            && t.signers[id] == s.signers[id].(status := t.signers[id].status) && Open(t.signers[id])
  {
    EnterLeavesOthers(s, id, session);
    EnterSeats(s, id, session);
  }

  /** The signer keeps waiting as long as only their own row moves below SIGNED. */
  lemma StillWaiting(s: State, t: State, id: SignerId)
    requires Waiting(s, id) && Inv(t) && OnlySigner(s, t, id) && t.envelope == s.envelope
    requires t.signers[id] == s.signers[id].(status := t.signers[id].status) && Open(t.signers[id])
    requires !CoolingDown(t, id)
    ensures Waiting(t, id)
  {
    forall x | x in t.signers && Open(t.signers[x]) ensures t.signers[id].signingGroup <= t.signers[x].signingGroup {
      assert Open(s.signers[x]);
    }
  }

  function CodeChannel(m: AuthMethod): OtpChannel {
    if m.WhatsappOtp? then ByWhatsapp else ByEmail
  }

  lemma CodeIsSent(s: State, id: SignerId, session: SessionId, challenge: ChallengeId)
    requires Waiting(s, id) && Seated(s, id, session) && RequiresChallenge(s.signers[id].authMethod) && challenge !in s.challenges
    ensures var m := s.signers[id].authMethod;
            RequestOtp(s, session, challenge, CodeChannel(m), 0) == (Requested(s, id, session, challenge, m, 0), Done)
  {
    WaitingFacts(s, id);
  }

  lemma CodeIsFresh(s: State, id: SignerId, session: SessionId, challenge: ChallengeId)
    requires Waiting(s, id) && Seated(s, id, session) && challenge !in s.challenges
    ensures var m := s.signers[id].authMethod; var t := Requested(s, id, session, challenge, m, 0);
            && OnlySigner(s, t, id) && t.signers == s.signers && t.envelope == s.envelope && Resolves(t, session)
            && t.sessions == s.sessions && IsChosen(t, session, challenge)
            && t.challenges[challenge].via == m && t.now < t.challenges[challenge].expiresAt
            && t.challenges[challenge].attempts < t.challenges[challenge].maxAttempts && t.challenges[challenge].code == 0
  {
  }

  lemma CodeIsAccepted(s: State, id: SignerId, session: SessionId, challenge: ChallengeId)
    requires Resolves(s, session) && s.sessions[session].signer == id && s.sessions[session].authenticatedAt.None?
    requires IsChosen(s, session, challenge) && s.now < s.challenges[challenge].expiresAt
    requires s.challenges[challenge].attempts < s.challenges[challenge].maxAttempts && s.challenges[challenge].code == 0
    ensures VerifyOtp(s, session, challenge, 0) == (ProvenSession(Consumed(s, challenge), session, s.challenges[challenge].via), Done)
  {
  }

  /** Ready to sign: the session satisfies the signer's method. */
  ghost predicate Ready(s: State, id: SignerId, session: SessionId) {
    && Resolves(s, session) && s.sessions[session].signer == id && s.sessions[session].authenticatedAt.Some?
    && s.signers[id].status.Authenticated?
    && (RequiresChallenge(s.signers[id].authMethod) ==> SessionSatisfies(s.signers[id].authMethod, s.sessions[session].authMethod))
  }

  lemma CodeMakesReady(s: State, id: SignerId, session: SessionId, challenge: ChallengeId)
    requires id in s.signers && !Terminal(s.signers[id].status)
    requires Resolves(s, session) && s.sessions[session].signer == id
    requires IsChosen(s, session, challenge) && s.challenges[challenge].via == s.signers[id].authMethod
    ensures var t := ProvenSession(Consumed(s, challenge), session, s.challenges[challenge].via);
            && OnlySigner(s, t, id) && t.envelope == s.envelope && Ready(t, id, session)
            && t.signers[id] == s.signers[id].(status := t.signers[id].status)
  {
  }

  // ---------------------------------------------------------------- schedules

  lemma {:induction false} RunConcat(s: State, a: seq<Action>, b: seq<Action>)
    ensures Run(s, a + b) == Run(Run(s, a), b)
    decreases |b|
  {
    if b == [] {
      assert a + b == a;
    } else {
      assert (a + b)[..|a + b| - 1] == a + b[..|b| - 1];
      RunConcat(s, a, b[..|b| - 1]);
    }
  }

  lemma RunOne(s: State, a: Action)
    ensures Run(s, [a]) == Step(s, a).0
  {
    assert [a][..0] == [];
  }

  lemma RunTwo(s: State, a: Action, b: Action)
    ensures Run(s, [a] + [b]) == Step(Step(s, a).0, b).0
  {
    RunOne(s, a);
    RunOne(Step(s, a).0, b);
    RunConcat(s, [a], [b]);
  }

  lemma RunInvite(s: State, id: SignerId, token: TokenId)
    ensures Run(s, [DoCheckInvite(id, token, false)] + [DoIssueLink(token)]) == IssueLink(CheckInvite(s, id, token, false).0, token).0
  {
    RunTwo(s, DoCheckInvite(id, token, false), DoIssueLink(token));
  }

  lemma RunEnter(s: State, token: TokenId, session: SessionId)
    ensures Run(s, [DoCheckLink(token, session)] + [DoOpenSession(session)]) == OpenSession(CheckLink(s, token, session).0, session).0
  {
    RunTwo(s, DoCheckLink(token, session), DoOpenSession(session));
  }

  lemma RunCodes(s: State, session: SessionId, challenge: ChallengeId, channel: OtpChannel)
    ensures Run(s, [DoRequestOtp(session, challenge, channel, 0)]) == RequestOtp(s, session, challenge, channel, 0).0
    ensures Run(s, [DoVerifyOtp(session, challenge, 0)]) == VerifyOtp(s, session, challenge, 0).0
  {
    RunOne(s, DoRequestOtp(session, challenge, channel, 0));
    RunOne(s, DoVerifyOtp(session, challenge, 0));
  }

  lemma RunSignatures(s: State, id: SignerId, session: SessionId)
    ensures Run(s, [DoSignByIntegration(id, session)]) == SignByIntegration(s, id, session).0
    ensures Run(s, [DoSign(session, GOOD_INPUT)]) == Sign(s, session, GOOD_INPUT).0
  {
    RunOne(s, DoSignByIntegration(id, session));
    RunOne(s, DoSign(session, GOOD_INPUT));
  }

  lemma RunWait(s: State, elapsed: nat)
    ensures Run(s, [Tick(elapsed)]) == s.(now := s.now + elapsed)
  {
    RunOne(s, Tick(elapsed));
  }

  lemma RunCommit(s: State, finals: seq<StorageKey>)
    ensures Run(s, [DoComplete(finals)]) == Complete(s, finals).0
  {
    RunOne(s, DoComplete(finals));
  }

  function Inviting(id: SignerId, token: TokenId): seq<Action> {
    [DoCheckInvite(id, token, false)] + [DoIssueLink(token)]
  }

  function Entering(token: TokenId, session: SessionId): seq<Action> {
    [DoCheckLink(token, session)] + [DoOpenSession(session)]
  }

  /** From a waiting signer to one who is ready to sign, in at most six steps. */
  lemma ReachReady(s: State, id: SignerId) returns (actions: seq<Action>, session: SessionId)
    requires Waiting(s, id) && !s.signers[id].authMethod.Integration?
    ensures |actions| <= 6
    ensures var t := Run(s, actions);
            && Inv(t) && OnlySigner(s, t, id) && t.envelope == s.envelope && Ready(t, id, session)
            && t.signers[id] == s.signers[id].(status := t.signers[id].status)
  {
    var token := Fresh(s.tokens.Keys + s.mailings.Keys);
    session := Fresh(s.sessions.Keys + s.openings.Keys);
    var s1 := ReachSeat(s, id, token, session);
    actions := Inviting(id, token) + Entering(token, session);
    if !s1.signers[id].authMethod.Email? {
      var challenge := Fresh(s1.challenges.Keys);
      var more := ReachProof(s1, id, session, challenge);
      RunConcat(s, actions, more);
      actions := actions + more;
    }
  }

  lemma MailCheckedWaits(s: State, id: SignerId, token: TokenId)
    requires Waiting(s, id) && !s.signers[id].authMethod.Integration? && token !in s.tokens && token !in s.mailings
    ensures Waiting(s.(mailings := s.mailings[token := MailChecked(id, false, s.envelope.expiresAt)]), id)
  {
    MailIsChecked(s, id, token);
    CheckInviteUpholds(s, id, token, false);
    StillWaiting(s, s.(mailings := s.mailings[token := MailChecked(id, false, s.envelope.expiresAt)]), id);
  }

  /** The state after an issued link, in terms of the one before. */
  ghost predicate HoldsLink(s: State, t: State, id: SignerId, token: TokenId) {
    && OnlySigner(s, t, id) && t.signers == s.signers && t.envelope == s.envelope && t.sessions == s.sessions && t.openings == s.openings
    && token in t.tokens && t.tokens[token].signer == id && !t.tokens[token].revoked && t.now < t.tokens[token].expiresAt
  }

  lemma IssuedWaits(s: State, id: SignerId, token: TokenId)
    requires Waiting(s, id) && token !in s.tokens && token in s.mailings && s.mailings[token] == MailChecked(id, false, s.envelope.expiresAt)
    ensures Waiting(IssueLink(s, token).0, id) && HoldsLink(s, IssueLink(s, token).0, id, token)
  {
    LinkIsIssued(s, id, token);
    IssueLinkUpholds(s, token);
    StillWaiting(s, IssueLink(s, token).0, id);
  }

  lemma InviteRuns(s: State, id: SignerId, token: TokenId)
    requires Waiting(s, id) && !s.signers[id].authMethod.Integration? && token !in s.tokens && token !in s.mailings
    ensures Waiting(Run(s, Inviting(id, token)), id) && HoldsLink(s, Run(s, Inviting(id, token)), id, token)
  {
    RunInvite(s, id, token);
    MailIsChecked(s, id, token);
    MailCheckedWaits(s, id, token);
    IssuedWaits(s.(mailings := s.mailings[token := MailChecked(id, false, s.envelope.expiresAt)]), id, token);
  }

  lemma LinkCheckedWaits(s: State, id: SignerId, token: TokenId, session: SessionId)
    requires Waiting(s, id) && session !in s.sessions && session !in s.openings
    requires token in s.tokens && s.tokens[token].signer == id && !s.tokens[token].revoked && s.now < s.tokens[token].expiresAt
    ensures Waiting(s.(openings := s.openings[session := OpeningOf(s, id)]), id)
  {
    LinkIsChecked(s, id, token, session);
    CheckLinkUpholds(s, token, session);
    StillWaiting(s, s.(openings := s.openings[session := OpeningOf(s, id)]), id);
  }

  lemma EnteredWaits(s: State, id: SignerId, session: SessionId)
    requires Waiting(s, id) && session in s.openings && s.openings[session] == OpeningOf(s, id)
    ensures Waiting(OpenSession(s, session).0, id)
  {
    Enter(s, id, session);
    OpenSessionUpholds(s, session);
    StillWaiting(s, OpenSession(s, session).0, id);
  }

  lemma EnterRuns(s: State, id: SignerId, token: TokenId, session: SessionId)
    requires Waiting(s, id) && session !in s.sessions && session !in s.openings
    requires token in s.tokens && s.tokens[token].signer == id && !s.tokens[token].revoked && s.now < s.tokens[token].expiresAt
    ensures var t := Run(s, Entering(token, session));
            && Waiting(t, id) && OnlySigner(s, t, id) && t.envelope == s.envelope && Seated(t, id, session)
            && t.signers[id] == s.signers[id].(status := t.signers[id].status)
  {
    RunEnter(s, token, session);
    LinkIsChecked(s, id, token, session);
    LinkCheckedWaits(s, id, token, session);
    var u := s.(openings := s.openings[session := OpeningOf(s, id)]);
    Enter(u, id, session);
    EnteredWaits(u, id, session);
  }

  lemma ReachSeat(s: State, id: SignerId, token: TokenId, session: SessionId) returns (t: State)
    requires Waiting(s, id) && !s.signers[id].authMethod.Integration? && token !in s.tokens && token !in s.mailings
    requires session !in s.sessions && session !in s.openings
    ensures t == Run(s, Inviting(id, token) + Entering(token, session))
    ensures Waiting(t, id) && OnlySigner(s, t, id) && t.envelope == s.envelope && Seated(t, id, session)
    ensures t.signers[id] == s.signers[id].(status := t.signers[id].status)
  {
    var a, b := Inviting(id, token), Entering(token, session);
    InviteRuns(s, id, token);
    EnterRuns(Run(s, a), id, token, session);
    RunConcat(s, a, b);
    t := Run(s, a + b);
    OnlySignerJoins(s, Run(s, a), t, id);
  }

  lemma OnlySignerJoins(s: State, m: State, t: State, id: SignerId)
    requires OnlySigner(s, m, id) && OnlySigner(m, t, id)
    ensures OnlySigner(s, t, id)
  {
  }

  lemma RequestRuns(s: State, id: SignerId, session: SessionId, challenge: ChallengeId)
    requires Waiting(s, id) && Seated(s, id, session) && RequiresChallenge(s.signers[id].authMethod) && challenge !in s.challenges
    ensures Run(s, [DoRequestOtp(session, challenge, CodeChannel(s.signers[id].authMethod), 0)])
            == Requested(s, id, session, challenge, s.signers[id].authMethod, 0)
  {
    RunCodes(s, session, challenge, CodeChannel(s.signers[id].authMethod));
    CodeIsSent(s, id, session, challenge);
  }

  lemma VerifyRuns(s: State, id: SignerId, session: SessionId, challenge: ChallengeId)
    requires id in s.signers && !Terminal(s.signers[id].status)
    requires Resolves(s, session) && s.sessions[session].signer == id && s.sessions[session].authenticatedAt.None?
    requires IsChosen(s, session, challenge) && s.now < s.challenges[challenge].expiresAt && s.challenges[challenge].via == s.signers[id].authMethod
    requires s.challenges[challenge].attempts < s.challenges[challenge].maxAttempts && s.challenges[challenge].code == 0
    ensures var t := Run(s, [DoVerifyOtp(session, challenge, 0)]);
            && OnlySigner(s, t, id) && t.envelope == s.envelope && Ready(t, id, session)
            && t.signers[id] == s.signers[id].(status := t.signers[id].status)
  {
    RunCodes(s, session, challenge, ByEmail);
    CodeIsAccepted(s, id, session, challenge);
    CodeMakesReady(s, id, session, challenge);
  }

  lemma ReachProof(s: State, id: SignerId, session: SessionId, challenge: ChallengeId) returns (actions: seq<Action>)
    requires Waiting(s, id) && Seated(s, id, session) && !s.signers[id].authMethod.Email? && !s.signers[id].authMethod.Integration?
    requires challenge !in s.challenges
    ensures |actions| == 2
    ensures var t := Run(s, actions);
            && Inv(t) && OnlySigner(s, t, id) && t.envelope == s.envelope && Ready(t, id, session)
            && t.signers[id] == s.signers[id].(status := t.signers[id].status)
  {
    WaitingFacts(s, id);
    var a, b := [DoRequestOtp(session, challenge, CodeChannel(s.signers[id].authMethod), 0)], [DoVerifyOtp(session, challenge, 0)];
    actions := a + b;
    RequestRuns(s, id, session, challenge);
    CodeIsFresh(s, id, session, challenge);
    VerifyRuns(Run(s, a), id, session, challenge);
    RunConcat(s, a, b);
    RunKeepsInv(s, actions);
  }

  /** One signature: the signer's row becomes SIGNED, no other row changes. */
  ghost predicate SignedOnly(s: State, t: State, id: SignerId) {
    && OnlySigner(s, t, id) && id in s.signers && t.signers == WithStatus(s.signers, id, Signed)
    && t.envelope == ProgressEnvelope(s.envelope, t.signers, s.now)
  }

  lemma ReachSigned(s: State, id: SignerId) returns (actions: seq<Action>)
    requires Waiting(s, id)
    ensures |actions| <= 7
    ensures SignedOnly(s, Run(s, actions), id)
  {
    if s.signers[id].authMethod.Integration? {
      var session := Fresh(s.sessions.Keys + s.openings.Keys);
      actions := [DoSignByIntegration(id, session)];
      IntegrationSigns(s, id, session);
    } else {
      var before, session := ReachReady(s, id);
      var t := Run(s, before);
      ReadyIsInTurn(s, t, id);
      actions := before + [DoSign(session, GOOD_INPUT)];
      RunConcat(s, before, [DoSign(session, GOOD_INPUT)]);
      ReadySigns(t, id, session);
      SignedAfterReady(s, t, Run(s, actions), id);
    }
  }

  lemma SignedAfterReady(s: State, t: State, u: State, id: SignerId)
    requires OnlySigner(s, t, id) && SignedOnly(t, u, id) && id in s.signers && t.envelope == s.envelope
    requires t.signers[id] == s.signers[id].(status := t.signers[id].status)
    ensures SignedOnly(s, u, id)
  {
    assert u.signers == WithStatus(s.signers, id, Signed);
  }

  lemma IntegrationSigns(s: State, id: SignerId, session: SessionId)
    requires Waiting(s, id) && s.signers[id].authMethod.Integration? && session !in s.sessions && session !in s.openings
    ensures SignedOnly(s, Run(s, [DoSignByIntegration(id, session)]), id)
  {
    WaitingFacts(s, id);
    RunSignatures(s, id, session);
  }

  lemma ReadyIsInTurn(s: State, t: State, id: SignerId)
    requires Waiting(s, id) && OnlySigner(s, t, id) && Inv(t) && id in t.signers && t.signers[id].status.Authenticated?
    requires t.signers[id] == s.signers[id].(status := t.signers[id].status)
    ensures IsSignersTurn(t.signers, t.signers[id].signingGroup) && id !in t.signatures
  {
    assert Open(t.signers[id]);
    forall x | x in t.signers && Open(t.signers[x]) ensures t.signers[id].signingGroup <= t.signers[x].signingGroup {
      assert Open(s.signers[x]);
    }
    TurnMeansReached(t.signers, t.signers[id].signingGroup);
  }

  lemma ReadySigns(s: State, id: SignerId, session: SessionId)
    requires Ready(s, id, session) && AcceptsActions(s.envelope) && !Overdue(s.envelope, s.now) && id !in s.signatures
    requires IsSignersTurn(s.signers, s.signers[id].signingGroup)
    ensures SignedOnly(s, Run(s, [DoSign(session, GOOD_INPUT)]), id)
  {
    RunSignatures(s, id, session);
    assert SignError(s, session, GOOD_INPUT).None?;
  }

  // ---------------------------------------------------------------- completion

  ghost function OpenSigners(signers: Signers): set<SignerId> {
    set id | id in signers && Open(signers[id])
  }

  /** Nobody waits for the resend cooldown any more. */
  ghost predicate Rested(s: State) {
    forall c | c in s.challenges && s.challenges[c].signer in s.signers && Open(s.signers[s.challenges[c].signer]) ::
      s.challenges[c].createdAt + s.config.otpCooldown <= s.now
  }

  ghost predicate AwaitsCalmly(s: State) {
    Inv(s) && AcceptsActions(s.envelope) && !Overdue(s.envelope, s.now) && Rested(s)
  }

  ghost predicate RequestedFinalization(s: State) {
    Signable(s.envelope.status) && s.envelope.finalizationRequestedAt.Some?
  }

  lemma ReachOneMore(s: State) returns (actions: seq<Action>)
    requires AwaitsCalmly(s)
    ensures |actions| <= 7
    ensures var t := Run(s, actions);
            && |OpenSigners(t.signers)| == |OpenSigners(s.signers)| - 1
            && (RequestedFinalization(t) || AwaitsCalmly(t))
  {
    NextGroupIsLeastOpen(s.signers);
    var id :| id in s.signers && Open(s.signers[id]) && s.signers[id].signingGroup == NextSigningGroup(s.signers).value;
    assert Waiting(s, id);
    actions := ReachSigned(s, id);
    RunKeepsInv(s, actions);
    OneFewer(s.signers, id);
    AfterOne(s, Run(s, actions), id);
  }

  lemma AfterOne(s: State, t: State, id: SignerId)
    requires AwaitsCalmly(s) && Inv(t) && SignedOnly(s, t, id)
    ensures RequestedFinalization(t) || AwaitsCalmly(t)
  {
    StillRested(s, t, id);
  }

  lemma {:induction false} ReachRequest(s: State) returns (actions: seq<Action>)
    requires AwaitsCalmly(s)
    ensures |actions| <= 7 * |OpenSigners(s.signers)|
    ensures RequestedFinalization(Run(s, actions))
    decreases |OpenSigners(s.signers)|
  {
    actions := ReachOneMore(s);
    var t := Run(s, actions);
    if !RequestedFinalization(t) {
      var more := ReachRequest(t);
      RunConcat(s, actions, more);
      actions := actions + more;
    }
  }

  lemma OneFewer(signers: Signers, id: SignerId)
    requires id in signers && Open(signers[id])
    ensures |OpenSigners(WithStatus(signers, id, Signed))| == |OpenSigners(signers)| - 1
  {
    assert OpenSigners(WithStatus(signers, id, Signed)) == OpenSigners(signers) - {id};
  }

  lemma StillRested(s: State, t: State, id: SignerId)
    requires Rested(s) && OnlySigner(s, t, id) && id in s.signers && t.signers == WithStatus(s.signers, id, Signed)
    ensures Rested(t)
  {
  }

  /** From every reachable envelope that awaits signatures and does not expire within the resend cooldown,
      at most 7n + 2 further steps complete it, n being the number of missing required signatures. */
  lemma Completable(s: State) returns (actions: seq<Action>)
    requires Reachable(s) && AcceptsActions(s.envelope)
    requires s.envelope.expiresAt.Some? ==> s.now + s.config.otpCooldown < s.envelope.expiresAt.value
    ensures |actions| <= 7 * |OpenSigners(s.signers)| + 2
    ensures Run(s, actions).envelope.status.Completed?
  {
    ReachableInv(s);
    var wait := [Tick(s.config.otpCooldown)];
    WaitCalms(s);
    var sign := ReachRequest(Run(s, wait));
    RunConcat(s, wait, sign);
    var more := Commit(Run(s, wait + sign));
    RunConcat(s, wait + sign, more);
    actions := wait + sign + more;
  }

  lemma WaitCalms(s: State)
    requires Inv(s) && AcceptsActions(s.envelope)
    requires s.envelope.expiresAt.Some? ==> s.now + s.config.otpCooldown < s.envelope.expiresAt.value
    ensures var t := Run(s, [Tick(s.config.otpCooldown)]); AwaitsCalmly(t) && t.signers == s.signers
  {
    RunKeepsInv(s, [Tick(s.config.otpCooldown)]);
    RunWait(s, s.config.otpCooldown);
    WaitRests(s);
  }

  lemma WaitRests(s: State)
    requires ChallengeTimes(s.challenges, s.now)
    ensures Rested(s.(now := s.now + s.config.otpCooldown))
  {
  }

  lemma Commit(s: State) returns (actions: seq<Action>)
    requires RequestedFinalization(s)
    ensures |actions| == 1 && Run(s, actions).envelope.status.Completed?
  {
    var finals := seq(|s.documents|, i => EvidenceKey(0));
    actions := [DoComplete(finals)];
    RunCommit(s, finals);
  }

  // ---------------------------------------------------------------- such envelopes exist

  /** A draft with one document and one required signer, sent. */
  function Sending(d: EnvelopeDocument): seq<Action> {
    [DoAddDocument(d)] + [DoAddSigner(0, None, true, Email, false, false)] + [DoActivate(true)]
  }

  function WithDocument(config: Config, now: Time, d: EnvelopeDocument): State {
    NewEnvelope(config, now, false).(documents := [d.(finalKey := None)], trail := [TrailEvent(EnvelopeUpdated, None)])
  }

  function Drafted(config: Config, now: Time, d: EnvelopeDocument): State {
    WithDocument(config, now, d)
      .(signers := map[0 := Signer(1, true, Email, false, false, Pending)],
        trail := [TrailEvent(EnvelopeUpdated, None), TrailEvent(EnvelopeUpdated, Some(0))])
  }

  lemma DocumentIsAdded(config: Config, now: Time, d: EnvelopeDocument)
    ensures Step(NewEnvelope(config, now, false), DoAddDocument(d)).0 == WithDocument(config, now, d)
  {
  }

  lemma SignerIsAdded(config: Config, now: Time, d: EnvelopeDocument)
    ensures Step(WithDocument(config, now, d), DoAddSigner(0, None, true, Email, false, false)).0 == Drafted(config, now, d)
  {
  }

  lemma DraftIsSent(config: Config, now: Time, d: EnvelopeDocument)
    ensures Step(Drafted(config, now, d), DoActivate(true)).0 == Sent(Drafted(config, now, d))
  {
    assert 0 in Drafted(config, now, d).signers;
  }

  lemma RunTo(s: State, actions: seq<Action>, a: Action, t: State, u: State)
    requires Run(s, actions) == t && Step(t, a).0 == u
    ensures Run(s, actions + [a]) == u
  {
    assert (actions + [a])[..|actions|] == actions;
  }

  lemma SendingSends(config: Config, now: Time, d: EnvelopeDocument)
    ensures var s := Run(NewEnvelope(config, now, false), Sending(d));
            && AcceptsActions(s.envelope) && s.envelope.expiresAt.None? && s.challenges == map[]
            && s.signers.Keys == {0} && Open(s.signers[0]) && s.signers[0].authMethod.Email?
  {
    var s0, draft := NewEnvelope(config, now, false), Drafted(config, now, d);
    var a, b, c := DoAddDocument(d), DoAddSigner(0, None, true, Email, false, false), DoActivate(true);
    DocumentIsAdded(config, now, d);
    SignerIsAdded(config, now, d);
    DraftIsSent(config, now, d);
    RunOne(s0, a);
    RunTo(s0, [a], b, WithDocument(config, now, d), draft);
    RunTo(s0, [a] + [b], c, draft, Sent(draft));
  }

  /** From a new draft to COMPLETED: the whole way exists, whatever the configuration. */
  lemma SomeRunCompletes(config: Config, now: Time, d: EnvelopeDocument) returns (actions: seq<Action>)
    requires ValidConfig(config)
    ensures Run(NewEnvelope(config, now, false), actions).envelope.status.Completed?
  {
    var s0 := NewEnvelope(config, now, false);
    SendingSends(config, now, d);
    var s := Run(s0, Sending(d));
    assert Reachable(s);
    var rest := Completable(s);
    RunConcat(s0, Sending(d), rest);
    actions := Sending(d) + rest;
  }
}
