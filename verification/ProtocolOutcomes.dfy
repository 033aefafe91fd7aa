/** What each transaction answers and writes, said of the rows alone: which condition gives which error, in which order,
    and what the database holds afterwards. The predicates here are definitions of their own, not those of the model. */
module ProtocolOutcomes {
  import opened Basics
  import opened AuthMethods
  import opened EnvelopeState
  import opened EnvelopeFields
  import opened SigningProtocol

  // ---------------------------------------------------------------- what the promises speak of

  /** Signatures are awaited: sent, not closed, and no finalization under way. */
  predicate Awaits(e: Envelope) {
    (e.status == Active || e.status == PartiallySigned) && e.finalizationRequestedAt == None
  }

  predicate Late(e: Envelope, now: Time) {
    match e.expiresAt
    case None => false
    case Some(deadline) => deadline <= now
  }

  predicate Through(status: SignerStatus) {
    status == Signed || status == SignerStatus.Declined || status == SignerStatus.Expired
  }

  predicate Owes(row: Signer) {
    row.required && row.status != Signed
  }

  /** Some required signature is missing, and none of an earlier group is. */
  ghost predicate InTurn(signers: Signers, id: SignerId) {
    && id in signers && (exists x :: x in signers && Owes(signers[x]))
    && forall x | x in signers && Owes(signers[x]) :: signers[id].signingGroup <= signers[x].signingGroup
  }

  /** Who has to be invited now. */
  ghost function Invitees(signers: Signers): set<SignerId> {
    set id | id in signers && signers[id].status == Pending && signers[id].authMethod != Integration && InTurn(signers, id)
  }

  ghost predicate NobodyOwes(signers: Signers) {
    signers != map[] && forall id | id in signers :: !Owes(signers[id])
  }

  /** A session cookie is good for something. */
  predicate LoggedIn(s: State, session: SessionId) {
    && session in s.sessions && !s.sessions[session].revoked && s.now < s.sessions[session].expiresAt
    && s.sessions[session].signer in s.signers
  }

  /** A code method needs a code: by e-mail either channel will do, by WhatsApp only that one. */
  predicate Adequate(m: AuthMethod, proof: Option<AuthMethod>) {
    && (m == EmailOtp ==> proof == Some(EmailOtp) || proof == Some(WhatsappOtp))
    && (m == WhatsappOtp ==> proof == Some(WhatsappOtp))
  }

  /** Whatever digest the signer was shown is the one stored. */
  ghost predicate ShownAsStored(documents: seq<EnvelopeDocument>, shown: map<DocumentRowId, Digest>) {
    forall i | 0 <= i < |documents| && documents[i].row in shown :: shown[documents[i].row] == documents[i].sha256
  }

  function Event(kind: EventType, id: SignerId): TrailEvent {
    TrailEvent(kind, Some(id))
  }

  lemma TurnIsInTurn(signers: Signers, id: SignerId)
    requires id in signers
    ensures IsSignersTurn(signers, signers[id].signingGroup) <==> InTurn(signers, id)
  {
    TurnMeansReached(signers, signers[id].signingGroup);
    assert forall x | x in signers :: Open(signers[x]) <==> Owes(signers[x]);
  }

  lemma InviteesAreInvited(signers: Signers)
    ensures SignersToInvite(signers, NextSigningGroup(signers)) == Invitees(signers)
  {
    forall id ensures id in SignersToInvite(signers, NextSigningGroup(signers)) <==> id in Invitees(signers) {
      InvitedMeansReached(signers, id);
      assert forall x | x in signers :: Open(signers[x]) <==> Owes(signers[x]);
    }
  }

  lemma ShownIsStored(documents: seq<EnvelopeDocument>, shown: map<DocumentRowId, Digest>)
    ensures ShownMatches(documents, shown) <==> ShownAsStored(documents, shown)
  {
    forall d | d in documents && d.row in shown && ShownAsStored(documents, shown) ensures shown[d.row] == d.sha256 {
      var i :| 0 <= i < |documents| && documents[i] == d;
    }
  }

  // ---------------------------------------------------------------- signing

  /** The answer to a signing request, check by check. */
  lemma SignAnswers(s: State, session: SessionId, input: SignInput)
    ensures var r := Sign(s, session, input).1;
            if !LoggedIn(s, session) then r == Rejected(Unauthenticated)
            else
              var row := s.sessions[session];
              var signer := s.signers[row.signer];
              if row.authenticatedAt == None then r == Rejected(AuthenticationRequired)
              else if !input.consentAccepted then r == Rejected(ConsentRequired)
              else if !input.consentCurrent then r == Rejected(ConsentVersionMismatch)
              else if !input.markValid then r == Rejected(Invalid)
              else if row.signer in s.signatures then
                r == if s.signatures[row.signer].session == session then Replayed else Rejected(AlreadySigned)
              else if !Awaits(s.envelope) then r == Rejected(NotSignable)
              else if Late(s.envelope, s.now) then r == Rejected(EnvelopeHasExpired)
              else if !InTurn(s.signers, row.signer) then r == Rejected(NotYourTurn)
              else if signer.status != Authenticated || !Adequate(signer.authMethod, row.authMethod) then
                r == Rejected(AuthenticationRequired)
              else if !ShownAsStored(s.documents, input.shown) then r == Rejected(HashMismatch)
              else r == Done
  {
    if LoggedIn(s, session) {
      TurnIsInTurn(s.signers, s.sessions[session].signer);
    }
    ShownIsStored(s.documents, input.shown);
  }

  /** All that has to hold under the envelope's lock for the signer of this session to sign what they were shown. */
  ghost predicate Eligible(s: State, session: SessionId, input: SignInput)
    requires LoggedIn(s, session)
  {
    var row := s.sessions[session];
    var signer := s.signers[row.signer];
    && Awaits(s.envelope) && !Late(s.envelope, s.now) && InTurn(s.signers, row.signer)
    && signer.status == Authenticated && Adequate(signer.authMethod, row.authMethod)
    && ShownAsStored(s.documents, input.shown)
  }

  lemma EligibleExactly(s: State, session: SessionId, input: SignInput)
    requires LoggedIn(s, session)
    ensures SignError(s, session, input) == None <==> Eligible(s, session, input)
  {
    TurnIsInTurn(s.signers, s.sessions[session].signer);
    ShownIsStored(s.documents, input.shown);
  }

  /** All that has to hold for a signing request to be granted. */
  ghost predicate MaySign(s: State, session: SessionId, input: SignInput) {
    && LoggedIn(s, session) && s.sessions[session].authenticatedAt != None
    && s.sessions[session].signer !in s.signatures
    && input.consentAccepted && input.consentCurrent && input.markValid
    && Eligible(s, session, input)
  }

  /** A signature is recorded if and only if all of this holds. */
  lemma SignsExactly(s: State, session: SessionId, input: SignInput)
    ensures Sign(s, session, input).1 == Done <==> MaySign(s, session, input)
    ensures Sign(s, session, input).1 != Done ==> Sign(s, session, input).0 == s
  {
    SignAnswers(s, session, input);
  }

  /** What follows for the envelope when a signer is through: finalization is asked for, or the next are invited. */
  ghost predicate Progressed(s: State, signers: Signers, first: Message, events: seq<TrailEvent>, t: State) {
    && t.signers == signers
    && t.envelope == (if NobodyOwes(signers) then s.envelope.(status := PartiallySigned, finalizationRequestedAt := Some(s.now))
                      else if exists id :: id in signers && signers[id].status == Signed then s.envelope.(status := PartiallySigned)
                      else s.envelope)
    && t.outbox == s.outbox + [first] + (if NobodyOwes(signers) then [Notice(FinalizationRequested, None)]
                                         else if Invitees(signers) == {} then []
                                         else [InviteRequested(Invitees(signers), false)])
    && t.trail == s.trail + events + (if NobodyOwes(signers) then [TrailEvent(FinalizationRequested, None)] else [])
  }

  lemma ProgressIs(e: Envelope, signers: Signers, now: Time)
    requires Awaits(e)
    ensures ProgressEnvelope(e, signers, now)
            == if NobodyOwes(signers) then e.(status := PartiallySigned, finalizationRequestedAt := Some(now))
               else if exists id :: id in signers && signers[id].status == Signed then e.(status := PartiallySigned)
               else e
    ensures ProgressMessages(signers)
            == if NobodyOwes(signers) then [Notice(FinalizationRequested, None)]
               else if Invitees(signers) == {} then [] else [InviteRequested(Invitees(signers), false)]
    ensures ProgressTrail(signers) == if NobodyOwes(signers) then [TrailEvent(FinalizationRequested, None)] else []
  {
    InviteesAreInvited(signers);
    assert AllRequiredSigned(signers) <==> NobodyOwes(signers);
  }

  lemma Assoc<T>(a: seq<T>, b: seq<T>, c: seq<T>)
    ensures a + (b + c) == a + b + c
  {
  }

  lemma RecordWrites(s: State, id: SignerId, g: Signature, before: seq<TrailEvent>)
    requires id in s.signers && Awaits(s.envelope)
    ensures var t := RecordSignature(s, id, g, before);
            && Progressed(s, s.signers[id := s.signers[id].(status := Signed)], Notice(SignatureCompleted, Some(id)),
                          before + [Event(SignatureCompleted, id)], t)
            && t == s.(envelope := t.envelope, signers := t.signers, outbox := t.outbox, trail := t.trail,
                       signatures := s.signatures[id := g])
  {
    var signers := s.signers[id := s.signers[id].(status := Signed)];
    ProgressIs(s.envelope, signers, s.now);
    Assoc(s.outbox, [Notice(SignatureCompleted, Some(id))], ProgressMessages(signers));
    Assoc(s.trail, before + [Event(SignatureCompleted, id)], ProgressTrail(signers));
  }

  lemma SignWrites(s: State, session: SessionId, input: SignInput)
    requires Sign(s, session, input).1 == Done
    ensures LoggedIn(s, session)
    ensures var t := Sign(s, session, input).0; var id := s.sessions[session].signer;
            var used := match s.sessions[session].authMethod case Some(m) => m case None => s.signers[id].authMethod;
            && Progressed(s, s.signers[id := s.signers[id].(status := Signed)], Notice(SignatureCompleted, Some(id)),
                          [Event(SignatureStarted, id), Event(ConsentAccepted, id), Event(SignatureCompleted, id)], t)
            && t == s.(envelope := t.envelope, signers := t.signers, outbox := t.outbox, trail := t.trail,
                       signatures := s.signatures[id := Signature(session, used, s.now)])
  {
    var id := s.sessions[session].signer;
    var used := match s.sessions[session].authMethod case Some(m) => m case None => s.signers[id].authMethod;
    var before := [Event(SignatureStarted, id), Event(ConsentAccepted, id)];
    RecordWrites(s, id, Signature(session, used, s.now), before);
    assert before + [Event(SignatureCompleted, id)]
           == [Event(SignatureStarted, id), Event(ConsentAccepted, id), Event(SignatureCompleted, id)];
  }

  lemma IntegrationAnswers(s: State, id: SignerId, session: SessionId)
    ensures var r := SignByIntegration(s, id, session).1;
            if id !in s.signers || session in s.sessions || session in s.openings then r == Rejected(NotFound)
            else if id in s.signatures then r == Replayed
            else
              var signer := s.signers[id];
              if signer.authMethod != Integration || !signer.representing then r == Rejected(Forbidden)
              else if !Awaits(s.envelope) then r == Rejected(NotSignable)
              else if Late(s.envelope, s.now) then r == Rejected(EnvelopeHasExpired)
              else if !InTurn(s.signers, id) then r == Rejected(NotYourTurn)
              else if Through(signer.status) then r == Rejected(AlreadySigned)
              else r == Done
    ensures SignByIntegration(s, id, session).1 != Done ==> SignByIntegration(s, id, session).0 == s
  {
    if id in s.signers {
      TurnIsInTurn(s.signers, id);
    }
  }

  lemma IntegrationWrites(s: State, id: SignerId, session: SessionId)
    requires SignByIntegration(s, id, session).1 == Done
    ensures id in s.signers
    ensures var t := SignByIntegration(s, id, session).0;
            && Progressed(s, s.signers[id := s.signers[id].(status := Signed)], Notice(SignatureCompleted, Some(id)),
                          [Event(SignatureByIntegration, id), Event(SignatureCompleted, id)], t)
            && t == s.(envelope := t.envelope, signers := t.signers, outbox := t.outbox, trail := t.trail,
                       sessions := s.sessions[session := Session(id, s.now, true, Some(s.now), Some(Integration))],
                       signatures := s.signatures[id := Signature(session, Integration, s.now)])
  {
    var u := s.(sessions := s.sessions[session := Session(id, s.now, true, Some(s.now), Some(Integration))]);
    RecordWrites(u, id, Signature(session, Integration, s.now), [Event(SignatureByIntegration, id)]);
    assert [Event(SignatureByIntegration, id)] + [Event(SignatureCompleted, id)]
           == [Event(SignatureByIntegration, id), Event(SignatureCompleted, id)];
  }

  // ---------------------------------------------------------------- declining

  lemma DeclineAnswers(s: State, session: SessionId)
    ensures var r := Decline(s, session).1;
            if !LoggedIn(s, session) then r == Rejected(Unauthenticated)
            else
              var row := s.sessions[session];
              var status := s.signers[row.signer].status;
              if row.authenticatedAt == None then r == Rejected(AuthenticationRequired)
              else if !Awaits(s.envelope) then r == Rejected(NotSignable)
              else if status == Pending || Through(status) then r == Rejected(CannotDecline)
              else r == Done
    ensures Decline(s, session).1 != Done ==> Decline(s, session).0 == s
  {
  }

  /** A required signer's refusal closes the envelope and revokes every link and session. */
  lemma RequiredDeclineWrites(s: State, session: SessionId)
    requires Decline(s, session).1 == Done && s.signers[s.sessions[session].signer].required
    ensures LoggedIn(s, session)
    ensures var t := Decline(s, session).0; var id := s.sessions[session].signer;
            && t == s.(envelope := s.envelope.(status := EnvelopeStatus.Declined),
                       signers := s.signers[id := s.signers[id].(status := SignerStatus.Declined)],
                       tokens := t.tokens, sessions := t.sessions,
                       outbox := s.outbox + [Notice(SignerDeclined, Some(id))],
                       trail := s.trail + [Event(SignerDeclined, id), TrailEvent(EnvelopeDeclined, None)])
            && AllRevoked(s, t)
  {
  }

  /** An optional signer's refusal lets the envelope go on. */
  lemma OptionalDeclineWrites(s: State, session: SessionId)
    requires Decline(s, session).1 == Done && !s.signers[s.sessions[session].signer].required
    ensures LoggedIn(s, session)
    ensures var t := Decline(s, session).0; var id := s.sessions[session].signer;
            && Progressed(s, s.signers[id := s.signers[id].(status := SignerStatus.Declined)], Notice(SignerDeclined, Some(id)),
                          [Event(SignerDeclined, id)], t)
            && t == s.(envelope := t.envelope, signers := t.signers, outbox := t.outbox, trail := t.trail)
  {
    var id := s.sessions[session].signer;
    var signers := s.signers[id := s.signers[id].(status := SignerStatus.Declined)];
    ProgressIs(s.envelope, signers, s.now);
    Assoc(s.outbox, [Notice(SignerDeclined, Some(id))], ProgressMessages(signers));
    Assoc(s.trail, [Event(SignerDeclined, id)], ProgressTrail(signers));
  }

  /** The status becomes DECLINED exactly if the signer is required. */
  lemma DeclineClosesExactly(s: State, session: SessionId)
    requires Decline(s, session).1 == Done
    ensures LoggedIn(s, session)
    ensures Decline(s, session).0.envelope.status == EnvelopeStatus.Declined <==> s.signers[s.sessions[session].signer].required
  {
    if s.signers[s.sessions[session].signer].required {
      RequiredDeclineWrites(s, session);
    } else {
      OptionalDeclineWrites(s, session);
    }
  }

  ghost predicate AllRevoked(s: State, t: State) {
    && t.tokens.Keys == s.tokens.Keys && t.sessions.Keys == s.sessions.Keys
    && (forall k | k in s.tokens :: t.tokens[k] == Token(s.tokens[k].signer, s.tokens[k].expiresAt, true))
    && forall i | i in s.sessions :: t.sessions[i] == s.sessions[i].(revoked := true)
  }

  // ---------------------------------------------------------------- codes

  /** The query's row: of the session's and its signer's challenges that are neither consumed nor invalidated, a latest. */
  ghost predicate Latest(s: State, session: SessionId, chosen: ChallengeId) {
    && session in s.sessions && chosen in s.challenges && Usable(s, session, chosen)
    && forall c | c in s.challenges && Usable(s, session, c) :: s.challenges[c].createdAt <= s.challenges[chosen].createdAt
  }

  predicate Usable(s: State, session: SessionId, c: ChallengeId)
    requires session in s.sessions && c in s.challenges
  {
    && s.challenges[c].session == session && s.challenges[c].signer == s.sessions[session].signer
    && s.challenges[c].consumedAt == None && !s.challenges[c].invalidated
  }

  lemma ChosenIsLatest(s: State, session: SessionId, chosen: ChallengeId)
    ensures IsChosen(s, session, chosen) <==> Latest(s, session, chosen)
  {
  }

  lemma VerifyAnswers(s: State, session: SessionId, chosen: ChallengeId, code: Code)
    ensures var r := VerifyOtp(s, session, chosen, code).1;
            if !LoggedIn(s, session) then r == Rejected(Unauthenticated)
            else if s.sessions[session].authenticatedAt != None then r == Replayed
            else if !Latest(s, session, chosen) then r == Rejected(NoChallenge)
            else
              var c := s.challenges[chosen];
              if c.expiresAt <= s.now then r == Rejected(OtpExpired)
              else if c.maxAttempts <= c.attempts then r == Rejected(OtpLocked)
              else if code != c.code then r == Rejected(if c.attempts + 1 < c.maxAttempts then OtpInvalid else OtpLocked)
              else r == Done
  {
    ChosenIsLatest(s, session, chosen);
  }

  /** The session and code are good enough to be looked at: a latest live challenge, in time, with attempts left. */
  ghost predicate Answerable(s: State, session: SessionId, chosen: ChallengeId) {
    && LoggedIn(s, session) && s.sessions[session].authenticatedAt == None && Latest(s, session, chosen)
    && s.now < s.challenges[chosen].expiresAt && s.challenges[chosen].attempts < s.challenges[chosen].maxAttempts
  }

  /** A session becomes authenticated by a code if and only if the code is that of a latest live challenge of the session
      and its signer, in time and with attempts left. */
  lemma RightCodeAuthenticates(s: State, session: SessionId, chosen: ChallengeId, code: Code)
    requires session in s.sessions && s.sessions[session].authenticatedAt == None
    ensures session in VerifyOtp(s, session, chosen, code).0.sessions
    ensures VerifyOtp(s, session, chosen, code).0.sessions[session].authenticatedAt != None
            <==> Answerable(s, session, chosen) && code == s.challenges[chosen].code
    ensures VerifyOtp(s, session, chosen, code).1 == Done <==> Answerable(s, session, chosen) && code == s.challenges[chosen].code
  {
    VerifyAnswers(s, session, chosen, code);
    if !Answerable(s, session, chosen) {
      UnanswerableChanges(s, session, chosen, code);
    } else if code == s.challenges[chosen].code {
      RightCodeWrites(s, session, chosen);
    } else {
      WrongCodeCounts(s, session, chosen, code);
    }
  }

  lemma RightCodeWrites(s: State, session: SessionId, chosen: ChallengeId)
    requires Answerable(s, session, chosen)
    ensures var id := s.sessions[session].signer; var c := s.challenges[chosen];
            VerifyOtp(s, session, chosen, c.code)
            == (s.(sessions := s.sessions[session := s.sessions[session].(authenticatedAt := Some(s.now), authMethod := Some(c.via))],
                   challenges := s.challenges[chosen := c.(consumedAt := Some(s.now))],
                   signers := if s.signers[id].status == Authenticated || Through(s.signers[id].status) then s.signers
                              else s.signers[id := s.signers[id].(status := Authenticated)],
                   outbox := s.outbox + [Notice(SignerAuthenticated, Some(id))],
                   trail := s.trail + [Event(OtpValidated, id), Event(SignerAuthenticated, id)]), Done)
  {
    ChosenIsLatest(s, session, chosen);
  }

  /** Any other code counts one attempt, invalidates exactly with the last one, and changes nothing else but the trail. */
  lemma WrongCodeCounts(s: State, session: SessionId, chosen: ChallengeId, code: Code)
    requires Answerable(s, session, chosen) && code != s.challenges[chosen].code
    ensures var c := s.challenges[chosen];
            VerifyOtp(s, session, chosen, code).0
            == s.(challenges := s.challenges[chosen := c.(attempts := c.attempts + 1, invalidated := c.attempts + 1 == c.maxAttempts)],
                  trail := s.trail + [Event(OtpFailed, c.signer)])
  {
    ChosenIsLatest(s, session, chosen);
  }

  /** A challenge that is too late or has no attempts left is invalidated; every other refusal changes nothing. */
  lemma UnanswerableChanges(s: State, session: SessionId, chosen: ChallengeId, code: Code)
    requires !Answerable(s, session, chosen)
    ensures VerifyOtp(s, session, chosen, code).0
            == if LoggedIn(s, session) && s.sessions[session].authenticatedAt == None && Latest(s, session, chosen)
               then s.(challenges := s.challenges[chosen := s.challenges[chosen].(invalidated := true)])
               else s
  {
    ChosenIsLatest(s, session, chosen);
  }

  /** Who may ask for a code, and by which channel. */
  predicate ChannelAllowed(signer: Signer, whatsapp: bool, channel: OtpChannel) {
    match channel
    case ByEmail => signer.authMethod == EmailOtp
    case ByWhatsapp => (signer.authMethod == EmailOtp || signer.authMethod == WhatsappOtp) && whatsapp && signer.phone
  }

  lemma RequestAnswers(s: State, session: SessionId, challenge: ChallengeId, channel: OtpChannel, code: Code)
    ensures var r := RequestOtp(s, session, challenge, channel, code).1;
            if !LoggedIn(s, session) || challenge in s.challenges then r == Rejected(Unauthenticated)
            else
              var row := s.sessions[session];
              var signer := s.signers[row.signer];
              if signer.authMethod != EmailOtp && signer.authMethod != WhatsappOtp then r == Rejected(OtpNotRequired)
              else if row.authenticatedAt != None then r == Rejected(AlreadyAuthenticated)
              else if !ChannelAllowed(signer, s.config.whatsapp, channel) then r == Rejected(ChannelUnavailable)
              else if exists c :: c in s.challenges && s.challenges[c].signer == row.signer
                                  && s.now < s.challenges[c].createdAt + s.config.otpCooldown then r == Rejected(Cooldown)
              else r == Done
    ensures RequestOtp(s, session, challenge, channel, code).1 != Done ==> RequestOtp(s, session, challenge, channel, code).0 == s
  {
  }

  /** A new code replaces every usable one of the signer, in whichever session. */
  lemma RequestWrites(s: State, session: SessionId, challenge: ChallengeId, channel: OtpChannel, code: Code)
    requires RequestOtp(s, session, challenge, channel, code).1 == Done
    ensures LoggedIn(s, session)
    ensures var t := RequestOtp(s, session, challenge, channel, code).0; var id := s.sessions[session].signer;
            var via := match channel case ByEmail => EmailOtp case ByWhatsapp => WhatsappOtp;
            && t == s.(challenges := t.challenges, trail := s.trail + [Event(OtpRequested, id)])
            && t.challenges.Keys == s.challenges.Keys + {challenge}
            && t.challenges[challenge] == Challenge(id, session, via, code, 0, s.config.otpMaxAttempts, s.now, s.now + s.config.otpTtl, None, false)
            && forall c | c in s.challenges ::
                 t.challenges[c] == if s.challenges[c].signer == id && s.challenges[c].consumedAt == None
                                    then s.challenges[c].(invalidated := true) else s.challenges[c]
  {
  }

  // ---------------------------------------------------------------- links, sessions, views

  lemma CheckInviteAnswers(s: State, id: SignerId, token: TokenId, reminder: bool)
    ensures var r := CheckInvite(s, id, token, reminder);
            if !(exists m :: m in s.outbox && m.InviteRequested? && id in m.signers) || id !in s.signers
               || token in s.tokens || token in s.mailings
            then r == (s, Rejected(NotFound))
            else if !Awaits(s.envelope) || Through(s.signers[id].status) then r == (s, Rejected(Skipped))
            else r == (s.(mailings := s.mailings[token := MailChecked(id, reminder, s.envelope.expiresAt)]), Done)
  {
  }

  /** The link lasts its own time from now, but no longer than the deadline that the check read. */
  lemma IssueLinkAnswers(s: State, token: TokenId)
    ensures var r := IssueLink(s, token);
            if token !in s.mailings || !s.mailings[token].MailChecked? || token in s.tokens then r == (s, Rejected(NotFound))
            else
              && r.1 == Done
              && token in r.0.tokens
              && var mail := s.mailings[token]; var until := r.0.tokens[token].expiresAt;
              && r.0 == s.(tokens := s.tokens[token := Token(mail.signer, until, false)],
                           mailings := s.mailings[token := MailPrepared(mail.signer, mail.reminder)])
              && until <= s.now + s.config.linkTtl && (mail.deadline.Some? ==> until <= mail.deadline.value)
              && (until == s.now + s.config.linkTtl || mail.deadline == Some(until))
  {
  }

  lemma InviteSentAnswers(s: State, token: TokenId)
    ensures var r := InviteSent(s, token);
            if token !in s.mailings || !s.mailings[token].MailPrepared? then r == (s, Rejected(NotFound))
            else
              var mail := s.mailings[token];
              var id := mail.signer;
              r == if mail.reminder
                   then (s.(mailings := s.mailings - {token}, reminded := s.reminded[id := s.now],
                            trail := s.trail + [Event(ReminderSent, id)]), Done)
                   else (s.(mailings := s.mailings - {token},
                            signers := if id in s.signers && s.signers[id].status == Pending
                                       then s.signers[id := s.signers[id].(status := Invited)] else s.signers,
                            trail := s.trail + [Event(InvitationSent, id)]), Done)
  {
  }

  lemma InviteFailedAnswers(s: State, token: TokenId)
    ensures var r := InviteFailed(s, token);
            if token !in s.mailings || !s.mailings[token].MailPrepared? || token !in s.tokens then r == (s, Rejected(NotFound))
            else r == (s.(mailings := s.mailings - {token},
                          tokens := s.tokens[token := Token(s.tokens[token].signer, s.tokens[token].expiresAt, true)]), Done)
  {
  }

  /** Method EMAIL is authenticated by the link as long as the envelope is out for signature, finalizing or not. */
  lemma CheckLinkAnswers(s: State, token: TokenId, session: SessionId)
    ensures var r := CheckLink(s, token, session); var status := s.envelope.status;
            if token !in s.tokens || s.tokens[token].revoked || s.tokens[token].expiresAt <= s.now
               || s.tokens[token].signer !in s.signers || session in s.sessions || session in s.openings
            then r == (s, Rejected(LinkInvalid))
            else if (status == Active || status == PartiallySigned) && Late(s.envelope, s.now) then
              r.1 == Rejected(EnvelopeHasExpired)
              && (s.envelope.finalizationRequestedAt != None ==> r.0 == s)
              && (s.envelope.finalizationRequestedAt == None ==> ExpiredBy(s, r.0))
            else if status == Draft || status == Cancelled || status == EnvelopeStatus.Expired then r == (s, Rejected(NotAvailable))
            else
              var id := s.tokens[token].signer;
              r == (s.(openings := s.openings[session :=
                         Opening(id, s.now, s.signers[id].authMethod == Email && (status == Active || status == PartiallySigned))]), Done)
  {
    if Awaits(s.envelope) && Late(s.envelope, s.now) {
      ExpireAnswers(s);
    }
  }

  lemma OpenSessionAnswers(s: State, session: SessionId)
    ensures var r := OpenSession(s, session);
            if session !in s.openings then r == (s, Rejected(LinkInvalid))
            else
              var o := s.openings[session];
              var blank := Session(o.signer, o.checkedAt + s.config.sessionTtl, false, None, None);
              r == if !o.automatic
                   then (s.(openings := s.openings - {session}, sessions := s.sessions[session := blank],
                            trail := s.trail + [Event(InvitationOpened, o.signer)]), Done)
                   else (s.(openings := s.openings - {session},
                            sessions := s.sessions[session := blank.(authenticatedAt := Some(o.checkedAt), authMethod := Some(Email))],
                            signers := if o.signer !in s.signers || s.signers[o.signer].status == Authenticated
                                          || Through(s.signers[o.signer].status)
                                       then s.signers else s.signers[o.signer := s.signers[o.signer].(status := Authenticated)],
                            outbox := s.outbox + [Notice(SignerAuthenticated, Some(o.signer))],
                            trail := s.trail + [Event(InvitationOpened, o.signer), Event(SignerAuthenticated, o.signer)]), Done)
  {
    if session in s.openings {
      var o := s.openings[session];
      if o.automatic {
        assert s.trail + [Event(InvitationOpened, o.signer)] + [Event(SignerAuthenticated, o.signer)]
               == s.trail + [Event(InvitationOpened, o.signer), Event(SignerAuthenticated, o.signer)];
      } else {
        assert s.outbox + [] == s.outbox;
        assert s.trail + [Event(InvitationOpened, o.signer)] + [] == s.trail + [Event(InvitationOpened, o.signer)];
      }
    }
  }

  lemma EndSessionAnswers(s: State, session: SessionId)
    ensures EndSession(s, session) == if !LoggedIn(s, session) then (s, Rejected(Unauthenticated))
                                      else (s.(sessions := s.sessions[session := s.sessions[session].(revoked := true)]), Done)
  {
  }

  lemma ViewAnswers(s: State, session: SessionId, seen: bool)
    ensures var r := ViewDocument(s, session, seen);
            if !LoggedIn(s, session) then r == (s, Rejected(Unauthenticated))
            else if s.sessions[session].authenticatedAt == None then r == (s, Rejected(AuthenticationRequired))
            else if seen || s.envelope.status == Completed then r == (s, Replayed)
            else
              var id := s.sessions[session].signer;
              var status := s.signers[id].status;
              r == (s.(signers := if status == Pending || status == Invited then s.signers[id := s.signers[id].(status := Viewed)] else s.signers,
                       outbox := s.outbox + [Notice(DocumentViewed, Some(id))],
                       trail := s.trail + [Event(DocumentViewed, id)]), Done)
  {
  }

  // ---------------------------------------------------------------- closing and reminding

  /** Open signers expire, access is revoked, the sender is told. */
  ghost predicate ExpiredBy(s: State, t: State) {
    && t == s.(envelope := s.envelope.(status := EnvelopeStatus.Expired), signers := t.signers, tokens := t.tokens, sessions := t.sessions,
               outbox := s.outbox + [Notice(EnvelopeExpired, None)], trail := s.trail + [TrailEvent(EnvelopeExpired, None)])
    && OpenSignersExpire(s.signers, t.signers) && AllRevoked(s, t)
  }

  ghost predicate OpenSignersExpire(a: Signers, b: Signers) {
    a.Keys == b.Keys && forall id | id in a :: b[id] == if Through(a[id].status) then a[id] else a[id].(status := SignerStatus.Expired)
  }

  lemma ExpireAnswers(s: State)
    ensures Expire(s).1 == Done <==> Awaits(s.envelope) && Late(s.envelope, s.now)
    ensures if Expire(s).1 == Done then ExpiredBy(s, Expire(s).0) else Expire(s) == (s, Rejected(NotDue))
  {
  }

  lemma CancelAnswers(s: State)
    ensures var r := Cancel(s); var e := s.envelope;
            if e.discarded then r == (s, Rejected(NotFound))
            else if e.status == Cancelled then r == (s, Replayed)
            else if e.status != Draft && e.status != Active && e.status != PartiallySigned then r == (s, Rejected(InvalidTransition))
            else if e.finalizationRequestedAt != None then r == (s, Rejected(Finalizing))
            else
              && r.1 == Done && AllRevoked(s, r.0)
              && r.0 == s.(envelope := e.(status := Cancelled), tokens := r.0.tokens, sessions := r.0.sessions,
                           outbox := if e.status == Draft then s.outbox else s.outbox + [Notice(EnvelopeCancelled, None)],
                           trail := s.trail + [TrailEvent(EnvelopeCancelled, None)])
  {
    assert s.outbox + [] == s.outbox;
  }

  /** Contacted, not through, and last reminded more than an hour ago, if at all. */
  predicate Due(s: State, id: SignerId) {
    && id in s.signers && s.signers[id].status != Pending && !Through(s.signers[id].status)
    && (id in s.reminded ==> s.now > s.reminded[id] + 3_600_000)
  }

  lemma RemindAnswers(s: State, targets: set<SignerId>)
    ensures var r := Remind(s, targets);
            var due := set id | id in targets && Due(s, id);
            if s.envelope.discarded then r == (s, Rejected(NotFound))
            else if !Awaits(s.envelope) then r == (s, Rejected(NotActive))
            else if due == {} then r == (s, Rejected(NothingToRemind))
            else r == (s.(outbox := s.outbox + [InviteRequested(due, true)]), Done)
  {
    assert DueForReminder(s, targets) == set id | id in targets && Due(s, id);
  }

  /** Methods that a signer of an active envelope can have. */
  predicate Deliverable(m: AuthMethod, whatsapp: bool) {
    m == Email || m == EmailOtp || m == Integration || (m == WhatsappOtp && whatsapp)
  }

  lemma ActivateAnswers(s: State, quota: bool)
    ensures var r := Activate(s, quota); var e := s.envelope;
            if e.discarded then r == (s, Rejected(NotFound))
            else if e.status == Active then r == (s, Replayed)
            else if e.status != Draft then r == (s, Rejected(InvalidTransition))
            else if Late(e, s.now) then r == (s, Rejected(Invalid))
            else if |s.documents| == 0 then r == (s, Rejected(WithoutDocuments))
            else if s.signers == map[] then r == (s, Rejected(WithoutSigners))
            else if !(exists id :: id in s.signers && s.signers[id].required) then r == (s, Rejected(WithoutRequiredSigner))
            else if exists id :: id in s.signers && !Deliverable(s.signers[id].authMethod, s.config.whatsapp) then
              r == (s, Rejected(MethodUnavailable))
            else if !quota then r == (s, Rejected(PlanLimit))
            else r == (s.(envelope := e.(status := Active),
                          outbox := s.outbox + [InviteRequested(Invitees(s.signers), false), Notice(EnvelopeActivated, None)],
                          trail := s.trail + [TrailEvent(EnvelopeActivated, None)]), Done)
  {
    InviteesAreInvited(s.signers);
  }

  // ---------------------------------------------------------------- the commit of finalization

  lemma CompleteAnswers(s: State, finals: seq<StorageKey>)
    ensures var r := Complete(s, finals); var status := s.envelope.status;
            if status == Completed then r == (s, Replayed)
            else if (status != Active && status != PartiallySigned) || s.envelope.finalizationRequestedAt == None then
              r == (s, Rejected(NotActive))
            else if |finals| != |s.documents| then r == (s, Rejected(NotFound))
            else
              && r.1 == Done && OpenSignersExpire(s.signers, r.0.signers)
              && r.0 == s.(envelope := s.envelope.(status := Completed), signers := r.0.signers, documents := r.0.documents,
                           outbox := s.outbox + [Notice(EnvelopeCompleted, None)], trail := s.trail + [TrailEvent(EnvelopeCompleted, None)])
              && |r.0.documents| == |s.documents|
              && forall i | 0 <= i < |finals| :: r.0.documents[i] == s.documents[i].(finalKey := Some(finals[i]))
  {
  }

  // ---------------------------------------------------------------- drafts

  predicate IsDraft(e: Envelope) {
    !e.discarded && e.status == Draft
  }

  function WhyNotDraft(e: Envelope): Outcome {
    Rejected(if e.discarded then NotFound else NotEditable)
  }

  lemma AddDocumentAnswers(s: State, d: EnvelopeDocument)
    ensures var r := AddDocument(s, d);
            if !IsDraft(s.envelope) then r == (s, WhyNotDraft(s.envelope))
            else if |s.documents| >= 20 then r == (s, Rejected(TooMany))
            else if exists i :: 0 <= i < |s.documents| && (s.documents[i].document == d.document || s.documents[i].row == d.row) then
              r == (s, Rejected(Duplicate))
            else r == (s.(documents := s.documents + [EnvelopeDocument(d.row, d.document, d.sha256, d.pageCount, None)],
                          trail := s.trail + [TrailEvent(EnvelopeUpdated, None)]), Done)
  {
    if i :| 0 <= i < |s.documents| && (s.documents[i].document == d.document || s.documents[i].row == d.row) {
      assert s.documents[i] in s.documents;
    }
  }

  lemma {:induction false} KeptInOrder(fields: seq<Field>, keep: Field -> bool)
    ensures multiset(Kept(fields, keep)) <= multiset(fields)
    ensures forall f :: multiset(Kept(fields, keep))[f] == if keep(f) then multiset(fields)[f] else 0
  {
    if fields != [] {
      var front, last := fields[..|fields| - 1], fields[|fields| - 1];
      assert fields == front + [last];
      KeptInOrder(front, keep);
    }
  }

  /** The document and every field placed on it go, every other document and field stays. */
  lemma RemoveDocumentAnswers(s: State, i: nat)
    ensures var r := RemoveDocument(s, i);
            if !IsDraft(s.envelope) then r == (s, WhyNotDraft(s.envelope))
            else if i >= |s.documents| then r == (s, Rejected(NotFound))
            else
              && r.1 == Done
              && r.0 == s.(documents := s.documents[..i] + s.documents[i + 1..], fields := r.0.fields,
                           trail := s.trail + [TrailEvent(EnvelopeUpdated, None)])
              && forall f :: multiset(r.0.fields)[f] == if f.document == s.documents[i].row then 0 else multiset(s.fields)[f]
  {
    if i < |s.documents| {
      var row := s.documents[i].row;
      KeptInOrder(s.fields, (f: Field) => f.document != row);
    }
  }

  /** The signer and their fields go, everybody else's stay. */
  lemma RemoveSignerAnswers(s: State, id: SignerId)
    ensures var r := RemoveSigner(s, id);
            if !IsDraft(s.envelope) then r == (s, WhyNotDraft(s.envelope))
            else if id !in s.signers then r == (s, Rejected(NotFound))
            else
              && r.1 == Done
              && r.0 == s.(signers := s.signers - {id}, fields := r.0.fields, trail := s.trail + [Event(EnvelopeUpdated, id)])
              && forall f :: multiset(r.0.fields)[f] == if f.signer == id then 0 else multiset(s.fields)[f]
  {
    KeptInOrder(s.fields, (f: Field) => f.signer != id);
  }

  /** A new signer's group: 1 without a sequence, the group asked for, or the one after the last. */
  ghost predicate GroupIs(s: State, asked: Option<nat>, group: int) {
    if !s.envelope.sequential then group == 1
    else if asked.Some? && asked.value > 0 then group == asked.value
    else if s.signers == map[] then group == 1
    else
      && (exists id :: id in s.signers && group == s.signers[id].signingGroup + 1)
      && forall id | id in s.signers :: s.signers[id].signingGroup < group
  }

  lemma NextGroupIs(s: State, asked: Option<nat>)
    ensures GroupIs(s, asked, GroupFor(s, asked))
  {
    var negated := set id | id in s.signers :: -s.signers[id].signingGroup;
    if s.signers != map[] {
      var id :| id in s.signers;
      assert -s.signers[id].signingGroup in negated;
      assert forall x | x in s.signers :: -s.signers[x].signingGroup in negated;
    }
  }

  lemma AddSignerAnswers(s: State, id: SignerId, asked: Option<nat>, required: bool, m: AuthMethod, phone: bool, byIntegration: bool)
    ensures var r := AddSigner(s, id, asked, required, m, phone, byIntegration);
            if !IsDraft(s.envelope) then r == (s, WhyNotDraft(s.envelope))
            else if !byIntegration && m != Email && m != EmailOtp && !(m == WhatsappOtp && s.config.whatsapp) then
              r == (s, Rejected(MethodUnavailable))
            else if |s.signers| >= 50 then r == (s, Rejected(TooMany))
            else if !byIntegration && m == WhatsappOtp && !phone then r == (s, Rejected(Invalid))
            else if id in s.signers then r == (s, Rejected(Duplicate))
            else r.1 == Done
  {
  }

  lemma AddSignerWrites(s: State, id: SignerId, asked: Option<nat>, required: bool, m: AuthMethod, phone: bool, byIntegration: bool)
    requires AddSigner(s, id, asked, required, m, phone, byIntegration).1 == Done
    ensures var t := AddSigner(s, id, asked, required, m, phone, byIntegration).0;
            && id in t.signers
            && var row := t.signers[id];
            && t == s.(signers := s.signers[id := row], trail := s.trail + [Event(EnvelopeUpdated, id)])
            && row == Signer(row.signingGroup, required, if byIntegration then Integration else m, phone, byIntegration, Pending)
            && GroupIs(s, asked, row.signingGroup)
  {
    NextGroupIs(s, asked);
  }

  lemma UpdateAnswers(s: State, sequential: Option<bool>, deadline: Option<Option<Time>>)
    ensures var r := UpdateDraft(s, sequential, deadline);
            if !IsDraft(s.envelope) then r == (s, WhyNotDraft(s.envelope))
            else if deadline.Some? && deadline.value.Some? && deadline.value.value <= s.now + 60_000 then r == (s, Rejected(Invalid))
            else
              && r.1 == Done
              && r.0 == s.(envelope := r.0.envelope, signers := r.0.signers, trail := s.trail + [TrailEvent(EnvelopeUpdated, None)])
              && r.0.envelope == s.envelope.(sequential := r.0.envelope.sequential, expiresAt := r.0.envelope.expiresAt)
              && (sequential.None? ==> r.0.envelope.sequential == s.envelope.sequential)
              && (sequential.Some? ==> r.0.envelope.sequential == sequential.value)
              && (deadline.None? ==> r.0.envelope.expiresAt == s.envelope.expiresAt)
              && (deadline.Some? ==> r.0.envelope.expiresAt == deadline.value)
              && (sequential != Some(false) ==> r.0.signers == s.signers)
              && (sequential == Some(false) ==>
                    r.0.signers.Keys == s.signers.Keys && forall id | id in s.signers :: r.0.signers[id] == s.signers[id].(signingGroup := 1))
  {
  }

  /** An existing page of a document of the envelope, a signer of the envelope, and a box on the page. */
  ghost predicate FieldIsPlaced(s: State, f: Field) {
    && (exists i :: 0 <= i < |s.documents| && s.documents[i].row == f.document && f.page <= s.documents[i].pageCount)
    && f.signer in s.signers
    && f.box.x + f.box.width <= 1.000001 && f.box.y + f.box.height <= 1.000001
  }

  ghost predicate RowsApart(documents: seq<EnvelopeDocument>) {
    forall i, j | 0 <= i < j < |documents| :: documents[i].row != documents[j].row
  }

  lemma {:induction false} PageCountsAre(documents: seq<EnvelopeDocument>)
    requires RowsApart(documents)
    ensures forall i | 0 <= i < |documents| ::
              documents[i].row in PageCounts(documents) && PageCounts(documents)[documents[i].row] == documents[i].pageCount
    ensures forall r | r in PageCounts(documents) :: exists i :: 0 <= i < |documents| && documents[i].row == r
  {
    if documents != [] {
      var front := documents[..|documents| - 1];
      PageCountsAre(front);
      forall r | r in PageCounts(documents) ensures exists i :: 0 <= i < |documents| && documents[i].row == r {
        if r in PageCounts(front) {
          var i :| 0 <= i < |front| && front[i].row == r;
          assert documents[i].row == r;
        } else {
          assert documents[|documents| - 1].row == r;
        }
      }
    }
  }

  lemma PlacedIsAccepted(s: State, f: Field)
    requires RowsApart(s.documents)
    ensures FieldAccepted(f, PageCounts(s.documents), s.signers.Keys) <==> FieldIsPlaced(s, f)
  {
    PageCountsAre(s.documents);
  }

  lemma ReplaceFieldsAnswers(s: State, fields: seq<Field>)
    requires RowsApart(s.documents)
    ensures var r := ReplaceFields(s, fields);
            if !IsDraft(s.envelope) then r == (s, WhyNotDraft(s.envelope))
            else if exists i :: 0 <= i < |fields| && !FieldIsPlaced(s, fields[i]) then r == (s, Rejected(Invalid))
            else r == (s.(fields := fields, trail := s.trail + [TrailEvent(EnvelopeUpdated, None)]), Done)
  {
    forall f ensures FieldAccepted(f, PageCounts(s.documents), s.signers.Keys) <==> FieldIsPlaced(s, f) {
      PlacedIsAccepted(s, f);
    }
    if i :| 0 <= i < |fields| && !FieldIsPlaced(s, fields[i]) {
      assert fields[i] in fields;
    }
  }

  lemma DiscardAnswers(s: State)
    ensures DiscardDraft(s) == if !IsDraft(s.envelope) then (s, WhyNotDraft(s.envelope))
                               else (s.(envelope := s.envelope.(discarded := true),
                                        trail := s.trail + [TrailEvent(EnvelopeDiscarded, None)]), Done)
  {
  }
}
