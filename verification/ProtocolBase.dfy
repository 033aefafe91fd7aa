/** What every reachable state of the signing protocol satisfies. Each part of the invariant is a predicate
    on the tables it speaks about, so that a step needs an argument only for the tables it changes. */
module ProtocolBase {
  import opened Basics
  import opened AuthMethods
  import opened EnvelopeState
  import opened EnvelopeFields
  import opened SigningProtocol

  // ---------------------------------------------------------------- the invariant

  ghost predicate DraftIsBlank(s: State) {
    s.envelope.status.Draft? ==>
      && s.tokens == map[] && s.mailings == map[] && s.openings == map[] && s.sessions == map[] && s.challenges == map[]
      && s.signatures == map[] && s.outbox == [] && s.envelope.finalizationRequestedAt.None?
      && forall id | id in s.signers :: s.signers[id].status.Pending?
  }

  ghost predicate SomeSigned(signers: Signers) {
    exists id :: id in signers && signers[id].status.Signed?
  }

  ghost predicate AllTerminal(signers: Signers) {
    forall id | id in signers :: Terminal(signers[id].status)
  }

  /** Envelope status, signer statuses, signature records and the finalization request agree. */
  ghost predicate Coherent(e: Envelope, signers: Signers, signatures: map<SignerId, Signature>) {
    && (forall id :: id in signatures <==> id in signers && signers[id].status.Signed?)
    && (e.status.Active? ==> !SomeSigned(signers))
    && (e.status.PartiallySigned? ==> SomeSigned(signers))
    && (e.status.Completed? || e.status.Expired? ==> AllTerminal(signers))
    && (e.finalizationRequestedAt.Some? ==> AllRequiredSigned(signers) && (e.status.PartiallySigned? || e.status.Completed?))
    && (e.status.Completed? ==> e.finalizationRequestedAt.Some?)
    && (AcceptsActions(e) ==> SomeOpen(signers))
    && (Signable(e.status) ==> forall id | id in signers && signers[id].required :: !signers[id].status.Declined?)
    && (!e.status.Completed? && !e.status.Expired? ==> forall id | id in signers :: !signers[id].status.Expired?)
    && (e.discarded ==> e.status.Draft?)
  }

  ghost predicate NoneViewed(signers: Signers) {
    forall id | id in signers :: !signers[id].status.Viewed?
  }

  /** The integration's own signers are never contacted: they wait and then sign, or the envelope closes. */
  ghost predicate IntegrationApart(signers: Signers) {
    forall id | id in signers && signers[id].authMethod.Integration? :: signers[id].status.Pending? || Terminal(signers[id].status)
  }

  /** Whoever signed had been reached: no missing required signature belongs to an earlier group. */
  ghost predicate SignedInOrder(signers: Signers) {
    forall id | id in signers && signers[id].status.Signed? :: Reached(signers, signers[id].signingGroup)
  }

  ghost predicate InviteJustified(signers: Signers, id: SignerId) {
    id in signers && !signers[id].authMethod.Integration? && Reached(signers, signers[id].signingGroup)
  }

  ghost predicate InvitesJustified(signers: Signers, outbox: seq<Message>) {
    forall m, id | m in outbox && m.InviteRequested? && id in m.signers :: InviteJustified(signers, id)
  }

  /** Statuses that only someone who received a link can have. */
  predicate Approached(s: SignerStatus) {
    !s.Pending? && !s.Expired?
  }

  ghost predicate ApproachedNamed(signers: Signers, outbox: seq<Message>) {
    forall id | id in signers && !signers[id].authMethod.Integration? && Approached(signers[id].status) :: Named(outbox, id)
  }

  /** While signatures are awaited, everyone in turn is named by an invite event. */
  ghost predicate InTurnNamed(signers: Signers, outbox: seq<Message>) {
    forall id | InviteJustified(signers, id) :: Named(outbox, id)
  }

  ghost predicate TokensNamed(tokens: map<TokenId, Token>, signers: Signers, outbox: seq<Message>) {
    forall t | t in tokens :: tokens[t].signer in signers && Named(outbox, tokens[t].signer)
  }

  ghost predicate MailingsNamed(mailings: map<TokenId, Mailing>, signers: Signers, outbox: seq<Message>) {
    forall t | t in mailings :: mailings[t].signer in signers && Named(outbox, mailings[t].signer)
  }

  ghost predicate SessionsNamed(sessions: map<SessionId, Session>, signers: Signers, outbox: seq<Message>) {
    forall i | i in sessions :: sessions[i].signer in signers
                                && (signers[sessions[i].signer].authMethod.Integration? || Named(outbox, sessions[i].signer))
  }

  /** A challenge of exactly this session and signer, answered in time, once, and before the attempts ran out. */
  ghost predicate ProvenBy(c: Challenge, session: SessionId, signer: SignerId, via: AuthMethod) {
    && c.session == session && c.signer == signer && c.via == via
    && c.consumedAt.Some? && c.consumedAt.value < c.expiresAt && c.attempts < c.maxAttempts
  }

  ghost predicate Proven(challenges: map<ChallengeId, Challenge>, session: SessionId, signer: SignerId, via: AuthMethod) {
    exists c :: c in challenges && ProvenBy(challenges[c], session, signer, via)
  }

  ghost predicate SessionJustified(row: Session, i: SessionId, signers: Signers, challenges: map<ChallengeId, Challenge>) {
    && row.signer in signers
    && (row.authenticatedAt.Some? <==> row.authMethod.Some?)
    && (row.authMethod.Some? ==>
          match row.authMethod.value
          case Email => signers[row.signer].authMethod.Email?
          case Integration => signers[row.signer].authMethod.Integration?
          case EmailOtp => Proven(challenges, i, row.signer, EmailOtp)
          case WhatsappOtp => Proven(challenges, i, row.signer, WhatsappOtp)
          case _ => false)
    && (row.authenticatedAt.Some? && !signers[row.signer].authMethod.Integration? ==>
          signers[row.signer].status.Authenticated? || Terminal(signers[row.signer].status))
    && (signers[row.signer].authMethod.Integration? ==> row.revoked && row.authenticatedAt.Some?)
  }

  ghost predicate SessionsJustified(sessions: map<SessionId, Session>, signers: Signers, challenges: map<ChallengeId, Challenge>) {
    forall i | i in sessions :: SessionJustified(sessions[i], i, signers, challenges)
  }

  ghost predicate SessionTimes(sessions: map<SessionId, Session>, now: Time) {
    forall i | i in sessions && sessions[i].authenticatedAt.Some? :: sessions[i].authenticatedAt.value <= now
  }

  ghost predicate ChallengeSound(c: Challenge, signers: Signers, sessions: map<SessionId, Session>) {
    && c.signer in signers && c.session in sessions && sessions[c.session].signer == c.signer
    && RequiresChallenge(signers[c.signer].authMethod)
    && RequiresChallenge(c.via) && SessionSatisfies(signers[c.signer].authMethod, Some(c.via))
    && (Live(c) ==> c.attempts < c.maxAttempts)
    && (c.consumedAt.Some? ==> c.consumedAt.value < c.expiresAt && c.attempts < c.maxAttempts)
  }

  ghost predicate ChallengesSound(challenges: map<ChallengeId, Challenge>, signers: Signers, sessions: map<SessionId, Session>) {
    forall c | c in challenges :: ChallengeSound(challenges[c], signers, sessions)
  }

  ghost predicate ChallengeTimes(challenges: map<ChallengeId, Challenge>, now: Time) {
    forall c | c in challenges :: challenges[c].createdAt <= now
  }

  ghost predicate OneLiveChallenge(challenges: map<ChallengeId, Challenge>) {
    forall c, d | c in challenges && d in challenges
                  && Live(challenges[c]) && Live(challenges[d]) && challenges[c].signer == challenges[d].signer :: c == d
  }

  ghost predicate SignatureJustified(g: Signature, id: SignerId, signers: Signers, sessions: map<SessionId, Session>) {
    && id in signers
    && g.session in sessions && sessions[g.session].signer == id
    && sessions[g.session].authenticatedAt.Some? && sessions[g.session].authMethod == Some(g.via)
    && sessions[g.session].authenticatedAt.value <= g.signedAt
    && (RequiresChallenge(signers[id].authMethod) ==> SessionSatisfies(signers[id].authMethod, Some(g.via)))
  }

  ghost predicate SignaturesJustified(signatures: map<SignerId, Signature>, signers: Signers, sessions: map<SessionId, Session>) {
    forall id | id in signatures :: SignatureJustified(signatures[id], id, signers, sessions)
  }

  ghost predicate RowsWellFormed(signers: Signers) {
    forall id | id in signers :: (signers[id].authMethod.Integration? ==> signers[id].representing)
                                 && (signers[id].authMethod.WhatsappOtp? ==> signers[id].phone)
  }

  ghost predicate RowsActivatable(signers: Signers, config: Config) {
    forall id | id in signers :: Activatable(signers[id].authMethod, config.whatsapp)
  }

  ghost predicate CoreInv(s: State) {
    && DraftIsBlank(s)
    && Coherent(s.envelope, s.signers, s.signatures)
    && NoneViewed(s.signers) && IntegrationApart(s.signers)
    && SignedInOrder(s.signers)
    && RowsWellFormed(s.signers)
    && (Signable(s.envelope.status) ==> RowsActivatable(s.signers, s.config))
    && ValidConfig(s.config)
  }

  ghost predicate ContactInv(s: State) {
    && InvitesJustified(s.signers, s.outbox)
    && ApproachedNamed(s.signers, s.outbox)
    && (AcceptsActions(s.envelope) ==> InTurnNamed(s.signers, s.outbox))
    && TokensNamed(s.tokens, s.signers, s.outbox)
    && MailingsNamed(s.mailings, s.signers, s.outbox)
    && SessionsNamed(s.sessions, s.signers, s.outbox)
  }

  ghost predicate AuthInv(s: State) {
    && SessionsJustified(s.sessions, s.signers, s.challenges)
    && SessionTimes(s.sessions, s.now)
    && ChallengesSound(s.challenges, s.signers, s.sessions)
    && ChallengeTimes(s.challenges, s.now)
    && OneLiveChallenge(s.challenges)
    && SignaturesJustified(s.signatures, s.signers, s.sessions)
  }

  ghost predicate BaseInv(s: State) {
    CoreInv(s) && ContactInv(s) && AuthInv(s)
  }

  /** A link that passed its check belongs to a contacted signer, and only method EMAIL is authenticated by it. */
  ghost predicate OpeningOk(o: Opening, signers: Signers, outbox: seq<Message>, now: Time) {
    && o.signer in signers && Named(outbox, o.signer) && o.checkedAt <= now
    && (o.automatic ==> signers[o.signer].authMethod.Email?)
  }

  ghost predicate OpeningsOk(s: State) {
    forall i | i in s.openings :: i !in s.sessions && OpeningOk(s.openings[i], s.signers, s.outbox, s.now)
  }

  lemma InitInv(config: Config, now: Time, sequential: bool)
    requires ValidConfig(config)
    ensures BaseInv(NewEnvelope(config, now, sequential)) && OpeningsOk(NewEnvelope(config, now, sequential))
  {
  }

  // ---------------------------------------------------------------- how signer rows may change

  ghost predicate SignerEvolves(a: Signer, b: Signer) {
    && b == a.(status := b.status)
    && (b.status == a.status || (!Terminal(a.status) && Rank(a.status) < Rank(b.status)))
  }

  /** Once sent, rows keep their attributes and statuses only move up the ranks. */
  ghost predicate SignersEvolve(a: Signers, b: Signers) {
    a.Keys == b.Keys && forall id | id in a :: SignerEvolves(a[id], b[id])
  }

  lemma ReachedKept(a: Signers, b: Signers, group: int)
    requires SignersEvolve(a, b) && Reached(a, group)
    ensures Reached(b, group)
  {
    forall id | id in b && Open(b[id]) ensures group <= b[id].signingGroup {
      assert SignerEvolves(a[id], b[id]);
    }
  }

  lemma AdvanceEvolves(signers: Signers, id: SignerId, to: SignerStatus)
    requires to.Invited? || to.Viewed? || to.Authenticated?
    ensures SignersEvolve(signers, Advance(signers, id, to))
    ensures SameSigned(signers, Advance(signers, id, to))
  {
  }

  lemma WithStatusEvolves(signers: Signers, id: SignerId, to: SignerStatus)
    requires id in signers && !Terminal(signers[id].status) && Terminal(to)
    ensures SignersEvolve(signers, WithStatus(signers, id, to))
  {
  }

  lemma ExpiringEvolves(signers: Signers)
    ensures SignersEvolve(signers, ExpireOpenSigners(signers)) && AllTerminal(ExpireOpenSigners(signers))
    ensures SameSigned(signers, ExpireOpenSigners(signers))
  {
  }

  ghost predicate SameSigned(a: Signers, b: Signers) {
    a.Keys == b.Keys && forall id | id in a :: (b[id].status.Signed? <==> a[id].status.Signed?) && b[id] == a[id].(status := b[id].status)
  }

  // ---------------------------------------------------------------- parts of the invariant under such changes

  lemma OrderKept(a: Signers, b: Signers)
    requires SignersEvolve(a, b) && SameSigned(a, b) && SignedInOrder(a)
    ensures SignedInOrder(b)
  {
    forall id | id in b && b[id].status.Signed? ensures Reached(b, b[id].signingGroup) {
      ReachedKept(a, b, b[id].signingGroup);
    }
  }

  lemma RowsKept(a: Signers, b: Signers, config: Config)
    requires SignersEvolve(a, b) && RowsWellFormed(a)
    ensures RowsWellFormed(b)
    ensures RowsActivatable(a, config) ==> RowsActivatable(b, config)
  {
    forall id | id in b ensures SignerEvolves(a[id], b[id]) {
    }
  }

  lemma InvitesKept(a: Signers, b: Signers, outbox: seq<Message>, more: seq<Message>)
    requires SignersEvolve(a, b) && InvitesJustified(a, outbox) && InvitesJustified(b, more)
    ensures InvitesJustified(b, outbox + more)
  {
    forall m, id | m in outbox + more && m.InviteRequested? && id in m.signers ensures InviteJustified(b, id) {
      if m in outbox {
        assert InviteJustified(a, id);
        assert SignerEvolves(a[id], b[id]);
        ReachedKept(a, b, a[id].signingGroup);
      }
    }
  }

  lemma NamedKept(outbox: seq<Message>, more: seq<Message>)
    ensures forall id | Named(outbox, id) :: Named(outbox + more, id)
    ensures forall id | Named(more, id) :: Named(outbox + more, id)
  {
    forall id | Named(outbox, id) || Named(more, id) ensures Named(outbox + more, id) {
      var m :| (m in outbox || m in more) && m.InviteRequested? && id in m.signers;
      assert m in outbox + more;
    }
  }

  lemma LinksKept(s: State, b: Signers, more: seq<Message>)
    requires SignersEvolve(s.signers, b)
    requires TokensNamed(s.tokens, s.signers, s.outbox) && MailingsNamed(s.mailings, s.signers, s.outbox) && SessionsNamed(s.sessions, s.signers, s.outbox)
    ensures TokensNamed(s.tokens, b, s.outbox + more) && MailingsNamed(s.mailings, b, s.outbox + more) && SessionsNamed(s.sessions, b, s.outbox + more)
  {
    NamedKept(s.outbox, more);
    forall id | id in b ensures SignerEvolves(s.signers[id], b[id]) {
    }
  }

  lemma AuthKept(s: State, b: Signers)
    requires AuthInv(s) && SignersEvolve(s.signers, b)
    ensures SessionsJustified(s.sessions, b, s.challenges)
    ensures ChallengesSound(s.challenges, b, s.sessions)
    ensures SignaturesJustified(s.signatures, b, s.sessions)
  {
    forall id | id in b ensures SignerEvolves(s.signers[id], b[id]) {
    }
    forall i | i in s.sessions ensures SessionJustified(s.sessions[i], i, b, s.challenges) {
      assert SessionJustified(s.sessions[i], i, s.signers, s.challenges);
    }
  }

  lemma RevocationKept(s: State, b: Signers)
    requires AuthInv(s) && SignersEvolve(s.signers, b)
    ensures SessionsJustified(RevokedSessions(s.sessions), b, s.challenges)
    ensures ChallengesSound(s.challenges, b, RevokedSessions(s.sessions))
    ensures SignaturesJustified(s.signatures, b, RevokedSessions(s.sessions))
  {
    AuthKept(s, b);
    forall i | i in s.sessions ensures SessionJustified(RevokedSessions(s.sessions)[i], i, b, s.challenges) {
      assert SessionJustified(s.sessions[i], i, b, s.challenges);
    }
  }

  lemma SameIsEvolution(signers: Signers)
    ensures SignersEvolve(signers, signers)
  {
  }

  // ---------------------------------------------------------------- drafts and activation

  predicate DraftEdit(a: Action) {
    a.DoAddDocument? || a.DoRemoveDocument? || a.DoAddSigner? || a.DoRemoveSigner? || a.DoUpdateDraft?
    || a.DoReplaceFields? || a.DoDiscardDraft?
  }

  lemma SignerAddedKeepsInv(s: State, id: SignerId, row: Signer, trail: seq<TrailEvent>)
    requires BaseInv(s) && s.envelope.status.Draft? && row.status.Pending?
    requires (row.authMethod.Integration? ==> row.representing) && (row.authMethod.WhatsappOtp? ==> row.phone)
    ensures BaseInv(s.(signers := s.signers[id := row], trail := trail))
  {
  }

  lemma AddSignerKeepsInv(s: State, id: SignerId, group: Option<nat>, required: bool, m: AuthMethod, phone: bool, byIntegration: bool)
    requires BaseInv(s)
    ensures BaseInv(AddSigner(s, id, group, required, m, phone, byIntegration).0)
  {
    if AddSignerError(s, id, m, phone, byIntegration).None? {
      var row := Signer(GroupFor(s, group), required, if byIntegration then Integration else m, phone, byIntegration, Pending);
      SignerAddedKeepsInv(s, id, row, s.trail + [TrailEvent(EnvelopeUpdated, Some(id))]);
    }
  }

  lemma DocumentEditKeepsInv(s: State, d: EnvelopeDocument, i: nat, fields: seq<Field>)
    requires BaseInv(s)
    ensures BaseInv(AddDocument(s, d).0) && BaseInv(RemoveDocument(s, i).0) && BaseInv(ReplaceFields(s, fields).0)
  {
  }

  lemma RemoveSignerKeepsInv(s: State, id: SignerId)
    requires BaseInv(s)
    ensures BaseInv(RemoveSigner(s, id).0)
  {
  }

  lemma UpdateKeepsInv(s: State, sequential: Option<bool>, deadline: Option<Option<Time>>)
    requires BaseInv(s)
    ensures BaseInv(UpdateDraft(s, sequential, deadline).0)
  {
    if UpdateDraft(s, sequential, deadline).1.Done? {
      EditedKeepsInv(s, sequential, deadline);
    }
  }

  lemma EditedKeepsInv(s: State, sequential: Option<bool>, deadline: Option<Option<Time>>)
    requires BaseInv(s) && s.envelope.status.Draft?
    ensures BaseInv(Edited(s, sequential, deadline))
  {
  }

  lemma DiscardKeepsInv(s: State)
    requires BaseInv(s)
    ensures BaseInv(DiscardDraft(s).0)
  {
  }

  lemma DraftEditKeepsInv(s: State, a: Action)
    requires BaseInv(s) && DraftEdit(a)
    ensures BaseInv(Step(s, a).0)
  {
    var anyDocument := EnvelopeDocument(0, 0, 0, 0, None);
    match a
    case DoAddSigner(id, g, r, m, p, i) => AddSignerKeepsInv(s, id, g, r, m, p, i);
    case DoAddDocument(d) => DocumentEditKeepsInv(s, d, 0, []);
    case DoRemoveDocument(i) => DocumentEditKeepsInv(s, anyDocument, i, []);
    case DoReplaceFields(f) => DocumentEditKeepsInv(s, anyDocument, 0, f);
    case DoRemoveSigner(id) => RemoveSignerKeepsInv(s, id);
    case DoUpdateDraft(q, x) => UpdateKeepsInv(s, q, x);
    case DoDiscardDraft => DiscardKeepsInv(s);
  }

  lemma ActivateInvites(signers: Signers, rest: seq<Message>)
    requires SomeOpen(signers) && forall id | id in signers :: signers[id].status.Pending?
    requires forall m | m in rest :: m.Notice?
    ensures var m := InviteRequested(SignersToInvite(signers, NextSigningGroup(signers)), false);
            InvitesJustified(signers, [m] + rest) && InTurnNamed(signers, [m] + rest)
  {
    var m := InviteRequested(SignersToInvite(signers, NextSigningGroup(signers)), false);
    assert m in [m] + rest;
    forall id ensures id in m.signers <==> InviteJustified(signers, id) {
      InvitedMeansReached(signers, id);
    }
  }

  lemma ActivateKeepsCore(s: State, quota: bool)
    requires CoreInv(s)
    ensures CoreInv(Activate(s, quota).0)
  {
    var t := Activate(s, quota).0;
    if t != s {
      var r :| r in s.signers && s.signers[r].required;
      assert Open(s.signers[r]);
    }
  }

  lemma ActivateKeepsContact(s: State, quota: bool)
    requires CoreInv(s) && ContactInv(s)
    ensures ContactInv(Activate(s, quota).0)
  {
    var t := Activate(s, quota).0;
    if t != s {
      var r :| r in s.signers && s.signers[r].required;
      assert Open(s.signers[r]);
      ActivateInvites(s.signers, [Notice(EnvelopeActivated, None)]);
      assert t.outbox == [InviteRequested(SignersToInvite(s.signers, NextSigningGroup(s.signers)), false)] + [Notice(EnvelopeActivated, None)];
    }
  }

  lemma ActivateKeepsAuth(s: State, quota: bool)
    requires AuthInv(s)
    ensures AuthInv(Activate(s, quota).0)
  {
  }

  // ---------------------------------------------------------------- closing an envelope

  lemma CancelKeepsCore(s: State)
    requires CoreInv(s)
    ensures CoreInv(Cancel(s).0)
  {
  }

  lemma CancelKeepsContact(s: State)
    requires ContactInv(s)
    ensures ContactInv(Cancel(s).0)
  {
    if Cancel(s).1.Done? {
      WithdrawnKeepsContact(s, if s.envelope.status.Draft? then [] else [Notice(EnvelopeCancelled, None)]);
    }
  }

  lemma WithdrawnKeepsContact(s: State, more: seq<Message>)
    requires ContactInv(s) && more == if s.envelope.status.Draft? then [] else [Notice(EnvelopeCancelled, None)]
    ensures ContactInv(Withdrawn(s))
  {
    assert Withdrawn(s).outbox == s.outbox + more && !AcceptsActions(Withdrawn(s).envelope);
    SameIsEvolution(s.signers);
    ClosingKeepsContact(s, s.signers, more);
    RevokedNamed(s.tokens, s.sessions, s.signers, s.outbox + more);
  }

  lemma RevokedNamed(tokens: map<TokenId, Token>, sessions: map<SessionId, Session>, signers: Signers, outbox: seq<Message>)
    requires TokensNamed(tokens, signers, outbox) && SessionsNamed(sessions, signers, outbox)
    ensures TokensNamed(RevokedTokens(tokens), signers, outbox) && SessionsNamed(RevokedSessions(sessions), signers, outbox)
  {
  }

  lemma CancelKeepsAuth(s: State)
    requires AuthInv(s)
    ensures AuthInv(Cancel(s).0)
  {
    SameIsEvolution(s.signers);
    RevocationKept(s, s.signers);
  }

  lemma LapsedCoherent(e: Envelope, signers: Signers, signatures: map<SignerId, Signature>)
    requires Coherent(e, signers, signatures) && AcceptsActions(e)
    ensures Coherent(e.(status := EnvelopeStatus.Expired), ExpireOpenSigners(signers), signatures)
  {
    ExpiringEvolves(signers);
  }

  lemma LapsedKeepsCore(s: State)
    requires CoreInv(s) && AcceptsActions(s.envelope)
    ensures CoreInv(Lapsed(s))
  {
    ExpiringEvolves(s.signers);
    OrderKept(s.signers, ExpireOpenSigners(s.signers));
    LapsedCoherent(s.envelope, s.signers, s.signatures);
  }

  lemma ExpireKeepsCore(s: State)
    requires CoreInv(s)
    ensures CoreInv(Expire(s).0)
  {
    if Expire(s).1.Done? {
      LapsedKeepsCore(s);
    }
  }

  lemma ClosingKeepsContact(s: State, b: Signers, more: seq<Message>)
    requires ContactInv(s) && SignersEvolve(s.signers, b)
    requires forall m | m in more :: m.Notice?
    requires forall id | id in b && Approached(b[id].status) :: Approached(s.signers[id].status) || Named(s.outbox, id) || b[id].authMethod.Integration?
    ensures InvitesJustified(b, s.outbox + more) && ApproachedNamed(b, s.outbox + more)
    ensures TokensNamed(s.tokens, b, s.outbox + more) && MailingsNamed(s.mailings, b, s.outbox + more) && SessionsNamed(s.sessions, b, s.outbox + more)
  {
    InvitesKept(s.signers, b, s.outbox, more);
    LinksKept(s, b, more);
    NamedKept(s.outbox, more);
    forall id | id in b ensures SignerEvolves(s.signers[id], b[id]) {
    }
  }

  lemma LapsedKeepsContact(s: State)
    requires ContactInv(s)
    ensures ContactInv(Lapsed(s))
  {
    ExpiringEvolves(s.signers);
    ClosingKeepsContact(s, ExpireOpenSigners(s.signers), [Notice(EnvelopeExpired, None)]);
  }

  lemma ExpireKeepsContact(s: State)
    requires ContactInv(s)
    ensures ContactInv(Expire(s).0)
  {
    LapsedKeepsContact(s);
  }

  lemma ExpireKeepsAuth(s: State)
    requires AuthInv(s)
    ensures AuthInv(Expire(s).0)
  {
    ExpiringEvolves(s.signers);
    RevocationKept(s, ExpireOpenSigners(s.signers));
  }

  lemma CompleteKeepsCore(s: State, finals: seq<StorageKey>)
    requires CoreInv(s)
    ensures CoreInv(Complete(s, finals).0)
  {
    if Complete(s, finals).1 == Done {
      ConcludedKeepsCore(s, finals);
    }
  }

  lemma ConcludedKeepsCore(s: State, finals: seq<StorageKey>)
    requires CoreInv(s) && |finals| == |s.documents| && Signable(s.envelope.status) && s.envelope.finalizationRequestedAt.Some?
    ensures CoreInv(Concluded(s, finals))
  {
    var t := ExpireOpenSigners(s.signers);
    ExpiringEvolves(s.signers);
    OrderKept(s.signers, t);
    ConcludedCoherent(s.envelope, s.signers, s.signatures);
  }

  lemma ConcludedCoherent(e: Envelope, signers: Signers, signatures: map<SignerId, Signature>)
    requires Coherent(e, signers, signatures) && Signable(e.status) && e.finalizationRequestedAt.Some?
    ensures Coherent(e.(status := Completed), ExpireOpenSigners(signers), signatures)
  {
    ExpiringEvolves(signers);
  }

  lemma CompleteKeepsContact(s: State, finals: seq<StorageKey>)
    requires ContactInv(s)
    ensures ContactInv(Complete(s, finals).0)
  {
    ExpiringEvolves(s.signers);
    ClosingKeepsContact(s, ExpireOpenSigners(s.signers), [Notice(EnvelopeCompleted, None)]);
  }

  lemma CompleteKeepsAuth(s: State, finals: seq<StorageKey>)
    requires AuthInv(s)
    ensures AuthInv(Complete(s, finals).0)
  {
    ExpiringEvolves(s.signers);
    AuthKept(s, ExpireOpenSigners(s.signers));
  }

  // ---------------------------------------------------------------- invitations

  lemma NamedMeansJustified(signers: Signers, outbox: seq<Message>, id: SignerId)
    requires InvitesJustified(signers, outbox) && Named(outbox, id)
    ensures InviteJustified(signers, id)
  {
    var m :| m in outbox && m.InviteRequested? && id in m.signers;
  }

  lemma RemindKeepsContact(s: State, targets: set<SignerId>)
    requires CoreInv(s) && ContactInv(s)
    ensures ContactInv(Remind(s, targets).0)
  {
    var due := DueForReminder(s, targets);
    var more := [InviteRequested(due, true)];
    forall id | id in due ensures InviteJustified(s.signers, id) {
      NamedMeansJustified(s.signers, s.outbox, id);
    }
    SameIsEvolution(s.signers);
    InvitesKept(s.signers, s.signers, s.outbox, more);
    LinksKept(s, s.signers, more);
    NamedKept(s.outbox, more);
  }

  lemma RemindKeepsRest(s: State, targets: set<SignerId>)
    requires CoreInv(s) && AuthInv(s)
    ensures CoreInv(Remind(s, targets).0) && AuthInv(Remind(s, targets).0)
  {
  }

  lemma CheckInviteKeepsRest(s: State, id: SignerId, token: TokenId, reminder: bool)
    requires CoreInv(s) && AuthInv(s)
    ensures CoreInv(CheckInvite(s, id, token, reminder).0) && AuthInv(CheckInvite(s, id, token, reminder).0)
  {
  }

  lemma CheckInviteKeepsContact(s: State, id: SignerId, token: TokenId, reminder: bool)
    requires ContactInv(s)
    ensures ContactInv(CheckInvite(s, id, token, reminder).0)
  {
  }

  lemma CheckInviteKeepsInv(s: State, id: SignerId, token: TokenId, reminder: bool)
    requires BaseInv(s)
    ensures BaseInv(CheckInvite(s, id, token, reminder).0)
  {
    CheckInviteKeepsRest(s, id, token, reminder);
    CheckInviteKeepsContact(s, id, token, reminder);
  }

  lemma IssueLinkKeepsRest(s: State, token: TokenId)
    requires CoreInv(s) && AuthInv(s)
    ensures CoreInv(IssueLink(s, token).0) && AuthInv(IssueLink(s, token).0)
  {
  }

  lemma IssueLinkKeepsContact(s: State, token: TokenId)
    requires ContactInv(s)
    ensures ContactInv(IssueLink(s, token).0)
  {
  }

  lemma IssueLinkKeepsInv(s: State, token: TokenId)
    requires BaseInv(s)
    ensures BaseInv(IssueLink(s, token).0)
  {
    IssueLinkKeepsRest(s, token);
    IssueLinkKeepsContact(s, token);
  }

  lemma InviteFailedKeepsInv(s: State, token: TokenId)
    requires BaseInv(s)
    ensures BaseInv(InviteFailed(s, token).0)
  {
  }

  ghost predicate SameTerminal(a: Signers, b: Signers) {
    SignersEvolve(a, b) && forall id | id in a :: b[id].status == a[id].status || !Terminal(b[id].status)
  }

  lemma CoherentKept(e: Envelope, a: Signers, b: Signers, signatures: map<SignerId, Signature>)
    requires Coherent(e, a, signatures) && SameTerminal(a, b)
    ensures Coherent(e, b, signatures)
  {
    forall id | id in b ensures SignerEvolves(a[id], b[id]) {
    }
    if SomeOpen(a) {
      var id :| id in a && Open(a[id]);
      assert Open(b[id]);
    }
    if SomeSigned(a) {
      var id :| id in a && a[id].status.Signed?;
      assert b[id].status.Signed?;
    }
  }

  /** Moving a contacted signer up below the terminal ranks. */
  lemma AdvanceKeepsCore(s: State, id: SignerId, to: SignerStatus)
    requires CoreInv(s) && (to.Invited? || to.Authenticated?)
    requires id in s.signers && !s.signers[id].authMethod.Integration?
    ensures var b := Advance(s.signers, id, to);
            Coherent(s.envelope, b, s.signatures) && NoneViewed(b) && IntegrationApart(b) && SignedInOrder(b) && RowsWellFormed(b)
            && (Signable(s.envelope.status) ==> RowsActivatable(b, s.config))
  {
    AdvanceEvolves(s.signers, id, to);
    AdvanceKeepsStatuses(s.signers, id, to);
    CoherentKept(s.envelope, s.signers, Advance(s.signers, id, to), s.signatures);
    OrderKept(s.signers, Advance(s.signers, id, to));
    RowsKept(s.signers, Advance(s.signers, id, to), s.config);
  }

  lemma AdvanceKeepsStatuses(signers: Signers, id: SignerId, to: SignerStatus)
    requires NoneViewed(signers) && IntegrationApart(signers) && (to.Invited? || to.Authenticated?)
    requires id in signers && !signers[id].authMethod.Integration?
    ensures var b := Advance(signers, id, to); NoneViewed(b) && IntegrationApart(b) && SameTerminal(signers, b)
  {
  }

  lemma AdvanceKeepsContact(s: State, id: SignerId, to: SignerStatus, more: seq<Message>)
    requires ContactInv(s) && Named(s.outbox, id) && id in s.signers && (to.Invited? || to.Authenticated?)
    requires forall m | m in more :: m.Notice?
    ensures var b := Advance(s.signers, id, to);
            InvitesJustified(b, s.outbox + more) && ApproachedNamed(b, s.outbox + more)
            && (InTurnNamed(s.signers, s.outbox) ==> InTurnNamed(b, s.outbox + more))
            && TokensNamed(s.tokens, b, s.outbox + more) && MailingsNamed(s.mailings, b, s.outbox + more) && SessionsNamed(s.sessions, b, s.outbox + more)
  {
    var b := Advance(s.signers, id, to);
    AdvanceEvolves(s.signers, id, to);
    ClosingKeepsContact(s, b, more);
    if InTurnNamed(s.signers, s.outbox) {
      NamedKept(s.outbox, more);
      forall x | InviteJustified(b, x) ensures Named(s.outbox + more, x) {
        assert InviteJustified(s.signers, x) by {
          forall y | y in s.signers && Open(s.signers[y]) ensures b[x].signingGroup <= s.signers[y].signingGroup {
            assert Open(b[y]);
          }
        }
      }
    }
  }

  lemma InviteSentKeepsCore(s: State, token: TokenId)
    requires CoreInv(s) && ContactInv(s)
    ensures CoreInv(InviteSent(s, token).0)
  {
    if token in s.mailings && !s.mailings[token].reminder {
      NamedMeansJustified(s.signers, s.outbox, s.mailings[token].signer);
      AdvanceKeepsCore(s, s.mailings[token].signer, Invited);
    }
  }

  lemma InviteSentKeepsContact(s: State, token: TokenId)
    requires ContactInv(s)
    ensures ContactInv(InviteSent(s, token).0)
  {
    if token in s.mailings {
      AdvanceKeepsContact(s, s.mailings[token].signer, Invited, []);
      assert s.outbox + [] == s.outbox;
    }
  }

  lemma InviteSentKeepsAuth(s: State, token: TokenId)
    requires AuthInv(s)
    ensures AuthInv(InviteSent(s, token).0)
  {
    if token in s.mailings {
      AdvanceEvolves(s.signers, s.mailings[token].signer, Invited);
      AuthKept(s, Advance(s.signers, s.mailings[token].signer, Invited));
    }
  }

  // ---------------------------------------------------------------- sessions

  lemma EndSessionKeepsRest(s: State, session: SessionId)
    requires CoreInv(s) && ContactInv(s)
    ensures CoreInv(EndSession(s, session).0) && ContactInv(EndSession(s, session).0)
  {
  }

  lemma EndSessionKeepsAuth(s: State, session: SessionId)
    requires AuthInv(s)
    ensures AuthInv(EndSession(s, session).0)
  {
  }

  lemma EndSessionKeepsInv(s: State, session: SessionId)
    requires BaseInv(s)
    ensures BaseInv(EndSession(s, session).0)
  {
    EndSessionKeepsRest(s, session);
    EndSessionKeepsAuth(s, session);
  }

  lemma TickKeepsInv(s: State, elapsed: nat)
    requires BaseInv(s)
    ensures BaseInv(s.(now := s.now + elapsed))
  {
  }

  lemma ResolvedIsNotIntegration(s: State, session: SessionId)
    requires AuthInv(s) && ContactInv(s) && Resolves(s, session)
    ensures !s.signers[s.sessions[session].signer].authMethod.Integration?
    ensures Named(s.outbox, s.sessions[session].signer)
  {
    assert SessionJustified(s.sessions[session], session, s.signers, s.challenges);
  }

  lemma ViewChangesNoStatus(s: State, session: SessionId, seen: bool)
    requires AuthInv(s) && ContactInv(s)
    ensures ViewDocument(s, session, seen).0.signers == s.signers
  {
    if Resolves(s, session) {
      ResolvedIsNotIntegration(s, session);
      assert SessionJustified(s.sessions[session], session, s.signers, s.challenges);
    }
  }

  lemma SeenKeepsRest(s: State, id: SignerId)
    requires CoreInv(s) && AuthInv(s) && !s.envelope.status.Draft? && FirstView(s, id).signers == s.signers
    ensures CoreInv(FirstView(s, id)) && AuthInv(FirstView(s, id))
  {
  }

  lemma SeenKeepsContact(s: State, id: SignerId)
    requires ContactInv(s) && FirstView(s, id).signers == s.signers
    ensures ContactInv(FirstView(s, id))
  {
    var more := [Notice(DocumentViewed, Some(id))];
    SameIsEvolution(s.signers);
    ClosingKeepsContact(s, s.signers, more);
    NamedKept(s.outbox, more);
  }

  lemma ViewKeepsInv(s: State, session: SessionId, seen: bool)
    requires BaseInv(s)
    ensures BaseInv(ViewDocument(s, session, seen).0)
  {
    ViewChangesNoStatus(s, session, seen);
    if ViewDocument(s, session, seen).1.Done? {
      SeenKeepsRest(s, s.sessions[session].signer);
      SeenKeepsContact(s, s.sessions[session].signer);
    }
  }

  lemma CheckLinkKeepsInv(s: State, token: TokenId, session: SessionId)
    requires BaseInv(s)
    ensures BaseInv(CheckLink(s, token, session).0)
  {
    if CheckLink(s, token, session).1 == Rejected(EnvelopeHasExpired) {
      ExpireKeepsCore(s);
      ExpireKeepsContact(s);
      ExpireKeepsAuth(s);
    }
  }

  lemma OpenedKeepsCore(s: State, session: SessionId, o: Opening)
    requires CoreInv(s) && ContactInv(s) && !s.envelope.status.Draft? && Named(s.outbox, o.signer)
    ensures CoreInv(Opened(s, session, o))
  {
    NamedMeansJustified(s.signers, s.outbox, o.signer);
    AdvanceKeepsCore(s, o.signer, Authenticated);
  }

  lemma OpenedKeepsContact(s: State, session: SessionId, o: Opening)
    requires ContactInv(s) && Named(s.outbox, o.signer)
    ensures ContactInv(Opened(s, session, o))
  {
    NamedMeansJustified(s.signers, s.outbox, o.signer);
    AdvanceKeepsContact(s, o.signer, Authenticated, [Notice(SignerAuthenticated, Some(o.signer))]);
    NamedKept(s.outbox, [Notice(SignerAuthenticated, Some(o.signer))]);
  }

  lemma SessionAdded(s: State, b: Signers, i: SessionId, row: Session)
    requires AuthInv(s) && SignersEvolve(s.signers, b) && i !in s.sessions && SessionJustified(row, i, b, s.challenges)
    requires row.authenticatedAt.Some? ==> row.authenticatedAt.value <= s.now
    ensures AuthInv(s.(sessions := s.sessions[i := row], signers := b))
  {
    AuthKept(s, b);
  }

  lemma OpenedKeepsAuth(s: State, session: SessionId, o: Opening)
    requires ContactInv(s) && AuthInv(s) && session !in s.sessions && OpeningOk(o, s.signers, s.outbox, s.now)
    ensures AuthInv(Opened(s, session, o))
  {
    var t := Opened(s, session, o);
    NamedMeansJustified(s.signers, s.outbox, o.signer);
    AdvanceEvolves(s.signers, o.signer, Authenticated);
    SameIsEvolution(s.signers);
    SessionAdded(s, t.signers, session, t.sessions[session]);
  }

  lemma OpenSessionKeepsInv(s: State, session: SessionId)
    requires BaseInv(s) && OpeningsOk(s)
    ensures BaseInv(OpenSession(s, session).0)
  {
    if session in s.openings {
      var o := s.openings[session];
      OpenedKeepsCore(s, session, o);
      OpenedKeepsContact(s, session, o);
      OpenedKeepsAuth(s, session, o);
    }
  }

  /** Replacing challenges by ones that keep every consumed challenge keeps all sessions proven. */
  lemma ProvenKept(a: map<ChallengeId, Challenge>, b: map<ChallengeId, Challenge>, sessions: map<SessionId, Session>, signers: Signers)
    requires forall c | c in a && a[c].consumedAt.Some? :: c in b && b[c] == a[c]
    requires SessionsJustified(sessions, signers, a)
    ensures SessionsJustified(sessions, signers, b)
  {
    forall i, via | i in sessions && Proven(a, i, sessions[i].signer, via) ensures Proven(b, i, sessions[i].signer, via) {
      var c :| c in a && ProvenBy(a[c], i, sessions[i].signer, via);
      assert ProvenBy(b[c], i, sessions[i].signer, via);
    }
    forall i | i in sessions ensures SessionJustified(sessions[i], i, signers, b) {
      assert SessionJustified(sessions[i], i, signers, a);
    }
  }

  lemma InvalidatedSound(a: map<ChallengeId, Challenge>, id: SignerId, signers: Signers, sessions: map<SessionId, Session>)
    requires ChallengesSound(a, signers, sessions) && OneLiveChallenge(a)
    ensures ChallengesSound(InvalidateLive(a, id), signers, sessions) && OneLiveChallenge(InvalidateLive(a, id))
    ensures forall c | c in a && Live(InvalidateLive(a, id)[c]) :: a[c].signer != id
  {
    var b := InvalidateLive(a, id);
    forall c | c in b ensures ChallengeSound(b[c], signers, sessions) {
      assert ChallengeSound(a[c], signers, sessions);
    }
  }

  lemma RequestedKeepsAuth(s: State, id: SignerId, session: SessionId, challenge: ChallengeId, via: AuthMethod, code: Code)
    requires AuthInv(s) && ValidConfig(s.config) && challenge !in s.challenges
    requires id in s.signers && session in s.sessions && s.sessions[session].signer == id
    requires RequiresChallenge(s.signers[id].authMethod) && RequiresChallenge(via) && SessionSatisfies(s.signers[id].authMethod, Some(via))
    ensures AuthInv(Requested(s, id, session, challenge, via, code))
  {
    var t := Requested(s, id, session, challenge, via, code);
    ProvenKept(s.challenges, t.challenges, s.sessions, s.signers);
    InvalidatedSound(s.challenges, id, s.signers, s.sessions);
  }

  lemma RequestedKeepsRest(s: State, id: SignerId, session: SessionId, challenge: ChallengeId, via: AuthMethod, code: Code)
    requires CoreInv(s) && ContactInv(s) && session in s.sessions
    ensures CoreInv(Requested(s, id, session, challenge, via, code))
    ensures ContactInv(Requested(s, id, session, challenge, via, code))
  {
  }

  lemma RequestOtpKeepsInv(s: State, session: SessionId, challenge: ChallengeId, channel: OtpChannel, code: Code)
    requires BaseInv(s)
    ensures BaseInv(RequestOtp(s, session, challenge, channel, code).0)
  {
    if RequestOtp(s, session, challenge, channel, code).1.Done? {
      var id := s.sessions[session].signer;
      ChannelsSatisfy(s.signers[id].authMethod, s.signers[id].phone, s.config.whatsapp, false);
      RequestedKeepsAuth(s, id, session, challenge, ChannelMethod(channel), code);
      RequestedKeepsRest(s, id, session, challenge, ChannelMethod(channel), code);
    }
  }

  lemma ChallengeChanged(s: State, chosen: ChallengeId, row: Challenge)
    requires AuthInv(s) && chosen in s.challenges && Live(s.challenges[chosen])
    requires row.signer == s.challenges[chosen].signer && row.createdAt == s.challenges[chosen].createdAt
    requires ChallengeSound(row, s.signers, s.sessions)
    ensures AuthInv(s.(challenges := s.challenges[chosen := row]))
  {
    ProvenKept(s.challenges, s.challenges[chosen := row], s.sessions, s.signers);
  }

  lemma InvalidatedKeepsInv(s: State, chosen: ChallengeId)
    requires BaseInv(s) && chosen in s.challenges && Live(s.challenges[chosen])
    ensures BaseInv(Invalidated(s, chosen))
  {
    assert ChallengeSound(s.challenges[chosen], s.signers, s.sessions);
    ChallengeChanged(s, chosen, s.challenges[chosen].(invalidated := true));
  }

  lemma AnswerKeepsRest(s: State, chosen: ChallengeId)
    requires CoreInv(s) && ContactInv(s) && chosen in s.challenges
    ensures CoreInv(WrongCode(s, chosen)) && ContactInv(WrongCode(s, chosen))
  {
  }

  lemma WrongCodeKeepsAuth(s: State, chosen: ChallengeId)
    requires AuthInv(s) && chosen in s.challenges && Live(s.challenges[chosen])
    ensures AuthInv(WrongCode(s, chosen))
  {
    var c := s.challenges[chosen];
    assert ChallengeSound(c, s.signers, s.sessions);
    ChallengeChanged(s, chosen, c.(attempts := c.attempts + 1, invalidated := c.attempts + 1 >= c.maxAttempts));
  }

  lemma WrongCodeKeepsInv(s: State, chosen: ChallengeId)
    requires BaseInv(s) && chosen in s.challenges && Live(s.challenges[chosen])
    ensures BaseInv(WrongCode(s, chosen))
  {
    AnswerKeepsRest(s, chosen);
    WrongCodeKeepsAuth(s, chosen);
  }

  lemma ConsumedKeepsInv(s: State, chosen: ChallengeId)
    requires BaseInv(s) && chosen in s.challenges && Live(s.challenges[chosen]) && s.now < s.challenges[chosen].expiresAt
    ensures BaseInv(Consumed(s, chosen))
  {
    var c := s.challenges[chosen];
    assert ChallengeSound(c, s.signers, s.sessions);
    ChallengeChanged(s, chosen, c.(consumedAt := Some(s.now)));
  }

  /** The session gains its proof of authentication and its signer moves up. */
  lemma SessionProven(s: State, session: SessionId, b: Signers, via: AuthMethod)
    requires AuthInv(s) && session in s.sessions && s.sessions[session].authenticatedAt.None? && RequiresChallenge(via)
    requires SignersEvolve(s.signers, b) && s.sessions[session].signer in b
    requires Proven(s.challenges, session, s.sessions[session].signer, via)
    requires !b[s.sessions[session].signer].authMethod.Integration?
    requires b[s.sessions[session].signer].status.Authenticated? || Terminal(b[s.sessions[session].signer].status)
    ensures AuthInv(s.(signers := b, sessions := s.sessions[session := s.sessions[session].(authenticatedAt := Some(s.now), authMethod := Some(via))]))
  {
    var sessions := s.sessions[session := s.sessions[session].(authenticatedAt := Some(s.now), authMethod := Some(via))];
    AuthKept(s, b);
    forall i | i in sessions ensures SessionJustified(sessions[i], i, b, s.challenges) {
      assert SessionJustified(s.sessions[i], i, b, s.challenges);
    }
    forall id | id in s.signatures ensures SignatureJustified(s.signatures[id], id, b, sessions) {
      assert SignatureJustified(s.signatures[id], id, b, s.sessions);
    }
  }

  lemma ProvenSessionKeepsAuth(s: State, session: SessionId, via: AuthMethod)
    requires AuthInv(s) && ContactInv(s) && Resolves(s, session) && s.sessions[session].authenticatedAt.None? && RequiresChallenge(via)
    requires Proven(s.challenges, session, s.sessions[session].signer, via)
    ensures AuthInv(ProvenSession(s, session, via))
  {
    var id := s.sessions[session].signer;
    ResolvedIsNotIntegration(s, session);
    AdvanceEvolves(s.signers, id, Authenticated);
    SessionProven(s, session, Advance(s.signers, id, Authenticated), via);
    SameAuthTables(s.(signers := Advance(s.signers, id, Authenticated),
                      sessions := s.sessions[session := s.sessions[session].(authenticatedAt := Some(s.now), authMethod := Some(via))]),
                   ProvenSession(s, session, via));
  }

  lemma SameAuthTables(s: State, t: State)
    requires AuthInv(s) && t.sessions == s.sessions && t.signers == s.signers && t.challenges == s.challenges
    requires t.signatures == s.signatures && t.now == s.now
    ensures AuthInv(t)
  {
  }

  lemma ProvenSessionKeepsRest(s: State, session: SessionId, via: AuthMethod)
    requires BaseInv(s) && Resolves(s, session)
    ensures CoreInv(ProvenSession(s, session, via)) && ContactInv(ProvenSession(s, session, via))
  {
    var id := s.sessions[session].signer;
    ResolvedIsNotIntegration(s, session);
    AdvanceKeepsCore(s, id, Authenticated);
    AdvanceKeepsContact(s, id, Authenticated, [Notice(SignerAuthenticated, Some(id))]);
  }

  lemma AcceptedCodeKeepsInv(s: State, session: SessionId, chosen: ChallengeId)
    requires BaseInv(s) && Resolves(s, session) && s.sessions[session].authenticatedAt.None? && IsChosen(s, session, chosen)
    requires s.now < s.challenges[chosen].expiresAt
    ensures BaseInv(ProvenSession(Consumed(s, chosen), session, s.challenges[chosen].via))
  {
    var c := s.challenges[chosen];
    var u := Consumed(s, chosen);
    ConsumedKeepsInv(s, chosen);
    assert ChallengeSound(c, s.signers, s.sessions);
    assert ProvenBy(u.challenges[chosen], session, s.sessions[session].signer, c.via);
    ProvenSessionKeepsAuth(u, session, c.via);
    ProvenSessionKeepsRest(u, session, c.via);
  }

  lemma VerifyOtpKeepsInv(s: State, session: SessionId, chosen: ChallengeId, code: Code)
    requires BaseInv(s)
    ensures BaseInv(VerifyOtp(s, session, chosen, code).0)
  {
    if !Resolves(s, session) || s.sessions[session].authenticatedAt.Some? || !IsChosen(s, session, chosen) {
      assert VerifyOtp(s, session, chosen, code).0 == s;
    } else if s.challenges[chosen].expiresAt <= s.now || s.challenges[chosen].attempts >= s.challenges[chosen].maxAttempts {
      assert VerifyOtp(s, session, chosen, code).0 == Invalidated(s, chosen);
      InvalidatedKeepsInv(s, chosen);
    } else if code != s.challenges[chosen].code {
      assert VerifyOtp(s, session, chosen, code).0 == WrongCode(s, chosen);
      WrongCodeKeepsInv(s, chosen);
    } else {
      assert VerifyOtp(s, session, chosen, code).0 == ProvenSession(Consumed(s, chosen), session, s.challenges[chosen].via);
      AcceptedCodeKeepsInv(s, session, chosen);
    }
  }

  // ---------------------------------------------------------------- signing and declining

  lemma ProgressCoherent(e: Envelope, a: Signers, signatures: map<SignerId, Signature>, id: SignerId, to: SignerStatus, now: Time, signatures': map<SignerId, Signature>)
    requires Coherent(e, a, signatures) && AcceptsActions(e)
    requires id in a && !Terminal(a[id].status)
    requires to.Signed? || (to.Declined? && !a[id].required)
    requires forall x :: x in signatures' <==> x in signatures || (x == id && to.Signed?)
    ensures Coherent(ProgressEnvelope(e, WithStatus(a, id, to), now), WithStatus(a, id, to), signatures')
  {
    var b := WithStatus(a, id, to);
    if to.Signed? {
      assert b[id].status.Signed?;
    } else {
      var x :| x in a && Open(a[x]);
      assert Open(b[x]);
      if SomeSigned(a) {
        var y :| y in a && a[y].status.Signed?;
        assert b[y].status.Signed?;
      }
      if SomeSigned(b) {
        var y :| y in b && b[y].status.Signed?;
        assert a[y].status.Signed?;
      }
    }
    if !AllRequiredSigned(b) {
      var x :| x in b && b[x].required && !b[x].status.Signed?;
      assert Open(b[x]);
    }
  }

  lemma SignedKeepsOrder(a: Signers, id: SignerId, to: SignerStatus)
    requires SignedInOrder(a) && id in a && !Terminal(a[id].status) && Terminal(to) && (to.Signed? ==> Reached(a, a[id].signingGroup))
    ensures SignedInOrder(WithStatus(a, id, to))
  {
    var b := WithStatus(a, id, to);
    WithStatusEvolves(a, id, to);
    forall x | x in b && b[x].status.Signed? ensures Reached(b, b[x].signingGroup) {
      ReachedKept(a, b, b[x].signingGroup);
    }
  }

  lemma FinishedKeepsRows(a: Signers, id: SignerId, to: SignerStatus, config: Config)
    requires NoneViewed(a) && IntegrationApart(a) && RowsWellFormed(a) && id in a && !Terminal(a[id].status) && Terminal(to)
    ensures var b := WithStatus(a, id, to);
            NoneViewed(b) && IntegrationApart(b) && RowsWellFormed(b) && (RowsActivatable(a, config) ==> RowsActivatable(b, config))
  {
  }

  lemma ProgressInvites(b: Signers)
    ensures InvitesJustified(b, ProgressMessages(b))
    ensures !AllRequiredSigned(b) ==> forall id | InviteJustified(b, id) && b[id].status.Pending? && SomeOpen(b) :: Named(ProgressMessages(b), id)
  {
    var toInvite := SignersToInvite(b, NextSigningGroup(b));
    forall id ensures id in toInvite <==> InviteJustified(b, id) && b[id].status.Pending? && SomeOpen(b) {
      InvitedMeansReached(b, id);
    }
    if !AllRequiredSigned(b) && toInvite != {} {
      assert InviteRequested(toInvite, false) in ProgressMessages(b);
    }
  }

  lemma ProgressContact(s: State, id: SignerId, to: SignerStatus, first: Message)
    requires ContactInv(s) && id in s.signers && !Terminal(s.signers[id].status) && (to.Signed? || to.Declined?)
    requires s.signers[id].authMethod.Integration? || Named(s.outbox, id)
    requires forall x | x in s.signers :: !s.signers[x].status.Expired?
    requires first.Notice?
    ensures var b := WithStatus(s.signers, id, to);
            var outbox := s.outbox + ([first] + ProgressMessages(b));
            InvitesJustified(b, outbox) && ApproachedNamed(b, outbox)
            && (AcceptsActions(ProgressEnvelope(s.envelope, b, s.now)) ==> InTurnNamed(b, outbox))
            && TokensNamed(s.tokens, b, outbox) && MailingsNamed(s.mailings, b, outbox) && SessionsNamed(s.sessions, b, outbox)
  {
    var b := WithStatus(s.signers, id, to);
    var more := [first] + ProgressMessages(b);
    WithStatusEvolves(s.signers, id, to);
    ProgressInvites(b);
    NamedKept([first], ProgressMessages(b));
    NamedKept(s.outbox, more);
    InvitesKept(s.signers, b, s.outbox, more);
    LinksKept(s, b, more);
    if AcceptsActions(ProgressEnvelope(s.envelope, b, s.now)) {
      assert !AllRequiredSigned(b);
      var x :| x in b && b[x].required && !b[x].status.Signed?;
      assert Open(b[x]);
    }
  }

  lemma RecordSignatureKeepsCore(s: State, id: SignerId, signature: Signature, before: seq<TrailEvent>)
    requires CoreInv(s) && AcceptsActions(s.envelope) && id in s.signers && !Terminal(s.signers[id].status)
    requires Reached(s.signers, s.signers[id].signingGroup)
    ensures CoreInv(RecordSignature(s, id, signature, before))
  {
    ProgressCoherent(s.envelope, s.signers, s.signatures, id, Signed, s.now, s.signatures[id := signature]);
    SignedKeepsOrder(s.signers, id, Signed);
    FinishedKeepsRows(s.signers, id, Signed, s.config);
  }

  lemma RecordSignatureKeepsContact(s: State, id: SignerId, signature: Signature, before: seq<TrailEvent>)
    requires CoreInv(s) && ContactInv(s) && AcceptsActions(s.envelope) && id in s.signers && !Terminal(s.signers[id].status)
    requires s.signers[id].authMethod.Integration? || Named(s.outbox, id)
    ensures ContactInv(RecordSignature(s, id, signature, before))
  {
    ProgressContact(s, id, Signed, Notice(SignatureCompleted, Some(id)));
  }

  lemma RecordSignatureKeepsAuth(s: State, id: SignerId, signature: Signature, before: seq<TrailEvent>)
    requires AuthInv(s) && id in s.signers && !Terminal(s.signers[id].status) && id !in s.signatures
    requires SignatureJustified(signature, id, s.signers, s.sessions)
    ensures AuthInv(RecordSignature(s, id, signature, before))
  {
    WithStatusEvolves(s.signers, id, Signed);
    AuthKept(s, WithStatus(s.signers, id, Signed));
  }

  lemma SignKeepsInv(s: State, session: SessionId, input: SignInput)
    requires BaseInv(s)
    ensures BaseInv(Sign(s, session, input).0)
  {
    if Sign(s, session, input).1.Done? {
      var id := s.sessions[session].signer;
      assert SessionJustified(s.sessions[session], session, s.signers, s.challenges);
      ResolvedIsNotIntegration(s, session);
      TurnMeansReached(s.signers, s.signers[id].signingGroup);
      var g := Signature(session, s.sessions[session].authMethod.value, s.now);
      var before := [TrailEvent(SignatureStarted, Some(id)), TrailEvent(ConsentAccepted, Some(id))];
      RecordSignatureKeepsCore(s, id, g, before);
      RecordSignatureKeepsContact(s, id, g, before);
      RecordSignatureKeepsAuth(s, id, g, before);
    }
  }

  lemma TechnicalSessionKeepsInv(s: State, id: SignerId, session: SessionId)
    requires BaseInv(s) && id in s.signers && s.signers[id].authMethod.Integration? && session !in s.sessions && !s.envelope.status.Draft?
    ensures BaseInv(WithTechnicalSession(s, id, session))
  {
    SameIsEvolution(s.signers);
    SessionAdded(s, s.signers, session, Session(id, s.now, true, Some(s.now), Some(Integration)));
  }

  lemma AttestedKeepsInv(s: State, id: SignerId, session: SessionId, g: Signature, before: seq<TrailEvent>)
    requires BaseInv(s) && AcceptsActions(s.envelope) && id in s.signers && !Terminal(s.signers[id].status) && id !in s.signatures
    requires s.signers[id].authMethod.Integration? && Reached(s.signers, s.signers[id].signingGroup)
    requires SignatureJustified(g, id, s.signers, s.sessions)
    ensures BaseInv(RecordSignature(s, id, g, before))
  {
    RecordSignatureKeepsCore(s, id, g, before);
    RecordSignatureKeepsContact(s, id, g, before);
    RecordSignatureKeepsAuth(s, id, g, before);
  }

  lemma SignByIntegrationKeepsInv(s: State, id: SignerId, session: SessionId)
    requires BaseInv(s)
    ensures BaseInv(SignByIntegration(s, id, session).0)
  {
    if SignByIntegration(s, id, session).1.Done? {
      TurnMeansReached(s.signers, s.signers[id].signingGroup);
      TechnicalSessionKeepsInv(s, id, session);
      AttestedKeepsInv(WithTechnicalSession(s, id, session), id, session, Signature(session, Integration, s.now),
                       [TrailEvent(SignatureByIntegration, Some(id))]);
    }
  }

  lemma RequiredDeclineCoherent(e: Envelope, a: Signers, signatures: map<SignerId, Signature>, id: SignerId)
    requires Coherent(e, a, signatures) && AcceptsActions(e) && id in a && !Terminal(a[id].status)
    ensures Coherent(e.(status := EnvelopeStatus.Declined), WithStatus(a, id, SignerStatus.Declined), signatures)
  {
  }

  lemma DeclineByRequiredKeepsCore(s: State, id: SignerId)
    requires CoreInv(s) && AcceptsActions(s.envelope) && id in s.signers && !Terminal(s.signers[id].status)
    ensures CoreInv(DeclinedByRequired(s, id))
  {
    RequiredDeclineCoherent(s.envelope, s.signers, s.signatures, id);
    SignedKeepsOrder(s.signers, id, SignerStatus.Declined);
    FinishedKeepsRows(s.signers, id, SignerStatus.Declined, s.config);
  }

  lemma DeclineByRequiredKeepsContact(s: State, id: SignerId)
    requires ContactInv(s) && id in s.signers && !Terminal(s.signers[id].status) && Named(s.outbox, id)
    ensures ContactInv(DeclinedByRequired(s, id))
  {
    WithStatusEvolves(s.signers, id, SignerStatus.Declined);
    ClosingKeepsContact(s, WithStatus(s.signers, id, SignerStatus.Declined), [Notice(SignerDeclined, Some(id))]);
  }

  lemma DeclineByRequiredKeepsAuth(s: State, id: SignerId)
    requires AuthInv(s) && id in s.signers && !Terminal(s.signers[id].status)
    ensures AuthInv(DeclinedByRequired(s, id))
  {
    WithStatusEvolves(s.signers, id, SignerStatus.Declined);
    RevocationKept(s, WithStatus(s.signers, id, SignerStatus.Declined));
  }

  lemma DeclineByOptionalKeepsCore(s: State, id: SignerId)
    requires CoreInv(s) && AcceptsActions(s.envelope) && id in s.signers && !Terminal(s.signers[id].status) && !s.signers[id].required
    ensures CoreInv(DeclinedByOptional(s, id))
  {
    ProgressCoherent(s.envelope, s.signers, s.signatures, id, SignerStatus.Declined, s.now, s.signatures);
    SignedKeepsOrder(s.signers, id, SignerStatus.Declined);
    FinishedKeepsRows(s.signers, id, SignerStatus.Declined, s.config);
  }

  lemma DeclineByOptionalKeepsContact(s: State, id: SignerId)
    requires CoreInv(s) && ContactInv(s) && AcceptsActions(s.envelope) && id in s.signers && !Terminal(s.signers[id].status)
    requires Named(s.outbox, id)
    ensures ContactInv(DeclinedByOptional(s, id))
  {
    ProgressContact(s, id, SignerStatus.Declined, Notice(SignerDeclined, Some(id)));
  }

  lemma DeclineByOptionalKeepsAuth(s: State, id: SignerId)
    requires AuthInv(s) && id in s.signers && !Terminal(s.signers[id].status)
    ensures AuthInv(DeclinedByOptional(s, id))
  {
    WithStatusEvolves(s.signers, id, SignerStatus.Declined);
    AuthKept(s, WithStatus(s.signers, id, SignerStatus.Declined));
  }

  lemma DeclineKeepsInv(s: State, session: SessionId)
    requires BaseInv(s)
    ensures BaseInv(Decline(s, session).0)
  {
    if Decline(s, session).1.Done? {
      var id := s.sessions[session].signer;
      ResolvedIsNotIntegration(s, session);
      if s.signers[id].required {
        DeclineByRequiredKeepsCore(s, id);
        DeclineByRequiredKeepsContact(s, id);
        DeclineByRequiredKeepsAuth(s, id);
      } else {
        DeclineByOptionalKeepsCore(s, id);
        DeclineByOptionalKeepsContact(s, id);
        DeclineByOptionalKeepsAuth(s, id);
      }
    }
  }

  // ---------------------------------------------------------------- every step

  lemma EnvelopeStepKeepsInv(s: State, a: Action)
    requires BaseInv(s) && EnvelopeAction(a)
    ensures BaseInv(Step(s, a).0)
  {
    match a
    case DoActivate(q) => assert Step(s, a) == Activate(s, q); ActivateKeepsCore(s, q); ActivateKeepsContact(s, q); ActivateKeepsAuth(s, q);
    case DoCancel => assert Step(s, a) == Cancel(s); CancelKeepsCore(s); CancelKeepsContact(s); CancelKeepsAuth(s);
    case DoExpire => assert Step(s, a) == Expire(s); ExpireKeepsCore(s); ExpireKeepsContact(s); ExpireKeepsAuth(s);
    case DoComplete(f) => assert Step(s, a) == Complete(s, f); CompleteKeepsCore(s, f); CompleteKeepsContact(s, f); CompleteKeepsAuth(s, f);
    case DoRemind(t) => assert Step(s, a) == Remind(s, t); RemindKeepsRest(s, t); RemindKeepsContact(s, t);
  }

  lemma InviteSentKeepsInv(s: State, token: TokenId)
    requires BaseInv(s)
    ensures BaseInv(InviteSent(s, token).0)
  {
    InviteSentKeepsCore(s, token);
    InviteSentKeepsContact(s, token);
    InviteSentKeepsAuth(s, token);
  }

  lemma InviteStepKeepsInv(s: State, a: Action)
    requires BaseInv(s) && InviteAction(a)
    ensures BaseInv(Step(s, a).0)
  {
    match a
    case DoCheckInvite(id, t, r) => assert Step(s, a) == CheckInvite(s, id, t, r); CheckInviteKeepsInv(s, id, t, r);
    case DoIssueLink(t) => assert Step(s, a) == IssueLink(s, t); IssueLinkKeepsInv(s, t);
    case DoInviteSent(t) => assert Step(s, a) == InviteSent(s, t); InviteSentKeepsInv(s, t);
    case DoInviteFailed(t) => assert Step(s, a) == InviteFailed(s, t); InviteFailedKeepsInv(s, t);
  }

  lemma SessionStepKeepsInv(s: State, a: Action)
    requires BaseInv(s) && OpeningsOk(s) && SessionAction(a)
    ensures BaseInv(Step(s, a).0)
  {
    match a
    case DoCheckLink(t, i) => assert Step(s, a) == CheckLink(s, t, i); CheckLinkKeepsInv(s, t, i);
    case DoOpenSession(i) => assert Step(s, a) == OpenSession(s, i); OpenSessionKeepsInv(s, i);
    case DoEndSession(i) => assert Step(s, a) == EndSession(s, i); EndSessionKeepsInv(s, i);
  }

  lemma CodeStepKeepsInv(s: State, a: Action)
    requires BaseInv(s) && CodeAction(a)
    ensures BaseInv(Step(s, a).0)
  {
    match a
    case DoRequestOtp(i, c, ch, code) => assert Step(s, a) == RequestOtp(s, i, c, ch, code); RequestOtpKeepsInv(s, i, c, ch, code);
    case DoVerifyOtp(i, c, code) => assert Step(s, a) == VerifyOtp(s, i, c, code); VerifyOtpKeepsInv(s, i, c, code);
    case DoViewDocument(i, seen) => assert Step(s, a) == ViewDocument(s, i, seen); ViewKeepsInv(s, i, seen);
  }

  lemma SignerStepKeepsInv(s: State, a: Action)
    requires BaseInv(s) && (a.DoSign? || a.DoSignByIntegration? || a.DoDecline?)
    ensures BaseInv(Step(s, a).0)
  {
    match a
    case DoSign(i, input) => assert Step(s, a) == Sign(s, i, input); SignKeepsInv(s, i, input);
    case DoSignByIntegration(id, i) => assert Step(s, a) == SignByIntegration(s, id, i); SignByIntegrationKeepsInv(s, id, i);
    case DoDecline(i) => assert Step(s, a) == Decline(s, i); DeclineKeepsInv(s, i);
  }

  lemma StepKeepsBase(s: State, a: Action)
    requires BaseInv(s) && OpeningsOk(s)
    ensures BaseInv(Step(s, a).0)
  {
    if DraftEdit(a) {
      DraftEditKeepsInv(s, a);
    } else if a.Tick? {
      TickKeepsInv(s, a.elapsed);
    } else if EnvelopeAction(a) {
      EnvelopeStepKeepsInv(s, a);
    } else if InviteAction(a) {
      InviteStepKeepsInv(s, a);
    } else if SessionAction(a) {
      SessionStepKeepsInv(s, a);
    } else if CodeAction(a) {
      CodeStepKeepsInv(s, a);
    } else {
      SignerStepKeepsInv(s, a);
    }
  }
}
