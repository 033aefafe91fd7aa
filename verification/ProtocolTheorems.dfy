/** The promises of the signing protocol, over every run. */
module ProtocolTheorems {
  import opened Basics
  import opened AuthMethods
  import opened EnvelopeState
  import opened SigningProtocol
  import opened ProtocolBase
  import opened ProtocolInvariant
  import opened ProtocolSteps

  // ---------------------------------------------------------------- coherence and order in every reachable state

  /** Status, signatures and the finalization request agree; nobody is ever VIEWED, because a first view
      needs an authenticated session and authentication has already moved the signer past VIEWED. */
  lemma ReachableIsCoherent(s: State)
    requires Reachable(s)
    ensures Coherent(s.envelope, s.signers, s.signatures)
    ensures NoneViewed(s.signers)
  {
    ReachableInv(s);
  }

  /** Whoever signed in group g found every required signer of the lower groups signed. */
  lemma ReachableSignsInOrder(s: State, later: SignerId, earlier: SignerId)
    requires Reachable(s) && later in s.signers && earlier in s.signers
    requires s.signers[later].status.Signed?
    requires s.signers[earlier].required && s.signers[earlier].signingGroup < s.signers[later].signingGroup
    ensures s.signers[earlier].status.Signed?
  {
    ReachableInv(s);
    assert Reached(s.signers, s.signers[later].signingGroup);
    assert !Open(s.signers[earlier]);
  }

  /** While signatures are awaited, every pending signer up to the current group was named by an invite event,
      and no invite event names a signer of a later group. */
  lemma ReachableInvitesAreExact(s: State, id: SignerId)
    requires Reachable(s) && AcceptsActions(s.envelope) && id in s.signers
    ensures NextSigningGroup(s.signers).Some?
    ensures var current := NextSigningGroup(s.signers).value;
            && (s.signers[id].signingGroup <= current && !s.signers[id].authMethod.Integration? ==> Named(s.outbox, id))
            && (Named(s.outbox, id) ==> s.signers[id].signingGroup <= current && !s.signers[id].authMethod.Integration?)
  {
    ReachableInv(s);
    NextGroupIsLeastOpen(s.signers);
    var current := NextSigningGroup(s.signers).value;
    if s.signers[id].signingGroup <= current && !s.signers[id].authMethod.Integration? {
      assert InviteJustified(s.signers, id);
    }
    if Named(s.outbox, id) {
      NamedMeansJustified(s.signers, s.outbox, id);
    }
  }

  /** An OTP signer signed in a session of their own, proven by a satisfying code of that very session and signer
      that was consumed in time and before its attempts ran out; and nobody has two live codes. */
  lemma ReachableOtpIsSound(s: State, id: SignerId)
    requires Reachable(s) && id in s.signatures && id in s.signers
    requires RequiresChallenge(s.signers[id].authMethod)
    ensures var g := s.signatures[id];
            && g.session in s.sessions && s.sessions[g.session].signer == id
            && SessionSatisfies(s.signers[id].authMethod, Some(g.via))
            && Proven(s.challenges, g.session, id, g.via)
    ensures OneLiveChallenge(s.challenges)
  {
    ReachableInv(s);
    var g := s.signatures[id];
    assert SignatureJustified(g, id, s.signers, s.sessions);
    assert SessionJustified(s.sessions[g.session], g.session, s.signers, s.challenges);
  }

  /** Some required signer is waiting, able to act and in turn. */
  lemma ReachableStrandsNobody(s: State) returns (id: SignerId)
    requires Reachable(s) && AcceptsActions(s.envelope)
    ensures id in s.signers && Open(s.signers[id]) && !Terminal(s.signers[id].status)
    ensures IsSignersTurn(s.signers, s.signers[id].signingGroup)
  {
    ReachableInv(s);
    NextGroupIsLeastOpen(s.signers);
    id :| id in s.signers && Open(s.signers[id]) && s.signers[id].signingGroup == NextSigningGroup(s.signers).value;
  }

  // ---------------------------------------------------------------- what later steps cannot undo

  /** Once finalization is requested, no step but the finalization commit changes the envelope's status, and no step
      at all changes who signed and how, the documents that were signed, or the fields; the trail only grows. */
  ghost predicate Frozen(s: State, t: State) {
    && t.envelope.finalizationRequestedAt == s.envelope.finalizationRequestedAt
    && (t.envelope.status == s.envelope.status || t.envelope.status.Completed?)
    && t.signatures == s.signatures
    && (forall id | id in s.signers :: id in t.signers && t.signers[id] == s.signers[id].(status := t.signers[id].status)
                                        && (t.signers[id].status.Signed? <==> s.signers[id].status.Signed?))
    && SameDocuments(s.documents, t.documents) && t.fields == s.fields
    && s.trail <= t.trail
  }

  lemma MovesFreeze(s: State, t: State)
    requires Inv(s) && Inv(t) && Moves(s, t) && s.envelope.finalizationRequestedAt.Some?
    ensures Frozen(s, t)
  {
    forall id | id in s.signers ensures SignerEvolves(s.signers[id], t.signers[id]) {
    }
    forall id ensures id in s.signatures <==> id in s.signers && s.signers[id].status.Signed? {
    }
    forall id ensures id in t.signatures <==> id in t.signers && t.signers[id].status.Signed? {
    }
  }

  lemma RequestFreezes(s: State, a: Action)
    requires Inv(s) && s.envelope.finalizationRequestedAt.Some?
    ensures Frozen(s, Step(s, a).0)
  {
    StepMoves(s, a);
    StepKeepsInv(s, a);
    MovesFreeze(s, Step(s, a).0);
  }

  lemma {:induction false} RequestFreezesForever(s: State, actions: seq<Action>)
    requires Inv(s) && s.envelope.finalizationRequestedAt.Some?
    ensures Frozen(s, Run(s, actions))
    decreases |actions|
  {
    if actions != [] {
      var before := actions[..|actions| - 1];
      RequestFreezesForever(s, before);
      RunKeepsInv(s, before);
      RequestFreezes(Run(s, before), actions[|actions| - 1]);
      FrozenTransitive(s, Run(s, before), Run(s, actions));
    }
  }

  lemma FrozenTransitive(s: State, t: State, u: State)
    requires Frozen(s, t) && Frozen(t, u) && (t.envelope.status.Completed? ==> u.envelope.status.Completed?)
    ensures Frozen(s, u)
  {
  }

  lemma GroupKept(s: State, t: State)
    requires Inv(s) && Inv(t) && SignersEvolve(s.signers, t.signers) && AcceptsActions(s.envelope) && AcceptsActions(t.envelope)
    ensures NextSigningGroup(s.signers).Some? && NextSigningGroup(t.signers).Some?
    ensures NextSigningGroup(s.signers).value <= NextSigningGroup(t.signers).value
  {
    NextGroupIsLeastOpen(s.signers);
    NextGroupIsLeastOpen(t.signers);
    ReachedKept(s.signers, t.signers, NextSigningGroup(s.signers).value);
  }

  lemma EvolveJoins(a: Signers, b: Signers, c: Signers)
    requires SignersEvolve(a, b) && SignersEvolve(b, c)
    ensures SignersEvolve(a, c)
  {
    forall id | id in a ensures SignerEvolves(a[id], c[id]) {
      assert SignerEvolves(a[id], b[id]) && SignerEvolves(b[id], c[id]);
    }
  }

  lemma StepEvolves(s: State, a: Action)
    requires Inv(s) && !s.envelope.status.Draft?
    ensures SignersEvolve(s.signers, Step(s, a).0.signers) && !Step(s, a).0.envelope.status.Draft?
  {
    StepMoves(s, a);
  }

  lemma {:induction false} RunEvolves(s: State, actions: seq<Action>)
    requires Inv(s) && !s.envelope.status.Draft?
    ensures SignersEvolve(s.signers, Run(s, actions).signers) && !Run(s, actions).envelope.status.Draft?
    decreases |actions|
  {
    if actions == [] {
      SameIsEvolution(s.signers);
    } else {
      RunEvolves(s, actions[..|actions| - 1]);
      RunKeepsInv(s, actions[..|actions| - 1]);
      StepEvolves(Run(s, actions[..|actions| - 1]), actions[|actions| - 1]);
      EvolveJoins(s.signers, Run(s, actions[..|actions| - 1]).signers, Run(s, actions).signers);
    }
  }

  /** Between any two moments at which signatures are awaited, whatever happens in between, the current group
      does not decrease. */
  lemma GroupNeverDecreases(s: State, actions: seq<Action>)
    requires Inv(s) && AcceptsActions(s.envelope) && AcceptsActions(Run(s, actions).envelope)
    ensures NextSigningGroup(s.signers).Some? && NextSigningGroup(Run(s, actions).signers).Some?
    ensures NextSigningGroup(s.signers).value <= NextSigningGroup(Run(s, actions).signers).value
  {
    RunEvolves(s, actions);
    RunKeepsInv(s, actions);
    GroupKept(s, Run(s, actions));
  }
}
