/** What one-time codes were worth, over whole runs: a challenge counts the wrong codes that were entered for it, and is
    consumed exactly by its own code. */
module ProtocolCodes {
  import opened Basics
  import opened AuthMethods
  import opened EnvelopeState
  import opened EnvelopeFields
  import opened SigningProtocol
  import opened ProtocolBase
  import opened ProtocolInvariant
  import opened ProtocolTheorems
  import opened ProtocolOutcomes
  import opened ProtocolTrail

  /** This action enters a code for challenge `c` at a moment when the challenge can be answered. */
  ghost predicate Enters(s: State, a: Action, c: ChallengeId) {
    a.DoVerifyOtp? && a.challenge == c && Answerable(s, a.session, c)
  }

  ghost predicate Misses(s: State, a: Action, c: ChallengeId) {
    Enters(s, a, c) && a.code != s.challenges[c].code
  }

  ghost predicate Hits(s: State, a: Action, c: ChallengeId) {
    Enters(s, a, c) && a.code == s.challenges[c].code
  }

  /** How many wrong codes a run enters for a challenge. */
  ghost function WrongCodes(s: State, actions: seq<Action>, c: ChallengeId): nat
    decreases |actions|
  {
    if actions == [] then 0
    else
      var front := actions[..|actions| - 1];
      WrongCodes(s, front, c) + Once(Misses(Run(s, front), actions[|actions| - 1], c))
  }

  /** How many right ones. */
  ghost function RightCodes(s: State, actions: seq<Action>, c: ChallengeId): nat
    decreases |actions|
  {
    if actions == [] then 0
    else
      var front := actions[..|actions| - 1];
      RightCodes(s, front, c) + Once(Hits(Run(s, front), actions[|actions| - 1], c))
  }

  // ---------------------------------------------------------------- steps that touch no challenge

  predicate SameChallenges(s: State, t: State) {
    t.challenges == s.challenges
  }

  lemma DraftEditSameChallenges(s: State, a: Action)
    requires DraftEdit(a) && !a.DoAddSigner? && !a.DoRemoveSigner?
    ensures SameChallenges(s, Step(s, a).0)
  {
  }

  lemma SignerEditSameChallenges(s: State, a: Action)
    requires a.DoAddSigner? || a.DoRemoveSigner? || a.Tick?
    ensures SameChallenges(s, Step(s, a).0)
  {
  }

  lemma ActivateSameChallenges(s: State, quota: bool)
    ensures SameChallenges(s, Activate(s, quota).0)
  {
  }

  lemma CancelSameChallenges(s: State)
    ensures SameChallenges(s, Cancel(s).0)
  {
  }

  lemma ExpireSameChallenges(s: State)
    ensures SameChallenges(s, Expire(s).0)
  {
  }

  lemma CommitSameChallenges(s: State, finals: seq<StorageKey>)
    ensures SameChallenges(s, Complete(s, finals).0)
  {
  }

  lemma RemindSameChallenges(s: State, targets: set<SignerId>)
    ensures SameChallenges(s, Remind(s, targets).0)
  {
  }

  lemma InviteSameChallenges(s: State, a: Action)
    requires InviteAction(a) || SessionAction(a)
    ensures SameChallenges(s, Step(s, a).0)
  {
  }

  lemma ViewSameChallenges(s: State, session: SessionId, seen: bool)
    ensures SameChallenges(s, ViewDocument(s, session, seen).0)
  {
  }

  lemma SignSameChallenges(s: State, session: SessionId, input: SignInput)
    ensures SameChallenges(s, Sign(s, session, input).0)
  {
  }

  lemma IntegrationSameChallenges(s: State, id: SignerId, session: SessionId)
    ensures SameChallenges(s, SignByIntegration(s, id, session).0)
  {
  }

  lemma DeclineSameChallenges(s: State, session: SessionId)
    ensures SameChallenges(s, Decline(s, session).0)
  {
    if Decline(s, session).1 == Done {
      RefusalSameChallenges(s, s.sessions[session].signer);
    }
  }

  lemma RefusalSameChallenges(s: State, id: SignerId)
    requires id in s.signers
    ensures SameChallenges(s, DeclinedByRequired(s, id)) && SameChallenges(s, DeclinedByOptional(s, id))
  {
  }

  lemma OtherSameChallenges(s: State, a: Action)
    requires !a.DoVerifyOtp? && !a.DoRequestOtp?
    ensures SameChallenges(s, Step(s, a).0)
  {
    if a.DoAddSigner? || a.DoRemoveSigner? || a.Tick? {
      SignerEditSameChallenges(s, a);
    } else if DraftEdit(a) {
      DraftEditSameChallenges(s, a);
    } else if a.DoComplete? {
      CommitSameChallenges(s, a.finals);
    } else if a.DoRemind? {
      RemindSameChallenges(s, a.targets);
    } else if a.DoExpire? {
      ExpireSameChallenges(s);
    } else if a.DoCancel? {
      CancelSameChallenges(s);
    } else if a.DoActivate? {
      ActivateSameChallenges(s, a.quota);
    } else if a.DoSign? {
      SignSameChallenges(s, a.session, a.input);
    } else if a.DoSignByIntegration? {
      IntegrationSameChallenges(s, a.signer, a.session);
    } else if a.DoDecline? {
      DeclineSameChallenges(s, a.session);
    } else if a.DoViewDocument? {
      ViewSameChallenges(s, a.session, a.seen);
    } else {
      InviteSameChallenges(s, a);
    }
  }

  // ---------------------------------------------------------------- what a step does to a challenge

  /** A wrong code counts one attempt, the right one consumes, and nothing but those and the invalidation changes. */
  ghost predicate ChallengeSteps(s: State, a: Action, t: State, c: ChallengeId) {
    if c in s.challenges then
      && c in t.challenges
      && t.challenges[c] == s.challenges[c].(attempts := s.challenges[c].attempts + Once(Misses(s, a, c)),
                                             consumedAt := if Hits(s, a, c) then Some(s.now) else s.challenges[c].consumedAt,
                                             invalidated := t.challenges[c].invalidated)
    else c in t.challenges ==> t.challenges[c].attempts == 0 && t.challenges[c].consumedAt == None
  }

  lemma VerifySteps(s: State, session: SessionId, chosen: ChallengeId, code: Code, c: ChallengeId)
    ensures ChallengeSteps(s, DoVerifyOtp(session, chosen, code), VerifyOtp(s, session, chosen, code).0, c)
  {
    if !Answerable(s, session, chosen) {
      UnanswerableSteps(s, session, chosen, code, c);
    } else {
      AnswerSteps(s, session, chosen, code, c);
    }
  }

  lemma UnanswerableSteps(s: State, session: SessionId, chosen: ChallengeId, code: Code, c: ChallengeId)
    requires !Answerable(s, session, chosen)
    ensures ChallengeSteps(s, DoVerifyOtp(session, chosen, code), VerifyOtp(s, session, chosen, code).0, c)
  {
    UnanswerableChanges(s, session, chosen, code);
  }

  lemma AnswerSteps(s: State, session: SessionId, chosen: ChallengeId, code: Code, c: ChallengeId)
    requires Answerable(s, session, chosen)
    ensures ChallengeSteps(s, DoVerifyOtp(session, chosen, code), VerifyOtp(s, session, chosen, code).0, c)
  {
    if code == s.challenges[chosen].code {
      RightCodeWrites(s, session, chosen);
    } else {
      WrongCodeCounts(s, session, chosen, code);
    }
  }

  lemma RequestSteps(s: State, session: SessionId, challenge: ChallengeId, channel: OtpChannel, code: Code, c: ChallengeId)
    ensures ChallengeSteps(s, DoRequestOtp(session, challenge, channel, code), RequestOtp(s, session, challenge, channel, code).0, c)
  {
    if RequestOtp(s, session, challenge, channel, code).1 == Done {
      RequestWrites(s, session, challenge, channel, code);
      RequestAnswers(s, session, challenge, channel, code);
    } else {
      RequestAnswers(s, session, challenge, channel, code);
    }
  }

  lemma StepOnChallenge(s: State, a: Action, c: ChallengeId)
    ensures ChallengeSteps(s, a, Step(s, a).0, c)
  {
    if a.DoVerifyOtp? {
      assert Step(s, a) == VerifyOtp(s, a.session, a.challenge, a.code);
      VerifySteps(s, a.session, a.challenge, a.code, c);
    } else if a.DoRequestOtp? {
      assert Step(s, a) == RequestOtp(s, a.session, a.challenge, a.channel, a.code);
      RequestSteps(s, a.session, a.challenge, a.channel, a.code, c);
    } else {
      OtherSameChallenges(s, a);
      SameSteps(s, a, Step(s, a).0, c);
    }
  }

  lemma SameSteps(s: State, a: Action, t: State, c: ChallengeId)
    requires SameChallenges(s, t) && !a.DoVerifyOtp? && (c !in s.challenges ==> c !in t.challenges)
    ensures ChallengeSteps(s, a, t, c)
  {
  }

  // ---------------------------------------------------------------- over runs

  /** However a run goes, a challenge that it brought forth counts the wrong codes entered for it, was consumed exactly
      if its right code was entered, and that happened at most once. */
  lemma {:induction false} CodesAreCounted(s: State, actions: seq<Action>, c: ChallengeId)
    requires c !in s.challenges
    ensures var t := Run(s, actions);
            if c in t.challenges
            then t.challenges[c].attempts == WrongCodes(s, actions, c) && Once(t.challenges[c].consumedAt.Some?) == RightCodes(s, actions, c)
            else WrongCodes(s, actions, c) == 0 && RightCodes(s, actions, c) == 0
    decreases |actions|
  {
    if actions != [] {
      var front := actions[..|actions| - 1];
      CodesAreCounted(s, front, c);
      StepOnChallenge(Run(s, front), actions[|actions| - 1], c);
    }
  }

  /** At step `k` of the run somebody enters, in this session, the code of challenge `c`. */
  ghost predicate AnsweredAt(s: State, actions: seq<Action>, k: nat, session: SessionId, c: ChallengeId) {
    && k < |actions| && Hits(Run(s, actions[..k]), actions[k], c) && actions[k].session == session
  }

  /** What a consumed challenge says of the answer: the code, the session and the time. */
  ghost predicate AnsweredAs(s: State, actions: seq<Action>, k: nat, c: ChallengeId, row: Challenge) {
    && AnsweredAt(s, actions, k, row.session, c) && actions[k].code == row.code
    && row.consumedAt == Some(Run(s, actions[..k]).now)
  }

  lemma StaysAnswered(s: State, front: seq<Action>, last: Action, k: nat, c: ChallengeId, row: Challenge)
    requires AnsweredAs(s, front, k, c, row)
    ensures AnsweredAs(s, front + [last], k, c, row)
  {
    assert (front + [last])[..k] == front[..k];
  }

  lemma AnsweredNow(s: State, front: seq<Action>, last: Action, c: ChallengeId, row: Challenge)
    requires Hits(Run(s, front), last, c) && row.session == Run(s, front).challenges[c].session
    requires row.code == Run(s, front).challenges[c].code && row.consumedAt == Some(Run(s, front).now)
    ensures AnsweredAs(s, front + [last], |front|, c, row)
  {
    assert (front + [last])[..|front|] == front;
  }

  /** A consumed challenge was answered: at some step its own code was entered, in its own session, at the time noted. */
  lemma {:induction false} ConsumedWasAnswered(s: State, actions: seq<Action>, c: ChallengeId) returns (k: nat)
    requires c !in s.challenges
    requires c in Run(s, actions).challenges && Run(s, actions).challenges[c].consumedAt.Some?
    ensures AnsweredAs(s, actions, k, c, Run(s, actions).challenges[c])
    decreases |actions|
  {
    var front, last := actions[..|actions| - 1], actions[|actions| - 1];
    var row := Run(s, actions).challenges[c];
    assert front + [last] == actions;
    StepOnChallenge(Run(s, front), last, c);
    if c in Run(s, front).challenges && Run(s, front).challenges[c].consumedAt.Some? {
      k := ConsumedWasAnswered(s, front, c);
      StaysAnswered(s, front, last, k, c, Run(s, front).challenges[c]);
      assert !Hits(Run(s, front), last, c);
      assert AnsweredAs(s, actions, k, c, row);
    } else {
      k := |front|;
      AnsweredNow(s, front, last, c, row);
    }
  }

  /** Nobody who has to prove themselves by a code signs without one: the session of the signature was authenticated by
      a challenge of its own, and at some step of the run the code of that challenge was entered in that session,
      in time, after fewer wrong ones than are allowed. */
  lemma SignedByTheRightCode(config: Config, now: Time, sequential: bool, actions: seq<Action>, id: SignerId) returns (k: nat, c: ChallengeId)
    requires ValidConfig(config)
    requires var s := Run(NewEnvelope(config, now, sequential), actions);
             id in s.signatures && id in s.signers && RequiresChallenge(s.signers[id].authMethod)
    ensures var o := NewEnvelope(config, now, sequential); var s := Run(o, actions);
            && c in s.challenges && s.challenges[c].signer == id
            && AnsweredAt(o, actions, k, s.signatures[id].session, c) && actions[k].code == s.challenges[c].code
            && WrongCodes(o, actions, c) < s.challenges[c].maxAttempts
            && SessionSatisfies(s.signers[id].authMethod, Some(s.challenges[c].via))
  {
    var o := NewEnvelope(config, now, sequential);
    var s := Run(o, actions);
    assert Reachable(s);
    ReachableOtpIsSound(s, id);
    var g := s.signatures[id];
    assert Proven(s.challenges, g.session, id, g.via);
    c :| c in s.challenges && ProvenBy(s.challenges[c], g.session, id, g.via);
    CodesAreCounted(o, actions, c);
    k := ConsumedWasAnswered(o, actions, c);
  }
}
