/** An attempt that nobody disturbs, on storage that works, completes the envelope. */
module FinalizationLiveness {
  import opened Basics
  import opened EnvelopeState
  import opened SigningProtocol
  import opened ProtocolBase
  import opened ProtocolInvariant
  import opened ProtocolSteps
  import opened ProtocolLiveness
  import opened Finalization
  import opened FinalizationInvariant
  import opened FinalizationService

  /** Attempt `i` has stored the first `n` final documents of a requested envelope. */
  ghost predicate Storing(s: System, i: AttemptId, n: nat) {
    && SystemInv(s) && RequestedFinalization(s.db)
    && i in s.attempts && s.attempts[i].phase.Uploading?
    && |s.attempts[i].uploaded| == n <= |s.attempts[i].documents| == |s.db.documents|
  }

  lemma KeyIsNew(s: System, i: AttemptId, n: nat)
    requires Storing(s, i, n)
    ensures NextKey(s.attempts[i], i) !in s.objects
  {
    NextKeyIsNew(s, i);
  }

  lemma StoreFinalIs(s: System, i: AttemptId)
    requires i in s.attempts && s.attempts[i].phase.Uploading? && |s.attempts[i].uploaded| < |s.attempts[i].documents|
    ensures SystemStep(s, StoreFinal(i, true)) == Store(s, i, true, Uploading)
  {
  }

  lemma StoreReportIs(s: System, i: AttemptId)
    requires i in s.attempts && s.attempts[i].phase.Uploading? && |s.attempts[i].uploaded| == |s.attempts[i].documents|
    ensures SystemStep(s, StoreReport(i, true)) == Store(s, i, true, Committing)
  {
  }

  lemma StoresOne(s: System, i: AttemptId, n: nat)
    requires Storing(s, i, n) && n < |s.db.documents|
    ensures Storing(Store(s, i, true, Uploading), i, n + 1)
    ensures Store(s, i, true, Uploading).db == s.db
  {
    KeyIsNew(s, i, n);
    StoreKeepsInv(s, i, true, Uploading);
  }

  lemma RunLast(s: System, xs: seq<SystemAction>, x: SystemAction)
    ensures SystemRun(s, xs + [x]) == SystemStep(SystemRun(s, xs), x)
  {
    assert (xs + [x])[..|xs|] == xs;
  }

  lemma RunTo(s: System, xs: seq<SystemAction>, x: SystemAction, t: System, u: System)
    requires SystemRun(s, xs) == t && SystemStep(t, x) == u
    ensures SystemRun(s, xs + [x]) == u
  {
    RunLast(s, xs, x);
  }

  lemma {:induction false} StoresAll(s: System, i: AttemptId, n: nat) returns (xs: seq<SystemAction>)
    requires Storing(s, i, 0) && n <= |s.db.documents|
    ensures |xs| == n
    ensures Storing(SystemRun(s, xs), i, n) && SystemRun(s, xs).db == s.db
  {
    xs := [];
    if n > 0 {
      xs := StoresAll(s, i, n - 1);
      StoresNext(s, i, n, xs);
      xs := xs + [StoreFinal(i, true)];
    }
  }

  lemma StoresNext(s: System, i: AttemptId, n: nat, xs: seq<SystemAction>)
    requires 0 < n <= |s.db.documents| && SystemRun(s, xs).db == s.db && Storing(SystemRun(s, xs), i, n - 1)
    ensures Storing(SystemRun(s, xs + [StoreFinal(i, true)]), i, n) && SystemRun(s, xs + [StoreFinal(i, true)]).db == s.db
  {
    var t := SystemRun(s, xs);
    StoreFinalIs(t, i);
    StoresOne(t, i, n - 1);
    RunTo(s, xs, StoreFinal(i, true), t, Store(t, i, true, Uploading));
  }

  lemma Publishes(s: System, i: AttemptId)
    requires Storing(s, i, |s.db.documents|)
    ensures var t := Store(s, i, true, Committing);
            && i in t.attempts && t.attempts[i].phase.Committing?
            && var u := CommitAttempt(t, i); u.db.envelope.status.Completed? && u.report.Some? && u.report.value.attempt == i
  {
    KeyIsNew(s, i, |s.db.documents|);
    Commits(Store(s, i, true, Committing), i);
  }

  lemma Commits(t: System, i: AttemptId)
    requires RequestedFinalization(t.db) && i in t.attempts && |t.attempts[i].uploaded| == |t.db.documents| + 1
    ensures var u := CommitAttempt(t, i); u.db.envelope.status.Completed? && u.report.Some? && u.report.value.attempt == i
  {
  }

  lemma CommitIs(s: System, i: AttemptId)
    requires i in s.attempts && s.attempts[i].phase.Committing?
    ensures SystemStep(s, Commit(i)) == CommitAttempt(s, i)
  {
  }

  /** The four reads of an attempt that nobody disturbs. */
  function AfterReading(s: System, i: AttemptId): System {
    s.(attempts := s.attempts[i := Attempt(Reading({}), s.db.documents, s.db.fields, s.db.signers, s.db.signatures, [], [], {})])
  }

  function Opening(i: AttemptId): seq<SystemAction> {
    [Begin(i)] + [Read(i, Documents)] + [Read(i, Fields)] + [Read(i, SignerRows)] + [Read(i, Signatures)]
  }

  lemma ReadsAll(s: System, i: AttemptId)
    requires RequestedFinalization(s.db) && i !in s.attempts
    ensures SystemRun(s, Opening(i)) == AfterReading(s, i)
  {
    var a := Started(s.db.envelope);
    BeginIs(s, i);
    var xs := [Begin(i)];
    ReadsOne(s, i, xs, a, Documents);
    a, xs := WithPart(a, Documents, s.db), xs + [Read(i, Documents)];
    ReadsOne(s, i, xs, a, Fields);
    a, xs := WithPart(a, Fields, s.db), xs + [Read(i, Fields)];
    ReadsOne(s, i, xs, a, SignerRows);
    a, xs := WithPart(a, SignerRows, s.db), xs + [Read(i, SignerRows)];
    ReadsOne(s, i, xs, a, Signatures);
    assert WithPart(a, Signatures, s.db).phase.pending == {};
  }

  lemma BeginIs(s: System, i: AttemptId)
    requires i !in s.attempts
    ensures SystemRun(s, [Begin(i)]) == Update(s, i, Started(s.db.envelope))
  {
    RunLast(s, [], Begin(i));
    assert [] + [Begin(i)] == [Begin(i)];
  }

  lemma ReadsOne(s: System, i: AttemptId, xs: seq<SystemAction>, a: Attempt, part: Part)
    requires SystemRun(s, xs) == Update(s, i, a) && a.phase.Reading? && part in a.phase.pending
    ensures SystemRun(s, xs + [Read(i, part)]) == Update(s, i, WithPart(a, part, s.db))
  {
    ReadIs(Update(s, i, a), i, part);
    RunTo(s, xs, Read(i, part), Update(s, i, a), Update(s, i, WithPart(a, part, s.db)));
  }

  lemma ReadIs(s: System, i: AttemptId, part: Part)
    requires i in s.attempts && s.attempts[i].phase.Reading? && part in s.attempts[i].phase.pending
    ensures SystemStep(s, Read(i, part)) == Update(s, i, WithPart(s.attempts[i], part, s.db))
  {
  }

  lemma Validates(s: System, i: AttemptId)
    requires SystemInv(s) && RequestedFinalization(s.db) && i !in s.attempts
    ensures var t := SystemStep(SystemStep(AfterReading(s, i), Check(i, true)), LoadTrail(i, true));
            t.db == s.db && i in t.attempts && t.attempts[i].phase.Uploading? && t.attempts[i].uploaded == []
            && t.attempts[i].documents == s.db.documents
  {
    var u := AfterReading(s, i);
    ReadIsChecked(s, i);
    CheckIs(u, i);
    TrailIs(Update(u, i, u.attempts[i].(phase := ReadingTrail)), i);
  }

  lemma ReadIsChecked(s: System, i: AttemptId)
    requires SystemInv(s) && RequestedFinalization(s.db)
    ensures var a := AfterReading(s, i).attempts[i]; Checked(a, true) == a.(phase := ReadingTrail)
  {
    assert Coherent(s.db.envelope, s.db.signers, s.db.signatures);
    assert AllRequiredSigned(s.db.signers);
  }

  lemma CheckIs(s: System, i: AttemptId)
    requires i in s.attempts && s.attempts[i].phase == Reading({})
    ensures SystemStep(s, Check(i, true)) == Update(s, i, Checked(s.attempts[i], true))
  {
  }

  lemma TrailIs(s: System, i: AttemptId)
    requires i in s.attempts && s.attempts[i].phase.ReadingTrail?
    ensures SystemStep(s, LoadTrail(i, true)) == Update(s, i, s.attempts[i].(phase := Uploading, trail := s.db.trail))
  {
  }

  /** n documents, n + 9 steps. */
  lemma UndisturbedAttemptCompletes(s: System, i: AttemptId) returns (xs: seq<SystemAction>)
    requires SystemReachable(s) && RequestedFinalization(s.db) && i !in s.attempts
    ensures |xs| == |s.db.documents| + 9
    ensures var t := SystemRun(s, xs);
            t.db.envelope.status.Completed? && t.report.Some? && t.report.value.attempt == i
  {
    SystemReachableInv(s);
    var head := Prepares(s, i);
    var t := SystemRun(s, head);
    var middle := StoresAll(t, i, |t.db.documents|);
    var u := SystemRun(t, middle);
    StoreReportIs(u, i);
    Publishes(u, i);
    CommitIs(Store(u, i, true, Committing), i);
    xs := head + middle + [StoreReport(i, true)] + [Commit(i)];
    RunsJoin(s, head, middle);
    RunLast(s, head + middle, StoreReport(i, true));
    RunLast(s, head + middle + [StoreReport(i, true)], Commit(i));
  }

  lemma Prepares(s: System, i: AttemptId) returns (xs: seq<SystemAction>)
    requires SystemInv(s) && RequestedFinalization(s.db) && i !in s.attempts
    ensures |xs| == 7
    ensures Storing(SystemRun(s, xs), i, 0) && SystemRun(s, xs).db == s.db
  {
    ReadsAll(s, i);
    Validates(s, i);
    RunLast(s, Opening(i), Check(i, true));
    RunLast(s, Opening(i) + [Check(i, true)], LoadTrail(i, true));
    xs := Opening(i) + [Check(i, true)] + [LoadTrail(i, true)];
    SystemRunKeepsInv(s, xs);
  }
}
