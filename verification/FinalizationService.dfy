/** `finalize` and `cleanup` as they are written: local variables, loops, and a shared database and object store
    that other processes change between any two of their steps. */
module FinalizationService {
  import opened Basics
  import opened EnvelopeState
  import opened EnvelopeFields
  import opened SigningProtocol
  import opened ProtocolTrail
  import opened Finalization
  import opened FinalizationInvariant
  import EnvelopeStore

  // ---------------------------------------------------------------- runs of the system

  ghost predicate Leads(s: System, t: System) {
    exists xs :: t == SystemRun(s, xs)
  }

  lemma LeadsNowhere(s: System)
    ensures Leads(s, s)
  {
    assert s == SystemRun(s, []);
  }

  lemma LeadsOn(s: System, t: System, u: System)
    requires Leads(s, t) && Leads(t, u)
    ensures Leads(s, u)
  {
    var xs :| t == SystemRun(s, xs);
    var ys :| u == SystemRun(t, ys);
    RunsJoin(s, xs, ys);
  }

  lemma LeadsByStep(s: System, x: SystemAction)
    ensures Leads(s, SystemStep(s, x))
  {
    assert [x][..0] == [];
    assert SystemStep(s, x) == SystemRun(s, [x]);
  }

  lemma Took(s: System, t: System, x: SystemAction, u: System)
    requires Leads(s, t) && u == SystemStep(t, x)
    ensures Leads(s, u)
  {
    LeadsByStep(t, x);
    LeadsOn(s, t, u);
  }

  lemma CommitLeads(s: System, t: System, id: AttemptId, u: System)
    requires Leads(s, t) && id in t.attempts && t.attempts[id].phase.Committing? && u == CommitAttempt(t, id)
    ensures Leads(s, u)
  {
    Took(s, t, Commit(id), u);
  }

  lemma UploadLeads(s: System, t: System, id: AttemptId, ok: bool, u: System)
    requires Leads(s, t) && id in t.attempts && t.attempts[id].phase.Uploading? && |t.attempts[id].uploaded| <= |t.attempts[id].documents|
    requires u == Finalization.Store(t, id, ok, if |t.attempts[id].uploaded| < |t.attempts[id].documents| then Uploading else Committing)
    ensures Leads(s, u)
  {
    if |t.attempts[id].uploaded| < |t.attempts[id].documents| {
      Took(s, t, StoreFinal(id, ok), u);
    } else {
      Took(s, t, StoreReport(id, ok), u);
    }
  }

  /** Actions of everybody else. */
  ghost predicate Foreign(xs: seq<SystemAction>, id: AttemptId) {
    forall x | x in xs :: x.Transact? || x.attempt != id
  }

  lemma {:induction false} ForeignRunKeeps(s: System, xs: seq<SystemAction>, id: AttemptId)
    requires Foreign(xs, id)
    ensures id in SystemRun(s, xs).attempts <==> id in s.attempts
    ensures id in s.attempts ==> SystemRun(s, xs).attempts[id] == s.attempts[id]
    decreases |xs|
  {
    if xs != [] {
      ForeignRunKeeps(s, xs[..|xs| - 1], id);
      assert xs[|xs| - 1] in xs;
      ForeignStepKeeps(SystemRun(s, xs[..|xs| - 1]), xs[|xs| - 1], id);
    }
  }

  lemma ForeignStepKeeps(s: System, x: SystemAction, id: AttemptId)
    requires x.Transact? || x.attempt != id
    ensures id in SystemStep(s, x).attempts <==> id in s.attempts
    ensures id in s.attempts ==> SystemStep(s, x).attempts[id] == s.attempts[id]
  {
  }

  lemma LeadsKeepsInv(s: System, t: System)
    requires Leads(s, t) && SystemInv(s)
    ensures SystemInv(t)
  {
    var xs :| t == SystemRun(s, xs);
    SystemRunKeepsInv(s, xs);
  }

  /** An attempt that ended as finished is the one whose report is recorded, and no other is. */
  lemma AttemptOutcome(s: System, t: System, id: AttemptId, ending: Ending)
    requires Leads(s, t) && SystemInv(s) && id !in s.attempts && id in t.attempts && t.attempts[id].phase == Ended(ending)
    ensures SystemInv(t)
    ensures ending.Finished? <==> t.report.Some? && t.report.value.attempt == id
    ensures ending.Finished? ==> ReportMatches(t.report.value, t.db) && s.db.trail <= t.report.value.trail
  {
    LeadsKeepsInv(s, t);
    var xs :| t == SystemRun(s, xs);
    ReportReachesBack(s, xs, id);
    assert AttemptOk(t.attempts[id], id, t.db, t.objects, t.report);
  }

  /** What an attempt that may upload has read still is what the tables say. */
  lemma ReadyIsFaithful(s: System, t: System, id: AttemptId)
    requires Leads(s, t) && id in t.attempts
    ensures SystemInv(s) && t.attempts[id].phase.Uploading? ==>
              Agrees(t.attempts[id], {}, t.db) && SignedBy(t.attempts[id]) == t.db.signatures
  {
    if SystemInv(s) && t.attempts[id].phase.Uploading? {
      LeadsKeepsInv(s, t);
      assert AttemptOk(t.attempts[id], id, t.db, t.objects, t.report);
      SignedIsSignatures(t.attempts[id], t.db);
    }
  }

  // ---------------------------------------------------------------- the service

  datatype Moment =
    | BeforeEnvelope | BeforePart(part: Part) | BeforeTrail
    | BeforePut(n: nat) | BeforeCommit | BeforeDelete(n: nat)

  /** What an attempt meets: the answers to its fallible calls, and what everybody else does between its steps. */
  datatype World = World(
    originalsIntact: bool,
    trailVerifies: bool,
    puts: nat -> bool,
    deletes: nat -> bool,
    others: Moment -> seq<SystemAction>)

  ghost predicate Apart(world: World, id: AttemptId) {
    forall m: Moment :: Foreign(world.others(m), id)
  }

  /** Nobody else acts and everything asked of the environment succeeds. */
  ghost predicate Calm(world: World) {
    && world.originalsIntact && world.trailVerifies
    && (forall n: nat :: world.puts(n)) && forall m: Moment :: world.others(m) == []
  }

  /** The envelope is out for signature and its finalization was requested. */
  predicate ToFinalize(e: Envelope) {
    (e.status == EnvelopeStatus.Active || e.status == PartiallySigned) && e.finalizationRequestedAt != None
  }

  class Service {
    const store: EnvelopeStore.Store
    var objects: set<StorageKey>
    var report: Option<Report>
    /** The local variables of each running call of `Finalize`. */
    var attempts: map<AttemptId, Attempt>

    function Snapshot(): System
      reads this, store
    {
      System(store.Snapshot(), objects, attempts, report)
    }

    constructor (store: EnvelopeStore.Store)
      ensures this.store == store && objects == {} && report == None && attempts == map[]
    {
      this.store := store;
      objects, report, attempts := {}, None, map[];
    }

    /** Everybody else takes some steps. */
    method Interfere(world: World, m: Moment, ghost id: AttemptId)
      requires Apart(world, id)
      modifies this, store
      ensures Snapshot() == SystemRun(old(Snapshot()), world.others(m))
      ensures Leads(old(Snapshot()), Snapshot())
      ensures world.others(m) == [] ==> Snapshot() == old(Snapshot())
      ensures id in attempts <==> id in old(attempts)
      ensures id in attempts ==> attempts[id] == old(attempts)[id]
    {
      ForeignRunKeeps(Snapshot(), world.others(m), id);
      var t := SystemRun(Snapshot(), world.others(m));
      store.Become(t.db);
      objects, attempts, report := t.objects, t.attempts, t.report;
    }

    method Put(key: StorageKey, ok: bool) returns (stored: bool)
      modifies `objects
      ensures stored <==> ok && key !in old(objects)
      ensures objects == if stored then old(objects) + {key} else old(objects)
    {
      if !ok || key in objects { return false; }
      objects := objects + {key};
      return true;
    }

    method Delete(key: StorageKey, ok: bool)
      modifies `objects
      ensures objects == if ok then old(objects) - {key} else old(objects)
    {
      if ok {
        objects := objects - {key};
      }
    }

    /** The attempt reads one of the related tables. */
    method Load(id: AttemptId, part: Part, world: World)
      requires Apart(world, id) && id in attempts && attempts[id].phase.Reading? && part in attempts[id].phase.pending
      modifies this, store
      ensures Leads(old(Snapshot()), Snapshot())
      ensures id in attempts && attempts[id].phase == Reading(old(attempts)[id].phase.pending - {part})
      ensures attempts[id].uploaded == old(attempts)[id].uploaded
      ensures Calm(world) ==> store.Snapshot() == old(store.Snapshot())
                              && attempts[id] == WithPart(old(attempts)[id], part, old(store.Snapshot()))
    {
      Interfere(world, BeforePart(part), id);
      ghost var before := Snapshot();
      attempts := attempts[id := WithPart(attempts[id], part, store.Snapshot())];
      Took(old(Snapshot()), before, Read(id, part), Snapshot());
    }

    method LoadRows(id: AttemptId, world: World)
      requires Apart(world, id) && id in attempts && attempts[id].phase == Reading(PARTS)
      modifies this, store
      ensures Leads(old(Snapshot()), Snapshot())
      ensures id in attempts && attempts[id].phase == Reading({})
      ensures attempts[id].uploaded == old(attempts)[id].uploaded
      ensures Calm(world) ==> store.Snapshot() == old(store.Snapshot())
                              && attempts[id].signers == store.signers && attempts[id].signatures == store.signatures
    {
      ghost var s0 := Snapshot();
      Load(id, Documents, world);
      ghost var s1 := Snapshot();
      Load(id, Fields, world);
      LeadsOn(s0, s1, Snapshot());
      ghost var s2 := Snapshot();
      LoadPeople(id, world);
      LeadsOn(s0, s2, Snapshot());
    }

    method LoadPeople(id: AttemptId, world: World)
      requires Apart(world, id) && id in attempts && attempts[id].phase == Reading({SignerRows, Signatures})
      modifies this, store
      ensures Leads(old(Snapshot()), Snapshot())
      ensures id in attempts && attempts[id].phase == Reading({})
      ensures attempts[id].uploaded == old(attempts)[id].uploaded
      ensures Calm(world) ==> store.Snapshot() == old(store.Snapshot())
                              && attempts[id].signers == store.signers && attempts[id].signatures == store.signatures
    {
      ghost var s0 := Snapshot();
      Load(id, SignerRows, world);
      ghost var s1 := Snapshot();
      Load(id, Signatures, world);
      LeadsOn(s0, s1, Snapshot());
    }

    /** Valid exactly if every required signer has signed, every signed signer has its evidence, the stored originals
        are unchanged and the trail verifies; what was read then is what the tables say, and the trail is today's. */
    method Validate(id: AttemptId, world: World) returns (valid: bool)
      requires Apart(world, id) && id in attempts && attempts[id].phase == Reading({}) && attempts[id].uploaded == []
      modifies this, store
      ensures Leads(old(Snapshot()), Snapshot())
      ensures id in attempts && attempts[id].phase == (if valid then Uploading else Ended(Failed))
      ensures attempts[id].uploaded == []
      ensures valid <==> AllRequiredSigned(old(attempts)[id].signers) && Evidenced(old(attempts)[id])
                         && world.originalsIntact && world.trailVerifies
      ensures valid ==> old(attempts)[id].signers != map[]
                        && forall x | x in old(attempts)[id].signers ::
                             && (old(attempts)[id].signers[x].required ==> old(attempts)[id].signers[x].status == SignerStatus.Signed)
                             && (old(attempts)[id].signers[x].status == SignerStatus.Signed ==> x in old(attempts)[id].signatures)
      ensures valid ==> attempts[id] == old(attempts)[id].(phase := Uploading, trail := store.trail)
      ensures valid && SystemInv(old(Snapshot())) ==>
                Agrees(attempts[id], {}, store.Snapshot()) && SignedBy(attempts[id]) == store.signatures
      ensures Calm(world) ==> store.Snapshot() == old(store.Snapshot())
    {
      ghost var s0 := Snapshot();
      var a := attempts[id];
      attempts := attempts[id := Checked(a, world.originalsIntact)];
      LeadsByStep(s0, Check(id, world.originalsIntact));
      if attempts[id].phase.Ended? { return false; }
      ghost var s1 := Snapshot();
      valid := VerifyTrail(id, world);
      LeadsOn(s0, s1, Snapshot());
      ReadyIsFaithful(s0, Snapshot(), id);
    }

    /** Meanwhile others act; then the chain is loaded and verified. */
    method VerifyTrail(id: AttemptId, world: World) returns (valid: bool)
      requires Apart(world, id) && id in attempts && attempts[id].phase.ReadingTrail?
      modifies this, store
      ensures Leads(old(Snapshot()), Snapshot()) && valid == world.trailVerifies
      ensures Calm(world) ==> store.Snapshot() == old(store.Snapshot())
      ensures id in attempts
      ensures attempts[id] == old(attempts)[id].(phase := if valid then Uploading else Ended(Failed), trail := store.trail)
    {
      ghost var s0 := Snapshot();
      Interfere(world, BeforeTrail, id);
      ghost var s1 := Snapshot();
      valid := world.trailVerifies;
      attempts := attempts[id := attempts[id].(phase := if valid then Uploading else Ended(Failed), trail := store.trail)];
      Took(s0, s1, LoadTrail(id, valid), Snapshot());
    }

    /** One upload; a failure sends the attempt to its cleanup. */
    method Upload(id: AttemptId, ok: bool, next: Phase) returns (stored: bool)
      requires id in attempts && attempts[id].phase.Uploading? && |attempts[id].uploaded| <= |attempts[id].documents|
      modifies `objects, `attempts
      ensures Snapshot() == Finalization.Store(old(Snapshot()), id, ok, next)
      ensures id in attempts && attempts[id].phase == if stored then next else CleaningUp(Failed)
      ensures attempts[id].documents == old(attempts)[id].documents
      ensures stored ==> |attempts[id].uploaded| == |old(attempts)[id].uploaded| + 1
      ensures stored <==> ok && NextKey(old(attempts)[id], id) !in old(objects)
    {
      var a := attempts[id];
      var key := NextKey(a, id);
      stored := Put(key, ok);
      if stored {
        attempts := attempts[id := a.(phase := next, uploaded := a.uploaded + [key])];
      } else {
        attempts := attempts[id := a.(phase := CleaningUp(Failed))];
      }
    }

    /** Meanwhile others act; then the next document goes up, or the report after the last one. */
    method UploadNext(id: AttemptId, world: World, i: nat, n: nat) returns (stored: bool)
      requires Apart(world, id) && id in attempts && attempts[id].phase.Uploading?
      requires |attempts[id].documents| == n && |attempts[id].uploaded| == i <= n
      modifies this, store
      ensures Leads(old(Snapshot()), Snapshot())
      ensures id in attempts && |attempts[id].documents| == n
      ensures attempts[id].phase == if !stored then CleaningUp(Failed) else if i < n then Uploading else Committing
      ensures stored ==> |attempts[id].uploaded| == i + 1
      ensures Calm(world) && SystemInv(old(Snapshot())) ==> stored && store.Snapshot() == old(store.Snapshot())
    {
      ghost var s0 := Snapshot();
      Interfere(world, BeforePut(i), id);
      ghost var s1 := Snapshot();
      if Calm(world) && SystemInv(s0) {
        NextKeyIsNew(s1, id);
      }
      stored := Upload(id, world.puts(i), if i < n then Uploading else Committing);
      UploadLeads(s0, s1, id, world.puts(i), Snapshot());
    }

    /** The final documents one after another, then the evidence report. */
    method UploadAll(id: AttemptId, world: World) returns (stored: bool)
      requires Apart(world, id) && id in attempts && attempts[id].phase.Uploading? && attempts[id].uploaded == []
      modifies this, store
      ensures Leads(old(Snapshot()), Snapshot())
      ensures id in attempts && attempts[id].phase == if stored then Committing else CleaningUp(Failed)
      ensures Calm(world) && SystemInv(old(Snapshot())) ==> stored && store.Snapshot() == old(store.Snapshot())
    {
      ghost var s0 := Snapshot();
      LeadsNowhere(s0);
      var n := |attempts[id].documents|;
      var i := 0;
      while i <= n
        invariant 0 <= i <= n + 1
        invariant Leads(s0, Snapshot())
        invariant id in attempts && |attempts[id].documents| == n && |attempts[id].uploaded| == i
        invariant attempts[id].phase == if i <= n then Uploading else Committing
        invariant Calm(world) && SystemInv(s0) ==> store.Snapshot() == old(store.Snapshot())
      {
        ghost var s1 := Snapshot();
        if SystemInv(s0) {
          LeadsKeepsInv(s0, s1);
        }
        stored := UploadNext(id, world, i, n);
        LeadsOn(s0, s1, Snapshot());
        if !stored { return; }
        i := i + 1;
      }
      stored := true;
    }

    /** The transaction under the envelope's lock: complete, or find out why not. */
    method CommitLocked(id: AttemptId) returns (committed: bool)
      requires id in attempts && attempts[id].phase.Committing?
      modifies this, store
      ensures Snapshot() == CommitAttempt(old(Snapshot()), id)
      ensures id in attempts
      ensures if committed then attempts[id].phase == Ended(Finished)
              else attempts[id].phase.CleaningUp? && !attempts[id].phase.ending.Finished?
      ensures committed <==> ToFinalize(old(store.envelope)) && |old(attempts)[id].uploaded| == |old(store.documents)| + 1
    {
      var a := attempts[id];
      if store.envelope.status.Completed? {
        attempts := attempts[id := a.(phase := CleaningUp(NotNeeded))];
        return false;
      }
      if a.uploaded == [] {
        attempts := attempts[id := a.(phase := CleaningUp(Failed))];
        return false;
      }
      var outcome := store.Complete(a.uploaded[..|a.uploaded| - 1]);
      if outcome != Done {
        attempts := attempts[id := a.(phase := CleaningUp(Failed))];
        return false;
      }
      report := Some(ReportOf(a, id));
      attempts := attempts[id := a.(phase := Ended(Finished))];
      return true;
    }

    /** Try to delete every uploaded object; failures are logged and skipped. */
    method Cleanup(id: AttemptId, world: World) returns (ending: Ending)
      requires Apart(world, id) && id in attempts && attempts[id].phase.CleaningUp?
      modifies this, store
      ensures Leads(old(Snapshot()), Snapshot())
      ensures ending == old(attempts)[id].phase.ending
      ensures id in attempts && attempts[id].phase == Ended(ending)
      ensures (forall n :: world.deletes(n)) ==> attempts[id].leaked == old(attempts)[id].leaked
    {
      ghost var s0 := Snapshot();
      LeadsNowhere(s0);
      ending := attempts[id].phase.ending;
      var i := 0;
      while attempts[id].uploaded != []
        invariant Leads(s0, Snapshot())
        invariant id in attempts && attempts[id].phase == CleaningUp(ending)
        invariant (forall n :: world.deletes(n)) ==> attempts[id].leaked == old(attempts)[id].leaked
        decreases |attempts[id].uploaded|
      {
        ghost var s1 := Snapshot();
        Interfere(world, BeforeDelete(i), id);
        LeadsOn(s0, s1, Snapshot());
        ghost var s2 := Snapshot();
        var a := attempts[id];
        Delete(a.uploaded[0], world.deletes(i));
        attempts := attempts[id := if world.deletes(i) then a.(uploaded := a.uploaded[1..])
                                   else a.(uploaded := a.uploaded[1..], leaked := a.leaked + {a.uploaded[0]})];
        Took(s0, s2, CleanNext(id, world.deletes(i)), Snapshot());
        i := i + 1;
      }
      ghost var s3 := Snapshot();
      attempts := attempts[id := attempts[id].(phase := Ended(ending))];
      Took(s0, s3, CleanNext(id, true), Snapshot());
    }

    /** The unlocked look at the envelope row. */
    method Start(id: AttemptId, world: World) returns (requested: bool)
      requires id !in attempts && Apart(world, id)
      modifies this, store
      ensures Leads(old(Snapshot()), Snapshot())
      ensures id in attempts && attempts[id].phase == (if requested then Reading(PARTS) else Ended(NotNeeded))
      ensures attempts[id].uploaded == []
      ensures requested <==> ToFinalize(store.envelope)
      ensures Calm(world) ==> store.Snapshot() == old(store.Snapshot())
    {
      Interfere(world, BeforeEnvelope, id);
      ghost var before := Snapshot();
      attempts := attempts[id := Started(store.envelope)];
      Took(old(Snapshot()), before, Begin(id), Snapshot());
      requested := attempts[id].phase.Reading?;
    }

    /** Every call is, together with everything that happens meanwhile, a run of the system: all that is proved
        about runs (one commit, a faithful report, no object lost or left over) holds of it. */
    method Finalize(id: AttemptId, world: World) returns (ending: Ending)
      requires id !in attempts && Apart(world, id) && SystemInv(Snapshot())
      modifies this, store
      ensures Leads(old(Snapshot()), Snapshot()) && SystemInv(Snapshot())
      ensures id in attempts && attempts[id].phase == Ended(ending)
      ensures ending.Finished? <==> report.Some? && report.value.attempt == id
      ensures ending.Finished? ==> ReportMatches(report.value, store.Snapshot())
      ensures ending.Finished? ==> old(store.trail) <= report.value.trail <= store.trail
      ensures ending.Finished? ==> Times(report.value.trail, FinalizationRequested, None) == 1
      ensures ending.Finished? ==> forall signer: SignerId ::
                Times(report.value.trail, SignatureCompleted, Some(signer)) == Once(signer in store.signatures)
      ensures Calm(world) ==> ending == if ToFinalize(old(store.envelope)) then Finished else NotNeeded
    {
      ghost var s0 := Snapshot();
      ending := Attempt(id, world);
      AttemptOutcome(s0, Snapshot(), id, ending);
    }

    method Attempt(id: AttemptId, world: World) returns (ending: Ending)
      requires id !in attempts && Apart(world, id)
      modifies this, store
      ensures Leads(old(Snapshot()), Snapshot())
      ensures id in attempts && attempts[id].phase == Ended(ending)
      ensures Calm(world) && SystemInv(old(Snapshot())) ==> ending == if ToFinalize(old(store.envelope)) then Finished else NotNeeded
    {
      ghost var s0 := Snapshot();
      var requested := Start(id, world);
      if !requested { return NotNeeded; }
      ghost var s1 := Snapshot();
      ending := Carry(id, world);
      if SystemInv(s0) {
        LeadsKeepsInv(s0, s1);
      }
      LeadsOn(s0, s1, Snapshot());
    }

    /** Read, validate, produce. */
    method Carry(id: AttemptId, world: World) returns (ending: Ending)
      requires Apart(world, id) && id in attempts && attempts[id].phase == Reading(PARTS) && attempts[id].uploaded == []
      modifies this, store
      ensures Leads(old(Snapshot()), Snapshot())
      ensures id in attempts && attempts[id].phase == Ended(ending)
      ensures Calm(world) && SystemInv(old(Snapshot())) && ToFinalize(old(store.envelope)) ==> ending == Finished
    {
      ghost var s0 := Snapshot();
      LoadRows(id, world);
      ghost var s1 := Snapshot();
      if SystemInv(s0) && Calm(world) && ToFinalize(old(store.envelope)) {
        LeadsKeepsInv(s0, s1);
        RequestedIsEvidenced(s1, attempts[id]);
      }
      ending := Judge(id, world);
      LeadsOn(s0, s1, Snapshot());
    }

    method Judge(id: AttemptId, world: World) returns (ending: Ending)
      requires Apart(world, id) && id in attempts && attempts[id].phase == Reading({}) && attempts[id].uploaded == []
      modifies this, store
      ensures Leads(old(Snapshot()), Snapshot())
      ensures id in attempts && attempts[id].phase == Ended(ending)
      ensures (&& Calm(world) && SystemInv(old(Snapshot())) && ToFinalize(old(store.envelope))
               && AllRequiredSigned(old(attempts)[id].signers) && Evidenced(old(attempts)[id])) ==> ending == Finished
    {
      ghost var s0 := Snapshot();
      var valid := Validate(id, world);
      if !valid { return Failed; }
      ghost var s1 := Snapshot();
      if SystemInv(s0) {
        LeadsKeepsInv(s0, s1);
      }
      ending := Produce(id, world);
      LeadsOn(s0, s1, Snapshot());
    }

    /** Upload, commit, and clean up unless the commit went through. */
    method Produce(id: AttemptId, world: World) returns (ending: Ending)
      requires Apart(world, id) && id in attempts && attempts[id].phase.Uploading? && attempts[id].uploaded == []
      modifies this, store
      ensures Leads(old(Snapshot()), Snapshot())
      ensures id in attempts && attempts[id].phase == Ended(ending)
      ensures Calm(world) && SystemInv(old(Snapshot())) && ToFinalize(old(store.envelope)) ==> ending == Finished
    {
      ghost var s0 := Snapshot();
      var stored := UploadAll(id, world);
      if stored {
        ghost var s1 := Snapshot();
        var committed := Conclude(id, world);
        if SystemInv(s0) {
          LeadsKeepsInv(s0, s1);
        }
        LeadsOn(s0, s1, Snapshot());
        if committed { return Finished; }
      }
      ghost var s3 := Snapshot();
      ending := Cleanup(id, world);
      LeadsOn(s0, s3, Snapshot());
    }

    /** Meanwhile others act; then the locked transaction. */
    method Conclude(id: AttemptId, world: World) returns (committed: bool)
      requires Apart(world, id) && id in attempts && attempts[id].phase.Committing?
      modifies this, store
      ensures Leads(old(Snapshot()), Snapshot())
      ensures id in attempts
      ensures if committed then attempts[id].phase == Ended(Finished)
              else attempts[id].phase.CleaningUp? && !attempts[id].phase.ending.Finished?
      ensures Calm(world) && SystemInv(old(Snapshot())) && ToFinalize(old(store.envelope)) ==> committed
    {
      ghost var s0 := Snapshot();
      Interfere(world, BeforeCommit, id);
      ghost var s1 := Snapshot();
      if Calm(world) && SystemInv(s0) {
        CommitterHasAll(s1, id);
      }
      committed := CommitLocked(id);
      CommitLeads(s0, s1, id, Snapshot());
    }
  }
}
