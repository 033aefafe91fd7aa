/** Finalization (finalization.service.ts): any number of attempts, each a sequence of unlocked reads, uploads,
    one locked commit and a cleanup, interleaved with each other and with every transaction of the protocol. */
module Finalization {
  import opened Basics
  import opened EnvelopeState
  import opened EnvelopeFields
  import opened SigningProtocol

  datatype Ending = Finished | NotNeeded | Failed

  /** The related rows come from separate queries, in no particular order. */
  datatype Part = Documents | Fields | SignerRows | Signatures

  const PARTS: set<Part> := {Documents, Fields, SignerRows, Signatures}

  datatype Phase =
    | Reading(pending: set<Part>)
    | ReadingTrail
    | Uploading
    | Committing
    | CleaningUp(ending: Ending)
    | Ended(ending: Ending)

  /** What an attempt has read, and the objects it has stored and not yet tried to delete. */
  datatype Attempt = Attempt(
    phase: Phase,
    documents: seq<EnvelopeDocument>,
    fields: seq<Field>,
    signers: Signers,
    signatures: map<SignerId, Signature>,
    trail: seq<TrailEvent>,
    uploaded: seq<StorageKey>,
    leaked: set<StorageKey>)

  /** The evidence report: everything it states comes from what its attempt read. */
  datatype Report = Report(
    attempt: AttemptId,
    key: StorageKey,
    documents: seq<EnvelopeDocument>,
    fields: seq<Field>,
    signed: map<SignerId, Signature>,
    trail: seq<TrailEvent>)

  datatype System = System(
    db: State,
    objects: set<StorageKey>,
    attempts: map<AttemptId, Attempt>,
    report: Option<Report>)

  /** `ok` and `intact` are the environment's answers: storage calls succeed, stored hashes match, the trail verifies. */
  datatype SystemAction =
    | Transact(action: Action)
    | Begin(attempt: AttemptId)
    | Read(attempt: AttemptId, part: Part)
    | Check(attempt: AttemptId, intact: bool)
    | LoadTrail(attempt: AttemptId, intact: bool)
    | StoreFinal(attempt: AttemptId, ok: bool)
    | StoreReport(attempt: AttemptId, ok: bool)
    | Commit(attempt: AttemptId)
    | CleanNext(attempt: AttemptId, ok: bool)

  function Owner(k: StorageKey): AttemptId {
    k.attempt
  }

  function SignedBy(a: Attempt): map<SignerId, Signature> {
    map id | id in a.signers && a.signers[id].status.Signed? && id in a.signatures :: a.signatures[id]
  }

  function ReportOf(a: Attempt, i: AttemptId): Report {
    Report(i, EvidenceKey(i), a.documents, a.fields, SignedBy(a), a.trail)
  }

  /** The first, unlocked look at the envelope row. */
  function Started(e: Envelope): Attempt {
    Attempt(if Signable(e.status) && e.finalizationRequestedAt.Some? then Reading(PARTS) else Ended(NotNeeded),
            [], [], map[], map[], [], [], {})
  }

  function WithPart(a: Attempt, part: Part, db: State): Attempt
    requires a.phase.Reading?
  {
    var b := a.(phase := Reading(a.phase.pending - {part}));
    match part
    case Documents => b.(documents := db.documents)
    case Fields => b.(fields := db.fields)
    case SignerRows => b.(signers := db.signers)
    case Signatures => b.(signatures := db.signatures)
  }

  /** Every signed signer has its evidence. */
  predicate Evidenced(a: Attempt) {
    forall id | id in a.signers && a.signers[id].status.Signed? :: id in a.signatures
  }

  /** Required signatures present, stored originals unchanged, every signed signer has its evidence. */
  function Checked(a: Attempt, intact: bool): Attempt {
    if AllRequiredSigned(a.signers) && intact && Evidenced(a)
    then a.(phase := ReadingTrail)
    else a.(phase := Ended(Failed))
  }

  function NextKey(a: Attempt, i: AttemptId): StorageKey
    requires |a.uploaded| <= |a.documents|
  {
    if |a.uploaded| < |a.documents| then FinalKey(a.documents[|a.uploaded|].document, i) else EvidenceKey(i)
  }

  function Update(s: System, i: AttemptId, a: Attempt): System {
    s.(attempts := s.attempts[i := a])
  }

  /** putImmutable refuses a key that exists; any failure sends the attempt to its cleanup. */
  function Store(s: System, i: AttemptId, ok: bool, next: Phase): System
    requires i in s.attempts && |s.attempts[i].uploaded| <= |s.attempts[i].documents|
  {
    var a := s.attempts[i];
    var key := NextKey(a, i);
    if ok && key !in s.objects then
      s.(objects := s.objects + {key}, attempts := s.attempts[i := a.(phase := next, uploaded := a.uploaded + [key])])
    else
      Update(s, i, a.(phase := CleaningUp(Failed)))
  }

  function CommitAttempt(s: System, i: AttemptId): System
    requires i in s.attempts
  {
    var a := s.attempts[i];
    if s.db.envelope.status.Completed? then
      Update(s, i, a.(phase := CleaningUp(NotNeeded)))
    else if a.uploaded == [] || Complete(s.db, a.uploaded[..|a.uploaded| - 1]).1 != Done then
      Update(s, i, a.(phase := CleaningUp(Failed)))
    else
      s.(db := Complete(s.db, a.uploaded[..|a.uploaded| - 1]).0,
         attempts := s.attempts[i := a.(phase := Ended(Finished))],
         report := Some(ReportOf(a, i)))
  }

  /** A delete that fails is logged and the loop goes on. */
  function Clean(s: System, i: AttemptId, ok: bool): System
    requires i in s.attempts && s.attempts[i].phase.CleaningUp?
  {
    var a := s.attempts[i];
    if a.uploaded == [] then Update(s, i, a.(phase := Ended(a.phase.ending)))
    else
      var key := a.uploaded[0];
      if ok then s.(objects := s.objects - {key}, attempts := s.attempts[i := a.(uploaded := a.uploaded[1..])])
      else Update(s, i, a.(uploaded := a.uploaded[1..], leaked := a.leaked + {key}))
  }

  /** One step of one attempt; a step that is not the attempt's next one does nothing. */
  function AttemptStep(s: System, x: SystemAction): System
    requires !x.Transact? && !x.Begin? && x.attempt in s.attempts
  {
    var i := x.attempt;
    var a := s.attempts[i];
    match x
    case Read(_, part) => if a.phase.Reading? && part in a.phase.pending then Update(s, i, WithPart(a, part, s.db)) else s
    case Check(_, intact) => if a.phase == Reading({}) then Update(s, i, Checked(a, intact)) else s
    case LoadTrail(_, intact) =>
      if a.phase.ReadingTrail? then Update(s, i, a.(phase := if intact then Uploading else Ended(Failed), trail := s.db.trail)) else s
    case StoreFinal(_, ok) => if a.phase.Uploading? && |a.uploaded| < |a.documents| then Store(s, i, ok, Uploading) else s
    case StoreReport(_, ok) => if a.phase.Uploading? && |a.uploaded| == |a.documents| then Store(s, i, ok, Committing) else s
    case Commit(_) => if a.phase.Committing? then CommitAttempt(s, i) else s
    case CleanNext(_, ok) => if a.phase.CleaningUp? then Clean(s, i, ok) else s
  }

  function SystemStep(s: System, x: SystemAction): System {
    match x
    case Transact(a) => if a.DoComplete? then s else s.(db := Step(s.db, a).0)
    case Begin(i) => if i in s.attempts then s else Update(s, i, Started(s.db.envelope))
    case _ => if x.attempt in s.attempts then AttemptStep(s, x) else s
  }

  function SystemRun(s: System, xs: seq<SystemAction>): System
    decreases |xs|
  {
    if xs == [] then s else SystemStep(SystemRun(s, xs[..|xs| - 1]), xs[|xs| - 1])
  }

  function NewSystem(config: Config, now: Time, sequential: bool): System {
    System(NewEnvelope(config, now, sequential), {}, map[], None)
  }

  ghost predicate SystemReachable(s: System) {
    exists config, now, sequential, xs ::
      ValidConfig(config) && s == SystemRun(NewSystem(config, now, sequential), xs)
  }
}

/** What every interleaving keeps. */
module FinalizationInvariant {
  import opened Basics
  import opened AuthMethods
  import opened EnvelopeState
  import opened EnvelopeFields
  import opened SigningProtocol
  import opened ProtocolBase
  import opened ProtocolInvariant
  import opened ProtocolSteps
  import opened ProtocolTheorems
  import opened ProtocolTrail
  import opened Finalization

  /** What was read still is what the tables say, apart from what only the commit changes. */
  ghost predicate Agrees(a: Attempt, pending: set<Part>, db: State) {
    && (Documents !in pending ==> SameDocuments(a.documents, db.documents))
    && (Fields !in pending ==> a.fields == db.fields)
    && (SignerRows !in pending ==> forall id :: id in db.signatures <==> id in a.signers && a.signers[id].status.Signed?)
    && (Signatures !in pending ==> a.signatures == db.signatures)
    && a.trail <= db.trail
  }

  function Unread(a: Attempt): set<Part> {
    if a.phase.Reading? then a.phase.pending else {}
  }

  predicate Active(a: Attempt) {
    !a.phase.CleaningUp? && !a.phase.Ended?
  }

  /** The attempt has loaded the trail and may still commit it. */
  predicate Holds(a: Attempt) {
    a.phase.Uploading? || a.phase.Committing?
  }

  ghost predicate FinalKeysOf(keys: seq<StorageKey>, documents: seq<EnvelopeDocument>, i: AttemptId) {
    |keys| <= |documents| && forall j | 0 <= j < |keys| :: keys[j] == FinalKey(documents[j].document, i)
  }

  ghost predicate Distinct(keys: seq<StorageKey>) {
    forall j, k | 0 <= j < k < |keys| :: keys[j] != keys[k]
  }

  ghost predicate Stored(a: Attempt, i: AttemptId, objects: set<StorageKey>) {
    && (forall k | k in a.uploaded :: k in objects && Owner(k) == i && k !in a.leaked)
    && (forall k | k in a.leaked :: k in objects && Owner(k) == i)
    && Distinct(a.uploaded)
  }

  ghost predicate Progress(a: Attempt, i: AttemptId) {
    match a.phase
    case Reading(_) => a.uploaded == [] && a.leaked == {} && a.trail == []
    case ReadingTrail => a.uploaded == [] && a.leaked == {} && a.trail == []
    case Uploading => FinalKeysOf(a.uploaded, a.documents, i) && a.leaked == {}
    case Committing =>
      && |a.uploaded| == |a.documents| + 1 && FinalKeysOf(a.uploaded[..|a.documents|], a.documents, i)
      && a.uploaded[|a.documents|] == EvidenceKey(i) && a.leaked == {}
    case CleaningUp(e) => !e.Finished?
    case Ended(e) => if e.Finished? then a.leaked == {} else a.uploaded == []
  }

  /** The trail holds the request and, once each, exactly the signatures. */
  ghost predicate TrailTells(trail: seq<TrailEvent>, signatures: map<SignerId, Signature>) {
    TellsSignatures(trail, signatures) && Times(trail, FinalizationRequested, None) == 1
  }

  ghost predicate AttemptOk(a: Attempt, i: AttemptId, db: State, objects: set<StorageKey>, report: Option<Report>) {
    && Stored(a, i, objects)
    && Progress(a, i)
    && (Active(a) ==> db.envelope.finalizationRequestedAt.Some? && Agrees(a, Unread(a), db))
    && (a.phase.Uploading? || a.phase.Committing? ==> TrailTells(a.trail, db.signatures))
    && (a.phase == Ended(Finished) ==> report.Some? && report.value.attempt == i)
  }

  ghost predicate NoFinals(documents: seq<EnvelopeDocument>) {
    forall d | d in documents :: d.finalKey.None?
  }

  /** The report states the documents, fields and signatures of the envelope and a prefix of its trail that reaches
      beyond the request and every signature. */
  ghost predicate ReportMatches(r: Report, db: State) {
    && SameDocuments(r.documents, db.documents)
    && r.fields == db.fields
    && r.signed == db.signatures
    && r.trail <= db.trail && TrailTells(r.trail, r.signed)
    && r.key == EvidenceKey(r.attempt)
    && forall j | 0 <= j < |db.documents| :: db.documents[j].finalKey == Some(FinalKey(db.documents[j].document, r.attempt))
  }

  ghost predicate AttemptsOk(s: System) {
    forall i | i in s.attempts :: AttemptOk(s.attempts[i], i, s.db, s.objects, s.report)
  }

  ghost predicate ObjectsOwned(attempts: map<AttemptId, Attempt>, objects: set<StorageKey>) {
    forall k | k in objects :: Owner(k) in attempts && (k in attempts[Owner(k)].uploaded || k in attempts[Owner(k)].leaked)
  }

  ghost predicate ReportOk(s: System) {
    match s.report
    case None => !s.db.envelope.status.Completed? && NoFinals(s.db.documents)
    case Some(r) =>
      && s.db.envelope.status.Completed? && ReportMatches(r, s.db)
      && r.attempt in s.attempts && Recorder(s.attempts[r.attempt], r)
  }

  ghost predicate Recorder(a: Attempt, r: Report) {
    && a.phase == Ended(Finished) && |a.uploaded| == |r.documents| + 1
    && FinalKeysOf(a.uploaded[..|r.documents|], r.documents, r.attempt) && a.uploaded[|r.documents|] == r.key
  }

  ghost predicate Accounted(s: System) {
    AttemptsOk(s) && ObjectsOwned(s.attempts, s.objects) && ReportOk(s)
  }

  /** A document is in an envelope at most once. */
  ghost predicate DistinctDocuments(documents: seq<EnvelopeDocument>) {
    forall j, k | 0 <= j < k < |documents| :: documents[j].document != documents[k].document
  }

  ghost predicate SystemInv(s: System) {
    Inv(s.db) && Told(s.db) && Accounted(s) && DistinctDocuments(s.db.documents)
  }

  // ---------------------------------------------------------------- which way a step goes

  /** There is something to do exactly if the envelope is out for signature and its finalization was requested. */
  lemma StartsExactly(e: Envelope)
    ensures var a := Started(e);
            if (e.status == EnvelopeStatus.Active || e.status == PartiallySigned) && e.finalizationRequestedAt != None
            then a.phase == Reading({Documents, Fields, SignerRows, Signatures}) else a.phase == Ended(NotNeeded)
    ensures Started(e).uploaded == [] && Started(e).leaked == {} && Started(e).trail == []
  {
  }

  /** What was read is good enough exactly if there are signers, every required one has signed, every signed one has its
      signature record, and the stored originals are unchanged. */
  lemma ChecksExactly(a: Attempt, intact: bool)
    ensures Checked(a, intact) == a.(phase := Checked(a, intact).phase)
    ensures Checked(a, intact).phase
            == if && a.signers != map[] && intact
                  && (forall id | id in a.signers && a.signers[id].required :: a.signers[id].status == SignerStatus.Signed)
                  && (forall id | id in a.signers && a.signers[id].status == SignerStatus.Signed :: id in a.signatures)
               then ReadingTrail else Ended(Failed)
  {
  }

  /** The locked transaction: an envelope completed by somebody else needs nothing more; one that is not being finalized
      any longer, or whose documents are not as many as were stored, fails the attempt; otherwise everything is recorded. */
  lemma CommitAnswers(s: System, i: AttemptId)
    requires i in s.attempts && s.attempts[i].uploaded != []
    ensures var a := s.attempts[i]; var t := CommitAttempt(s, i); var e := s.db.envelope; var n := |a.uploaded| - 1;
            if e.status == EnvelopeStatus.Completed then t == s.(attempts := s.attempts[i := a.(phase := CleaningUp(NotNeeded))])
            else if e.finalizationRequestedAt == None || (e.status != EnvelopeStatus.Active && e.status != PartiallySigned)
                    || n != |s.db.documents| then
              t == s.(attempts := s.attempts[i := a.(phase := CleaningUp(Failed))])
            else
              && t.attempts == s.attempts[i := a.(phase := Ended(Finished))] && t.objects == s.objects
              && t.db.envelope == e.(status := EnvelopeStatus.Completed)
              && |t.db.documents| == n && (forall j | 0 <= j < n :: t.db.documents[j] == s.db.documents[j].(finalKey := Some(a.uploaded[j])))
              && t.report.Some? && t.report.value.attempt == i && t.report.value.documents == a.documents
              && t.report.value.fields == a.fields && t.report.value.trail == a.trail
  {
  }

  // ---------------------------------------------------------------- steps of the attempts

  lemma AttemptUpdated(s: System, i: AttemptId, a: Attempt)
    requires Accounted(s) && AttemptOk(a, i, s.db, s.objects, s.report)
    requires i in s.attempts ==> a.uploaded == s.attempts[i].uploaded && a.leaked == s.attempts[i].leaked && !s.attempts[i].phase.Ended?
    ensures Accounted(Update(s, i, a))
  {
  }

  lemma BeginKeepsInv(s: System, i: AttemptId)
    requires SystemInv(s) && i !in s.attempts
    ensures SystemInv(Update(s, i, Started(s.db.envelope)))
  {
    AttemptUpdated(s, i, Started(s.db.envelope));
  }

  lemma ReadKeepsInv(s: System, i: AttemptId, part: Part)
    requires SystemInv(s) && i in s.attempts && s.attempts[i].phase.Reading? && part in s.attempts[i].phase.pending
    ensures SystemInv(Update(s, i, WithPart(s.attempts[i], part, s.db)))
  {
    assert AttemptOk(s.attempts[i], i, s.db, s.objects, s.report);
    PartAgrees(s.attempts[i], part, s.db);
    AttemptUpdated(s, i, WithPart(s.attempts[i], part, s.db));
  }

  lemma PartAgrees(a: Attempt, part: Part, db: State)
    requires a.phase.Reading? && part in a.phase.pending && Agrees(a, Unread(a), db)
    requires Coherent(db.envelope, db.signers, db.signatures)
    ensures var b := WithPart(a, part, db); Agrees(b, Unread(b), db)
  {
  }

  lemma CheckKeepsInv(s: System, i: AttemptId, intact: bool)
    requires SystemInv(s) && i in s.attempts && s.attempts[i].phase == Reading({})
    ensures SystemInv(Update(s, i, Checked(s.attempts[i], intact)))
  {
    assert AttemptOk(s.attempts[i], i, s.db, s.objects, s.report);
    AttemptUpdated(s, i, Checked(s.attempts[i], intact));
  }

  lemma LoadTrailKeepsInv(s: System, i: AttemptId, next: Phase)
    requires SystemInv(s) && i in s.attempts && s.attempts[i].phase.ReadingTrail?
    requires next.Uploading? || next == Ended(Failed)
    ensures SystemInv(Update(s, i, s.attempts[i].(phase := next, trail := s.db.trail)))
  {
    assert AttemptOk(s.attempts[i], i, s.db, s.objects, s.report);
    AttemptUpdated(s, i, s.attempts[i].(phase := next, trail := s.db.trail));
  }

  lemma GiveUpKeepsInv(s: System, i: AttemptId, e: Ending)
    requires SystemInv(s) && i in s.attempts && !s.attempts[i].phase.Ended? && !e.Finished?
    ensures SystemInv(Update(s, i, s.attempts[i].(phase := CleaningUp(e))))
  {
    assert AttemptOk(s.attempts[i], i, s.db, s.objects, s.report);
    AttemptUpdated(s, i, s.attempts[i].(phase := CleaningUp(e)));
  }

  /** An object of attempt `i` appears or disappears: the other attempts do not notice. */
  lemma ObjectsChanged(s: System, i: AttemptId, a: Attempt, objects: set<StorageKey>)
    requires Accounted(s) && i in s.attempts && AttemptOk(a, i, s.db, objects, s.report)
    requires forall k | Owner(k) != i :: k in objects <==> k in s.objects
    requires forall k | k in objects && Owner(k) == i :: k in a.uploaded || k in a.leaked
    requires !s.attempts[i].phase.Ended?
    ensures Accounted(s.(objects := objects, attempts := s.attempts[i := a]))
  {
    var t := s.(objects := objects, attempts := s.attempts[i := a]);
    forall j | j in t.attempts ensures AttemptOk(t.attempts[j], j, t.db, t.objects, t.report) {
      if j != i {
        assert AttemptOk(s.attempts[j], j, s.db, s.objects, s.report);
      }
    }
  }

  lemma StoreKeepsInv(s: System, i: AttemptId, ok: bool, next: Phase)
    requires SystemInv(s) && i in s.attempts && s.attempts[i].phase.Uploading?
    requires |s.attempts[i].uploaded| <= |s.attempts[i].documents|
    requires next == if |s.attempts[i].uploaded| < |s.attempts[i].documents| then Uploading else Committing
    ensures SystemInv(Store(s, i, ok, next))
  {
    var a := s.attempts[i];
    var key := NextKey(a, i);
    assert AttemptOk(a, i, s.db, s.objects, s.report);
    if ok && key !in s.objects {
      var b := a.(phase := next, uploaded := a.uploaded + [key]);
      StoredMore(a, i, s.objects, key, next);
      ObjectsChanged(s, i, b, s.objects + {key});
    } else {
      GiveUpKeepsInv(s, i, Failed);
    }
  }

  lemma StoredMore(a: Attempt, i: AttemptId, objects: set<StorageKey>, key: StorageKey, next: Phase)
    requires Stored(a, i, objects) && Progress(a, i) && a.phase.Uploading? && key !in objects && key == NextKey(a, i)
    requires next == if |a.uploaded| < |a.documents| then Uploading else Committing
    ensures var b := a.(phase := next, uploaded := a.uploaded + [key]); Stored(b, i, objects + {key}) && Progress(b, i)
  {
    var b := a.(phase := next, uploaded := a.uploaded + [key]);
    if next.Committing? {
      assert b.uploaded[..|a.documents|] == a.uploaded;
    }
  }

  lemma CleanKeepsInv(s: System, i: AttemptId, ok: bool)
    requires SystemInv(s) && i in s.attempts && s.attempts[i].phase.CleaningUp?
    ensures SystemInv(Clean(s, i, ok))
  {
    var a := s.attempts[i];
    if a.uploaded == [] {
      assert AttemptOk(a, i, s.db, s.objects, s.report);
      AttemptUpdated(s, i, a.(phase := Ended(a.phase.ending)));
    } else {
      OneCleaned(s, i, ok);
    }
  }

  lemma StoredLess(a: Attempt, i: AttemptId, objects: set<StorageKey>)
    requires Stored(a, i, objects) && a.uploaded != []
    ensures forall k :: k in a.uploaded <==> k == a.uploaded[0] || k in a.uploaded[1..]
    ensures Stored(a.(uploaded := a.uploaded[1..]), i, objects - {a.uploaded[0]})
    ensures Stored(a.(uploaded := a.uploaded[1..], leaked := a.leaked + {a.uploaded[0]}), i, objects)
  {
    assert a.uploaded == [a.uploaded[0]] + a.uploaded[1..];
  }

  lemma OneCleaned(s: System, i: AttemptId, ok: bool)
    requires SystemInv(s) && i in s.attempts && s.attempts[i].phase.CleaningUp? && s.attempts[i].uploaded != []
    ensures SystemInv(Clean(s, i, ok))
  {
    var a := s.attempts[i];
    assert AttemptOk(a, i, s.db, s.objects, s.report);
    var key := a.uploaded[0];
    StoredLess(a, i, s.objects);
    if ok {
      ObjectsChanged(s, i, a.(uploaded := a.uploaded[1..]), s.objects - {key});
    } else {
      ObjectsChanged(s, i, a.(uploaded := a.uploaded[1..], leaked := a.leaked + {key}), s.objects);
    }
  }

  // ---------------------------------------------------------------- the commit

  lemma CommittedReport(db: State, a: Attempt, i: AttemptId, finals: seq<StorageKey>)
    requires Inv(db) && Active(a) && Unread(a) == {} && Agrees(a, {}, db) && TrailTells(a.trail, db.signatures)
    requires |finals| == |a.documents| && FinalKeysOf(finals, a.documents, i)
    requires Complete(db, finals).1 == Done
    ensures ReportMatches(ReportOf(a, i), Complete(db, finals).0)
  {
    SignedIsSignatures(a, db);
    RecordedAreSame(db.documents, finals);
    SameDocumentsJoin(a.documents, db.documents, RecordFinals(db.documents, finals));
  }

  lemma SignedIsSignatures(a: Attempt, db: State)
    requires Agrees(a, {}, db)
    ensures SignedBy(a) == db.signatures
  {
  }

  lemma SameDocumentsJoin(a: seq<EnvelopeDocument>, b: seq<EnvelopeDocument>, c: seq<EnvelopeDocument>)
    requires SameDocuments(a, b) && SameDocuments(b, c)
    ensures SameDocuments(a, c)
  {
  }

  lemma CommitKeepsInv(s: System, i: AttemptId)
    requires SystemInv(s) && i in s.attempts && s.attempts[i].phase.Committing?
    ensures SystemInv(CommitAttempt(s, i))
  {
    var a := s.attempts[i];
    assert AttemptOk(a, i, s.db, s.objects, s.report);
    var finals := a.uploaded[..|a.uploaded| - 1];
    if s.db.envelope.status.Completed? {
      GiveUpKeepsInv(s, i, NotNeeded);
    } else if Complete(s.db, finals).1 != Done {
      GiveUpKeepsInv(s, i, Failed);
    } else {
      DoneCommitKeepsInv(s, i, finals);
    }
  }

  lemma DoneCommitKeepsInv(s: System, i: AttemptId, finals: seq<StorageKey>)
    requires SystemInv(s) && i in s.attempts && s.attempts[i].phase.Committing? && finals == s.attempts[i].uploaded[..|s.attempts[i].uploaded| - 1]
    requires AttemptOk(s.attempts[i], i, s.db, s.objects, s.report) && Complete(s.db, finals).1 == Done
    ensures SystemInv(CommitAttempt(s, i))
  {
    var t := Complete(s.db, finals).0;
    CompleteFreezes(s.db, finals);
    CommittedReport(s.db, s.attempts[i], i, finals);
    assert CommitAttempt(s, i) == Committed(s, i, t);
    CommittedKeepsInv(s, i, t);
  }

  function Committed(s: System, i: AttemptId, t: State): System
    requires i in s.attempts
  {
    s.(db := t, attempts := s.attempts[i := s.attempts[i].(phase := Ended(Finished))], report := Some(ReportOf(s.attempts[i], i)))
  }

  lemma CommittedKeepsInv(s: System, i: AttemptId, t: State)
    requires SystemInv(s) && i in s.attempts && s.attempts[i].phase.Committing? && s.report.None?
    requires Inv(t) && Told(t) && Frozen(s.db, t) && t.envelope.status.Completed? && s.db.envelope.finalizationRequestedAt.Some?
    requires ReportMatches(ReportOf(s.attempts[i], i), t)
    ensures SystemInv(Committed(s, i, t))
  {
    CommittedSystem(s, i, t);
    SameDocumentsStayDistinct(s.db.documents, t.documents);
  }

  lemma SameDocumentsStayDistinct(a: seq<EnvelopeDocument>, b: seq<EnvelopeDocument>)
    requires SameDocuments(a, b) && DistinctDocuments(a)
    ensures DistinctDocuments(b)
  {
  }

  lemma CompleteFreezes(s: State, finals: seq<StorageKey>)
    requires Inv(s) && Complete(s, finals).1 == Done
    ensures var t := Complete(s, finals).0; Inv(t) && Frozen(s, t) && t.envelope.status.Completed?
    ensures Told(s) ==> Told(Complete(s, finals).0)
  {
    CompleteUpholds(s, finals);
    if Told(s) {
      CompleteTells(s, finals);
    }
    MovesFreeze(s, Complete(s, finals).0);
  }

  lemma CommitKeepsAttempt(a: Attempt, i: AttemptId, s: State, t: State, objects: set<StorageKey>, r: Report)
    requires AttemptOk(a, i, s, objects, None) && s.envelope.finalizationRequestedAt.Some? && Frozen(s, t)
    ensures AttemptOk(a, i, t, objects, Some(r))
  {
  }

  lemma CommitterOk(a: Attempt, i: AttemptId, s: State, t: State, objects: set<StorageKey>, r: Report)
    requires AttemptOk(a, i, s, objects, None) && a.phase.Committing? && r == ReportOf(a, i)
    ensures var b := a.(phase := Ended(Finished)); AttemptOk(b, i, t, objects, Some(r)) && Recorder(b, r)
  {
  }

  lemma CommittedSystem(s: System, i: AttemptId, t: State)
    requires Accounted(s) && i in s.attempts && s.attempts[i].phase.Committing? && s.report.None?
    requires Frozen(s.db, t) && t.envelope.status.Completed? && s.db.envelope.finalizationRequestedAt.Some?
    requires ReportMatches(ReportOf(s.attempts[i], i), t)
    ensures Accounted(s.(db := t, attempts := s.attempts[i := s.attempts[i].(phase := Ended(Finished))],
                         report := Some(ReportOf(s.attempts[i], i))))
  {
    var r := ReportOf(s.attempts[i], i);
    var b := s.attempts[i].(phase := Ended(Finished));
    CommitterOk(s.attempts[i], i, s.db, t, s.objects, r);
    CommittedAttempts(s, i, t, b, r);
    assert ObjectsOwned(s.attempts[i := b], s.objects);
  }

  lemma CommittedAttempts(s: System, i: AttemptId, t: State, b: Attempt, r: Report)
    requires AttemptsOk(s) && s.report.None? && Frozen(s.db, t) && s.db.envelope.finalizationRequestedAt.Some?
    requires AttemptOk(b, i, t, s.objects, Some(r))
    ensures AttemptsOk(s.(db := t, attempts := s.attempts[i := b], report := Some(r)))
  {
    forall j | j in s.attempts && j != i ensures AttemptOk(s.attempts[j], j, t, s.objects, Some(r)) {
      CommitKeepsAttempt(s.attempts[j], j, s.db, t, s.objects, r);
    }
  }

  // ---------------------------------------------------------------- transactions of the protocol in between

  /** Only the commit records final documents or completes; after the draft no other step touches documents. */
  ghost predicate KeepsFinals(s: State, t: State) {
    && (t.envelope.status.Completed? ==> s.envelope.status.Completed?)
    && (NoFinals(s.documents) ==> NoFinals(t.documents))
    && (!s.envelope.status.Draft? ==> t.documents == s.documents)
    && (s.envelope.status.Completed? ==> t.envelope.status.Completed?)
    && (DistinctDocuments(s.documents) ==> DistinctDocuments(t.documents))
  }

  lemma RowAdded(documents: seq<EnvelopeDocument>, d: EnvelopeDocument)
    requires d.finalKey.None? && forall e | e in documents :: e.document != d.document
    ensures (NoFinals(documents) ==> NoFinals(documents + [d])) && (DistinctDocuments(documents) ==> DistinctDocuments(documents + [d]))
  {
    var more := documents + [d];
    forall j | 0 <= j < |documents| ensures more[j] == documents[j] && documents[j] in documents {
    }
  }

  lemma AddDocumentKeepsFinals(s: State, d: EnvelopeDocument)
    ensures KeepsFinals(s, AddDocument(s, d).0)
  {
    if AddDocument(s, d).1.Done? {
      RowAdded(s.documents, d.(finalKey := None));
    }
  }

  lemma RowRemoved(documents: seq<EnvelopeDocument>, i: nat)
    requires i < |documents|
    ensures var rest := documents[..i] + documents[i + 1..];
            (NoFinals(documents) ==> NoFinals(rest)) && (DistinctDocuments(documents) ==> DistinctDocuments(rest))
  {
    var rest := documents[..i] + documents[i + 1..];
    forall j | 0 <= j < |rest| ensures rest[j] == documents[if j < i then j else j + 1] {
    }
  }

  lemma RemoveDocumentKeepsFinals(s: State, i: nat)
    ensures KeepsFinals(s, RemoveDocument(s, i).0)
  {
    if i < |s.documents| {
      RowRemoved(s.documents, i);
    }
  }

  /** Everything else leaves the documents alone and completes nothing. */
  ghost predicate LeavesDocuments(s: State, t: State) {
    t.documents == s.documents && (t.envelope.status.Completed? <==> s.envelope.status.Completed?)
  }

  lemma SignerEditLeaves(s: State, a: Action)
    requires a.DoAddSigner? || a.DoRemoveSigner? || a.Tick?
    ensures LeavesDocuments(s, Step(s, a).0)
  {
  }

  lemma UpdateLeaves(s: State, sequential: Option<bool>, deadline: Option<Option<Time>>)
    ensures LeavesDocuments(s, UpdateDraft(s, sequential, deadline).0)
  {
    EditedLeaves(s, sequential, deadline);
  }

  lemma EditedLeaves(s: State, sequential: Option<bool>, deadline: Option<Option<Time>>)
    ensures LeavesDocuments(s, s) && LeavesDocuments(s, Edited(s, sequential, deadline))
  {
  }

  lemma ReplaceLeaves(s: State, fields: seq<Field>)
    ensures LeavesDocuments(s, ReplaceFields(s, fields).0)
  {
  }

  lemma DiscardLeaves(s: State)
    ensures LeavesDocuments(s, DiscardDraft(s).0)
  {
  }

  lemma EnvelopeActionLeaves(s: State, a: Action)
    requires a.DoActivate? || a.DoCancel? || a.DoExpire? || a.DoRemind?
    ensures LeavesDocuments(s, Step(s, a).0)
  {
  }

  lemma InviteActionLeaves(s: State, a: Action)
    requires InviteAction(a)
    ensures LeavesDocuments(s, Step(s, a).0)
  {
  }

  lemma SessionActionLeaves(s: State, a: Action)
    requires SessionAction(a)
    ensures LeavesDocuments(s, Step(s, a).0)
  {
  }

  lemma RequestLeaves(s: State, session: SessionId, challenge: ChallengeId, channel: OtpChannel, code: Code)
    ensures LeavesDocuments(s, RequestOtp(s, session, challenge, channel, code).0)
  {
  }

  lemma AnswerLeaves(s: State, session: SessionId, chosen: ChallengeId)
    requires session in s.sessions && chosen in s.challenges
    ensures LeavesDocuments(s, Invalidated(s, chosen)) && LeavesDocuments(s, WrongCode(s, chosen))
    ensures LeavesDocuments(s, ProvenSession(Consumed(s, chosen), session, s.challenges[chosen].via))
  {
  }

  lemma VerifyLeaves(s: State, session: SessionId, chosen: ChallengeId, code: Code)
    ensures LeavesDocuments(s, VerifyOtp(s, session, chosen, code).0)
  {
    if Resolves(s, session) && IsChosen(s, session, chosen) {
      AnswerLeaves(s, session, chosen);
    }
  }

  lemma ViewLeaves(s: State, session: SessionId, seen: bool)
    ensures LeavesDocuments(s, ViewDocument(s, session, seen).0)
  {
  }

  lemma SignLeaves(s: State, session: SessionId, input: SignInput)
    ensures LeavesDocuments(s, Sign(s, session, input).0)
  {
  }

  lemma IntegrationLeaves(s: State, id: SignerId, session: SessionId)
    ensures LeavesDocuments(s, SignByIntegration(s, id, session).0)
  {
  }

  lemma DeclineLeaves(s: State, session: SessionId)
    ensures LeavesDocuments(s, Decline(s, session).0)
  {
  }

  lemma OnlyCommitRecords(s: State, a: Action)
    requires !a.DoComplete?
    ensures KeepsFinals(s, Step(s, a).0)
  {
    if a.DoActivate? || a.DoCancel? || a.DoExpire? || a.DoRemind? {
      EnvelopeActionLeaves(s, a);
    } else if InviteAction(a) {
      InviteActionLeaves(s, a);
    } else if SessionAction(a) {
      SessionActionLeaves(s, a);
    } else if a.DoRequestOtp? {
      RequestLeaves(s, a.session, a.challenge, a.channel, a.code);
    } else if a.DoVerifyOtp? {
      VerifyLeaves(s, a.session, a.challenge, a.code);
    } else if a.DoViewDocument? {
      ViewLeaves(s, a.session, a.seen);
    } else if a.DoSign? {
      SignLeaves(s, a.session, a.input);
    } else if a.DoSignByIntegration? {
      IntegrationLeaves(s, a.signer, a.session);
    } else if a.DoDecline? {
      DeclineLeaves(s, a.session);
    } else if a.DoAddDocument? {
      AddDocumentKeepsFinals(s, a.document);
    } else if a.DoRemoveDocument? {
      RemoveDocumentKeepsFinals(s, a.position);
    } else if a.DoAddSigner? || a.DoRemoveSigner? || a.Tick? {
      SignerEditLeaves(s, a);
    } else if a.DoUpdateDraft? {
      UpdateLeaves(s, a.sequential, a.deadline);
    } else if a.DoReplaceFields? {
      ReplaceLeaves(s, a.fields);
    } else {
      DiscardLeaves(s);
    }
  }

  lemma FrozenKeepsAttempt(a: Attempt, i: AttemptId, s: State, t: State, objects: set<StorageKey>, report: Option<Report>)
    requires AttemptOk(a, i, s, objects, report)
    requires s.envelope.finalizationRequestedAt.Some? ==> Frozen(s, t)
    ensures AttemptOk(a, i, t, objects, report)
  {
  }

  lemma FrozenKeepsReport(s: System, t: State)
    requires SystemInv(s) && KeepsFinals(s.db, t)
    requires s.db.envelope.finalizationRequestedAt.Some? ==> Frozen(s.db, t)
    ensures ReportOk(s.(db := t))
  {
  }

  lemma TransactKeepsInv(s: System, a: Action)
    requires SystemInv(s) && !a.DoComplete?
    ensures SystemInv(s.(db := Step(s.db, a).0))
  {
    StepKeepsInv(s.db, a);
    StepTells(s.db, a);
    OnlyCommitRecords(s.db, a);
    if s.db.envelope.finalizationRequestedAt.Some? {
      RequestFreezes(s.db, a);
    }
    DatabaseChanged(s, Step(s.db, a).0);
  }

  lemma DatabaseChanged(s: System, t: State)
    requires SystemInv(s) && Inv(t) && Told(t) && KeepsFinals(s.db, t)
    requires s.db.envelope.finalizationRequestedAt.Some? ==> Frozen(s.db, t)
    ensures SystemInv(s.(db := t))
  {
    FrozenKeepsReport(s, t);
    forall i | i in s.attempts ensures AttemptOk(s.attempts[i], i, t, s.objects, s.report) {
      FrozenKeepsAttempt(s.attempts[i], i, s.db, t, s.objects, s.report);
    }
  }

  // ---------------------------------------------------------------- every step, every run

  lemma AttemptStepKeepsInv(s: System, x: SystemAction)
    requires SystemInv(s) && !x.Transact? && !x.Begin? && x.attempt in s.attempts
    ensures SystemInv(AttemptStep(s, x))
  {
    var i := x.attempt;
    var a := s.attempts[i];
    match x
    case Read(_, part) => if a.phase.Reading? && part in a.phase.pending { ReadKeepsInv(s, i, part); }
    case Check(_, intact) => if a.phase == Reading({}) { CheckKeepsInv(s, i, intact); }
    case LoadTrail(_, intact) => if a.phase.ReadingTrail? { LoadTrailKeepsInv(s, i, if intact then Uploading else Ended(Failed)); }
    case StoreFinal(_, ok) => if a.phase.Uploading? && |a.uploaded| < |a.documents| { StoreKeepsInv(s, i, ok, Uploading); }
    case StoreReport(_, ok) => if a.phase.Uploading? && |a.uploaded| == |a.documents| { StoreKeepsInv(s, i, ok, Committing); }
    case Commit(_) => if a.phase.Committing? { CommitKeepsInv(s, i); }
    case CleanNext(_, ok) => if a.phase.CleaningUp? { CleanKeepsInv(s, i, ok); }
  }

  lemma SystemStepKeepsInv(s: System, x: SystemAction)
    requires SystemInv(s)
    ensures SystemInv(SystemStep(s, x))
  {
    if x.Transact? {
      if !x.action.DoComplete? {
        TransactKeepsInv(s, x.action);
      }
    } else if x.attempt in s.attempts {
      if !x.Begin? {
        AttemptStepKeepsInv(s, x);
      }
    } else if x.Begin? {
      BeginKeepsInv(s, x.attempt);
    }
  }

  lemma {:induction false} SystemRunKeepsInv(s: System, xs: seq<SystemAction>)
    requires SystemInv(s)
    ensures SystemInv(SystemRun(s, xs))
    decreases |xs|
  {
    if xs != [] {
      SystemRunKeepsInv(s, xs[..|xs| - 1]);
      SystemStepKeepsInv(SystemRun(s, xs[..|xs| - 1]), xs[|xs| - 1]);
    }
  }

  lemma SystemReachableInv(s: System)
    requires SystemReachable(s)
    ensures SystemInv(s)
  {
    var config, now, sequential, xs :|
      ValidConfig(config) && s == SystemRun(NewSystem(config, now, sequential), xs);
    InitInv(config, now, sequential);
    NewIsTold(config, now, sequential);
    SystemRunKeepsInv(NewSystem(config, now, sequential), xs);
  }

  // ---------------------------------------------------------------- what nothing but the environment can stop

  lemma NextKeyIsNew(s: System, i: AttemptId)
    requires SystemInv(s) && i in s.attempts && s.attempts[i].phase.Uploading?
    requires |s.attempts[i].uploaded| <= |s.attempts[i].documents|
    ensures NextKey(s.attempts[i], i) !in s.objects
  {
    var a := s.attempts[i];
    assert AttemptOk(a, i, s.db, s.objects, s.report);
    NextIsNew(a, i, s.db.documents, s.attempts, s.objects);
  }

  lemma NextIsNew(a: Attempt, i: AttemptId, documents: seq<EnvelopeDocument>, attempts: map<AttemptId, Attempt>, objects: set<StorageKey>)
    requires FinalKeysOf(a.uploaded, a.documents, i) && SameDocuments(a.documents, documents) && DistinctDocuments(documents)
    requires ObjectsOwned(attempts, objects) && i in attempts && attempts[i] == a && a.leaked == {}
    ensures NextKey(a, i) !in objects
  {
    NextIsNotUploaded(a, i, documents);
  }

  lemma NextIsNotUploaded(a: Attempt, i: AttemptId, documents: seq<EnvelopeDocument>)
    requires FinalKeysOf(a.uploaded, a.documents, i) && SameDocuments(a.documents, documents) && DistinctDocuments(documents)
    ensures NextKey(a, i) !in a.uploaded
  {
    var n := |a.uploaded|;
    forall j | 0 <= j < n ensures a.uploaded[j] != NextKey(a, i) {
      assert a.documents[j].document == documents[j].document;
      assert n < |a.documents| ==> a.documents[n].document == documents[n].document;
    }
  }

  /** Whoever has read the signers and signatures of a requested envelope finds them in order. */
  lemma RequestedIsEvidenced(s: System, a: Attempt)
    requires SystemInv(s) && s.db.envelope.finalizationRequestedAt.Some?
    requires a.signers == s.db.signers && a.signatures == s.db.signatures
    ensures AllRequiredSigned(a.signers) && Evidenced(a)
  {
  }

  lemma CommitterHasAll(s: System, i: AttemptId)
    requires SystemInv(s) && i in s.attempts && s.attempts[i].phase.Committing?
    ensures |s.attempts[i].uploaded| == |s.db.documents| + 1
  {
    assert AttemptOk(s.attempts[i], i, s.db, s.objects, s.report);
  }

  // ---------------------------------------------------------------- the promises

  /** The keys that the database refers to. */
  ghost function Recorded(s: System): set<StorageKey> {
    (set d | d in s.db.documents && d.finalKey.Some? :: d.finalKey.value)
    + if s.report.Some? then {s.report.value.key} else {}
  }

  lemma AtMostOneCommits(s: System, i: AttemptId, j: AttemptId)
    requires SystemReachable(s) && i in s.attempts && j in s.attempts
    requires s.attempts[i].phase == Ended(Finished) && s.attempts[j].phase == Ended(Finished)
    ensures i == j
  {
    SystemReachableInv(s);
    assert AttemptOk(s.attempts[i], i, s.db, s.objects, s.report);
    assert AttemptOk(s.attempts[j], j, s.db, s.objects, s.report);
  }

  /** The envelope is COMPLETED exactly when a report exists; the report then states the documents, the fields and
      exactly the signatures of the envelope, and a prefix of its trail with the request in it and each signature, once. */
  lemma ReportIsFaithful(s: System)
    requires SystemReachable(s)
    ensures s.report.Some? <==> s.db.envelope.status.Completed?
    ensures s.report.Some? ==> ReportMatches(s.report.value, s.db)
    ensures s.report.Some? ==> forall id :: id in s.report.value.signed <==> id in s.db.signers && s.db.signers[id].status.Signed?
    ensures s.report.Some? ==> Times(s.report.value.trail, FinalizationRequested, None) == 1
    ensures s.report.Some? ==> forall id: SignerId ::
              Times(s.report.value.trail, SignatureCompleted, Some(id)) == Once(id in s.db.signatures)
  {
    SystemReachableInv(s);
  }

  /** What was in the trail before attempt `i` began is in what it loads, and in the report it commits. */
  ghost predicate Since(before: seq<TrailEvent>, s: System, i: AttemptId) {
    && before <= s.db.trail
    && (i in s.attempts && Holds(s.attempts[i]) ==> before <= s.attempts[i].trail)
    && (s.report.Some? && s.report.value.attempt == i ==> before <= s.report.value.trail)
  }

  lemma SinceOfTransaction(before: seq<TrailEvent>, s: System, t: State, i: AttemptId)
    requires Since(before, s, i) && s.db.trail <= t.trail
    ensures Since(before, s.(db := t), i)
  {
  }

  lemma StepKeepsSince(before: seq<TrailEvent>, s: System, x: SystemAction, i: AttemptId)
    requires SystemInv(s) && Since(before, s, i)
    ensures Since(before, SystemStep(s, x), i)
  {
    if x.Transact? {
      if !x.action.DoComplete? {
        StepMoves(s.db, x.action);
        SinceOfTransaction(before, s, Step(s.db, x.action).0, i);
      }
    } else if x.attempt in s.attempts && !x.Begin? {
      AttemptKeepsSince(before, s, x, i);
    }
  }

  /** An attempt that comes to hold a trail took today's; one that goes on holding one keeps it. */
  lemma SinceOfAttempt(before: seq<TrailEvent>, s: System, j: AttemptId, a: Attempt, objects: set<StorageKey>, i: AttemptId)
    requires Since(before, s, i) && j in s.attempts
    requires Holds(a) ==> a.trail == s.db.trail || (Holds(s.attempts[j]) && a.trail == s.attempts[j].trail)
    ensures Since(before, s.(objects := objects, attempts := s.attempts[j := a]), i)
  {
  }

  lemma AttemptKeepsSince(before: seq<TrailEvent>, s: System, x: SystemAction, i: AttemptId)
    requires SystemInv(s) && Since(before, s, i) && !x.Transact? && !x.Begin? && x.attempt in s.attempts
    ensures Since(before, AttemptStep(s, x), i)
  {
    var j := x.attempt;
    var t := AttemptStep(s, x);
    if x.Commit? && s.attempts[j].phase.Committing? {
      CommitKeepsSince(before, s, j, i);
    } else {
      AttemptHolds(s, x);
      SinceOfAttempt(before, s, j, t.attempts[j], t.objects, i);
    }
  }

  lemma AttemptHolds(s: System, x: SystemAction)
    requires !x.Transact? && !x.Begin? && x.attempt in s.attempts && !(x.Commit? && s.attempts[x.attempt].phase.Committing?)
    requires |s.attempts[x.attempt].uploaded| <= |s.attempts[x.attempt].documents| || !s.attempts[x.attempt].phase.Uploading?
    ensures var t := AttemptStep(s, x); var a := s.attempts[x.attempt];
            && x.attempt in t.attempts && t == s.(objects := t.objects, attempts := s.attempts[x.attempt := t.attempts[x.attempt]])
            && (Holds(t.attempts[x.attempt]) ==>
                  t.attempts[x.attempt].trail == s.db.trail || (Holds(a) && t.attempts[x.attempt].trail == a.trail))
  {
    assert s.attempts[x.attempt := s.attempts[x.attempt]] == s.attempts;
  }

  lemma CommitKeepsSince(before: seq<TrailEvent>, s: System, j: AttemptId, i: AttemptId)
    requires SystemInv(s) && Since(before, s, i) && j in s.attempts && s.attempts[j].phase.Committing?
    ensures Since(before, CommitAttempt(s, j), i)
  {
    var a := s.attempts[j];
    if s.db.envelope.status.Completed? || a.uploaded == [] || Complete(s.db, a.uploaded[..|a.uploaded| - 1]).1 != Done {
      var e := if s.db.envelope.status.Completed? then NotNeeded else Failed;
      SinceOfAttempt(before, s, j, a.(phase := CleaningUp(e)), s.objects, i);
    } else {
      var finals := a.uploaded[..|a.uploaded| - 1];
      CompleteFreezes(s.db, finals);
      SinceOfCommit(before, s, j, Complete(s.db, finals).0, i);
    }
  }

  lemma SinceOfCommit(before: seq<TrailEvent>, s: System, j: AttemptId, t: State, i: AttemptId)
    requires Since(before, s, i) && j in s.attempts && s.attempts[j].phase.Committing? && s.db.trail <= t.trail
    ensures Since(before, Committed(s, j, t), i)
  {
  }

  lemma {:induction false} RunKeepsSince(before: seq<TrailEvent>, s: System, xs: seq<SystemAction>, i: AttemptId)
    requires SystemInv(s) && Since(before, s, i)
    ensures Since(before, SystemRun(s, xs), i)
    decreases |xs|
  {
    if xs != [] {
      RunKeepsSince(before, s, xs[..|xs| - 1], i);
      SystemRunKeepsInv(s, xs[..|xs| - 1]);
      StepKeepsSince(before, SystemRun(s, xs[..|xs| - 1]), xs[|xs| - 1], i);
    }
  }

  /** A report holds all of the trail that there was before its attempt began, and nothing that is not in the trail. */
  lemma ReportReachesBack(s: System, xs: seq<SystemAction>, i: AttemptId)
    requires SystemInv(s) && i !in s.attempts
    ensures var t := SystemRun(s, xs);
            t.report.Some? && t.report.value.attempt == i ==> s.db.trail <= t.report.value.trail <= t.db.trail
  {
    RunKeepsSince(s.db.trail, s, xs, i);
    SystemRunKeepsInv(s, xs);
  }

  /** The same of a whole run: `Begin(i)` is where attempt `i` starts. */
  lemma ReportSpansItsAttempt(config: Config, now: Time, sequential: bool, before: seq<SystemAction>, after: seq<SystemAction>, i: AttemptId)
    requires ValidConfig(config)
    requires i !in SystemRun(NewSystem(config, now, sequential), before).attempts
    ensures var s := SystemRun(NewSystem(config, now, sequential), before);
            var t := SystemRun(NewSystem(config, now, sequential), before + [Begin(i)] + after);
            t.report.Some? && t.report.value.attempt == i ==> s.db.trail <= t.report.value.trail <= t.db.trail
  {
    var o := NewSystem(config, now, sequential);
    var s := SystemRun(o, before);
    assert SystemReachable(s);
    SystemReachableInv(s);
    assert before + [Begin(i)] + after == before + ([Begin(i)] + after);
    RunsJoin(o, before, [Begin(i)] + after);
    ReportReachesBack(s, [Begin(i)] + after, i);
  }

  lemma {:induction false} RunsJoin(s: System, xs: seq<SystemAction>, ys: seq<SystemAction>)
    ensures SystemRun(s, xs + ys) == SystemRun(SystemRun(s, xs), ys)
    decreases |ys|
  {
    if ys == [] {
      assert xs + ys == xs;
    } else {
      var front := ys[..|ys| - 1];
      assert (xs + ys)[..|xs + ys| - 1] == xs + front;
      RunsJoin(s, xs, front);
    }
  }

  lemma RecordedIsUploaded(s: System)
    requires Accounted(s)
    ensures s.report.None? ==> Recorded(s) == {}
    ensures s.report.Some? ==> forall k :: k in Recorded(s) <==> k in s.attempts[s.report.value.attempt].uploaded
  {
    if s.report.Some? {
      var r := s.report.value;
      RecordedOf(s, s.attempts[r.attempt], r);
    }
  }

  lemma RecordedOf(s: System, a: Attempt, r: Report)
    requires s.report == Some(r) && ReportMatches(r, s.db) && Recorder(a, r)
    ensures forall k :: k in Recorded(s) <==> k in a.uploaded
  {
    var n := |r.documents|;
    forall k | k in Recorded(s) ensures k in a.uploaded {
      if k != r.key {
        var d :| d in s.db.documents && d.finalKey == Some(k);
        var j :| 0 <= j < n && s.db.documents[j] == d;
        assert a.uploaded[..n][j] == k;
      }
    }
    forall k | k in a.uploaded ensures k in Recorded(s) {
      var j :| 0 <= j < n + 1 && a.uploaded[j] == k;
      if j < n {
        assert a.uploaded[..n][j] == k;
        assert s.db.documents[j].finalKey == Some(k);
      }
    }
  }

  lemma RecordedAreStored(s: System)
    requires Accounted(s)
    ensures Recorded(s) <= s.objects
  {
    RecordedIsUploaded(s);
    if s.report.Some? {
      var i := s.report.value.attempt;
      assert AttemptOk(s.attempts[i], i, s.db, s.objects, s.report);
    }
  }

  /** What the documents' final keys are follows from the report. */
  lemma RecordedByReport(s: System, t: System)
    requires Accounted(s) && Accounted(t) && s.report.Some? && t.report == s.report
    ensures Recorded(s) == Recorded(t)
  {
    var r := s.report.value;
    RecordedOf(s, s.attempts[r.attempt], r);
    RecordedOf(t, t.attempts[r.attempt], r);
    SameUploads(s.attempts[r.attempt].uploaded, t.attempts[r.attempt].uploaded, s.attempts[r.attempt], t.attempts[r.attempt], r);
  }

  lemma SameUploads(u: seq<StorageKey>, v: seq<StorageKey>, a: Attempt, b: Attempt, r: Report)
    requires Recorder(a, r) && Recorder(b, r) && u == a.uploaded && v == b.uploaded
    ensures u == v
  {
    var n := |r.documents|;
    forall j | 0 <= j < n ensures u[j] == v[j] {
      assert u[..n][j] == v[..n][j];
    }
  }

  lemma {:induction false} ReportStays(s: System, xs: seq<SystemAction>)
    requires SystemInv(s) && s.report.Some?
    ensures SystemRun(s, xs).report == s.report && SystemInv(SystemRun(s, xs))
    decreases |xs|
  {
    if xs != [] {
      var t := SystemRun(s, xs[..|xs| - 1]);
      ReportStays(s, xs[..|xs| - 1]);
      ReportKept(t, xs[|xs| - 1]);
      SystemStepKeepsInv(t, xs[|xs| - 1]);
    }
  }

  lemma ReportKept(s: System, x: SystemAction)
    requires s.db.envelope.status.Completed?
    ensures SystemStep(s, x).report == s.report
  {
  }

  /** Whatever happens after a commit, the report stays the same and its objects stay in storage. */
  lemma RecordedKeysAreNeverDeleted(s: System, xs: seq<SystemAction>)
    requires SystemReachable(s) && s.report.Some?
    ensures SystemRun(s, xs).report == s.report
    ensures Recorded(s) <= SystemRun(s, xs).objects
  {
    SystemReachableInv(s);
    ReportStays(s, xs);
    var t := SystemRun(s, xs);
    RecordedByReport(s, t);
    RecordedAreStored(t);
  }

  /** Once every attempt has ended and no delete failed, storage holds the recorded objects and nothing else. */
  lemma NoOrphansRemain(s: System)
    requires SystemReachable(s)
    requires forall i | i in s.attempts :: s.attempts[i].phase.Ended? && s.attempts[i].leaked == {}
    ensures s.objects == Recorded(s)
  {
    SystemReachableInv(s);
    RecordedAreStored(s);
    RecordedIsUploaded(s);
    forall k | k in s.objects ensures k in Recorded(s) {
      assert AttemptOk(s.attempts[Owner(k)], Owner(k), s.db, s.objects, s.report);
    }
  }
}
