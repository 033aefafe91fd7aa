/** One more thing every run keeps: the rows of an envelope fit together. */
module ProtocolTables {
  import opened Basics
  import opened AuthMethods
  import opened EnvelopeState
  import opened EnvelopeFields
  import opened SigningProtocol
  import opened ProtocolBase
  import opened ProtocolInvariant
  import opened ProtocolSteps

  // ---------------------------------------------------------------- documents, signers and fields

  ghost predicate DistinctRows(documents: seq<EnvelopeDocument>) {
    forall i, j | 0 <= i < j < |documents| ::
      documents[i].row != documents[j].row && documents[i].document != documents[j].document
  }

  ghost predicate OneGroup(signers: Signers) {
    forall id | id in signers :: signers[id].signingGroup == 1
  }

  /** Documents appear once, the limits hold, every field lies on an existing page of an existing document and
      belongs to an existing signer, and without a sequence everyone is in group 1. */
  ghost predicate RowsFit(s: State) {
    && |s.documents| <= MAX_DOCUMENTS && |s.signers| <= MAX_SIGNERS && DistinctRows(s.documents)
    && FieldsAccepted(s.fields, PageCounts(s.documents), s.signers.Keys)
    && (!s.envelope.sequential ==> OneGroup(s.signers))
  }

  lemma {:induction false} PageCountsHas(documents: seq<EnvelopeDocument>)
    requires DistinctRows(documents)
    ensures forall d | d in documents :: d.row in PageCounts(documents) && PageCounts(documents)[d.row] == d.pageCount
    ensures forall r | r in PageCounts(documents) :: exists d :: d in documents && d.row == r
  {
    if documents != [] {
      var front, last := documents[..|documents| - 1], documents[|documents| - 1];
      assert documents == front + [last];
      PageCountsHas(front);
      forall d | d in front ensures d.row != last.row {
        var i :| 0 <= i < |front| && front[i] == d;
        assert documents[i].row != documents[|documents| - 1].row;
      }
      assert last in documents;
    }
  }

  /** More rows accept what fewer rows accepted. */
  lemma FieldsStillAccepted(fields: seq<Field>, a: seq<EnvelopeDocument>, b: seq<EnvelopeDocument>, signers: set<SignerId>, more: set<SignerId>)
    requires DistinctRows(a) && DistinctRows(b) && FieldsAccepted(fields, PageCounts(a), signers)
    requires forall f, d | f in fields && d in a && d.row == f.document :: exists e :: e in b && e.row == d.row && e.pageCount == d.pageCount
    requires forall f | f in fields :: f.signer in signers ==> f.signer in more
    ensures FieldsAccepted(fields, PageCounts(b), more)
  {
    PageCountsHas(a);
    PageCountsHas(b);
    forall f | f in fields ensures FieldAccepted(f, PageCounts(b), more) {
      assert FieldAccepted(f, PageCounts(a), signers);
      var d :| d in a && d.row == f.document;
      var e :| e in b && e.row == d.row && e.pageCount == d.pageCount;
    }
  }

  lemma {:induction false} KeptAreFields(fields: seq<Field>, keep: Field -> bool)
    ensures forall f :: f in Kept(fields, keep) <==> f in fields && keep(f)
  {
    if fields != [] {
      assert fields == fields[..|fields| - 1] + [fields[|fields| - 1]];
      KeptAreFields(fields[..|fields| - 1], keep);
    }
  }

  lemma AddDocumentFits(s: State, d: EnvelopeDocument)
    requires RowsFit(s)
    ensures RowsFit(AddDocument(s, d).0)
  {
    var t := AddDocument(s, d).0;
    if t.documents != s.documents {
      var row := d.(finalKey := None);
      forall i | 0 <= i < |s.documents| ensures s.documents[i].row != row.row && s.documents[i].document != row.document {
        assert s.documents[i] in s.documents;
      }
      AppendedDistinct(s.documents, row);
      forall e | e in s.documents ensures e in s.documents + [row] {
      }
      FieldsStillAccepted(s.fields, s.documents, s.documents + [row], s.signers.Keys, s.signers.Keys);
    }
  }

  lemma AppendedDistinct(documents: seq<EnvelopeDocument>, d: EnvelopeDocument)
    requires DistinctRows(documents)
    requires forall i | 0 <= i < |documents| :: documents[i].row != d.row && documents[i].document != d.document
    ensures DistinctRows(documents + [d])
  {
  }

  lemma RemoveDocumentFits(s: State, i: nat)
    requires RowsFit(s)
    ensures RowsFit(RemoveDocument(s, i).0)
  {
    if EditDraft(s.envelope).None? && i < |s.documents| {
      var row := s.documents[i].row;
      var rest := s.documents[..i] + s.documents[i + 1..];
      var keep := (f: Field) => f.document != row;
      KeptAreFields(s.fields, keep);
      assert FieldsAccepted(Kept(s.fields, keep), PageCounts(s.documents), s.signers.Keys);
      WithoutDistinct(s.documents, i);
      FieldsStillAccepted(Kept(s.fields, keep), s.documents, rest, s.signers.Keys, s.signers.Keys);
    }
  }

  lemma WithoutDistinct(documents: seq<EnvelopeDocument>, i: nat)
    requires DistinctRows(documents) && i < |documents|
    ensures DistinctRows(documents[..i] + documents[i + 1..])
    ensures forall d | d in documents && d.row != documents[i].row :: d in documents[..i] + documents[i + 1..]
  {
    var rest := documents[..i] + documents[i + 1..];
    forall d | d in documents && d.row != documents[i].row ensures d in rest {
      var j :| 0 <= j < |documents| && documents[j] == d;
      assert rest[if j < i then j else j - 1] == d;
    }
  }

  lemma AddSignerFits(s: State, id: SignerId, group: Option<nat>, required: bool, m: AuthMethod, phone: bool, byIntegration: bool)
    requires RowsFit(s)
    ensures RowsFit(AddSigner(s, id, group, required, m, phone, byIntegration).0)
  {
    if AddSignerError(s, id, m, phone, byIntegration).None? {
      var row := Signer(GroupFor(s, group), required, if byIntegration then Integration else m, phone, byIntegration, Pending);
      SignerAddedFits(s, id, row);
    }
  }

  lemma SignerAddedFits(s: State, id: SignerId, row: Signer)
    requires RowsFit(s) && id !in s.signers && |s.signers| < MAX_SIGNERS && (!s.envelope.sequential ==> row.signingGroup == 1)
    ensures RowsFit(s.(signers := s.signers[id := row], trail := s.trail + [TrailEvent(EnvelopeUpdated, Some(id))]))
  {
    assert s.signers[id := row].Keys == s.signers.Keys + {id};
  }

  lemma RemoveSignerFits(s: State, id: SignerId)
    requires RowsFit(s)
    ensures RowsFit(RemoveSigner(s, id).0)
  {
    if EditDraft(s.envelope).None? && id in s.signers {
      var keep := (f: Field) => f.signer != id;
      KeptAreFields(s.fields, keep);
      assert (s.signers - {id}).Keys == s.signers.Keys - {id};
      assert |s.signers - {id}| <= |s.signers|;
    }
  }

  lemma UpdateFits(s: State, sequential: Option<bool>, deadline: Option<Option<Time>>)
    requires RowsFit(s)
    ensures RowsFit(UpdateDraft(s, sequential, deadline).0)
  {
    assert Ungrouped(s.signers).Keys == s.signers.Keys;
    assert |Ungrouped(s.signers)| == |Ungrouped(s.signers).Keys| == |s.signers.Keys| == |s.signers|;
  }

  lemma ReplaceFieldsFits(s: State, fields: seq<Field>)
    requires RowsFit(s)
    ensures RowsFit(ReplaceFields(s, fields).0)
  {
  }

  lemma DiscardFits(s: State)
    requires RowsFit(s)
    ensures RowsFit(DiscardDraft(s).0)
  {
  }

  ghost predicate SameGroups(a: Signers, b: Signers) {
    a.Keys == b.Keys && forall id | id in a :: b[id].signingGroup == a[id].signingGroup
  }

  /** What every other step leaves as it is. */
  ghost predicate LeavesRows(s: State, t: State) {
    && t.fields == s.fields && SameDocuments(s.documents, t.documents) && t.envelope.sequential == s.envelope.sequential
    && SameGroups(s.signers, t.signers)
  }

  predicate SameTables(s: State, t: State) {
    t.fields == s.fields && t.documents == s.documents && t.envelope.sequential == s.envelope.sequential
  }

  // Every signer row a step writes is an old one with another status.

  lemma ChangedGroups(signers: Signers, id: SignerId, to: SignerStatus)
    ensures SameGroups(signers, signers) && SameGroups(signers, Advance(signers, id, to)) && SameGroups(signers, ExpireOpenSigners(signers))
    ensures id in signers ==> SameGroups(signers, WithStatus(signers, id, to))
  {
  }

  /** What a step leaves alone that does not touch documents either. */
  ghost predicate Untouched(s: State, t: State) {
    SameTables(s, t) && SameGroups(s.signers, t.signers)
  }

  lemma SentUntouched(s: State)
    ensures Untouched(s, s) && Untouched(s, Sent(s))
  {
  }

  lemma ActivateUntouched(s: State, quota: bool)
    ensures Untouched(s, Activate(s, quota).0)
  {
    SentUntouched(s);
  }

  lemma CancelUntouched(s: State)
    ensures Untouched(s, Cancel(s).0)
  {
  }

  lemma ExpireUntouched(s: State)
    ensures Untouched(s, Expire(s).0)
  {
    ChangedGroups(s.signers, 0, Signed);
  }

  lemma EmitUntouched(s: State, m: Message)
    ensures Untouched(s, s) && Untouched(s, s.(outbox := s.outbox + [m]))
  {
  }

  lemma RemindUntouched(s: State, targets: set<SignerId>)
    ensures Untouched(s, Remind(s, targets).0)
  {
    EmitUntouched(s, InviteRequested(DueForReminder(s, targets), true));
  }

  lemma CheckInviteUntouched(s: State, id: SignerId, token: TokenId, reminder: bool)
    ensures Untouched(s, CheckInvite(s, id, token, reminder).0)
  {
  }

  lemma LinkUntouched(s: State, token: TokenId)
    ensures Untouched(s, IssueLink(s, token).0) && Untouched(s, InviteFailed(s, token).0)
  {
  }

  lemma InviteSentUntouched(s: State, token: TokenId)
    ensures Untouched(s, InviteSent(s, token).0)
  {
    ChangedGroups(s.signers, if token in s.mailings then s.mailings[token].signer else 0, Invited);
  }

  lemma CheckLinkUntouched(s: State, token: TokenId, session: SessionId)
    ensures Untouched(s, CheckLink(s, token, session).0)
  {
    ExpireUntouched(s);
  }

  lemma OpenSessionUntouched(s: State, session: SessionId)
    ensures Untouched(s, OpenSession(s, session).0) && Untouched(s, EndSession(s, session).0)
  {
    ChangedGroups(s.signers, if session in s.openings then s.openings[session].signer else 0, Authenticated);
  }

  lemma RequestedUntouched(s: State, id: SignerId, session: SessionId, challenge: ChallengeId, via: AuthMethod, code: Code)
    ensures Untouched(s, s) && Untouched(s, Requested(s, id, session, challenge, via, code))
  {
  }

  lemma RequestUntouched(s: State, session: SessionId, challenge: ChallengeId, channel: OtpChannel, code: Code)
    ensures Untouched(s, RequestOtp(s, session, challenge, channel, code).0)
  {
    RequestedUntouched(s, if session in s.sessions then s.sessions[session].signer else 0, session, challenge, ChannelMethod(channel), code);
  }

  lemma AnswerUntouched(s: State, session: SessionId, challenge: ChallengeId)
    requires session in s.sessions && challenge in s.challenges
    ensures Untouched(s, Invalidated(s, challenge)) && Untouched(s, WrongCode(s, challenge))
    ensures Untouched(s, ProvenSession(Consumed(s, challenge), session, s.challenges[challenge].via))
  {
    ChangedGroups(s.signers, s.sessions[session].signer, Authenticated);
  }

  lemma VerifyUntouched(s: State, session: SessionId, challenge: ChallengeId, code: Code)
    ensures Untouched(s, VerifyOtp(s, session, challenge, code).0)
  {
    if Resolves(s, session) && IsChosen(s, session, challenge) {
      AnswerUntouched(s, session, challenge);
    }
  }

  lemma SeenUntouched(s: State, id: SignerId)
    ensures Untouched(s, s) && Untouched(s, FirstView(s, id))
  {
    ChangedGroups(s.signers, id, Viewed);
  }

  lemma ViewUntouched(s: State, session: SessionId, seen: bool)
    ensures Untouched(s, ViewDocument(s, session, seen).0)
  {
    SeenUntouched(s, if session in s.sessions then s.sessions[session].signer else 0);
  }

  lemma RecordUntouched(s: State, id: SignerId, g: Signature, before: seq<TrailEvent>)
    requires id in s.signers
    ensures Untouched(s, RecordSignature(s, id, g, before))
  {
    ChangedGroups(s.signers, id, Signed);
  }

  lemma SignUntouched(s: State, session: SessionId, input: SignInput)
    ensures Untouched(s, Sign(s, session, input).0)
  {
    if Sign(s, session, input).1.Done? {
      var id := s.sessions[session].signer;
      var used := if s.sessions[session].authMethod.Some? then s.sessions[session].authMethod.value else s.signers[id].authMethod;
      RecordUntouched(s, id, Signature(session, used, s.now), [TrailEvent(SignatureStarted, Some(id)), TrailEvent(ConsentAccepted, Some(id))]);
    }
  }

  lemma IntegrationUntouched(s: State, id: SignerId, session: SessionId)
    ensures Untouched(s, SignByIntegration(s, id, session).0)
  {
    if SignByIntegration(s, id, session).1.Done? {
      RecordUntouched(WithTechnicalSession(s, id, session), id, Signature(session, Integration, s.now),
                      [TrailEvent(SignatureByIntegration, Some(id))]);
    }
  }

  lemma RequiredRefusalUntouched(s: State, id: SignerId)
    requires id in s.signers
    ensures Untouched(s, DeclinedByRequired(s, id))
  {
    ChangedGroups(s.signers, id, SignerStatus.Declined);
  }

  lemma OptionalRefusalUntouched(s: State, id: SignerId)
    requires id in s.signers
    ensures Untouched(s, DeclinedByOptional(s, id))
  {
    ChangedGroups(s.signers, id, SignerStatus.Declined);
  }

  lemma DeclineUntouched(s: State, session: SessionId)
    ensures Untouched(s, Decline(s, session).0)
  {
    if Decline(s, session).1.Done? {
      RequiredRefusalUntouched(s, s.sessions[session].signer);
      OptionalRefusalUntouched(s, s.sessions[session].signer);
    }
  }

  lemma EnvelopeActionUntouched(s: State, a: Action)
    requires EnvelopeAction(a) && !a.DoComplete?
    ensures Untouched(s, Step(s, a).0)
  {
    match a
    case DoActivate(q) => assert Step(s, a) == Activate(s, q); ActivateUntouched(s, q);
    case DoCancel => assert Step(s, a) == Cancel(s); CancelUntouched(s);
    case DoExpire => assert Step(s, a) == Expire(s); ExpireUntouched(s);
    case DoRemind(t) => assert Step(s, a) == Remind(s, t); RemindUntouched(s, t);
  }

  lemma InviteActionUntouched(s: State, a: Action)
    requires InviteAction(a)
    ensures Untouched(s, Step(s, a).0)
  {
    match a
    case DoCheckInvite(id, t, r) => assert Step(s, a) == CheckInvite(s, id, t, r); CheckInviteUntouched(s, id, t, r);
    case DoIssueLink(t) => assert Step(s, a) == IssueLink(s, t); LinkUntouched(s, t);
    case DoInviteSent(t) => assert Step(s, a) == InviteSent(s, t); InviteSentUntouched(s, t);
    case DoInviteFailed(t) => assert Step(s, a) == InviteFailed(s, t); LinkUntouched(s, t);
  }

  lemma SessionActionUntouched(s: State, a: Action)
    requires SessionAction(a)
    ensures Untouched(s, Step(s, a).0)
  {
    match a
    case DoCheckLink(t, i) => assert Step(s, a) == CheckLink(s, t, i); CheckLinkUntouched(s, t, i);
    case DoOpenSession(i) => assert Step(s, a) == OpenSession(s, i); OpenSessionUntouched(s, i);
    case DoEndSession(i) => assert Step(s, a) == EndSession(s, i); OpenSessionUntouched(s, i);
  }

  lemma CodeActionUntouched(s: State, a: Action)
    requires CodeAction(a)
    ensures Untouched(s, Step(s, a).0)
  {
    match a
    case DoRequestOtp(i, c, ch, code) => assert Step(s, a) == RequestOtp(s, i, c, ch, code); RequestUntouched(s, i, c, ch, code);
    case DoVerifyOtp(i, c, code) => assert Step(s, a) == VerifyOtp(s, i, c, code); VerifyUntouched(s, i, c, code);
    case DoViewDocument(i, seen) => assert Step(s, a) == ViewDocument(s, i, seen); ViewUntouched(s, i, seen);
  }

  lemma SigningActionUntouched(s: State, a: Action)
    requires a.DoSign? || a.DoSignByIntegration? || a.DoDecline?
    ensures Untouched(s, Step(s, a).0)
  {
    match a
    case DoSign(i, input) => assert Step(s, a) == Sign(s, i, input); SignUntouched(s, i, input);
    case DoSignByIntegration(id, i) => assert Step(s, a) == SignByIntegration(s, id, i); IntegrationUntouched(s, id, i);
    case DoDecline(i) => assert Step(s, a) == Decline(s, i); DeclineUntouched(s, i);
  }

  lemma StepUntouched(s: State, a: Action)
    requires !DraftEdit(a) && !a.DoComplete?
    ensures Untouched(s, Step(s, a).0)
  {
    if EnvelopeAction(a) {
      EnvelopeActionUntouched(s, a);
    } else if InviteAction(a) {
      InviteActionUntouched(s, a);
    } else if SessionAction(a) {
      SessionActionUntouched(s, a);
    } else if CodeAction(a) {
      CodeActionUntouched(s, a);
    } else if !a.Tick? {
      SigningActionUntouched(s, a);
    }
  }

  lemma CompleteLeavesRows(s: State, finals: seq<StorageKey>)
    ensures LeavesRows(s, Complete(s, finals).0)
  {
    ChangedGroups(s.signers, 0, Signed);
    if Complete(s, finals).1 == Done {
      RecordedAreSame(s.documents, finals);
    }
  }

  lemma LeavesTheRows(s: State, a: Action)
    requires !DraftEdit(a)
    ensures LeavesRows(s, Step(s, a).0)
  {
    if a.DoComplete? {
      CompleteLeavesRows(s, a.finals);
    } else {
      StepUntouched(s, a);
    }
  }

  lemma LeftRowsFit(s: State, t: State)
    requires RowsFit(s) && LeavesRows(s, t)
    ensures RowsFit(t)
  {
    assert |t.signers| == |t.signers.Keys|;
    forall d | d in s.documents ensures exists e :: e in t.documents && e.row == d.row && e.pageCount == d.pageCount {
      var i :| 0 <= i < |s.documents| && s.documents[i] == d;
      assert t.documents[i] in t.documents;
    }
    FieldsStillAccepted(s.fields, s.documents, t.documents, s.signers.Keys, t.signers.Keys);
  }

  lemma DraftEditFits(s: State, a: Action)
    requires RowsFit(s) && DraftEdit(a)
    ensures RowsFit(Step(s, a).0)
  {
    match a
    case DoAddDocument(d) => AddDocumentFits(s, d);
    case DoRemoveDocument(i) => RemoveDocumentFits(s, i);
    case DoAddSigner(id, g, r, m, p, i) => AddSignerFits(s, id, g, r, m, p, i);
    case DoRemoveSigner(id) => RemoveSignerFits(s, id);
    case DoUpdateDraft(q, x) => UpdateFits(s, q, x);
    case DoReplaceFields(f) => ReplaceFieldsFits(s, f);
    case DoDiscardDraft => DiscardFits(s);
  }

  lemma StepKeepsRowsFit(s: State, a: Action)
    requires RowsFit(s)
    ensures RowsFit(Step(s, a).0)
  {
    if DraftEdit(a) {
      DraftEditFits(s, a);
    } else {
      LeavesTheRows(s, a);
      LeftRowsFit(s, Step(s, a).0);
    }
  }

  // ---------------------------------------------------------------- over every run

  lemma {:induction false} RunKeepsRowsFit(s: State, actions: seq<Action>)
    requires RowsFit(s)
    ensures RowsFit(Run(s, actions))
    decreases |actions|
  {
    if actions != [] {
      RunKeepsRowsFit(s, actions[..|actions| - 1]);
      StepKeepsRowsFit(Run(s, actions[..|actions| - 1]), actions[|actions| - 1]);
    }
  }

  lemma ReachableRowsFit(s: State)
    requires Reachable(s)
    ensures RowsFit(s)
  {
    var config, now, sequential, actions :| ValidConfig(config) && s == Run(NewEnvelope(config, now, sequential), actions);
    RunKeepsRowsFit(NewEnvelope(config, now, sequential), actions);
  }
}
