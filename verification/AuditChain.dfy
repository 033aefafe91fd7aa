/** The hash chain of the audit trail (audit-chain.ts). The hash is any function to 64-character strings: what
    depends on it being collision-free says so by naming the collision. */
module AuditChain {
  import opened Basics
  import opened Json
  import opened CanonicalJson

  const GENESIS_HASH: string := "0000000000000000000000000000000000000000000000000000000000000000"

  /** The fields that are hashed; `occurredAt` is the instant in its ISO form. */
  datatype Event = Event(
    chainKey: string,
    sequence: nat,
    organizationId: Option<string>,
    envelopeId: Option<string>,
    documentId: Option<string>,
    signerId: Option<string>,
    actorType: string,
    actorId: Option<string>,
    eventType: string,
    occurredAt: string,
    ip: Option<string>,
    userAgent: Option<string>,
    requestId: Option<string>,
    metadata: Js)

  datatype StoredEvent = StoredEvent(data: Event, previousHash: string, eventHash: string)

  datatype Reason = SequenceGap | PreviousHashMismatch | EventHashMismatch

  datatype Verification = Verification(valid: bool, count: nat, headHash: string, failure: Option<(nat, Reason)>)

  // ---------------------------------------------------------------- numbers

  function Decimal(n: nat): (s: string)
    ensures NumberToken(s)
  {
    var digit := [('0' as int + n % 10) as char];
    if n < 10 then digit else Decimal(n / 10) + digit
  }

  function DecimalValue(s: string): int {
    if s == "" then 0 else 10 * DecimalValue(s[..|s| - 1]) + (s[|s| - 1] as int - '0' as int)
  }

  lemma {:induction false} DecimalUndone(n: nat)
    ensures DecimalValue(Decimal(n)) == n
  {
    var s := Decimal(n);
    if n < 10 {
      assert s[..0] == "";
    } else {
      DecimalUndone(n / 10);
      assert s[..|s| - 1] == Decimal(n / 10);
    }
  }

  // ---------------------------------------------------------------- the hashed text

  function Text(s: Option<string>): Js {
    if s.None? then Null else Str(s.value)
  }

  /** `metadata ?? {}`. */
  function OrEmpty(metadata: Js): Js {
    if metadata.Null? || metadata.Undefined? then Obj([]) else metadata
  }

  const EVENT_KEYS: seq<string> :=
    ["chainKey", "sequence", "organizationId", "envelopeId", "documentId", "signerId", "actorType", "actorId",
     "eventType", "occurredAt", "ip", "userAgent", "requestId", "metadata"]

  function EventValues(e: Event): (values: seq<Js>)
    ensures |values| == 14
  {
    [Str(e.chainKey), Num(Decimal(e.sequence)), Text(e.organizationId), Text(e.envelopeId), Text(e.documentId),
     Text(e.signerId), Str(e.actorType), Text(e.actorId), Str(e.eventType), Str(e.occurredAt), Text(e.ip),
     Text(e.userAgent), Text(e.requestId), OrEmpty(e.metadata)]
  }

  function EventEntries(e: Event): seq<Member> {
    seq(14, i requires 0 <= i < 14 => Member(EVENT_KEYS[i], EventValues(e)[i]))
  }

  lemma EventKeysDistinct()
    ensures forall i, j | 0 <= i < j < 14 :: EVENT_KEYS[i] != EVENT_KEYS[j]
  {
  }

  predicate Loadable(e: Event) {
    Valid(e.metadata) && Finite(e.metadata)
  }

  lemma ValuesAreFine(e: Event)
    requires Loadable(e)
    ensures forall i | 0 <= i < 14 :: Valid(EventValues(e)[i]) && Finite(EventValues(e)[i]) && !EventValues(e)[i].Undefined?
  {
  }

  lemma EventIsValid(e: Event)
    requires Loadable(e)
    ensures Valid(Obj(EventEntries(e))) && Finite(Obj(EventEntries(e)))
  {
    EventKeysDistinct();
    ValuesAreFine(e);
  }

  function CanonicalEventData(e: Event): string
    requires Loadable(e)
  {
    EventIsValid(e);
    CanonicalText(Obj(EventEntries(e))).value
  }

  /** The same event, whichever way its metadata is written. */
  ghost predicate SameContent(e: Event, f: Event)
    requires Loadable(e) && Loadable(f)
  {
    e == f.(metadata := e.metadata) && Meaning(OrEmpty(e.metadata)) == Meaning(OrEmpty(f.metadata))
  }

  lemma {:induction false} MembersAt(entries: seq<Member>, i: nat)
    requires DistinctKeys(entries) && FiniteAll(entries) && i < |entries| && !entries[i].value.Undefined?
    ensures entries[i].key in Members(entries) && Members(entries)[entries[i].key] == Meaning(entries[i].value)
  {
    if i < |entries| - 1 {
      MembersAt(entries[..|entries| - 1], i);
    }
  }

  // ---------------------------------------------------------------- what the hashed text says

  function Noted(s: Option<string>): Data {
    match s
    case None => DNull
    case Some(text) => DText(text)
  }

  lemma EntryIs(e: Event, i: nat)
    requires Loadable(e) && i < 14
    ensures FiniteAll(EventEntries(e)) && EVENT_KEYS[i] in Members(EventEntries(e))
    ensures Finite(EventValues(e)[i]) && Members(EventEntries(e))[EVENT_KEYS[i]] == Meaning(EventValues(e)[i])
  {
    EventIsValid(e);
    ValuesAreFine(e);
    EventKeysDistinct();
    MembersAt(EventEntries(e), i);
  }

  /** Whose event it is: the chain and the actor are under their names. */
  lemma ActorIsWritten(e: Event)
    requires Loadable(e)
    ensures FiniteAll(EventEntries(e)) && {"chainKey", "actorType", "actorId"} <= Members(EventEntries(e)).Keys
    ensures var m := Members(EventEntries(e));
            m["chainKey"] == DText(e.chainKey) && m["actorType"] == DText(e.actorType) && m["actorId"] == Noted(e.actorId)
  {
    EntryIs(e, 0);
    EntryIs(e, 6);
    EntryIs(e, 7);
  }

  /** What it concerns: so are the organization, the envelope, the document and the signer. */
  lemma ScopeIsWritten(e: Event)
    requires Loadable(e)
    ensures FiniteAll(EventEntries(e))
            && {"organizationId", "envelopeId", "documentId", "signerId"} <= Members(EventEntries(e)).Keys
    ensures var m := Members(EventEntries(e));
            && m["organizationId"] == Noted(e.organizationId) && m["envelopeId"] == Noted(e.envelopeId)
            && m["documentId"] == Noted(e.documentId) && m["signerId"] == Noted(e.signerId)
  {
    EntryIs(e, 2);
    EntryIs(e, 3);
    EntryIs(e, 4);
    EntryIs(e, 5);
  }

  /** What happened, when and from where: so are the event and its circumstances. */
  lemma CircumstancesAreWritten(e: Event)
    requires Loadable(e)
    ensures FiniteAll(EventEntries(e)) && {"sequence", "eventType", "occurredAt", "ip", "userAgent", "requestId", "metadata"}
            <= Members(EventEntries(e)).Keys
    ensures var m := Members(EventEntries(e));
            && m["sequence"] == DNumber(Decimal(e.sequence)) && m["eventType"] == DText(e.eventType) && m["occurredAt"] == DText(e.occurredAt)
            && m["ip"] == Noted(e.ip) && m["userAgent"] == Noted(e.userAgent) && m["requestId"] == Noted(e.requestId)
            && Finite(OrEmpty(e.metadata)) && m["metadata"] == Meaning(OrEmpty(e.metadata))
  {
    EntryIs(e, 1);
    EntryIs(e, 8);
    EntryIs(e, 9);
    EntryIs(e, 10);
    EntryIs(e, 11);
    EntryIs(e, 12);
    EntryIs(e, 13);
  }

  lemma {:induction false} MembersAreKeys(entries: seq<Member>)
    requires FiniteAll(entries) && forall i | 0 <= i < |entries| :: !entries[i].value.Undefined?
    ensures forall key :: key in Members(entries) <==> exists i :: 0 <= i < |entries| && entries[i].key == key
  {
    if entries != [] {
      var front := entries[..|entries| - 1];
      MembersAreKeys(front);
      forall key ensures key in Members(entries) <==> exists i :: 0 <= i < |entries| && entries[i].key == key {
        if i :| 0 <= i < |entries| && entries[i].key == key {
          assert i < |front| ==> front[i].key == key;
        }
        if key in Members(front) {
          var i :| 0 <= i < |front| && front[i].key == key;
          assert entries[i].key == key;
        }
      }
    }
  }

  /** The hashed text is JSON that says, under fourteen names and no others, everything that the event says. */
  lemma HashedTextSays(e: Event)
    requires Loadable(e)
    ensures var p := ParseValue(CanonicalEventData(e));
            && p.Some? && p.value.1 == "" && Finite(p.value.0)
            && FiniteAll(EventEntries(e)) && Meaning(p.value.0) == DObject(Members(EventEntries(e)))
            && forall key :: key in Members(EventEntries(e)) <==> exists i :: 0 <= i < 14 && EVENT_KEYS[i] == key
  {
    EventIsValid(e);
    ValuesAreFine(e);
    TextSurvivesParsing(Obj(EventEntries(e)));
    MembersAreKeys(EventEntries(e));
    forall key ensures key in Members(EventEntries(e)) <==> exists i :: 0 <= i < 14 && EVENT_KEYS[i] == key {
      if i :| 0 <= i < 14 && EVENT_KEYS[i] == key {
        assert EventEntries(e)[i].key == key;
      }
      if i :| 0 <= i < |EventEntries(e)| && EventEntries(e)[i].key == key {
        assert EVENT_KEYS[i] == key;
      }
    }
  }

  // ---------------------------------------------------------------- equal texts

  ghost predicate SameEntries(a: seq<Member>, b: seq<Member>)
    requires FiniteAll(a) && FiniteAll(b)
  {
    |a| == |b| && forall i | 0 <= i < |a| :: a[i].key == b[i].key && (a[i].value.Undefined? <==> b[i].value.Undefined?)
                                              && Meaning(a[i].value) == Meaning(b[i].value)
  }

  lemma {:induction false} SameEntriesSameMembers(a: seq<Member>, b: seq<Member>)
    requires FiniteAll(a) && FiniteAll(b) && SameEntries(a, b)
    ensures Members(a) == Members(b)
  {
    if a != [] {
      SameEntriesSameMembers(a[..|a| - 1], b[..|b| - 1]);
    }
  }

  lemma SameMembersSameValue(a: seq<Member>, b: seq<Member>, i: nat)
    requires FiniteAll(a) && FiniteAll(b) && DistinctKeys(a) && DistinctKeys(b) && Members(a) == Members(b)
    requires i < |a| && i < |b| && a[i].key == b[i].key && !a[i].value.Undefined? && !b[i].value.Undefined?
    ensures Meaning(a[i].value) == Meaning(b[i].value)
  {
    MembersAt(a, i);
    MembersAt(b, i);
  }

  /** The hashed text tells two events apart exactly by their content. */
  lemma TextIsContent(e: Event, f: Event)
    requires Loadable(e) && Loadable(f)
    ensures CanonicalEventData(e) == CanonicalEventData(f) <==> SameContent(e, f)
  {
    EventIsValid(e);
    EventIsValid(f);
    TextIsMeaning(Obj(EventEntries(e)), Obj(EventEntries(f)));
    if Members(EventEntries(e)) == Members(EventEntries(f)) {
      MembersAreContent(e, f);
    }
    if SameContent(e, f) {
      ContentIsValues(e, f);
      SameEntriesSameMembers(EventEntries(e), EventEntries(f));
    }
  }

  lemma ContentIsValues(e: Event, f: Event)
    requires Loadable(e) && Loadable(f) && SameContent(e, f)
    requires FiniteAll(EventEntries(e)) && FiniteAll(EventEntries(f))
    ensures SameEntries(EventEntries(e), EventEntries(f))
  {
    ValuesAreFine(e);
    ValuesAreFine(f);
    forall i: nat | i < 13 ensures EventValues(e)[i] == EventValues(f)[i] {
    }
  }

  lemma MembersAreContent(e: Event, f: Event)
    requires Loadable(e) && Loadable(f)
    requires Valid(Obj(EventEntries(e))) && Valid(Obj(EventEntries(f)))
    requires FiniteAll(EventEntries(e)) && FiniteAll(EventEntries(f)) && Members(EventEntries(e)) == Members(EventEntries(f))
    ensures SameContent(e, f)
  {
    ValuesAreFine(e);
    ValuesAreFine(f);
    forall i: nat | i < 14 ensures SameValueAt(e, f, i) {
      assert EventEntries(e)[i].value == EventValues(e)[i] && EventEntries(f)[i].value == EventValues(f)[i];
      SameMembersSameValue(EventEntries(e), EventEntries(f), i);
    }
    NamedFields(e, f);
    ScopeFields(e, f);
    OriginFields(e, f);
  }

  ghost predicate SameValueAt(e: Event, f: Event, i: nat) {
    i < 14 && Finite(EventValues(e)[i]) && Finite(EventValues(f)[i]) && Meaning(EventValues(e)[i]) == Meaning(EventValues(f)[i])
  }

  lemma NamedFields(e: Event, f: Event)
    requires Loadable(e) && Loadable(f) && forall i: nat | i < 14 :: SameValueAt(e, f, i)
    ensures e.chainKey == f.chainKey && e.actorType == f.actorType && e.eventType == f.eventType && e.occurredAt == f.occurredAt
    ensures e.sequence == f.sequence && Meaning(OrEmpty(e.metadata)) == Meaning(OrEmpty(f.metadata))
  {
    assert SameValueAt(e, f, 0) && SameValueAt(e, f, 6) && SameValueAt(e, f, 8) && SameValueAt(e, f, 9);
    assert SameValueAt(e, f, 1) && SameValueAt(e, f, 13);
    DecimalUndone(e.sequence);
    DecimalUndone(f.sequence);
  }

  lemma ScopeValues(e: Event)
    ensures var v := EventValues(e);
            v[2] == Text(e.organizationId) && v[3] == Text(e.envelopeId) && v[4] == Text(e.documentId) && v[5] == Text(e.signerId)
  {
  }

  lemma ScopeFields(e: Event, f: Event)
    requires forall i: nat | i < 14 :: SameValueAt(e, f, i)
    ensures e.organizationId == f.organizationId && e.envelopeId == f.envelopeId && e.documentId == f.documentId
    ensures e.signerId == f.signerId
  {
    ScopeValues(e);
    ScopeValues(f);
    SameText(e, f, 2, e.organizationId, f.organizationId);
    SameText(e, f, 3, e.envelopeId, f.envelopeId);
    SameText(e, f, 4, e.documentId, f.documentId);
    SameText(e, f, 5, e.signerId, f.signerId);
  }

  lemma OriginValues(e: Event)
    ensures var v := EventValues(e); v[7] == Text(e.actorId) && v[10] == Text(e.ip) && v[11] == Text(e.userAgent) && v[12] == Text(e.requestId)
  {
  }

  lemma OriginFields(e: Event, f: Event)
    requires forall i: nat | i < 14 :: SameValueAt(e, f, i)
    ensures e.actorId == f.actorId && e.ip == f.ip && e.userAgent == f.userAgent && e.requestId == f.requestId
  {
    OriginValues(e);
    OriginValues(f);
    SameText(e, f, 7, e.actorId, f.actorId);
    SameText(e, f, 10, e.ip, f.ip);
    SameText(e, f, 11, e.userAgent, f.userAgent);
    SameText(e, f, 12, e.requestId, f.requestId);
  }

  lemma SameText(e: Event, f: Event, i: nat, s: Option<string>, t: Option<string>)
    requires i < 14 && SameValueAt(e, f, i) && EventValues(e)[i] == Text(s) && EventValues(f)[i] == Text(t)
    ensures s == t
  {
  }

  // ---------------------------------------------------------------- the chain

  type Hash = string -> string

  ghost predicate HashOf64(h: Hash) {
    forall x :: |h(x)| == 64
  }

  function Preimage(previousHash: string, e: Event): string
    requires Loadable(e)
  {
    previousHash + CanonicalEventData(e)
  }

  function ComputeEventHash(h: Hash, previousHash: string, e: Event): string
    requires Loadable(e)
  {
    h(Preimage(previousHash, e))
  }

  ghost predicate AllLoadable(events: seq<StoredEvent>) {
    forall i | 0 <= i < |events| :: Loadable(events[i].data)
  }

  /** The hash that the next event must point back to. */
  function Head(events: seq<StoredEvent>): string {
    if events == [] then GENESIS_HASH else events[|events| - 1].eventHash
  }

  /** What is wrong with event `i`, given that all before it are right. */
  function Fault(h: Hash, events: seq<StoredEvent>, i: nat): Option<Reason>
    requires i < |events| && Loadable(events[i].data)
  {
    var e := events[i];
    if e.data.sequence != i + 1 then Some(SequenceGap)
    else if e.previousHash != Head(events[..i]) then Some(PreviousHashMismatch)
    else if ComputeEventHash(h, e.previousHash, e.data) != e.eventHash then Some(EventHashMismatch)
    else None
  }

  /** Which fault an event has: a wrong number before a wrong link, and a wrong link before a wrong hash. The link is the
      hash of the event before, or 64 zeros. */
  lemma FaultExactly(h: Hash, events: seq<StoredEvent>, i: nat)
    requires i < |events| && Loadable(events[i].data)
    ensures var e := events[i];
            var link := if i == 0 then "0000000000000000000000000000000000000000000000000000000000000000" else events[i - 1].eventHash;
            Fault(h, events, i)
            == if e.data.sequence != i + 1 then Some(SequenceGap)
               else if e.previousHash != link then Some(PreviousHashMismatch)
               else if e.eventHash != h(link + CanonicalEventData(e.data)) then Some(EventHashMismatch)
               else None
  {
  }

  ghost predicate Intact(h: Hash, events: seq<StoredEvent>) {
    AllLoadable(events) && forall i | 0 <= i < |events| :: Fault(h, events, i).None?
  }

  lemma IntactPrefix(h: Hash, events: seq<StoredEvent>, n: nat)
    requires n <= |events| && AllLoadable(events) && forall i | 0 <= i < n :: Fault(h, events, i).None?
    ensures Intact(h, events[..n])
  {
    forall i | 0 <= i < n ensures Fault(h, events[..n], i).None? {
      assert events[..n][..i] == events[..i] && events[..n][i] == events[i];
      assert Fault(h, events, i).None?;
    }
  }

  /** Success exactly for intact chains; otherwise the returned head is that of the longest intact prefix, and the
      failure says what is wrong with the event after it. */
  method VerifyChain(h: Hash, events: seq<StoredEvent>) returns (v: Verification)
    requires AllLoadable(events)
    ensures v.count == |events|
    ensures v.valid <==> Intact(h, events)
    ensures v.valid ==> v.headHash == Head(events) && v.failure.None?
    ensures !v.valid ==> exists n: nat :: n < |events| && Intact(h, events[..n]) && !Intact(h, events[..n + 1])
                                          && v.headHash == Head(events[..n])
                                          && Fault(h, events, n).Some?
                                          && v.failure == Some((events[n].data.sequence, Fault(h, events, n).value))
  {
    var expectedPrev := GENESIS_HASH;
    var expectedSeq := 1;
    var i := 0;
    while i < |events|
      invariant 0 <= i <= |events| && expectedSeq == i + 1
      invariant expectedPrev == Head(events[..i])
      invariant forall j | 0 <= j < i :: Fault(h, events, j).None?
    {
      var e := events[i];
      var reason := None;
      if e.data.sequence != expectedSeq {
        reason := Some(SequenceGap);
      } else if e.previousHash != expectedPrev {
        reason := Some(PreviousHashMismatch);
      } else if ComputeEventHash(h, e.previousHash, e.data) != e.eventHash {
        reason := Some(EventHashMismatch);
      }
      if reason.Some? {
        IntactPrefix(h, events, i);
        assert Fault(h, events, i) == reason;
        assert events[..i + 1][..i] == events[..i] && events[..i + 1][i] == events[i];
        assert Fault(h, events[..i + 1], i).Some?;
        return Verification(false, |events|, expectedPrev, Some((e.data.sequence, reason.value)));
      }
      expectedPrev := e.eventHash;
      expectedSeq := expectedSeq + 1;
      i := i + 1;
    }
    assert events[..i] == events;
    return Verification(true, |events|, expectedPrev, None);
  }

  // ---------------------------------------------------------------- the head determines the chain

  /** `x` is a text that some event of the chain hashes. */
  ghost predicate Hashed(x: string, events: seq<StoredEvent>) {
    exists i :: 0 <= i < |events| && Loadable(events[i].data) && x == Preimage(events[i].previousHash, events[i].data)
  }

  /** Two different texts hashed in the two chains have the same hash, or one of them hashes to the genesis value. */
  ghost predicate Collision(h: Hash, a: seq<StoredEvent>, b: seq<StoredEvent>) {
    || (exists x, y :: Hashed(x, a) && Hashed(y, b) && x != y && h(x) == h(y))
    || (exists x :: (Hashed(x, a) || Hashed(x, b)) && h(x) == GENESIS_HASH)
  }

  ghost predicate SameChain(a: seq<StoredEvent>, b: seq<StoredEvent>)
    requires AllLoadable(a) && AllLoadable(b)
  {
    |a| == |b| && forall i | 0 <= i < |a| :: SameContent(a[i].data, b[i].data)
  }

  lemma HeadIsHash(h: Hash, a: seq<StoredEvent>)
    requires Intact(h, a) && a != []
    ensures var e := a[|a| - 1];
            && Head(a) == h(Preimage(e.previousHash, e.data)) && Hashed(Preimage(e.previousHash, e.data), a)
            && e.data.sequence == |a| && e.previousHash == Head(a[..|a| - 1]) && Intact(h, a[..|a| - 1])
  {
    assert Fault(h, a, |a| - 1).None?;
    IntactPrefix(h, a, |a| - 1);
  }

  lemma HeadIs64(h: Hash, a: seq<StoredEvent>)
    requires HashOf64(h) && Intact(h, a)
    ensures |Head(a)| == 64
  {
    if a != [] {
      HeadIsHash(h, a);
    }
  }

  lemma HashedInFront(x: string, a: seq<StoredEvent>, n: nat)
    requires n <= |a| && Hashed(x, a[..n])
    ensures Hashed(x, a)
  {
    var i :| 0 <= i < n && Loadable(a[..n][i].data) && x == Preimage(a[..n][i].previousHash, a[..n][i].data);
    assert a[i] == a[..n][i];
  }

  /** Two intact chains with the same head have the same length and the same content, or exhibit a collision. */
  lemma {:induction false} HeadDeterminesChain(h: Hash, a: seq<StoredEvent>, b: seq<StoredEvent>)
    requires HashOf64(h) && Intact(h, a) && Intact(h, b) && Head(a) == Head(b)
    ensures SameChain(a, b) || Collision(h, a, b)
    decreases |a|
  {
    if a == [] {
      if b != [] { HeadIsHash(h, b); }
    } else if b == [] {
      HeadIsHash(h, a);
    } else {
      HeadIsHash(h, a);
      HeadIsHash(h, b);
      var a', b' := a[..|a| - 1], b[..|b| - 1];
      var e, f := a[|a| - 1], b[|b| - 1];
      if Preimage(e.previousHash, e.data) == Preimage(f.previousHash, f.data) {
        HeadIs64(h, a');
        HeadIs64(h, b');
        SplitPreimage(e, f);
        HeadDeterminesChain(h, a', b');
        ExtendsChain(h, a, b);
      }
    }
  }

  lemma SplitPreimage(e: StoredEvent, f: StoredEvent)
    requires Loadable(e.data) && Loadable(f.data) && |e.previousHash| == |f.previousHash|
    requires Preimage(e.previousHash, e.data) == Preimage(f.previousHash, f.data)
    ensures e.previousHash == f.previousHash && SameContent(e.data, f.data)
  {
    var x, y := Preimage(e.previousHash, e.data), Preimage(f.previousHash, f.data);
    var n := |e.previousHash|;
    assert e.previousHash == x[..n] && f.previousHash == y[..n];
    assert CanonicalEventData(e.data) == x[n..] && CanonicalEventData(f.data) == y[n..];
    TextIsContent(e.data, f.data);
  }

  lemma ExtendsChain(h: Hash, a: seq<StoredEvent>, b: seq<StoredEvent>)
    requires AllLoadable(a) && AllLoadable(b) && a != [] && b != []
    requires SameContent(a[|a| - 1].data, b[|b| - 1].data)
    requires SameChain(a[..|a| - 1], b[..|b| - 1]) || Collision(h, a[..|a| - 1], b[..|b| - 1])
    ensures SameChain(a, b) || Collision(h, a, b)
  {
    var a', b' := a[..|a| - 1], b[..|b| - 1];
    if SameChain(a', b') {
      forall i | 0 <= i < |a| ensures SameContent(a[i].data, b[i].data) {
        if i < |a'| {
          assert SameContent(a'[i].data, b'[i].data);
        }
      }
    } else if exists x, y :: Hashed(x, a') && Hashed(y, b') && x != y && h(x) == h(y) {
      var x, y :| Hashed(x, a') && Hashed(y, b') && x != y && h(x) == h(y);
      HashedInFront(x, a, |a'|);
      HashedInFront(y, b, |b'|);
    } else {
      var x :| (Hashed(x, a') || Hashed(x, b')) && h(x) == GENESIS_HASH;
      if Hashed(x, a') { HashedInFront(x, a, |a'|); } else { HashedInFront(x, b, |b'|); }
    }
  }

  // ---------------------------------------------------------------- chain keys

  datatype Scope = OfEnvelope(id: string) | OfOrganization(id: string) | OfPlatform

  /** An empty identifier counts as none. */
  function ScopeOf(envelopeId: Option<string>, organizationId: Option<string>): Scope {
    if envelopeId.Some? && envelopeId.value != "" then OfEnvelope(envelopeId.value)
    else if organizationId.Some? && organizationId.value != "" then OfOrganization(organizationId.value)
    else OfPlatform
  }

  function ChainKeyFor(envelopeId: Option<string>, organizationId: Option<string>): string {
    if envelopeId.Some? && envelopeId.value != "" then "envelope:" + envelopeId.value
    else if organizationId.Some? && organizationId.value != "" then "org:" + organizationId.value
    else "platform"
  }

  /** Events share a chain exactly when they concern the same envelope, the same organization or the platform. */
  lemma ChainKeysSeparate(e: Option<string>, o: Option<string>, e': Option<string>, o': Option<string>)
    ensures ChainKeyFor(e, o) == ChainKeyFor(e', o') <==> ScopeOf(e, o) == ScopeOf(e', o')
  {
    var k, k' := ChainKeyFor(e, o), ChainKeyFor(e', o');
    assert k[0] == match ScopeOf(e, o) case OfEnvelope(_) => 'e' case OfOrganization(_) => 'o' case OfPlatform => 'p';
    assert k'[0] == match ScopeOf(e', o') case OfEnvelope(_) => 'e' case OfOrganization(_) => 'o' case OfPlatform => 'p';
    if ScopeOf(e, o).OfEnvelope? && ScopeOf(e', o').OfEnvelope? {
      assert k[9..] == e.value && k'[9..] == e'.value;
    }
    if ScopeOf(e, o).OfOrganization? && ScopeOf(e', o').OfOrganization? {
      assert k[4..] == o.value && k'[4..] == o'.value;
    }
  }
}
