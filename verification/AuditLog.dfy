/** The append-only audit log (audit.service.ts): events of all chains in one table, each chain linked by hashes. */
module AuditLog {
  import opened Basics
  import opened Json
  import opened CanonicalJson
  import opened AuditChain

  datatype AuditInput = AuditInput(
    eventType: string,
    actorType: string,
    actorId: Option<string>,
    organizationId: Option<string>,
    envelopeId: Option<string>,
    documentId: Option<string>,
    signerId: Option<string>,
    ip: Option<string>,
    userAgent: Option<string>,
    requestId: Option<string>,
    metadata: Js,
    occurredAt: string)

  /** SELECT ... WHERE chainKey = key ORDER BY sequence, rows being appended in the order of their sequences. */
  function LoadChain(rows: seq<StoredEvent>, key: string): (chain: seq<StoredEvent>)
    ensures forall e | e in chain :: e.data.chainKey == key && e in rows
  {
    if rows == [] then []
    else
      LoadChain(rows[..|rows| - 1], key)
      + if rows[|rows| - 1].data.chainKey == key then [rows[|rows| - 1]] else []
  }

  /** The row with the greatest sequence of a chain. */
  function Latest(rows: seq<StoredEvent>, key: string): (last: Option<StoredEvent>)
    ensures last.None? <==> forall e | e in rows :: e.data.chainKey != key
    ensures last.Some? ==> last.value in rows && last.value.data.chainKey == key
                           && forall e | e in rows && e.data.chainKey == key :: e.data.sequence <= last.value.data.sequence
  {
    if rows == [] then None
    else
      assert rows == rows[..|rows| - 1] + [rows[|rows| - 1]];
      var before := Latest(rows[..|rows| - 1], key);
      var e := rows[|rows| - 1];
      if e.data.chainKey == key && (before.None? || before.value.data.sequence < e.data.sequence) then Some(e) else before
  }

  /** What the column stores: the canonical text, parsed. */
  function StoredMetadata(metadata: Js): Js
    requires Valid(metadata) && Finite(metadata)
  {
    TextSurvivesParsing(OrEmpty(metadata));
    ParseValue(CanonicalText(OrEmpty(metadata)).value).value.0
  }

  lemma StoredMetadataMeansTheSame(metadata: Js)
    requires Valid(metadata) && Finite(metadata)
    ensures var m := StoredMetadata(metadata); Valid(m) && Finite(m) && Meaning(m) == Meaning(OrEmpty(metadata))
  {
    TextSurvivesParsing(OrEmpty(metadata));
  }

  function NewEvent(rows: seq<StoredEvent>, input: AuditInput): Event
    requires Valid(input.metadata) && Finite(input.metadata)
  {
    var key := ChainKeyFor(input.envelopeId, input.organizationId);
    var last := Latest(rows, key);
    Event(key, if last.None? then 1 else last.value.data.sequence + 1,
          input.organizationId, input.envelopeId, input.documentId, input.signerId, input.actorType, input.actorId,
          input.eventType, input.occurredAt, input.ip, input.userAgent, input.requestId, StoredMetadata(input.metadata))
  }

  function NewRow(h: Hash, rows: seq<StoredEvent>, input: AuditInput): StoredEvent
    requires Valid(input.metadata) && Finite(input.metadata)
  {
    StoredMetadataMeansTheSame(input.metadata);
    var last := Latest(rows, ChainKeyFor(input.envelopeId, input.organizationId));
    var previousHash := if last.None? then GENESIS_HASH else last.value.eventHash;
    var data := NewEvent(rows, input);
    StoredEvent(data, previousHash, ComputeEventHash(h, previousHash, data))
  }

  /** Metadata with a number that is not finite is refused and nothing is written. */
  function Appended(h: Hash, rows: seq<StoredEvent>, input: AuditInput): seq<StoredEvent>
    requires Valid(input.metadata)
  {
    if Finite(input.metadata) then rows + [NewRow(h, rows, input)] else rows
  }

  function AppendedAll(h: Hash, inputs: seq<AuditInput>): seq<StoredEvent>
    requires forall i | 0 <= i < |inputs| :: Valid(inputs[i].metadata)
  {
    if inputs == [] then [] else Appended(h, AppendedAll(h, inputs[..|inputs| - 1]), inputs[|inputs| - 1])
  }

  // ---------------------------------------------------------------- what is recorded is what was said

  /** The event says what the call said, column by column, its metadata in whatever writing; it is in the chain of the
      call's envelope, failing that of its organization, failing that of the platform. */
  ghost predicate Says(e: Event, input: AuditInput) {
    && e.organizationId == input.organizationId && e.envelopeId == input.envelopeId
    && e.documentId == input.documentId && e.signerId == input.signerId
    && e.actorType == input.actorType && e.actorId == input.actorId
    && e.eventType == input.eventType && e.occurredAt == input.occurredAt
    && e.ip == input.ip && e.userAgent == input.userAgent && e.requestId == input.requestId
    && Valid(e.metadata) && Finite(e.metadata) && Finite(input.metadata)
    && Meaning(OrNothing(e.metadata)) == Meaning(OrNothing(input.metadata))
    && e.chainKey == ScopeKey(input)
  }

  function OrNothing(metadata: Js): Js {
    match metadata
    case Null => Obj([])
    case Undefined => Obj([])
    case _ => metadata
  }

  predicate Named(id: Option<string>) {
    id.Some? && id.value != ""
  }

  function ScopeKey(input: AuditInput): string {
    if Named(input.envelopeId) then "envelope:" + input.envelopeId.value
    else if Named(input.organizationId) then "org:" + input.organizationId.value
    else "platform"
  }

  lemma NewRowSays(h: Hash, rows: seq<StoredEvent>, input: AuditInput)
    requires Valid(input.metadata) && Finite(input.metadata)
    ensures Says(NewRow(h, rows, input).data, input)
    ensures var m := NewRow(h, rows, input).data.metadata; Finite(m) && Meaning(m) == Meaning(OrNothing(input.metadata))
  {
    StoredMetadataMeansTheSame(input.metadata);
  }

  /** The calls that go to a chain: those of its scope, unless their metadata is refused. */
  function CallsOf(inputs: seq<AuditInput>, key: string): seq<AuditInput> {
    if inputs == [] then []
    else
      var last := inputs[|inputs| - 1];
      CallsOf(inputs[..|inputs| - 1], key) + if Finite(last.metadata) && ScopeKey(last) == key then [last] else []
  }

  /** The chain is, event by event, what the calls said. */
  ghost predicate SaysAll(chain: seq<StoredEvent>, calls: seq<AuditInput>) {
    |chain| == |calls| && forall i | 0 <= i < |chain| :: Says(chain[i].data, calls[i])
  }

  /** Each chain holds its calls, one event each, in their order and nothing else. */
  lemma {:induction false} EveryCallIsRecorded(h: Hash, inputs: seq<AuditInput>, key: string)
    requires forall i | 0 <= i < |inputs| :: Valid(inputs[i].metadata)
    ensures SaysAll(LoadChain(AppendedAll(h, inputs), key), CallsOf(inputs, key))
  {
    if inputs != [] {
      var front, last := inputs[..|inputs| - 1], inputs[|inputs| - 1];
      EveryCallIsRecorded(h, front, key);
      var rows := AppendedAll(h, front);
      assert AppendedAll(h, inputs) == Appended(h, rows, last);
      OneCallIsRecorded(h, rows, last, CallsOf(front, key), key);
    }
  }

  lemma OneCallIsRecorded(h: Hash, rows: seq<StoredEvent>, input: AuditInput, calls: seq<AuditInput>, key: string)
    requires Valid(input.metadata) && SaysAll(LoadChain(rows, key), calls)
    ensures SaysAll(LoadChain(Appended(h, rows, input), key), calls + if Finite(input.metadata) && ScopeKey(input) == key then [input] else [])
  {
    if Finite(input.metadata) {
      NewRowSays(h, rows, input);
      LoadAppended(rows, NewRow(h, rows, input), key);
    }
  }

  // ---------------------------------------------------------------- every chain stays intact

  ghost predicate AllIntact(h: Hash, rows: seq<StoredEvent>) {
    forall key :: Intact(h, LoadChain(rows, key))
  }

  lemma {:induction false} RowsOfChain(rows: seq<StoredEvent>, key: string)
    ensures forall e | e in rows && e.data.chainKey == key :: e in LoadChain(rows, key)
  {
    if rows != [] {
      RowsOfChain(rows[..|rows| - 1], key);
      assert rows == rows[..|rows| - 1] + [rows[|rows| - 1]];
    }
  }

  /** In an intact chain the greatest sequence is the last row's, and it is the length. */
  lemma LatestIsLast(h: Hash, rows: seq<StoredEvent>, key: string)
    requires Intact(h, LoadChain(rows, key))
    ensures var chain := LoadChain(rows, key); var last := Latest(rows, key);
            if chain == [] then last.None?
            else last.Some? && last.value == chain[|chain| - 1] && last.value.data.sequence == |chain|
  {
    var chain := LoadChain(rows, key);
    RowsOfChain(rows, key);
    if chain != [] {
      var final := chain[|chain| - 1];
      assert final in chain;
      assert final in rows;
      GreatestIsLast(h, chain, Latest(rows, key).value);
    } else {
      assert forall e | e in rows :: e.data.chainKey != key;
    }
  }

  lemma GreatestIsLast(h: Hash, chain: seq<StoredEvent>, e: StoredEvent)
    requires Intact(h, chain) && e in chain && chain[|chain| - 1].data.sequence <= e.data.sequence
    ensures e == chain[|chain| - 1] && e.data.sequence == |chain|
  {
    var i :| 0 <= i < |chain| && chain[i] == e;
    assert Fault(h, chain, i).None? && Fault(h, chain, |chain| - 1).None?;
  }

  lemma ExtendIntact(h: Hash, chain: seq<StoredEvent>, e: StoredEvent)
    requires Intact(h, chain) && Loadable(e.data)
    requires e.data.sequence == |chain| + 1 && e.previousHash == Head(chain)
    requires e.eventHash == ComputeEventHash(h, e.previousHash, e.data)
    ensures Intact(h, chain + [e])
  {
    var more := chain + [e];
    forall i | 0 <= i < |more| ensures Fault(h, more, i).None? {
      assert more[..i] == if i <= |chain| then chain[..i] else more;
      if i < |chain| {
        assert Fault(h, chain, i).None?;
      } else {
        assert chain[..i] == chain;
      }
    }
  }

  lemma NewRowExtends(h: Hash, rows: seq<StoredEvent>, input: AuditInput)
    requires Valid(input.metadata) && Finite(input.metadata)
    requires Intact(h, LoadChain(rows, ChainKeyFor(input.envelopeId, input.organizationId)))
    ensures Intact(h, LoadChain(rows, ChainKeyFor(input.envelopeId, input.organizationId)) + [NewRow(h, rows, input)])
  {
    var key := ChainKeyFor(input.envelopeId, input.organizationId);
    StoredMetadataMeansTheSame(input.metadata);
    LatestIsLast(h, rows, key);
    ExtendIntact(h, LoadChain(rows, key), NewRow(h, rows, input));
  }

  lemma LoadAppended(rows: seq<StoredEvent>, e: StoredEvent, key: string)
    ensures LoadChain(rows + [e], key) == LoadChain(rows, key) + if e.data.chainKey == key then [e] else []
  {
    assert (rows + [e])[..|rows|] == rows;
  }

  lemma ChainStaysIntact(h: Hash, rows: seq<StoredEvent>, input: AuditInput, key: string)
    requires Valid(input.metadata) && Finite(input.metadata) && AllIntact(h, rows)
    ensures Intact(h, LoadChain(rows + [NewRow(h, rows, input)], key))
  {
    LoadAppended(rows, NewRow(h, rows, input), key);
    assert Intact(h, LoadChain(rows, key));
    if key == ChainKeyFor(input.envelopeId, input.organizationId) {
      NewRowExtends(h, rows, input);
    } else {
      assert LoadChain(rows, key) + [] == LoadChain(rows, key);
    }
  }

  lemma AppendedStaysIntact(h: Hash, rows: seq<StoredEvent>, input: AuditInput)
    requires Valid(input.metadata) && AllIntact(h, rows)
    ensures AllIntact(h, Appended(h, rows, input))
  {
    if Finite(input.metadata) {
      forall key ensures Intact(h, LoadChain(Appended(h, rows, input), key)) {
        ChainStaysIntact(h, rows, input, key);
      }
    }
  }

  /** The new row is the last of its chain and its sequence is the chain's length. */
  lemma AppendedEndsChain(h: Hash, rows: seq<StoredEvent>, input: AuditInput)
    requires Valid(input.metadata) && Finite(input.metadata) && AllIntact(h, rows)
    ensures var chain := LoadChain(rows + [NewRow(h, rows, input)], ChainKeyFor(input.envelopeId, input.organizationId));
            |chain| == NewRow(h, rows, input).data.sequence && Head(chain) == NewRow(h, rows, input).eventHash
  {
    var key := ChainKeyFor(input.envelopeId, input.organizationId);
    LoadAppended(rows, NewRow(h, rows, input), key);
    LatestIsLast(h, rows, key);
  }

  lemma {:induction false} AppendedAllIsIntact(h: Hash, inputs: seq<AuditInput>)
    requires forall i | 0 <= i < |inputs| :: Valid(inputs[i].metadata)
    ensures AllIntact(h, AppendedAll(h, inputs))
  {
    if inputs != [] {
      AppendedAllIsIntact(h, inputs[..|inputs| - 1]);
      AppendedStaysIntact(h, AppendedAll(h, inputs[..|inputs| - 1]), inputs[|inputs| - 1]);
    }
  }

  /** Events recorded later only extend a chain: a head noted at any time stays the head of a prefix. */
  lemma {:induction false} ChainsOnlyGrow(h: Hash, inputs: seq<AuditInput>, n: nat, key: string)
    requires n <= |inputs| && forall i | 0 <= i < |inputs| :: Valid(inputs[i].metadata)
    ensures LoadChain(AppendedAll(h, inputs[..n]), key) <= LoadChain(AppendedAll(h, inputs), key)
    decreases |inputs|
  {
    if n < |inputs| {
      var before := inputs[..|inputs| - 1];
      assert before[..n] == inputs[..n];
      ChainsOnlyGrow(h, before, n, key);
      var rows := AppendedAll(h, before);
      if Finite(inputs[|inputs| - 1].metadata) {
        LoadAppended(rows, NewRow(h, rows, inputs[|inputs| - 1]), key);
      }
    } else {
      assert inputs[..n] == inputs;
    }
  }

  // ---------------------------------------------------------------- reloading

  /** The database gives every row back, its metadata with the keys in any order. */
  ghost predicate Reloaded(written: seq<StoredEvent>, read: seq<StoredEvent>) {
    && AllLoadable(written) && AllLoadable(read) && |read| == |written|
    && forall i | 0 <= i < |written| ::
         SameContent(written[i].data, read[i].data)
         && read[i].previousHash == written[i].previousHash && read[i].eventHash == written[i].eventHash
  }

  lemma ReloadedIsIntact(h: Hash, written: seq<StoredEvent>, read: seq<StoredEvent>)
    requires Intact(h, written) && Reloaded(written, read)
    ensures Intact(h, read) && Head(read) == Head(written)
  {
    forall i | 0 <= i < |read| ensures Fault(h, read, i).None? {
      assert Fault(h, written, i).None?;
      TextIsContent(written[i].data, read[i].data);
    }
  }

  lemma ReloadedSays(written: seq<StoredEvent>, read: seq<StoredEvent>, calls: seq<AuditInput>)
    requires Reloaded(written, read) && SaysAll(written, calls)
    ensures SaysAll(read, calls)
  {
    forall i | 0 <= i < |read| ensures Says(read[i].data, calls[i]) {
      assert SameContent(written[i].data, read[i].data);
    }
  }

  /** Whatever is recorded, in whatever interleaving of chains: each chain, reloaded in any key order, is intact
      numbered 1 to n, and says call by call what was recorded. */
  lemma EveryRecordedChainVerifies(h: Hash, inputs: seq<AuditInput>, key: string, read: seq<StoredEvent>)
    requires forall i | 0 <= i < |inputs| :: Valid(inputs[i].metadata)
    requires Reloaded(LoadChain(AppendedAll(h, inputs), key), read)
    ensures Intact(h, read) && forall i | 0 <= i < |read| :: read[i].data.sequence == i + 1
    ensures SaysAll(read, CallsOf(inputs, key))
  {
    AppendedAllIsIntact(h, inputs);
    EveryCallIsRecorded(h, inputs, key);
    ReloadedSays(LoadChain(AppendedAll(h, inputs), key), read, CallsOf(inputs, key));
    ReloadedIsIntact(h, LoadChain(AppendedAll(h, inputs), key), read);
    forall i | 0 <= i < |read| ensures read[i].data.sequence == i + 1 {
      assert Fault(h, read, i).None?;
    }
  }

  // ---------------------------------------------------------------- the service

  datatype Recorded = Recorded(eventHash: string, sequence: nat)

  class Log {
    const h: Hash
    var rows: seq<StoredEvent>

    ghost predicate Invariant()
      reads this
    {
      AllIntact(h, rows)
    }

    constructor (h: Hash)
      ensures this.h == h && rows == [] && Invariant()
    {
      this.h := h;
      rows := [];
    }

    /** One call holds the chain's lock from reading the last row to inserting the next one. */
    method Record(input: AuditInput) returns (r: Result<Recorded, Refusal>)
      requires Valid(input.metadata) && Invariant()
      modifies this
      ensures Invariant() && rows == Appended(h, old(rows), input)
      ensures r.Success? <==> Finite(input.metadata)
      ensures r.Failure? ==> rows == old(rows) && r.error == NotFiniteNumber
      ensures r.Success? ==>
                && |rows| == |old(rows)| + 1 && rows[..|old(rows)|] == old(rows) && Says(rows[|old(rows)|].data, input)
                && Meaning(rows[|old(rows)|].data.metadata) == Meaning(OrNothing(input.metadata))
      ensures r.Success? ==>
                var chain := LoadChain(rows, ChainKeyFor(input.envelopeId, input.organizationId));
                r.value.sequence == |chain| && r.value.eventHash == Head(chain)
    {
      AppendedStaysIntact(h, rows, input);
      var row := NextRow(input);
      if row.Failure? { return Failure(row.error); }
      AppendedEndsChain(h, rows, input);
      NewRowSays(h, rows, input);
      rows := rows + [row.value];
      return Success(Recorded(row.value.eventHash, row.value.data.sequence));
    }

    /** The row to insert: linked to the chain's last row, numbered after it, hashed over what is stored. */
    method NextRow(input: AuditInput) returns (r: Result<StoredEvent, Refusal>)
      requires Valid(input.metadata)
      ensures if Finite(input.metadata) then r == Success(NewRow(h, rows, input)) else r == Failure(NotFiniteNumber)
    {
      var key := ChainKeyFor(input.envelopeId, input.organizationId);
      var last := Latest(rows, key);
      var previousHash := GENESIS_HASH;
      var sequence := 1;
      if last.Some? {
        previousHash := last.value.eventHash;
        sequence := last.value.data.sequence + 1;
      }
      var metadata := PersistedMetadata(input.metadata);
      if metadata.Failure? { return Failure(metadata.error); }
      StoredMetadataMeansTheSame(input.metadata);
      var data := Event(key, sequence, input.organizationId, input.envelopeId, input.documentId, input.signerId,
                        input.actorType, input.actorId, input.eventType, input.occurredAt,
                        input.ip, input.userAgent, input.requestId, metadata.value);
      return Success(StoredEvent(data, previousHash, ComputeEventHash(h, previousHash, data)));
    }

    /** What is stored is exactly what is hashed: the canonical text, parsed again. */
    static method PersistedMetadata(metadata: Js) returns (r: Result<Js, Refusal>)
      requires Valid(metadata)
      ensures if Finite(metadata) then r == Success(StoredMetadata(metadata)) else r == Failure(NotFiniteNumber)
    {
      var normalized := Normalize(OrEmpty(metadata));
      if normalized.Failure? { return Failure(normalized.error); }
      NormalizedIsCanonical(OrEmpty(metadata));
      PrintRoundTrips(normalized.value);
      return Success(ParseValue(Print(normalized.value)).value.0);
    }

    /** What is loaded and verified right away is valid. */
    method VerifyEnvelopeChain(envelopeId: string) returns (v: Verification)
      requires Invariant()
      ensures v.valid && v.headHash == Head(LoadChain(rows, ChainKeyFor(Some(envelopeId), None)))
    {
      v := VerifyChain(h, LoadChain(rows, ChainKeyFor(Some(envelopeId), None)));
    }
  }
}
