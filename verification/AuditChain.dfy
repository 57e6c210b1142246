/**
 * The hash-chained audit log of packages/sdk/src/audit.ts: the canonical form of a record, what a
 * well-formed chain is, the verifier, and why an edit cannot go unnoticed.
 */
module AuditChain {
  import opened Base

  datatype AttributeValue = Text(text: string) | Number(number: int) | Flag(flag: bool) | NullValue

  /** An optional field may be missing or null; the canonical form does not distinguish them. */
  datatype Optional = Undefined | Null | Value(text: string)

  datatype Event = Event(
    eventId: string, timestamp: string, orgId: string, appId: Optional, principal: string, actor: string,
    delegation: Optional, sessionId: Optional, traceId: Optional, parentId: Optional, channel: Optional,
    kitId: Optional, pluginId: Optional, action: string, outcome: string, errorCode: Optional, resultHash: Optional)

  /** `attributes` in insertion order, keys distinct. */
  datatype Body = Body(event: Event, attributes: seq<(string, AttributeValue)>, sequence: int,
      previousHash: Option<string>)

  datatype Record = Record(body: Body, hash: string)

  // ---- Canonical form and hash ----

  /** The canonical form: missing fields are null, attributes are sorted (here: a map). */
  datatype Canonical = Canonical(event: Event, attributes: map<string, AttributeValue>, sequence: int,
      previousHash: Option<string>)

  function OrNull(o: Optional): Optional {
    if o.Undefined? then Null else o
  }

  function Sorted(attributes: seq<(string, AttributeValue)>): map<string, AttributeValue> {
    if attributes == [] then map[]
    else var last := attributes[|attributes| - 1]; Sorted(attributes[..|attributes| - 1])[last.0 := last.1]
  }

  /** The event with every missing field made null. */
  function Complete(e: Event): Event {
    e.(appId := OrNull(e.appId), delegation := OrNull(e.delegation), sessionId := OrNull(e.sessionId),
       traceId := OrNull(e.traceId), parentId := OrNull(e.parentId), channel := OrNull(e.channel),
       kitId := OrNull(e.kitId), pluginId := OrNull(e.pluginId), errorCode := OrNull(e.errorCode),
       resultHash := OrNull(e.resultHash))
  }

  function Canon(b: Body): Canonical {
    Canonical(Complete(b.event), Sorted(b.attributes), b.sequence, b.previousHash)
  }

  /** SHA-256 over the canonical text, of which nothing is assumed. */
  type Hash = Canonical -> string

  function HashOf(h: Hash, b: Body): string {
    h(Canon(b))
  }

  // ---- What two records have in common, field by field ----

  predicate SameText(a: Optional, b: Optional) {
    a == b || (!a.Value? && !b.Value?)
  }

  /** Every field of the event, a missing optional one counting as null. */
  predicate SameEvent(a: Event, b: Event) {
    && a.eventId == b.eventId && a.timestamp == b.timestamp && a.orgId == b.orgId && SameText(a.appId, b.appId)
    && a.principal == b.principal && a.actor == b.actor && SameText(a.delegation, b.delegation)
    && SameText(a.sessionId, b.sessionId) && SameText(a.traceId, b.traceId) && SameText(a.parentId, b.parentId)
    && SameText(a.channel, b.channel) && SameText(a.kitId, b.kitId) && SameText(a.pluginId, b.pluginId)
    && a.action == b.action && a.outcome == b.outcome && SameText(a.errorCode, b.errorCode)
    && SameText(a.resultHash, b.resultHash)
  }

  /** The value under a key: that of the last pair with it. */
  function Lookup(attributes: seq<(string, AttributeValue)>, key: string): Option<AttributeValue> {
    if attributes == [] then None
    else if attributes[|attributes| - 1].0 == key then Some(attributes[|attributes| - 1].1)
    else Lookup(attributes[..|attributes| - 1], key)
  }

  /** The same value, or none, under every key. */
  ghost predicate SameAttributes(a: seq<(string, AttributeValue)>, b: seq<(string, AttributeValue)>) {
    forall key :: Lookup(a, key) == Lookup(b, key)
  }

  ghost predicate SameBody(a: Body, b: Body) {
    && SameEvent(a.event, b.event) && SameAttributes(a.attributes, b.attributes)
    && a.sequence == b.sequence && a.previousHash == b.previousHash
  }

  lemma {:induction false} SortedLooksUp(attributes: seq<(string, AttributeValue)>, key: string)
    ensures Lookup(attributes, key) == if key in Sorted(attributes) then Some(Sorted(attributes)[key]) else None
  {
    if attributes != [] {
      SortedLooksUp(attributes[..|attributes| - 1], key);
    }
  }

  lemma SortedSays(a: seq<(string, AttributeValue)>, b: seq<(string, AttributeValue)>)
    ensures Sorted(a) == Sorted(b) <==> SameAttributes(a, b)
  {
    forall key ensures Lookup(a, key) == (if key in Sorted(a) then Some(Sorted(a)[key]) else None)
               ensures Lookup(b, key) == (if key in Sorted(b) then Some(Sorted(b)[key]) else None) {
      SortedLooksUp(a, key);
      SortedLooksUp(b, key);
    }
    hide Sorted, Lookup;
    if SameAttributes(a, b) {
      forall key ensures key in Sorted(a) <==> key in Sorted(b)
                 ensures key in Sorted(a) ==> Sorted(a)[key] == Sorted(b)[key] {
        assert Lookup(a, key) == Lookup(b, key);
      }
    }
  }

  lemma CompleteSays(a: Event, b: Event)
    ensures Complete(a) == Complete(b) <==> SameEvent(a, b)
    ensures SameEvent(Complete(a), a)
  {
  }

  /** The canonical form is the same exactly for records that agree in every field and attribute. */
  lemma CanonSays(a: Body, b: Body)
    ensures Canon(a) == Canon(b) <==> SameBody(a, b)
  {
    CompleteSays(a.event, b.event);
    SortedSays(a.attributes, b.attributes);
    hide Complete, SameEvent, Sorted, SameAttributes;
  }

  /** Exactly such records hash alike whatever the hash. */
  lemma HashAlikeExactly(a: Body, b: Body)
    ensures (forall h: Hash :: HashOf(h, a) == HashOf(h, b)) <==> SameBody(a, b)
  {
    CanonSays(a, b);
    hide Canon, SameBody;
    if forall h: Hash :: HashOf(h, a) == HashOf(h, b) {
      var only: Hash := c => if c == Canon(a) then "same" else "other";
      assert HashOf(only, a) == HashOf(only, b);
    }
  }

  // ---- Chains ----

  function LastHash(records: seq<Record>): Option<string> {
    if records == [] then None else Some(records[|records| - 1].hash)
  }

  predicate Linked(h: Hash, records: seq<Record>, i: nat)
    requires i < |records|
  {
    && records[i].body.sequence == i + 1
    && records[i].body.previousHash == LastHash(records[..i])
    && records[i].hash == HashOf(h, records[i].body)
  }

  predicate DistinctIds(records: seq<Record>) {
    forall i, j | 0 <= i < j < |records| :: records[i].body.event.eventId != records[j].body.event.eventId
  }

  /** Sequences 1..n, each record naming its predecessor's hash and carrying its own, under distinct ids. */
  predicate Chain(h: Hash, records: seq<Record>) {
    DistinctIds(records) && forall i | 0 <= i < |records| :: Linked(h, records, i)
  }

  /** The record is numbered by its place, names the hash of the one before, and carries its own. */
  predicate InPlace(h: Hash, records: seq<Record>, i: nat) {
    && i < |records|
    && records[i].body.sequence == i + 1 && records[i].hash == HashOf(h, records[i].body)
    && records[i].body.previousHash == if i == 0 then None else Some(records[i - 1].hash)
  }

  /** A chain, record by record: each is in its place, and no two share an event id. */
  lemma ChainExactly(h: Hash, records: seq<Record>)
    ensures Chain(h, records) <==>
            && (forall i | 0 <= i < |records| :: InPlace(h, records, i))
            && (forall i, j | 0 <= i < j < |records| ::
                  records[i].body.event.eventId != records[j].body.event.eventId)
  {
    if Chain(h, records) {
      forall i | 0 <= i < |records| ensures InPlace(h, records, i) {
        assert Linked(h, records, i);
      }
    }
    if forall i | 0 <= i < |records| :: InPlace(h, records, i) {
      forall i | 0 <= i < |records| ensures Linked(h, records, i) {
        assert InPlace(h, records, i);
      }
    }
  }

  lemma ChainPrefix(h: Hash, records: seq<Record>, n: nat)
    requires Chain(h, records) && n <= |records|
    ensures Chain(h, records[..n])
  {
    forall i | 0 <= i < n ensures Linked(h, records[..n], i) {
      assert Linked(h, records, i);
      assert records[..n][..i] == records[..i];
    }
  }

  lemma ChainSnoc(h: Hash, records: seq<Record>, r: Record)
    requires Chain(h, records)
    requires r.body.sequence == |records| + 1 && r.body.previousHash == LastHash(records) && r.hash == HashOf(h, r.body)
    requires forall i | 0 <= i < |records| :: records[i].body.event.eventId != r.body.event.eventId
    ensures Chain(h, records + [r])
  {
    var longer := records + [r];
    forall i | 0 <= i < |longer| ensures Linked(h, longer, i) {
      assert longer[..i] == records[..i];
      if i < |records| {
        assert Linked(h, records, i);
      } else {
        assert records[..i] == records;
      }
    }
  }

  // ---- The verifier ----

  datatype Reason = DuplicateEventId | WrongSequence | WrongPreviousHash | WrongHash

  datatype Verification = Valid(records: nat) | Invalid(records: nat, firstInvalidSequence: int, reason: Reason)

  /** The first check that record `i` fails, in the verifier's order. */
  predicate FailsAt(h: Hash, records: seq<Record>, i: nat, reason: Reason) {
    && i < |records|
    && var r := records[i];
    && var duplicate := exists j | 0 <= j < i :: records[j].body.event.eventId == r.body.event.eventId;
    match reason
    case DuplicateEventId => duplicate
    case WrongSequence => !duplicate && r.body.sequence != i + 1
    case WrongPreviousHash => !duplicate && r.body.sequence == i + 1 && r.body.previousHash != LastHash(records[..i])
    case WrongHash =>
      && !duplicate && r.body.sequence == i + 1 && r.body.previousHash == LastHash(records[..i])
      && r.hash != HashOf(h, r.body)
  }

  predicate FirstFailure(h: Hash, records: seq<Record>, i: nat, reason: Reason) {
    i < |records| && Chain(h, records[..i]) && FailsAt(h, records, i, reason)
  }

  /** Valid exactly on well-formed chains; otherwise the first offending record is named, with the check it fails. */
  method Verify(h: Hash, records: seq<Record>) returns (v: Verification)
    ensures v.records == |records|
    ensures v.Valid? <==> Chain(h, records)
    ensures v.Invalid? ==> exists i: nat ::
              FirstFailure(h, records, i, v.reason) && records[i].body.sequence == v.firstInvalidSequence
  {
    var ids: set<string> := {};
    var previousHash: Option<string> := None;
    var index := 0;
    while index < |records|
      invariant index <= |records|
      invariant Chain(h, records[..index])
      invariant previousHash == LastHash(records[..index])
      invariant forall id :: id in ids <==> exists j | 0 <= j < index :: records[j].body.event.eventId == id
    {
      var record := records[index];
      if record.body.event.eventId in ids {
        assert FirstFailure(h, records, index, DuplicateEventId);
        NotChain(h, records, index, DuplicateEventId);
        return Invalid(|records|, record.body.sequence, DuplicateEventId);
      }
      ids := ids + {record.body.event.eventId};
      if record.body.sequence != index + 1 {
        assert FirstFailure(h, records, index, WrongSequence);
        NotChain(h, records, index, WrongSequence);
        return Invalid(|records|, record.body.sequence, WrongSequence);
      }
      if record.body.previousHash != previousHash {
        assert FirstFailure(h, records, index, WrongPreviousHash);
        NotChain(h, records, index, WrongPreviousHash);
        return Invalid(|records|, record.body.sequence, WrongPreviousHash);
      }
      if record.hash != HashOf(h, record.body) {
        assert FirstFailure(h, records, index, WrongHash);
        NotChain(h, records, index, WrongHash);
        return Invalid(|records|, record.body.sequence, WrongHash);
      }
      ChainSnoc(h, records[..index], record);
      assert records[..index + 1] == records[..index] + [record];
      previousHash := Some(record.hash);
      index := index + 1;
    }
    assert records[..index] == records;
    v := Valid(|records|);
  }

  lemma NotChain(h: Hash, records: seq<Record>, i: nat, reason: Reason)
    requires FailsAt(h, records, i, reason)
    ensures !Chain(h, records)
  {
    assert Chain(h, records) ==> Linked(h, records, i);
  }

  // ---- Tamper evidence ----

  /** The two records have the same hash for different contents. */
  ghost predicate Collision(a: Record, b: Record) {
    a.hash == b.hash && !SameBody(a.body, b.body)
  }

  ghost predicate SameContents(a: seq<Record>, b: seq<Record>) {
    |a| == |b| && forall i | 0 <= i < |a| :: SameBody(a[i].body, b[i].body) && a[i].hash == b[i].hash
  }

  /** A hash collision between a record of one log and a record of the other. */
  ghost predicate Collides(a: seq<Record>, b: seq<Record>) {
    exists i, j | 0 <= i < |a| && 0 <= j < |b| :: Collision(a[i], b[j])
  }

  lemma LongerCollides(a: seq<Record>, b: seq<Record>, m: nat, n: nat)
    requires m <= |a| && n <= |b| && Collides(a[..m], b[..n])
    ensures Collides(a, b)
  {
    var i, j :| 0 <= i < m && 0 <= j < n && Collision(a[..m][i], b[..n][j]);
    assert Collision(a[i], b[j]);
  }

  lemma SameContentsSnoc(a: seq<Record>, b: seq<Record>)
    requires a != [] && b != [] && SameContents(a[..|a| - 1], b[..|b| - 1])
    requires SameBody(a[|a| - 1].body, b[|b| - 1].body) && a[|a| - 1].hash == b[|b| - 1].hash
    ensures SameContents(a, b)
  {
    var m := |a| - 1;
    forall i | 0 <= i < |a| ensures SameBody(a[i].body, b[i].body) && a[i].hash == b[i].hash {
      assert i < m ==> a[..m][i] == a[i] && b[..m][i] == b[i];
    }
  }

  /**
   * Two valid logs with the same head hash hold the same records, field by field and attribute by
   * attribute, whatever their lengths, unless two of their records collide under the hash.
   */
  lemma {:induction false} HeadHashFixesLog(h: Hash, a: seq<Record>, b: seq<Record>)
    requires Chain(h, a) && Chain(h, b) && LastHash(a) == LastHash(b)
    ensures SameContents(a, b) || Collides(a, b)
    decreases |a|
  {
    if a != [] {
      var m, n := |a| - 1, |b| - 1;
      assert Linked(h, a, m) && Linked(h, b, n);
      ChainPrefix(h, a, m);
      ChainPrefix(h, b, n);
      hide Chain, Canon, SameEvent, SameAttributes;
      if Collision(a[m], b[n]) {
        assert Collides(a, b);
      } else {
        assert SameBody(a[m].body, b[n].body);
        HeadHashFixesLog(h, a[..m], b[..n]);
        hide Collides, SameContents, SameBody;
        if Collides(a[..m], b[..n]) {
          LongerCollides(a, b, m, n);
        } else {
          SameContentsSnoc(a, b);
        }
      }
    }
  }

  ghost predicate Injective(h: Hash) {
    forall x, y :: h(x) == h(y) ==> x == y
  }

  lemma InjectiveNeverCollides(h: Hash, a: seq<Record>, b: seq<Record>)
    requires Injective(h) && Chain(h, a) && Chain(h, b)
    ensures !Collides(a, b)
  {
    forall i, j | 0 <= i < |a| && 0 <= j < |b| ensures !Collision(a[i], b[j]) {
      assert Linked(h, a, i) && Linked(h, b, j);
      CanonSays(a[i].body, b[j].body);
    }
  }

  /** With an injective hash, any edit of a valid log is rejected or changes the head hash. */
  lemma EditShows(h: Hash, log: seq<Record>, edited: seq<Record>)
    requires Injective(h) && Chain(h, log) && !SameContents(log, edited)
    ensures !Chain(h, edited) || LastHash(edited) != LastHash(log)
  {
    if Chain(h, edited) && LastHash(edited) == LastHash(log) {
      InjectiveNeverCollides(h, log, edited);
      HeadHashFixesLog(h, log, edited);
    }
  }

  /**
   * In particular: with an injective hash, a log in which one attribute of one record, or one field of its
   * event, has another value than in a valid log is rejected or has another head hash.
   */
  lemma TamperShows(h: Hash, log: seq<Record>, edited: seq<Record>, i: nat, key: string)
    requires Injective(h) && Chain(h, log) && i < |log| && i < |edited|
    requires var a, b := log[i].body, edited[i].body;
      Lookup(a.attributes, key) != Lookup(b.attributes, key) || !SameEvent(a.event, b.event)
    ensures !Chain(h, edited) || LastHash(edited) != LastHash(log)
  {
    assert !SameBody(log[i].body, edited[i].body);
    hide SameBody;
    EditShows(h, log, edited);
  }
}
