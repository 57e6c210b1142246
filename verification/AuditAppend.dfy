/**
 * Any number of audit stores appending to one libSQL table. An append reads all rows, computes its
 * record from the last one, and inserts; only the table's keys stand between two stale writers.
 */
module AuditAppend {
  import opened Base
  import opened AuditChain

  // ---- The table ----

  /** The insert violates the primary key on `sequence` or the unique key on `event_id`. */
  predicate Conflicts(rows: seq<Record>, r: Record) {
    exists i | 0 <= i < |rows| ::
      rows[i].body.sequence == r.body.sequence || rows[i].body.event.eventId == r.body.event.eventId
  }

  /** The rows in primary-key order, which is the order `list` returns them in. */
  function Inserted(rows: seq<Record>, r: Record): seq<Record> {
    if rows == [] || rows[|rows| - 1].body.sequence < r.body.sequence then rows + [r]
    else Inserted(rows[..|rows| - 1], r) + [rows[|rows| - 1]]
  }

  predicate InKeyOrder(rows: seq<Record>) {
    forall i, j | 0 <= i < j < |rows| :: rows[i].body.sequence < rows[j].body.sequence
  }

  /** An insert adds its row and loses none. */
  lemma {:induction false} InsertedHolds(rows: seq<Record>, r: Record)
    ensures |Inserted(rows, r)| == |rows| + 1
    ensures forall x :: x in Inserted(rows, r) <==> x in rows || x == r
  {
    if !(rows == [] || rows[|rows| - 1].body.sequence < r.body.sequence) {
      InsertedHolds(rows[..|rows| - 1], r);
      assert rows == rows[..|rows| - 1] + [rows[|rows| - 1]];
    }
  }

  /** And it keeps the rows in key order. */
  lemma {:induction false} InsertedInOrder(rows: seq<Record>, r: Record)
    requires InKeyOrder(rows) && forall x | x in rows :: x.body.sequence != r.body.sequence
    ensures InKeyOrder(Inserted(rows, r))
  {
    if rows != [] && rows[|rows| - 1].body.sequence >= r.body.sequence {
      var n := |rows| - 1;
      InsertedHolds(rows[..n], r);
      assert forall x | x in rows[..n] :: x in rows;
      InsertedInOrder(rows[..n], r);
      assert forall x | x in rows[..n] :: x.body.sequence < rows[n].body.sequence;
      assert rows[n] in rows;
      LastInOrder(Inserted(rows[..n], r), rows[n]);
    } else {
      LastInOrder(rows, r);
    }
  }

  lemma LastInOrder(rows: seq<Record>, r: Record)
    requires InKeyOrder(rows)
    requires (forall x | x in rows :: x.body.sequence < r.body.sequence)
             || (rows != [] && rows[|rows| - 1].body.sequence < r.body.sequence) || rows == []
    ensures InKeyOrder(rows + [r])
  {
    forall i | 0 <= i < |rows| ensures rows[i].body.sequence < r.body.sequence {
      assert rows[i] in rows;
    }
  }

  // ---- The writers ----

  /** What the caller supplies; the store adds sequence, previous hash and hash. */
  datatype Input = Input(event: Event, attributes: seq<(string, AttributeValue)>)

  /** A store works through its write queue one append at a time. */
  datatype Writer = Writer(queue: seq<Input>, pending: Option<Record>, basis: seq<Record>)

  /** The record computed from the rows read. */
  function NextRecord(h: Hash, rows: seq<Record>, input: Input): Record {
    var sequence := if rows == [] then 1 else rows[|rows| - 1].body.sequence + 1;
    var body := Body(Complete(input.event), input.attributes, sequence, LastHash(rows));
    Record(body, HashOf(h, body))
  }

  predicate AlreadyThere(rows: seq<Record>, input: Input) {
    exists i | 0 <= i < |rows| :: rows[i].body.event.eventId == input.event.eventId
  }

  /** Take the oldest queued append, read the rows and compute its record; a known event id fails it. */
  function Compute(h: Hash, rows: seq<Record>, writer: Writer): Writer
    requires writer.queue != []
  {
    var input := writer.queue[0];
    Writer(writer.queue[1..], if AlreadyThere(rows, input) then None else Some(NextRecord(h, rows, input)), rows)
  }

  /** The shared table, every store, and the appends acknowledged to callers, in order. */
  datatype World = World(rows: seq<Record>, writers: map<nat, Writer>, acknowledged: seq<Record>)

  datatype Label =
    | Call(store: nat, input: Input)     // an append passes the metadata check and joins the queue
    | Read(store: nat)                   // list all rows, check the event id, compute the record
    | Write(store: nat)                  // insert it; a key conflict fails the append

  predicate Enabled(w: World, l: Label) {
    match l
    case Call(_, _) => true
    case Read(s) => s in w.writers && w.writers[s].queue != [] && w.writers[s].pending.None?
    case Write(s) => s in w.writers && w.writers[s].pending.Some?
  }

  function Idle(w: World, store: nat): Writer {
    if store in w.writers then w.writers[store] else Writer([], None, [])
  }

  function Step(w: World, h: Hash, l: Label): World
    requires Enabled(w, l)
  {
    match l
    case Call(s, input) =>
      var writer := Idle(w, s);
      w.(writers := w.writers[s := writer.(queue := writer.queue + [input])])
    case Read(s) => w.(writers := w.writers[s := Compute(h, w.rows, w.writers[s])])
    case Write(s) =>
      var r := w.writers[s].pending.value;
      var done := w.writers[s := w.writers[s].(pending := None)];
      if Conflicts(w.rows, r) then w.(writers := done)
      else World(Inserted(w.rows, r), done, w.acknowledged + [r])
  }

  predicate Executes(w: World, h: Hash, labels: seq<Label>)
    decreases |labels|
  {
    labels == [] || (Enabled(w, labels[0]) && Executes(Step(w, h, labels[0]), h, labels[1..]))
  }

  function Execute(w: World, h: Hash, labels: seq<Label>): World
    requires Executes(w, h, labels)
    decreases |labels|
  {
    if labels == [] then w else Execute(Step(w, h, labels[0]), h, labels[1..])
  }

  // ---- The invariant ----

  /** A pending record was computed from rows the table still begins with. */
  ghost predicate Pending(h: Hash, rows: seq<Record>, writer: Writer) {
    writer.pending.Some? ==>
      && writer.basis <= rows
      && !AlreadyThere(writer.basis, Input(writer.pending.value.body.event, []))
      && exists input :: writer.pending.value == NextRecord(h, writer.basis, input)
  }

  ghost predicate Inv(h: Hash, w: World) {
    && Chain(h, w.rows)
    && w.acknowledged == w.rows
    && forall s | s in w.writers :: Pending(h, w.rows, w.writers[s])
  }

  /** A stale writer always collides; a fresh one extends the chain at its end. */
  lemma WriteExtends(h: Hash, rows: seq<Record>, writer: Writer)
    requires Chain(h, rows) && Pending(h, rows, writer) && writer.pending.Some?
    ensures Conflicts(rows, writer.pending.value) <==> writer.basis != rows
    ensures writer.basis == rows ==>
              && Inserted(rows, writer.pending.value) == rows + [writer.pending.value]
              && Chain(h, rows + [writer.pending.value])
  {
    var r := writer.pending.value;
    var n := |writer.basis|;
    assert n > 0 ==> Linked(h, rows, n - 1) && writer.basis[n - 1] == rows[n - 1];
    assert r.body.sequence == n + 1;
    if n < |rows| {
      assert Linked(h, rows, n);
    } else {
      assert writer.basis == rows;
      forall i | 0 <= i < n ensures rows[i].body.sequence != r.body.sequence
          && rows[i].body.event.eventId != r.body.event.eventId {
        assert Linked(h, rows, i);
      }
      ChainSnoc(h, rows, r);
    }
  }

  lemma StepKeeps(w: World, h: Hash, l: Label)
    requires Inv(h, w) && Enabled(w, l)
    ensures Inv(h, Step(w, h, l))
    ensures w.rows <= Step(w, h, l).rows
  {
    match l
    case Call(_, _) =>
    case Read(s) =>
      var w' := Step(w, h, l);
      assert w'.writers[s].pending.Some? ==>
          w'.writers[s].pending.value == NextRecord(h, w.rows, w.writers[s].queue[0]);
    case Write(s) =>
      WriteExtends(h, w.rows, w.writers[s]);
  }

  lemma {:induction false} ExecuteKeeps(w: World, h: Hash, labels: seq<Label>)
    requires Inv(h, w) && Executes(w, h, labels)
    ensures Inv(h, Execute(w, h, labels))
    ensures w.rows <= Execute(w, h, labels).rows
    decreases |labels|
  {
    if labels != [] {
      StepKeeps(w, h, labels[0]);
      ExecuteKeeps(Step(w, h, labels[0]), h, labels[1..]);
    }
  }

  const EMPTY := World([], map[], [])

  /**
   * However many stores append, and however they interleave: the table is a well-formed chain and
   * holds exactly the acknowledged appends, in the order in which they were acknowledged.
   */
  lemma AppendsFormChain(h: Hash, labels: seq<Label>)
    requires Executes(EMPTY, h, labels)
    ensures var w := Execute(EMPTY, h, labels); Chain(h, w.rows) && w.rows == w.acknowledged
  {
    ExecuteKeeps(EMPTY, h, labels);
  }

  /** Rows are only ever added at the end: every later table begins with every earlier one. */
  lemma LogOnlyGrows(h: Hash, before: seq<Label>, after: seq<Label>)
    requires Executes(EMPTY, h, before) && Executes(Execute(EMPTY, h, before), h, after)
    ensures Execute(EMPTY, h, before).rows <= Execute(Execute(EMPTY, h, before), h, after).rows
  {
    ExecuteKeeps(EMPTY, h, before);
    ExecuteKeeps(Execute(EMPTY, h, before), h, after);
  }

  /** An append whose read is not followed by another store's write succeeds unless its event id is taken. */
  lemma UndisturbedAppendSucceeds(h: Hash, w: World, s: nat)
    requires Inv(h, w) && Enabled(w, Read(s))
    ensures
      var input := w.writers[s].queue[0];
      var w1 := Step(w, h, Read(s));
      AlreadyThere(w.rows, input) <==>
          !(Enabled(w1, Write(s))
          && Step(w1, h, Write(s)).rows == w.rows + [NextRecord(h, w.rows, input)])
  {
    var w1 := Step(w, h, Read(s));
    StepKeeps(w, h, Read(s));
    if w1.writers[s].pending.Some? {
      WriteExtends(h, w1.rows, w1.writers[s]);
    }
  }

  /** Without the primary key, two stores that read the same rows would fork the chain. */
  lemma KeyPreventsFork(h: Hash, rows: seq<Record>, a: Input, b: Input)
    requires Chain(h, rows)
    ensures
      var first, second := NextRecord(h, rows, a), NextRecord(h, rows, b);
      Conflicts(rows + [first], second) && !Chain(h, rows + [first, second])
  {
    var first, second := NextRecord(h, rows, a), NextRecord(h, rows, b);
    assert (rows + [first])[|rows|] == first;
    assert rows != [] ==> Linked(h, rows, |rows| - 1);
    assert !Linked(h, rows + [first, second], |rows| + 1);
  }

  // ---- What is written ----

  /** The record holds what the caller supplied, and what the store must add to it after these rows. */
  ghost predicate Holds(h: Hash, rows: seq<Record>, input: Input, r: Record) {
    && SameEvent(r.body.event, input.event) && SameAttributes(r.body.attributes, input.attributes)
    && r.body.sequence == |rows| + 1 && r.body.previousHash == LastHash(rows)
    && r.hash == HashOf(h, r.body)
  }

  lemma NextRecordHolds(h: Hash, rows: seq<Record>, input: Input)
    requires Chain(h, rows)
    ensures Holds(h, rows, input, NextRecord(h, rows, input))
  {
    CompleteSays(input.event, input.event);
    hide Complete, SameEvent;
    assert rows != [] ==> Linked(h, rows, |rows| - 1);
  }

  /** Some store was asked to append what the record holds. */
  ghost predicate AskedFor(calls: seq<Input>, r: Record) {
    exists input :: input in calls && SameEvent(r.body.event, input.event)
                    && SameAttributes(r.body.attributes, input.attributes)
  }

  /** Every queued, computed and written append was asked for. */
  ghost predicate AllAskedFor(w: World, calls: seq<Input>) {
    && (forall i | 0 <= i < |w.rows| :: AskedFor(calls, w.rows[i]))
    && (forall s | s in w.writers ::
          && (forall input | input in w.writers[s].queue :: input in calls)
          && (w.writers[s].pending.Some? ==> AskedFor(calls, w.writers[s].pending.value)))
  }

  function Calls(labels: seq<Label>): seq<Input> {
    if labels == [] then []
    else (if labels[0].Call? then [labels[0].input] else []) + Calls(labels[1..])
  }

  lemma MoreAskedFor(calls: seq<Input>, input: Input, r: Record)
    requires AskedFor(calls, r)
    ensures AskedFor(calls + [input], r)
  {
    var i :| i in calls && SameEvent(r.body.event, i.event) && SameAttributes(r.body.attributes, i.attributes);
    assert i in calls + [input];
  }

  lemma StepAskedFor(h: Hash, w: World, l: Label, calls: seq<Input>)
    requires Inv(h, w) && Enabled(w, l) && AllAskedFor(w, calls)
    ensures AllAskedFor(Step(w, h, l), if l.Call? then calls + [l.input] else calls)
  {
    var w' := Step(w, h, l);
    hide Chain, SameEvent, SameAttributes, NextRecord, Conflicts, Inserted;
    match l
    case Call(s, input) =>
      forall r | AskedFor(calls, r) ensures AskedFor(calls + [input], r) {
        MoreAskedFor(calls, input, r);
      }
    case Read(s) =>
      var input := w.writers[s].queue[0];
      NextRecordHolds(h, w.rows, input);
      assert input in calls;
    case Write(s) => WriteExtends(h, w.rows, w.writers[s]);
  }

  lemma CallsFrom(calls: seq<Input>, labels: seq<Label>)
    requires labels != []
    ensures (if labels[0].Call? then calls + [labels[0].input] else calls) + Calls(labels[1..]) == calls + Calls(labels)
  {
  }

  lemma {:induction false} RunAskedFor(h: Hash, w: World, labels: seq<Label>, calls: seq<Input>)
    requires Inv(h, w) && Executes(w, h, labels) && AllAskedFor(w, calls)
    ensures AllAskedFor(Execute(w, h, labels), calls + Calls(labels))
    decreases |labels|
  {
    hide AllAskedFor, Inv, Step, Enabled;
    if labels == [] {
      assert calls + Calls([]) == calls;
    } else {
      var l := labels[0];
      StepKeeps(w, h, l);
      StepAskedFor(h, w, l, calls);
      RunAskedFor(h, Step(w, h, l), labels[1..], if l.Call? then calls + [l.input] else calls);
      CallsFrom(calls, labels);
    }
  }

  /** In every run: whatever is in the table, some caller supplied, field by field and attribute by attribute. */
  lemma RowsWereAskedFor(h: Hash, labels: seq<Label>)
    requires Executes(EMPTY, h, labels)
    ensures forall i | 0 <= i < |Execute(EMPTY, h, labels).rows| ::
              AskedFor(Calls(labels), Execute(EMPTY, h, labels).rows[i])
  {
    RunAskedFor(h, EMPTY, labels, []);
    assert [] + Calls(labels) == Calls(labels);
  }

  /** And an append whose event id is new, read and written without interruption, is there as supplied. */
  lemma UndisturbedAppendHolds(h: Hash, w: World, s: nat)
    requires Inv(h, w) && Enabled(w, Read(s)) && !AlreadyThere(w.rows, w.writers[s].queue[0])
    ensures var w1 := Step(w, h, Read(s));
      && Enabled(w1, Write(s))
      && var w2 := Step(w1, h, Write(s));
      && |w2.rows| == |w.rows| + 1 && w.rows <= w2.rows
      && Holds(h, w.rows, w.writers[s].queue[0], w2.rows[|w.rows|])
      && w2.writers[s].queue == w.writers[s].queue[1..] && w2.writers[s].pending.None?
  {
    UndisturbedAppendSucceeds(h, w, s);
    NextRecordHolds(h, w.rows, w.writers[s].queue[0]);
    hide Chain, Holds, NextRecord;
  }
}
