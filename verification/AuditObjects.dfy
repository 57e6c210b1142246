/** The shared audit table and one audit store, as the objects they are in the source. */
module AuditObjects {
  import opened Base
  import opened AuditChain
  import opened AuditAppend

  class AuditTable {
    var rows: seq<Record>               // in primary-key order

    constructor ()
      ensures rows == []
    {
      rows := [];
    }

    /** `INSERT`: refused when a row with the same sequence or event id exists. */
    method Insert(r: Record) returns (ok: bool)
      modifies this
      ensures ok <==> forall i | 0 <= i < |old(rows)| ::
                old(rows)[i].body.sequence != r.body.sequence && old(rows)[i].body.event.eventId != r.body.event.eventId
      ensures ok <==> !Conflicts(old(rows), r)
      ensures rows == if ok then Inserted(old(rows), r) else old(rows)
    {
      var i := 0;
      while i < |rows|
        invariant i <= |rows|
        invariant !Conflicts(rows[..i], r)
      {
        if rows[i].body.sequence == r.body.sequence || rows[i].body.event.eventId == r.body.event.eventId {
          return false;
        }
        i := i + 1;
      }
      assert rows[..i] == rows;
      ok := true;
      rows := Inserted(rows, r);
    }
  }

  class AuditStore {
    const table: AuditTable
    const hash: Hash
    var queue: seq<Input>
    var pending: Option<Record>
    ghost var basis: seq<Record>

    ghost function View(): Writer
      reads this
    {
      Writer(queue, pending, basis)
    }

    constructor (table: AuditTable, hash: Hash)
      ensures this.table == table && this.hash == hash && View() == Writer([], None, [])
    {
      this.table, this.hash := table, hash;
      queue, pending, basis := [], None, [];
    }

    method Append(input: Input)
      modifies this
      ensures View() == old(View()).(queue := old(queue) + [input])
    {
      queue := queue + [input];
    }

    /** From the list to the computed record; returns whether the event id was already there. */
    method ReadAndCompute() returns (duplicate: bool)
      requires queue != [] && pending.None?
      modifies this
      ensures View() == Compute(hash, table.rows, old(View()))
      ensures duplicate <==> AlreadyThere(table.rows, old(queue)[0])
    {
      var input := queue[0];
      queue := queue[1..];
      var records := table.rows;
      basis := records;
      var record := NextRecord(hash, records, input);
      var i := 0;
      duplicate := false;
      while i < |records|
        invariant i <= |records|
        invariant duplicate <==> AlreadyThere(records[..i], input)
      {
        if records[i].body.event.eventId == input.event.eventId {
          duplicate := true;
        }
        i := i + 1;
      }
      assert records[..i] == records;
      pending := if duplicate then None else Some(record);
    }

    /** The insert; on failure the append is rejected and the queue moves on. */
    method Commit() returns (ok: bool)
      requires pending.Some?
      modifies this, table
      ensures View() == old(View()).(pending := None)
      ensures ok <==> !Conflicts(old(table.rows), old(pending).value)
      ensures table.rows == if ok then Inserted(old(table.rows), old(pending).value) else old(table.rows)
    {
      ok := table.Insert(pending.value);
      pending := None;
    }
  }
}
