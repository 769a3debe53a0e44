/** The append-only research event table: the first write of an event id wins, a different rewrite is
    refused, and rows are never changed or removed. */
module ResearchStore {
  import opened Common

  datatype StoreError = EventIdentityInvalid | FrozenEventConflict

  /** One row of the table; row order is insertion order. */
  datatype Row<+K, +P> = Row(id: string, kind: K, payload: P)

  /** The row with this event id, if any; ids are unique, so it is the first one. */
  function Find<K, P>(log: seq<Row<K, P>>, id: string): (r: Option<Row<K, P>>)
    ensures r.Some? ==> r.value in log && r.value.id == id
    ensures r.None? ==> forall i :: 0 <= i < |log| ==> log[i].id != id
  {
    if log == [] then None
    else
      var before := Find(log[..|log| - 1], id);
      if before.Some? then before
      else if log[|log| - 1].id == id then Some(log[|log| - 1])
      else None
  }

  /** Every row has an id of its own. */
  ghost predicate Keyed<K, P>(log: seq<Row<K, P>>) {
    && (forall i :: 0 <= i < |log| ==> log[i].id != "")
    && forall i, j :: 0 <= i < j < |log| ==> log[i].id != log[j].id
  }

  /** `research_event`. */
  function Event<K(==), P>(log: seq<Row<K, P>>, id: string, kind: K): Option<P> {
    var row := Find(log, id);
    if id != "" && row.Some? && row.value.kind == kind then Some(row.value.payload) else None
  }

  /** The rows of one kind in insertion order. */
  function OfKind<K(==), P>(log: seq<Row<K, P>>, kind: K): seq<P> {
    if log == [] then []
    else OfKind(log[..|log| - 1], kind) + (if log[|log| - 1].kind == kind then [log[|log| - 1].payload] else [])
  }

  /** `latest_research_event`. */
  function Latest<K(==), P>(log: seq<Row<K, P>>, kind: K): Option<P> {
    var rows := OfKind(log, kind);
    if rows == [] then None else Some(rows[|rows| - 1])
  }

  /** `record_research_event`: the new table, unchanged when the same row is already there. */
  function Recorded<K(==), P(==)>(log: seq<Row<K, P>>, id: string, kind: K, payload: P): Result<seq<Row<K, P>>, StoreError> {
    var prior := Find(log, id);
    if id == "" then Err(EventIdentityInvalid)
    else if prior.None? then Ok(log + [Row(id, kind, payload)])
    else if prior.value == Row(id, kind, payload) then Ok(log)
    else Err(FrozenEventConflict)
  }

  /** The table as an object shared by the research protocols. */
  class ObservationStore<K(==), P(==)> {
    var log: seq<Row<K, P>>

    ghost predicate Valid()
      reads this
    {
      Keyed(log)
    }

    constructor ()
      ensures Valid() && log == []
    {
      log := [];
    }

    method RecordResearchEvent(id: string, kind: K, payload: P) returns (r: Result<bool, StoreError>)
      requires Valid()
      modifies this
      ensures Valid()
      ensures r.Ok? == Recorded(old(log), id, kind, payload).Ok?
      ensures r.Ok? ==> Recorded(old(log), id, kind, payload) == Ok(log) && r.value == (log != old(log))
      ensures r.Err? ==> Recorded(old(log), id, kind, payload) == Err(r.error) && log == old(log)
    {
      if id == "" {
        return Err(EventIdentityInvalid);
      }
      var prior := FindRow(id);
      if prior.Some? {
        if prior.value.kind != kind || prior.value.payload != payload {
          return Err(FrozenEventConflict);
        }
        return Ok(false);
      }
      log := log + [Row(id, kind, payload)];
      r := Ok(true);
    }

    /** The only row with this event id, or `None` when no row has it. */
    method FindRow(id: string) returns (r: Option<Row<K, P>>)
      requires Valid()
      ensures r == Find(log, id)
      ensures match r
              case None => forall i :: 0 <= i < |log| ==> log[i].id != id
              case Some(row) => exists i :: 0 <= i < |log| && log[i] == row && forall j :: 0 <= j < |log| ==> (log[j].id == id <==> j == i)
    {
      for i := 0 to |log|
        invariant Find(log[..i], id).None?
      {
        assert log[..i + 1][..i] == log[..i];
        if log[i].id == id {
          FindFirst(log, id, i + 1);
          return Some(log[i]);
        }
      }
      assert log[..|log|] == log;
      r := None;
    }

    method ResearchEvent(id: string, kind: K) returns (r: Option<P>)
      requires Valid()
      ensures r == Event(log, id, kind)
    {
      var row := FindRow(id);
      r := if id != "" && row.Some? && row.value.kind == kind then Some(row.value.payload) else None;
    }

    /** `ORDER BY id DESC LIMIT 1`. */
    method LatestResearchEvent(kind: K) returns (r: Option<P>)
      ensures r == Latest(log, kind)
    {
      var i := |log|;
      assert log[..i] == log;
      while i > 0
        invariant 0 <= i <= |log| && Latest(log, kind) == Latest(log[..i], kind)
      {
        assert log[..i][..i - 1] == log[..i - 1];
        if log[i - 1].kind == kind {
          return Some(log[i - 1].payload);
        }
        i := i - 1;
      }
      r := None;
    }
  }

  /** A row found in a prefix is the row found in the whole table. */
  lemma {:induction false} FindFirst<K, P>(log: seq<Row<K, P>>, id: string, n: nat)
    requires n <= |log| && Find(log[..n], id).Some?
    ensures Find(log, id) == Find(log[..n], id)
    decreases |log| - n
  {
    if n < |log| {
      assert log[..n + 1][..n] == log[..n];
      FindFirst(log, id, n + 1);
    } else {
      assert log[..n] == log;
    }
  }

  /** What was recorded reads the same from every later table. */
  lemma EventKept<K, P>(before: seq<Row<K, P>>, after: seq<Row<K, P>>, id: string, kind: K)
    requires before <= after && Event(before, id, kind).Some?
    ensures Event(after, id, kind) == Event(before, id, kind)
  {
    assert after[..|before|] == before;
    FindFirst(after, id, |before|);
  }

  lemma LatestOfSnoc<K, P>(log: seq<Row<K, P>>, row: Row<K, P>, kind: K)
    ensures Find(log + [row], row.id) == (if Find(log, row.id).Some? then Find(log, row.id) else Some(row))
    ensures OfKind(log + [row], kind) == OfKind(log, kind) + (if row.kind == kind then [row.payload] else [])
  {
    assert (log + [row])[..|log|] == log;
  }

  /** A successful write leaves the old rows in place and can be read back at once. */
  lemma RecordedReads<K, P>(log: seq<Row<K, P>>, id: string, kind: K, payload: P)
    requires Recorded(log, id, kind, payload).Ok?
    ensures log <= Recorded(log, id, kind, payload).value
    ensures Event(Recorded(log, id, kind, payload).value, id, kind) == Some(payload)
  {
    LatestOfSnoc(log, Row(id, kind, payload), kind);
  }
}
