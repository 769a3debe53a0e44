/** Replay of the dual-hairpin event stream: identity and singleton checks, one sorted and hash-chained
    audit per cycle. The digest of canonical JSON is a function of what it digests. */
module HairpinModel {
  import opened Common
  import opened Sorting
  import opened TextOrder

  /** The event types, and any other text. */
  datatype Kind = Freeze | D0Card | D0Record | D1Gate | D1Record | Settlement | Unknown(text: string)

  const EVENTS: seq<Kind> := [Freeze, D0Card, D0Record, D1Gate, D1Record, Settlement]

  predicate Singleton(kind: Kind) {
    kind == Freeze || kind == D0Record || kind == D1Record || kind == Settlement
  }

  /** `EVENTS.index(kind)`, with 6 for any other text. */
  function KindIndex(kind: Kind): nat {
    match kind
    case Freeze => 0
    case D0Card => 1
    case D0Record => 2
    case D1Gate => 3
    case D1Record => 4
    case Settlement => 5
    case Unknown(_) => 6
  }

  function Name(kind: Kind): string {
    match kind
    case Freeze => "INTEGRATED_FREEZE"
    case D0Card => "D0_ONE_CARD"
    case D0Record => "D0_EXECUTION_RECORD"
    case D1Gate => "D1_GATE"
    case D1Record => "D1_EXECUTION_RECORD"
    case Settlement => "FINAL_SETTLEMENT"
    case Unknown(text) => text
  }

  datatype Error =
    | EventMustBeObject | InvalidEventIdentity | SingletonRepeated(kind: Kind)
    | SequenceViolation(cycle: string) | EventHashMismatch | ChainHashMismatch

  /** An event without its two hash fields; `rest` are its other fields. */
  datatype Body<+P> = Body(cycle: string, kind: Kind, at: string, rest: P)
  datatype Row<+P> = NotAnObject | Event(body: Body<P>, eventHash: Option<string>, chainHash: Option<string>)

  /** What is digested: an event body, or a link of the chain. */
  datatype Preimage<+P> = OfEvent(body: Body<P>) | OfLink(previous: string, event: string)
  type Digest<!P> = Preimage<P> -> string

  /** The genesis value of every chain. */
  function Genesis(): string {
    seq(64, i => '0')
  }

  // ---------------------------------------------------------------- admitting rows

  /** `_event_key` and the singleton test against the keys seen so far. */
  function AdmitError<P>(row: Row<P>, seen: set<(string, Kind)>): Option<Error> {
    if row.NotAnObject? then Some(EventMustBeObject)
    else if row.body.kind.Unknown? || row.body.cycle == "" then Some(InvalidEventIdentity)
    else if (row.body.cycle, row.body.kind) in seen && Singleton(row.body.kind) then Some(SingletonRepeated(row.body.kind))
    else None
  }

  function Seen<P>(rows: seq<Row<P>>): Result<set<(string, Kind)>, Error> {
    if rows == [] then Ok({})
    else
      var seen :- Seen(rows[..|rows| - 1]);
      var row := rows[|rows| - 1];
      var e := AdmitError(row, seen);
      if e.Some? then Err(e.value) else Ok(seen + {(row.body.cycle, row.body.kind)})
  }

  predicate InCycle<P>(row: Row<P>, cycle: string) {
    row.Event? && row.body.cycle == cycle
  }

  /** The rows of one cycle in input order. */
  function RowsOf<P>(rows: seq<Row<P>>, cycle: string): seq<Row<P>> {
    if rows == [] then []
    else RowsOf(rows[..|rows| - 1], cycle) + (if InCycle(rows[|rows| - 1], cycle) then [rows[|rows| - 1]] else [])
  }

  /** The cycles in order of first appearance. */
  function CyclesOf<P>(rows: seq<Row<P>>): seq<string> {
    if rows == [] then []
    else
      var before, row := CyclesOf(rows[..|rows| - 1]), rows[|rows| - 1];
      if row.Event? && row.body.cycle !in before then before + [row.body.cycle] else before
  }

  // ---------------------------------------------------------------- one cycle

  /** The sort key `(event_at, EVENTS.index(event_type))`. */
  predicate EventBefore<P>(x: Row<P>, y: Row<P>) {
    if x.NotAnObject? || y.NotAnObject? then x.NotAnObject?
    else TextLess(x.body.at, y.body.at) || (x.body.at == y.body.at && KindIndex(x.body.kind) <= KindIndex(y.body.kind))
  }

  function KindOf<P>(row: Row<P>): Kind {
    if row.Event? then row.body.kind else Unknown("")
  }

  function Kinds<P>(rows: seq<Row<P>>): seq<Kind> {
    seq(|rows|, i requires 0 <= i < |rows| => KindOf(rows[i]))
  }

  function Positions(kinds: seq<Kind>): seq<int> {
    seq(|kinds|, i requires 0 <= i < |kinds| => KindIndex(kinds[i]))
  }

  predicate NotLarger(x: int, y: int) {
    x <= y
  }

  /** `any(kinds[i] > kinds[i + 1] ...)`, which compares the event names as text. */
  predicate AnyDescent(kinds: seq<Kind>) {
    exists i :: 0 < i < |kinds| && Descends(kinds, i)
  }

  predicate Descends(kinds: seq<Kind>, i: nat)
    requires 0 < i < |kinds|
  {
    TextLess(Name(kinds[i]), Name(kinds[i - 1]))
  }

  /** The sequence guard as written: positions are compared only after an alphabetical descent. */
  predicate OrderAccepted(kinds: seq<Kind>) {
    AnyDescent(kinds) ==> Positions(kinds) == SortBy(Positions(kinds), NotLarger)
  }

  datatype AuditLine = AuditLine(kind: Kind, eventHash: string, chainHash: string)

  /** The running `previous` hash. */
  function Head(audit: seq<AuditLine>): string {
    if audit == [] then Genesis() else audit[|audit| - 1].chainHash
  }

  function Link<P>(digest: Digest<P>, previous: string, row: Row<P>): Result<AuditLine, Error> {
    if row.NotAnObject? then Err(EventMustBeObject)
    else
      var event := digest(OfEvent(row.body));
      var chain := digest(OfLink(previous, event));
      if row.eventHash.Some? && row.eventHash.value != event then Err(EventHashMismatch)
      else if row.chainHash.Some? && row.chainHash.value != chain then Err(ChainHashMismatch)
      else Ok(AuditLine(row.body.kind, event, chain))
  }

  function Audit<P>(digest: Digest<P>, ordered: seq<Row<P>>): (r: Result<seq<AuditLine>, Error>)
    ensures r.Ok? ==> |r.value| == |ordered|
  {
    if ordered == [] then Ok([])
    else
      var before :- Audit(digest, ordered[..|ordered| - 1]);
      var line :- Link(digest, Head(before), ordered[|ordered| - 1]);
      Ok(before + [line])
  }

  datatype Projection = Projection(kinds: seq<Kind>, complete: bool, audit: seq<AuditLine>, chain: string)

  function Project<P(==)>(digest: Digest<P>, cycle: string, rows: seq<Row<P>>): Result<Projection, Error> {
    var ordered := SortBy(rows, EventBefore);
    var kinds := Kinds(ordered);
    if !OrderAccepted(kinds) then Err(SequenceViolation(cycle))
    else
      var audit :- Audit(digest, ordered);
      Ok(Projection(kinds, kinds == EVENTS, audit, Head(audit)))
  }

  /** The projection of each cycle of a stream. */
  function ByCycle<P(==)>(digest: Digest<P>, rows: seq<Row<P>>): string -> Result<Projection, Error> {
    c => Project(digest, c, RowsOf(rows, c))
  }

  function Collect<V>(f: string -> Result<V, Error>, cycles: seq<string>): Result<map<string, V>, Error> {
    if cycles == [] then Ok(map[])
    else
      var before :- Collect(f, cycles[..|cycles| - 1]);
      var v :- f(cycles[|cycles| - 1]);
      Ok(before[cycles[|cycles| - 1] := v])
  }

  /** `replay_events`. */
  function Replay<P(==)>(digest: Digest<P>, rows: seq<Row<P>>): Result<map<string, Projection>, Error> {
    var _ :- Seen(rows);
    Collect(ByCycle(digest, rows), CyclesOf(rows))
  }

  /** `build_event`. */
  function BuildEvent<P>(digest: Digest<P>, body: Body<P>): Option<Row<P>> {
    if body.kind.Unknown? then None else Some(Event(body, Some(digest(OfEvent(body))), None))
  }

  // ---------------------------------------------------------------- the loops

  lemma {:induction false} AdmissionFailed<P>(rows: seq<Row<P>>, n: nat)
    requires n <= |rows| && Seen(rows[..n]).Err?
    ensures Seen(rows) == Seen(rows[..n])
    decreases |rows| - n
  {
    if n < |rows| {
      assert rows[..n + 1][..n] == rows[..n];
      AdmissionFailed(rows, n + 1);
    } else {
      assert rows[..n] == rows;
    }
  }

  /** The grouping dictionary holds the rows of every cycle met so far. */
  ghost predicate Groups<P>(rows: seq<Row<P>>, order: seq<string>, byCycle: map<string, seq<Row<P>>>) {
    && order == CyclesOf(rows)
    && (forall c :: c in byCycle <==> c in order)
    && (forall c :: c in byCycle ==> byCycle[c] == RowsOf(rows, c))
    && (forall c :: c !in byCycle ==> RowsOf(rows, c) == [])
  }

  lemma GroupsSnoc<P>(init: seq<Row<P>>, row: Row<P>, order: seq<string>, byCycle: map<string, seq<Row<P>>>)
    requires Groups(init, order, byCycle) && row.Event?
    ensures var c := row.body.cycle;
            var prior := if c in byCycle then byCycle[c] else [];
            Groups(init + [row], if c in byCycle then order else order + [c], byCycle[c := prior + [row]])
  {
    var rows := init + [row];
    assert rows[..|rows| - 1] == init;
    forall c ensures RowsOf(rows, c) == RowsOf(init, c) + (if InCycle(row, c) then [row] else []) {
    }
  }

  /** The first loop of `replay_events`. */
  method GroupRows<P>(rows: seq<Row<P>>) returns (r: Result<(seq<string>, map<string, seq<Row<P>>>), Error>)
    ensures r.Err? ==> Seen(rows) == Err(r.error)
    ensures r.Ok? ==> Seen(rows).Ok? && Groups(rows, r.value.0, r.value.1)
  {
    var seen: set<(string, Kind)>, order: seq<string>, byCycle: map<string, seq<Row<P>>> := {}, [], map[];
    for i := 0 to |rows|
      invariant Seen(rows[..i]) == Ok(seen) && Groups(rows[..i], order, byCycle)
    {
      assert rows[..i + 1] == rows[..i] + [rows[i]];
      assert rows[..i + 1][..i] == rows[..i];
      var row := rows[i];
      var e := AdmitError(row, seen);
      if e.Some? {
        AdmissionFailed(rows, i + 1);
        return Err(e.value);
      }
      var cycle := row.body.cycle;
      GroupsSnoc(rows[..i], row, order, byCycle);
      seen := seen + {(cycle, row.body.kind)};
      if cycle !in byCycle {
        order, byCycle := order + [cycle], byCycle[cycle := [] + [row]];
      } else {
        byCycle := byCycle[cycle := byCycle[cycle] + [row]];
      }
    }
    assert rows[..|rows|] == rows;
    r := Ok((order, byCycle));
  }

  lemma {:induction false} AuditFailed<P>(digest: Digest<P>, ordered: seq<Row<P>>, n: nat)
    requires n <= |ordered| && Audit(digest, ordered[..n]).Err?
    ensures Audit(digest, ordered) == Audit(digest, ordered[..n])
    decreases |ordered| - n
  {
    if n < |ordered| {
      assert ordered[..n + 1][..n] == ordered[..n];
      AuditFailed(digest, ordered, n + 1);
    } else {
      assert ordered[..n] == ordered;
    }
  }

  /** The chaining loop: each row's hash is linked to the running `previous`. */
  method AuditRows<P>(digest: Digest<P>, ordered: seq<Row<P>>) returns (r: Result<seq<AuditLine>, Error>)
    ensures r == Audit(digest, ordered)
  {
    var previous, audit := Genesis(), [];
    for i := 0 to |ordered|
      invariant Audit(digest, ordered[..i]) == Ok(audit) && previous == Head(audit)
    {
      assert ordered[..i + 1][..i] == ordered[..i];
      var line := Link(digest, previous, ordered[i]);
      if line.Err? {
        AuditFailed(digest, ordered, i + 1);
        return Err(line.error);
      }
      audit := audit + [line.value];
      previous := line.value.chainHash;
    }
    assert ordered[..|ordered|] == ordered;
    r := Ok(audit);
  }

  method ProjectCycle<P(==)>(digest: Digest<P>, cycle: string, rows: seq<Row<P>>) returns (r: Result<Projection, Error>)
    ensures r == Project(digest, cycle, rows)
  {
    var ordered := SortBy(rows, EventBefore);
    var kinds := Kinds(ordered);
    if AnyDescent(kinds) {
      var positions := Positions(kinds);
      if positions != SortBy(positions, NotLarger) {
        return Err(SequenceViolation(cycle));
      }
    }
    var audit := AuditRows(digest, ordered);
    r := if audit.Err? then Err(audit.error) else Ok(Projection(kinds, kinds == EVENTS, audit.value, Head(audit.value)));
  }

  lemma {:induction false} CollectFailed<V>(f: string -> Result<V, Error>, cycles: seq<string>, n: nat)
    requires n <= |cycles| && Collect(f, cycles[..n]).Err?
    ensures Collect(f, cycles) == Collect(f, cycles[..n])
    decreases |cycles| - n
  {
    if n < |cycles| {
      assert cycles[..n + 1][..n] == cycles[..n];
      CollectFailed(f, cycles, n + 1);
    } else {
      assert cycles[..n] == cycles;
    }
  }

  /** The loop over the grouped cycles. */
  method CollectCycles<P(==)>(digest: Digest<P>, order: seq<string>, byCycle: map<string, seq<Row<P>>>, ghost f: string -> Result<Projection, Error>)
    returns (r: Result<map<string, Projection>, Error>)
    requires forall c :: c in order ==> c in byCycle && f(c) == Project(digest, c, byCycle[c])
    ensures r == Collect(f, order)
  {
    var cycles: map<string, Projection> := map[];
    for i := 0 to |order|
      invariant Collect(f, order[..i]) == Ok(cycles)
    {
      assert order[..i + 1][..i] == order[..i];
      var c := order[i];
      assert c in order;
      var p := ProjectCycle(digest, c, byCycle[c]);
      if p.Err? {
        CollectFailed(f, order, i + 1);
        return Err(p.error);
      }
      cycles := cycles[c := p.value];
    }
    assert order[..|order|] == order;
    r := Ok(cycles);
  }

  /** `replay_events` as it runs. */
  method ReplayEvents<P(==)>(digest: Digest<P>, rows: seq<Row<P>>) returns (r: Result<map<string, Projection>, Error>)
    ensures r == Replay(digest, rows)
  {
    var grouped := GroupRows(rows);
    if grouped.Err? {
      return Err(grouped.error);
    }
    r := CollectCycles(digest, grouped.value.0, grouped.value.1, ByCycle(digest, rows));
  }
}
