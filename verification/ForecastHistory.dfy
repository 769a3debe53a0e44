/** What every run of forecast operations keeps: frozen rows never change, the anchor revisions of a PRE
    form one linked list, every POST reviews each claim exactly once, and resubmission is harmless. */
module ForecastHistory {
  import opened Common
  import opened ResearchStore
  import opened ForecastModel

  // ---------------------------------------------------------------- the invariant

  ghost predicate PreSound(calendar: Calendar, row: Row<Kind, Record>) {
    && row.payload.content.PreContent?
    && var f, at := row.payload.content.frozen, row.payload.recordedAt;
       f.pre.id == row.id && CheckedPre(calendar, f.pre, at) == Ok(f.schedule) && f.timing == TimingOf(f.schedule, f.pre.generatedAt, at)
  }

  ghost predicate PostSound(calendar: Calendar, before: Log, row: Row<Kind, Record>) {
    && row.payload.content.PostContent?
    && var post := row.payload.content.post;
       var pre := ReadPre(before, post.preId, post.preHash);
       && post.id == row.id && pre.Ok? && PostError(calendar, pre.value, post, row.payload.recordedAt).None?
       && row.payload.content.timing == pre.value.frozen.timing
  }

  ghost predicate AnchorSound(before: Log, p: string, row: Row<Kind, Record>) {
    && row.payload.content.AnchorContent?
    && var r := row.payload.content.revision;
       var pre := ReadPre(before, p, r.preHash);
       && r.id == row.id && r.preId == p && pre.Ok? && RevisionError(pre.value, r, row.payload.recordedAt).None?
       && ExtendsTail(TailOf(before, p, pre.value), r)
  }

  /** A row was justified by the table it was appended to. */
  ghost predicate RowSound(calendar: Calendar, before: Log, row: Row<Kind, Record>) {
    && row.id != "" && Find(before, row.id).None?
    && match row.kind
       case PRE => PreSound(calendar, row)
       case POST => PostSound(calendar, before, row)
       case ANCHOR(p) => AnchorSound(before, p, row)
       case FOREIGN(_) => true
  }

  ghost predicate Coherent(calendar: Calendar, log: Log) {
    log == [] || (Coherent(calendar, log[..|log| - 1]) && RowSound(calendar, log[..|log| - 1], log[|log| - 1]))
  }

  // ---------------------------------------------------------------- steps

  function OpId(op: Op): string {
    match op
    case OpPre(pre, _) => pre.id
    case OpPost(post, _) => post.id
    case OpAnchor(r, _) => r.id
    case OpForeign(id, _, _, _) => id
  }

  function OpKind(op: Op): Kind {
    match op
    case OpPre(_, _) => PRE
    case OpPost(_, _) => POST
    case OpAnchor(r, _) => ANCHOR(r.preId)
    case OpForeign(_, name, _, _) => FOREIGN(name)
  }

  lemma AppendEffect(log: Log, kind: Kind, id: string, content: Content, now: int)
    requires Append(log, kind, id, content, now).Ok?
    ensures var (log', record) := Append(log, kind, id, content, now).value;
            && record.content == content && Event(log', id, kind) == Some(record) && log <= log'
            && (log' != log ==> log' == log + [Row(id, kind, record)] && record.recordedAt == now
                                && Find(log, id).None? && id != "")
            && (log' == log <==> Event(log, id, kind).Some?)
  {
    if Event(log, id, kind).None? {
      RecordedReads(log, id, kind, Record(content, now));
    }
  }

  /** An accepted operation either finds its own record or appends one that the table justifies. */
  lemma AttemptEffect(calendar: Calendar, log: Log, op: Op)
    requires Attempt(calendar, log, op).Ok?
    ensures var (log', record) := Attempt(calendar, log, op).value;
            && Event(log', OpId(op), OpKind(op)) == Some(record) && log <= log'
            && (log' != log ==> log' == log + [Row(OpId(op), OpKind(op), record)]
                                && RowSound(calendar, log, Row(OpId(op), OpKind(op), record)))
  {
    match op
    case OpPre(pre, now) =>
      var schedule := CheckedPre(calendar, pre, now).value;
      AppendEffect(log, PRE, pre.id, PreContent(Frozen(pre, schedule, TimingOf(schedule, pre.generatedAt, FrozenAt(log, pre.id, now)))), now);
    case OpPost(post, now) =>
      AppendEffect(log, POST, post.id, PostContent(post, ReadPre(log, post.preId, post.preHash).value.frozen.timing), now);
    case OpAnchor(r, now) =>
      AppendEffect(log, ANCHOR(r.preId), r.id, AnchorContent(r), now);
    case OpForeign(id, name, text, now) =>
      AppendEffect(log, FOREIGN(name), id, ForeignContent(text), now);
  }

  lemma StepKeeps(calendar: Calendar, log: Log, op: Op)
    requires Coherent(calendar, log)
    ensures Coherent(calendar, Step(calendar, log, op)) && log <= Step(calendar, log, op)
  {
    if Attempt(calendar, log, op).Ok? {
      AttemptEffect(calendar, log, op);
      var log' := Step(calendar, log, op);
      if log' != log {
        assert log'[..|log'| - 1] == log;
      }
    }
  }

  /** Over every run, what was frozen stays where it is and every row stays justified. */
  lemma {:induction false} RunKeeps(calendar: Calendar, log: Log, ops: seq<Op>)
    requires Coherent(calendar, log)
    ensures Coherent(calendar, Run(calendar, log, ops)) && log <= Run(calendar, log, ops)
  {
    if ops != [] {
      RunKeeps(calendar, log, ops[..|ops| - 1]);
      StepKeeps(calendar, Run(calendar, log, ops[..|ops| - 1]), ops[|ops| - 1]);
    }
  }

  /** A record that can be read once reads the same after any further operations. */
  lemma FrozenForever(calendar: Calendar, log: Log, ops: seq<Op>, id: string, kind: Kind)
    requires Coherent(calendar, log) && Event(log, id, kind).Some?
    ensures Event(Run(calendar, log, ops), id, kind) == Event(log, id, kind)
  {
    RunKeeps(calendar, log, ops);
    EventKept(log, Run(calendar, log, ops), id, kind);
  }

  // ---------------------------------------------------------------- rows of a coherent table

  lemma {:induction false} RowAt(calendar: Calendar, log: Log, i: nat)
    requires Coherent(calendar, log) && i < |log|
    ensures RowSound(calendar, log[..i], log[i])
  {
    var init := log[..|log| - 1];
    if i < |init| {
      RowAt(calendar, init, i);
      assert init[..i] == log[..i];
    }
  }

  /** The row an event id leads to. */
  lemma RowOf(calendar: Calendar, log: Log, id: string, kind: Kind) returns (i: nat)
    requires Coherent(calendar, log) && Event(log, id, kind).Some?
    ensures i < |log| && log[i] == Row(id, kind, Event(log, id, kind).value) && RowSound(calendar, log[..i], log[i])
  {
    var row := Find(log, id).value;
    i :| 0 <= i < |log| && log[i] == row;
    RowAt(calendar, log, i);
  }

  lemma PreIsSound(calendar: Calendar, log: Log, id: string)
    requires Coherent(calendar, log) && Event(log, id, PRE).Some?
    ensures PreSound(calendar, Row(id, PRE, Event(log, id, PRE).value))
  {
    var _ := RowOf(calendar, log, id, PRE);
  }

  lemma ReadPreKept(before: Log, after: Log, id: string, hash: PreHash)
    requires before <= after && ReadPre(before, id, hash).Ok?
    ensures ReadPre(after, id, hash) == ReadPre(before, id, hash)
  {
    EventKept(before, after, id, PRE);
  }

  // ---------------------------------------------------------------- the anchor list

  function Revisions(log: Log, p: string): seq<Record> {
    OfKind(log, ANCHOR(p))
  }

  /** Entry `i` extends its predecessor, or the PRE itself when it is the first. */
  ghost predicate LinkAt(start: Tail, revs: seq<Record>, i: nat)
    requires i < |revs|
  {
    && revs[i].content.AnchorContent?
    && if i == 0 then ExtendsTail(start, revs[i].content.revision)
       else revs[i - 1].content.AnchorContent? && ExtendsTail(TailAfter(revs[i - 1].content.revision), revs[i].content.revision)
  }

  ghost predicate Linked(start: Tail, revs: seq<Record>) {
    forall i :: 0 <= i < |revs| ==> LinkAt(start, revs, i)
  }

  ghost predicate DistinctIds(revs: seq<Record>) {
    forall i, j :: 0 <= i < j < |revs| && revs[i].content.AnchorContent? && revs[j].content.AnchorContent?
                   ==> revs[i].content.revision.id != revs[j].content.revision.id
  }

  lemma {:induction false} RevisionsKnown(calendar: Calendar, log: Log, p: string)
    requires Coherent(calendar, log)
    ensures forall x :: x in Revisions(log, p) ==> x.content.AnchorContent? && Find(log, x.content.revision.id).Some?
    ensures DistinctIds(Revisions(log, p))
    ensures Revisions(log, p) != [] ==> Event(log, p, PRE).Some?
  {
    if log != [] {
      var init, row := log[..|log| - 1], log[|log| - 1];
      RevisionsKnown(calendar, init, p);
      if Event(init, p, PRE).Some? {
        EventKept(init, log, p, PRE);
      }
    }
  }

  lemma LinkedSnoc(start: Tail, revs: seq<Record>, x: Record)
    requires Linked(start, revs) && LinkAt(start, revs + [x], |revs|)
    ensures Linked(start, revs + [x])
  {
    forall i | 0 <= i < |revs| + 1 ensures LinkAt(start, revs + [x], i) {
      if i < |revs| {
        assert LinkAt(start, revs, i);
      }
    }
  }

  function StartOf(p: string, pre: Record): Tail
    requires pre.content.PreContent?
  {
    Tail(p, pre.content.frozen.pre.anchor, pre.recordedAt)
  }

  lemma NewLink(before: Log, p: string, pre: Record, row: Row<Kind, Record>)
    requires AnchorSound(before, p, row) && Event(before, p, PRE) == Some(pre) && pre.content.PreContent?
    requires forall x :: x in Revisions(before, p) ==> x.content.AnchorContent?
    ensures LinkAt(StartOf(p, pre), Revisions(before, p) + [row.payload], |Revisions(before, p)|)
  {
    var revs := Revisions(before, p);
    if revs != [] {
      assert revs[|revs| - 1] in revs;
    }
  }

  /** A revision is never recorded before its PRE. */
  lemma PreComesFirst(calendar: Calendar, log: Log, p: string, pre: Record)
    requires log != [] && Coherent(calendar, log) && Event(log, p, PRE) == Some(pre) && Revisions(log, p) != []
    ensures Event(log[..|log| - 1], p, PRE) == Some(pre)
  {
    var init, row := log[..|log| - 1], log[|log| - 1];
    if row.kind != ANCHOR(p) {
      RevisionsKnown(calendar, init, p);
    }
    EventKept(init, log, p, PRE);
  }

  lemma LinkedOneMore(calendar: Calendar, before: Log, p: string, pre: Record, row: Row<Kind, Record>)
    requires Coherent(calendar, before) && AnchorSound(before, p, row)
    requires Event(before, p, PRE) == Some(pre) && pre.content.PreContent? && Linked(StartOf(p, pre), Revisions(before, p))
    ensures Linked(StartOf(p, pre), Revisions(before, p) + [row.payload])
  {
    RevisionsKnown(calendar, before, p);
    NewLink(before, p, pre, row);
    LinkedSnoc(StartOf(p, pre), Revisions(before, p), row.payload);
  }

  lemma {:induction false} LinkedFrom(calendar: Calendar, log: Log, p: string, pre: Record)
    requires Coherent(calendar, log) && Event(log, p, PRE) == Some(pre) && pre.content.PreContent?
    ensures Linked(StartOf(p, pre), Revisions(log, p))
  {
    if Revisions(log, p) != [] {
      var init, row := log[..|log| - 1], log[|log| - 1];
      PreComesFirst(calendar, log, p, pre);
      LinkedFrom(calendar, init, p, pre);
      if row.kind == ANCHOR(p) {
        LinkedOneMore(calendar, init, p, pre, row);
        assert Revisions(log, p) == Revisions(init, p) + [row.payload];
      } else {
        assert Revisions(log, p) == Revisions(init, p);
      }
    }
  }

  /** The anchor revisions of a PRE form one linked list, without repeated ids, that starts at its
      original price anchor and whose change times never decrease. */
  lemma AnchorsLinked(calendar: Calendar, log: Log, p: string)
    requires Coherent(calendar, log) && Event(log, p, PRE).Some?
    ensures var pre := Event(log, p, PRE).value;
            pre.content.PreContent? && DistinctIds(Revisions(log, p)) && Linked(StartOf(p, pre), Revisions(log, p))
  {
    PreIsSound(calendar, log, p);
    RevisionsKnown(calendar, log, p);
    LinkedFrom(calendar, log, p, Event(log, p, PRE).value);
  }

  /** The same over every run from the empty table. */
  lemma RunsLinkAnchors(calendar: Calendar, ops: seq<Op>, p: string)
    requires Event(Run(calendar, [], ops), p, PRE).Some?
    ensures AnchorList(Run(calendar, [], ops), p)
  {
    RunKeeps(calendar, [], ops);
    AnchorsLinked(calendar, Run(calendar, [], ops), p);
  }

  // ---------------------------------------------------------------- reviews

  ghost predicate ReviewedOnce(reviews: seq<Review>, claim: string) {
    exists i :: 0 <= i < |reviews| && reviews[i].claim == claim && forall j :: 0 <= j < |reviews| && reviews[j].claim == claim ==> j == i
  }

  lemma MapGrows<K, V>(m: map<K, V>, k: K, v: V)
    requires k !in m
    ensures |m[k := v]| == |m| + 1
  {
    assert m[k := v].Keys == m.Keys + {k};
    assert |m[k := v].Keys| == |m.Keys| + 1;
  }

  lemma {:induction false} ClaimsCounted(claims: seq<Claim>, generatedAt: int)
    requires ClaimIds(claims, generatedAt).Ok?
    ensures ClaimIds(claims, generatedAt).value == Targets(claims).Keys && |Targets(claims)| == |claims|
  {
    if claims != [] {
      ClaimsCounted(claims[..|claims| - 1], generatedAt);
      MapGrows(Targets(claims[..|claims| - 1]), claims[|claims| - 1].id, claims[|claims| - 1].targetAt);
    }
  }

  /** Accepted claims have distinct ids, targets seven days or more away, and one target entry each. */
  lemma {:induction false} ClaimsAccepted(claims: seq<Claim>, generatedAt: int)
    requires ClaimIds(claims, generatedAt).Ok?
    ensures ClaimIds(claims, generatedAt).value == Targets(claims).Keys && |Targets(claims)| == |claims|
    ensures forall i :: 0 <= i < |claims| ==> claims[i].id in Targets(claims) && Targets(claims)[claims[i].id] == claims[i].targetAt
    ensures forall id :: id in Targets(claims) ==> Targets(claims)[id] >= generatedAt + 7 * DAY_MS
  {
    ClaimsCounted(claims, generatedAt);
    if claims != [] {
      var init, last := claims[..|claims| - 1], claims[|claims| - 1];
      ClaimsAccepted(init, generatedAt);
      assert last.id !in Targets(init) && last.targetAt >= generatedAt + 7 * DAY_MS;
      assert Targets(claims) == Targets(init)[last.id := last.targetAt];
      hide ClaimIds, Targets, ClaimError;
      forall i | 0 <= i < |claims| ensures claims[i].id in Targets(claims) && Targets(claims)[claims[i].id] == claims[i].targetAt {
        if i < |init| {
          assert init[i] == claims[i];
        }
      }
    }
  }

  lemma {:induction false} ReviewAccepted(reviews: seq<Review>, refs: Qualifications, observed: map<string, int>, targets: map<string, int>,
                                          recordedAt: int, cutoff: int, i: nat)
    requires i < |reviews| && (forall j :: 0 <= j < |reviews| ==> reviews[j].claim in targets)
    requires ReviewsError(reviews, refs, observed, targets, recordedAt, cutoff).None?
    ensures ReviewError(reviews[i], refs, observed, targets, recordedAt, cutoff).None?
  {
    if i < |reviews| - 1 {
      ReviewAccepted(reviews[..|reviews| - 1], refs, observed, targets, recordedAt, cutoff, i);
    }
  }

  lemma CoveredOnce(reviews: seq<Review>, targets: map<string, int>, claim: string)
    requires CoversTargets(reviews, targets) && claim in targets
    ensures ReviewedOnce(reviews, claim)
  {
    var ids := ReviewIds(reviews);
    assert |targets.Keys| == |targets|;
    NoRepeats(ids);
    assert claim in Elements(ids);
    var i :| 0 <= i < |ids| && ids[i] == claim;
    forall j | 0 <= j < |reviews| && reviews[j].claim == claim ensures j == i {
      assert ids[j] == ids[i];
    }
  }

  /** The review cites sources of the POST, all of them qualified as usable by its cutoff. */
  ghost predicate CitesUsable(post: Post, r: Review) {
    && r.refs != [] && Sources(post.sources, post.cutoff).Ok?
    && forall ref :: ref in r.refs ==> Usable(Sources(post.sources, post.cutoff).value, ref)
  }

  /** A conclusive verdict rests on usable evidence observed late enough. */
  ghost predicate VerdictBacked(pre: PreRecord, post: Post, r: Review, target: int) {
    && (r.verdict in {SUPPORTED, REFUTED} ==> CitesUsable(post, r))
    && (r.verdict == SUPPORTED ==> post.cutoff >= target && ObservedSince(r.refs, ObservedTimes(post.sources), target))
    && (r.verdict == REFUTED ==> ObservedSince(r.refs, ObservedTimes(post.sources), pre.recordedAt))
  }

  lemma ReviewBacked(pre: PreRecord, post: Post, r: Review, targets: map<string, int>)
    requires Sources(post.sources, post.cutoff).Ok? && r.claim in targets
    requires ReviewError(r, Sources(post.sources, post.cutoff).value, ObservedTimes(post.sources), targets, pre.recordedAt, post.cutoff).None?
    ensures VerdictBacked(pre, post, r, targets[r.claim])
  {
    hide Sources, ObservedTimes, ObservedSince;
  }

  lemma OutcomeFacts(pre: PreRecord, post: Post)
    requires ReviewOutcome(pre, post).None? && ClaimIds(pre.frozen.pre.claims, pre.frozen.pre.generatedAt).Ok?
    ensures |post.reviews| == |pre.frozen.pre.claims|
    ensures forall i :: 0 <= i < |pre.frozen.pre.claims| ==> ReviewedOnce(post.reviews, pre.frozen.pre.claims[i].id)
    ensures forall i :: 0 <= i < |post.reviews| ==>
              && post.reviews[i].claim in Targets(pre.frozen.pre.claims)
              && VerdictBacked(pre, post, post.reviews[i], Targets(pre.frozen.pre.claims)[post.reviews[i].claim])
  {
    hide ClaimIds, Targets, ReviewsError, ReviewError, Sources, VerdictBacked;
    var claims := pre.frozen.pre.claims;
    var targets := Targets(claims);
    ClaimsAccepted(claims, pre.frozen.pre.generatedAt);
    ReviewsTargeted(post.reviews, targets);
    forall i | 0 <= i < |claims| ensures ReviewedOnce(post.reviews, claims[i].id) {
      CoveredOnce(post.reviews, targets, claims[i].id);
    }
    var refs := Sources(post.sources, post.cutoff).value;
    forall i | 0 <= i < |post.reviews| ensures VerdictBacked(pre, post, post.reviews[i], targets[post.reviews[i].claim]) {
      ReviewAccepted(post.reviews, refs, ObservedTimes(post.sources), targets, pre.recordedAt, post.cutoff, i);
      ReviewBacked(pre, post, post.reviews[i], targets);
    }
  }

  lemma CheckedClaims(calendar: Calendar, pre: Pre, now: int)
    requires CheckedPre(calendar, pre, now).Ok?
    ensures ClaimIds(pre.claims, pre.generatedAt).Ok?
  {
  }

  /** The record names a frozen PRE, reviews each of its claims exactly once, and holds no SUPPORTED
      verdict from within seven days of the forecast. */
  ghost predicate PostReviewed(log: Log, record: Record) {
    && record.content.PostContent?
    && var post := record.content.post;
       var pre := ReadPre(log, post.preId, post.preHash);
       && pre.Ok?
       && var original := pre.value.frozen.pre;
          && |post.reviews| == |original.claims|
          && (forall i :: 0 <= i < |original.claims| ==> ReviewedOnce(post.reviews, original.claims[i].id))
          && (forall i :: 0 <= i < |post.reviews| ==>
               && post.reviews[i].claim in Targets(original.claims)
               && VerdictBacked(pre.value, post, post.reviews[i], Targets(original.claims)[post.reviews[i].claim])
               && (post.reviews[i].verdict == SUPPORTED ==> record.recordedAt >= original.generatedAt + 7 * DAY_MS))
  }

  lemma PostsReviewClaims(calendar: Calendar, log: Log, id: string)
    requires Coherent(calendar, log) && Event(log, id, POST).Some?
    ensures PostReviewed(log, Event(log, id, POST).value)
  {
    var i := RowOf(calendar, log, id, POST);
    var before, record := log[..i], log[i].payload;
    var post := record.content.post;
    var pre := ReadPre(before, post.preId, post.preHash).value;
    ReadPreKept(before, log, post.preId, post.preHash);
    PreIsSound(calendar, log, post.preId);
    CheckedClaims(calendar, pre.frozen.pre, pre.recordedAt);
    OutcomeFacts(pre, post);
    ClaimsAccepted(pre.frozen.pre.claims, pre.frozen.pre.generatedAt);
  }

  lemma RunsReviewClaims(calendar: Calendar, ops: seq<Op>, id: string)
    requires Event(Run(calendar, [], ops), id, POST).Some?
    ensures PostReviewed(Run(calendar, [], ops), Event(Run(calendar, [], ops), id, POST).value)
  {
    RunKeeps(calendar, [], ops);
    PostsReviewClaims(calendar, Run(calendar, [], ops), id);
  }

  // ---------------------------------------------------------------- single operations

  /** A frozen PRE reads back under its own content hash. */
  lemma PreFrozen(calendar: Calendar, log: Log, pre: Pre, now: int)
    requires Coherent(calendar, log) && FreezePre(calendar, log, pre, now).Ok?
    ensures var (log', record) := FreezePre(calendar, log, pre, now).value;
            && Coherent(calendar, log') && log <= log' && record.content.PreContent? && record.content.frozen.pre == pre
            && ReadPre(log', pre.id, HashOf(record.content.frozen)) == Ok(PreRecord(record.content.frozen, record.recordedAt))
  {
    var op := OpPre(pre, now);
    AttemptEffect(calendar, log, op);
    StepKeeps(calendar, log, op);
    var schedule := CheckedPre(calendar, pre, now).value;
    AppendEffect(log, PRE, pre.id, PreContent(Frozen(pre, schedule, TimingOf(schedule, pre.generatedAt, FrozenAt(log, pre.id, now)))), now);
  }

  /** A frozen POST reviews each claim of its PRE once, on usable evidence. */
  lemma PostFrozen(calendar: Calendar, log: Log, post: Post, now: int)
    requires Coherent(calendar, log) && FreezePost(calendar, log, post, now).Ok?
    ensures var (log', record) := FreezePost(calendar, log, post, now).value;
            Coherent(calendar, log') && log <= log' && PostReviewed(log', record)
  {
    var op := OpPost(post, now);
    hide Coherent, FreezePost, PostReviewed;
    assert Attempt(calendar, log, op) == FreezePost(calendar, log, post, now);
    AttemptEffect(calendar, log, op);
    StepKeeps(calendar, log, op);
    PostsReviewClaims(calendar, Step(calendar, log, op), post.id);
  }

  /** The anchor list of PRE `p` starts at the frozen anchor and is linked without repeated ids. */
  ghost predicate AnchorList(log: Log, p: string) {
    && Event(log, p, PRE).Some?
    && var pre := Event(log, p, PRE).value;
       pre.content.PreContent? && DistinctIds(Revisions(log, p)) && Linked(StartOf(p, pre), Revisions(log, p))
  }

  /** A revision that is accepted is in the anchor list of its PRE, which stays linked. */
  lemma AnchorRevised(calendar: Calendar, log: Log, r: Revision, now: int)
    requires Coherent(calendar, log) && ReviseAnchor(log, r, now).Ok?
    ensures var (log', record) := ReviseAnchor(log, r, now).value;
            Coherent(calendar, log') && log <= log' && AnchorList(log', r.preId) && record in Revisions(log', r.preId)
  {
    var op := OpAnchor(r, now);
    AttemptEffect(calendar, log, op);
    StepKeeps(calendar, log, op);
    var (log', record) := ReviseAnchor(log, r, now).value;
    ReadPreKept(log, log', r.preId, r.preHash);
    hide Coherent, ReviseAnchor, Linked, DistinctIds;
    AnchorsLinked(calendar, log', r.preId);
    FoundOfKind(log', r.id, ANCHOR(r.preId));
  }

  lemma {:induction false} FoundOfKind(log: Log, id: string, kind: Kind)
    requires Event(log, id, kind).Some?
    ensures Event(log, id, kind).value in OfKind(log, kind)
  {
    var init := log[..|log| - 1];
    if Find(init, id).Some? {
      FoundOfKind(init, id, kind);
    }
  }

  // ---------------------------------------------------------------- resubmission

  function Later(op: Op, now: int): Op {
    op.(now := now)
  }

  lemma PreAgain(calendar: Calendar, log: Log, later: Log, pre: Pre, now: int, now': int)
    requires FreezePre(calendar, log, pre, now).Ok? && now <= now'
    requires Event(later, pre.id, PRE) == Some(FreezePre(calendar, log, pre, now).value.1)
    ensures FreezePre(calendar, later, pre, now') == Ok((later, FreezePre(calendar, log, pre, now).value.1))
  {
    var schedule := CheckedPre(calendar, pre, now).value;
    assert CheckedPre(calendar, pre, now') == Ok(schedule);
    var content := PreContent(Frozen(pre, schedule, TimingOf(schedule, pre.generatedAt, FrozenAt(log, pre.id, now))));
    AppendEffect(log, PRE, pre.id, content, now);
    assert FrozenAt(later, pre.id, now') == FrozenAt(log, pre.id, now);
  }

  lemma PostAgain(calendar: Calendar, log: Log, later: Log, post: Post, now: int, now': int)
    requires FreezePost(calendar, log, post, now).Ok? && now <= now' && log <= later
    requires Event(later, post.id, POST) == Some(FreezePost(calendar, log, post, now).value.1)
    ensures FreezePost(calendar, later, post, now') == Ok((later, FreezePost(calendar, log, post, now).value.1))
  {
    ReadPreKept(log, later, post.preId, post.preHash);
    var pre := ReadPre(log, post.preId, post.preHash).value;
    assert PostError(calendar, pre, post, now').None?;
    AppendEffect(log, POST, post.id, PostContent(post, pre.frozen.timing), now);
  }

  lemma AnchorAgain(log: Log, later: Log, r: Revision, now: int, now': int)
    requires ReviseAnchor(log, r, now).Ok? && now <= now' && log <= later
    requires Event(later, r.id, ANCHOR(r.preId)) == Some(ReviseAnchor(log, r, now).value.1)
    ensures ReviseAnchor(later, r, now') == Ok((later, ReviseAnchor(log, r, now).value.1))
  {
    ReadPreKept(log, later, r.preId, r.preHash);
    AppendEffect(log, ANCHOR(r.preId), r.id, AnchorContent(r), now);
  }

  lemma ResubmittedTo(calendar: Calendar, log: Log, later: Log, op: Op, now: int)
    requires Coherent(calendar, log) && Attempt(calendar, log, op).Ok? && op.now <= now && log <= later
    requires Event(later, OpId(op), OpKind(op)) == Some(Attempt(calendar, log, op).value.1)
    ensures Attempt(calendar, later, Later(op, now)) == Ok((later, Attempt(calendar, log, op).value.1))
  {
    match op
    case OpPre(pre, at) => PreAgain(calendar, log, later, pre, at, now);
    case OpPost(post, at) => PostAgain(calendar, log, later, post, at, now);
    case OpAnchor(r, at) => AnchorAgain(log, later, r, at, now);
    case OpForeign(id, name, text, at) => AppendEffect(log, FOREIGN(name), id, ForeignContent(text), at);
  }

  /** Submitting an accepted operation again at any later clock, after any other operations, returns the
      original record and changes nothing; a PRE keeps its original timing state. */
  lemma Resubmission(calendar: Calendar, log: Log, op: Op, ops: seq<Op>, now: int)
    requires Coherent(calendar, log) && Attempt(calendar, log, op).Ok? && op.now <= now
    ensures var (log', record) := Attempt(calendar, log, op).value;
            var later := Run(calendar, log', ops);
            Attempt(calendar, later, Later(op, now)) == Ok((later, record))
  {
    var log' := Attempt(calendar, log, op).value.0;
    AttemptEffect(calendar, log, op);
    StepKeeps(calendar, log, op);
    RunKeeps(calendar, log', ops);
    FrozenForever(calendar, log', ops, OpId(op), OpKind(op));
    ResubmittedTo(calendar, log, Run(calendar, log', ops), op, now);
  }
}
