/** The forecast operations as they run: loops that fill dictionaries, and appends to the shared store that
    keep a justified table justified. */
module ForecastDesk {
  import opened Common
  import opened ResearchStore
  import opened ForecastModel
  import opened ForecastHistory

  type Store = ObservationStore<Kind, Record>

  /** An operation on the store did what the table function says, and nothing when it was refused. */
  ghost predicate Performed(before: Log, after: Log, expected: Result<(Log, Record), Error>, r: Result<Record, Error>) {
    match expected
    case Ok((log, record)) => r == Ok(record) && after == log
    case Err(e) => r == Err(e) && after == before
  }

  /** A justified table stays justified, and its rows stay where they are. */
  ghost predicate Kept(calendar: Calendar, before: Log, after: Log) {
    Coherent(calendar, before) ==> Coherent(calendar, after) && before <= after
  }

  /** `_sources`. */
  method QualifySources(rows: seq<SourceRow>, cutoff: int) returns (r: Result<Qualifications, Error>)
    ensures r == Sources(rows, cutoff)
  {
    if rows == [] {
      return Err(SourceReferencesMissing);
    }
    var qualifications: Qualifications := map[];
    for i := 0 to |rows|
      invariant SourcesSoFar(rows[..i], cutoff) == Ok(qualifications)
    {
      assert rows[..i + 1][..i] == rows[..i];
      var e := SourceError(rows[i], cutoff, qualifications);
      if e.Some? {
        SourceRejected(rows, cutoff, i + 1);
        return Err(e.value);
      }
      qualifications := qualifications[rows[i].ref := rows[i].quality];
    }
    assert rows[..|rows|] == rows;
    r := Ok(qualifications);
  }

  lemma {:induction false} SourceRejected(rows: seq<SourceRow>, cutoff: int, n: nat)
    requires n <= |rows| && SourcesSoFar(rows[..n], cutoff).Err?
    ensures SourcesSoFar(rows, cutoff) == Err(SourcesSoFar(rows[..n], cutoff).error)
    decreases |rows| - n
  {
    if n < |rows| {
      assert rows[..n + 1][..n] == rows[..n];
      SourceRejected(rows, cutoff, n + 1);
    } else {
      assert rows[..n] == rows;
    }
  }

  /** The claim loop of `freeze_pre`. */
  method CheckClaims(claims: seq<Claim>, generatedAt: int) returns (r: Option<Error>)
    ensures r == match ClaimIds(claims, generatedAt) case Ok(_) => None case Err(e) => Some(e)
  {
    var ids := {};
    for i := 0 to |claims|
      invariant ClaimIds(claims[..i], generatedAt) == Ok(ids)
    {
      assert claims[..i + 1][..i] == claims[..i];
      var e := ClaimError(claims[i], generatedAt, ids);
      if e.Some? {
        ClaimRejected(claims, generatedAt, i + 1);
        return e;
      }
      ids := ids + {claims[i].id};
    }
    assert claims[..|claims|] == claims;
    r := None;
  }

  lemma {:induction false} ClaimRejected(claims: seq<Claim>, generatedAt: int, n: nat)
    requires n <= |claims| && ClaimIds(claims[..n], generatedAt).Err?
    ensures ClaimIds(claims, generatedAt) == Err(ClaimIds(claims[..n], generatedAt).error)
    decreases |claims| - n
  {
    if n < |claims| {
      assert claims[..n + 1][..n] == claims[..n];
      ClaimRejected(claims, generatedAt, n + 1);
    } else {
      assert claims[..n] == claims;
    }
  }

  /** The review loop of `freeze_post`. */
  method CheckReviews(reviews: seq<Review>, refs: Qualifications, observed: map<string, int>, targets: map<string, int>,
                      recordedAt: int, cutoff: int) returns (r: Option<Error>)
    requires forall i :: 0 <= i < |reviews| ==> reviews[i].claim in targets
    ensures r == ReviewsError(reviews, refs, observed, targets, recordedAt, cutoff)
  {
    for i := 0 to |reviews|
      invariant ReviewsError(reviews[..i], refs, observed, targets, recordedAt, cutoff).None?
    {
      assert reviews[..i + 1][..i] == reviews[..i];
      var e := ReviewError(reviews[i], refs, observed, targets, recordedAt, cutoff);
      if e.Some? {
        ReviewRejected(reviews, refs, observed, targets, recordedAt, cutoff, i + 1);
        return e;
      }
    }
    assert reviews[..|reviews|] == reviews;
    r := None;
  }

  lemma {:induction false} ReviewRejected(reviews: seq<Review>, refs: Qualifications, observed: map<string, int>,
                                          targets: map<string, int>, recordedAt: int, cutoff: int, n: nat)
    requires n <= |reviews| && forall i :: 0 <= i < |reviews| ==> reviews[i].claim in targets
    requires ReviewsError(reviews[..n], refs, observed, targets, recordedAt, cutoff).Some?
    ensures ReviewsError(reviews, refs, observed, targets, recordedAt, cutoff)
            == ReviewsError(reviews[..n], refs, observed, targets, recordedAt, cutoff)
    decreases |reviews| - n
  {
    if n < |reviews| {
      assert reviews[..n + 1][..n] == reviews[..n];
      ReviewRejected(reviews, refs, observed, targets, recordedAt, cutoff, n + 1);
    } else {
      assert reviews[..n] == reviews;
    }
  }

  /** `_append`. */
  method AppendTo(store: Store, kind: Kind, id: string, content: Content, now: int) returns (r: Result<Record, Error>)
    requires store.Valid()
    modifies store
    ensures store.Valid()
    ensures Performed(old(store.log), store.log, Append(old(store.log), kind, id, content, now), r)
  {
    if now <= 0 {
      return Err(ClockInvalid);
    }
    if Blank(id) {
      return Err(RequiredTextMissing);
    }
    var prior := store.ResearchEvent(id, kind);
    if prior.Some? {
      if prior.value.content != content {
        return Err(Store(FrozenEventConflict));
      }
      return Ok(prior.value);
    }
    var record := Record(content, now);
    var recorded := store.RecordResearchEvent(id, kind, record);
    if recorded.Err? {
      return Err(Store(recorded.error));
    }
    r := Ok(record);
  }

  /** The checks of `freeze_pre` before it looks at the store. */
  method CheckPre(calendar: Calendar, pre: Pre, now: int) returns (r: Result<Schedule, Error>)
    ensures r == CheckedPre(calendar, pre, now)
  {
    if !AllClocks([now, pre.generatedAt, pre.cutoff]) {
      return Err(ClockInvalid);
    }
    if !(pre.cutoff <= pre.generatedAt <= now) {
      return Err(PreClockOrderInvalid);
    }
    if !AllTexts(pre.texts) {
      return Err(RequiredTextMissing);
    }
    var schedule := calendar(pre.session);
    if schedule.None? {
      return Err(SessionNotCovered);
    }
    var refs := QualifySources(pre.sources, pre.cutoff);
    if refs.Err? {
      return Err(refs.error);
    }
    var e := AnchorError(pre.anchor, refs.value, pre.cutoff);
    if e.Some? {
      return Err(e.value);
    }
    if pre.claims == [] {
      return Err(FalsifiableClaimsRequired);
    }
    e := CheckClaims(pre.claims, pre.generatedAt);
    r := if e.Some? then Err(e.value) else Ok(schedule.value);
  }

  /** `freeze_pre`. */
  method FreezePreIn(store: Store, calendar: Calendar, pre: Pre, now: int) returns (r: Result<Record, Error>)
    requires store.Valid()
    modifies store
    ensures store.Valid()
    ensures Performed(old(store.log), store.log, FreezePre(calendar, old(store.log), pre, now), r)
    ensures Kept(calendar, old(store.log), store.log)
    ensures Coherent(calendar, old(store.log)) && r.Ok? ==>
              && r.value.content.PreContent? && r.value.content.frozen.pre == pre
              && ReadPre(store.log, pre.id, HashOf(r.value.content.frozen)) == Ok(PreRecord(r.value.content.frozen, r.value.recordedAt))
  {
    var schedule := CheckPre(calendar, pre, now);
    if schedule.Err? {
      return Err(schedule.error);
    }
    var prior := store.ResearchEvent(pre.id, PRE);
    var frozenAt := if prior.Some? then prior.value.recordedAt else now;
    var timing := TimingOf(schedule.value, pre.generatedAt, frozenAt);
    r := AppendTo(store, PRE, pre.id, PreContent(Frozen(pre, schedule.value, timing)), now);
    if r.Ok? && Coherent(calendar, old(store.log)) {
      PreFrozen(calendar, old(store.log), pre, now);
    }
  }

  /** `read_pre`. */
  method ReadPreIn(store: Store, id: string, hash: PreHash) returns (r: Result<PreRecord, Error>)
    requires store.Valid()
    ensures r == ReadPre(store.log, id, hash)
  {
    var record := store.ResearchEvent(id, PRE);
    if record.None? {
      return Err(PreNotFound);
    }
    if !record.value.content.PreContent? || hash != HashOf(record.value.content.frozen) {
      return Err(PreHashMismatch);
    }
    r := Ok(PreRecord(record.value.content.frozen, record.value.recordedAt));
  }

  /** The evidence part of `freeze_post`. */
  method CheckOutcome(pre: PreRecord, post: Post) returns (r: Option<Error>)
    ensures r == ReviewOutcome(pre, post)
  {
    var refs := QualifySources(post.sources, post.cutoff);
    if refs.Err? {
      return Some(refs.error);
    }
    var targets := Targets(pre.frozen.pre.claims);
    if !CoversTargets(post.reviews, targets) {
      return Some(MustReviewEachClaim);
    }
    ReviewsTargeted(post.reviews, targets);
    r := CheckReviews(post.reviews, refs.value, ObservedTimes(post.sources), targets, pre.recordedAt, post.cutoff);
  }

  method CheckPost(calendar: Calendar, pre: PreRecord, post: Post, now: int) returns (r: Option<Error>)
    ensures r == PostError(calendar, pre, post, now)
  {
    if !AllClocks([post.generatedAt, post.cutoff]) {
      return Some(ClockInvalid);
    }
    if !(pre.recordedAt <= post.cutoff <= post.generatedAt <= now) {
      return Some(PostClockOrderInvalid);
    }
    var schedule := calendar(post.session);
    if schedule.None? {
      return Some(SessionNotCovered);
    }
    if post.session < pre.frozen.pre.session || post.generatedAt < schedule.value.PostDue() || post.cutoff < schedule.value.close {
      return Some(PostBeforeSessionReview);
    }
    if !AllTexts(post.texts) {
      return Some(RequiredTextMissing);
    }
    r := CheckOutcome(pre, post);
  }

  /** `freeze_post`. */
  method FreezePostIn(store: Store, calendar: Calendar, post: Post, now: int) returns (r: Result<Record, Error>)
    requires store.Valid()
    modifies store
    ensures store.Valid()
    ensures Performed(old(store.log), store.log, FreezePost(calendar, old(store.log), post, now), r)
    ensures Kept(calendar, old(store.log), store.log)
    ensures Coherent(calendar, old(store.log)) && r.Ok? ==> PostReviewed(store.log, r.value)
  {
    if now <= 0 {
      return Err(ClockInvalid);
    }
    var pre := ReadPreIn(store, post.preId, post.preHash);
    if pre.Err? {
      return Err(pre.error);
    }
    var e := CheckPost(calendar, pre.value, post, now);
    if e.Some? {
      return Err(e.value);
    }
    r := AppendTo(store, POST, post.id, PostContent(post, pre.value.frozen.timing), now);
    if r.Ok? && Coherent(calendar, old(store.log)) {
      PostFrozen(calendar, old(store.log), post, now);
    }
  }

  /** `revise_price_anchor`, whose tail check and append share one transaction. */
  method ReviseAnchorIn(store: Store, ghost calendar: Calendar, revision: Revision, now: int) returns (r: Result<Record, Error>)
    requires store.Valid()
    modifies store
    ensures store.Valid()
    ensures Performed(old(store.log), store.log, ReviseAnchor(old(store.log), revision, now), r)
    ensures Kept(calendar, old(store.log), store.log)
    ensures Coherent(calendar, old(store.log)) && r.Ok? ==>
              AnchorList(store.log, revision.preId) && r.value in Revisions(store.log, revision.preId)
  {
    if now <= 0 {
      return Err(ClockInvalid);
    }
    var pre := ReadPreIn(store, revision.preId, revision.preHash);
    if pre.Err? {
      return Err(pre.error);
    }
    var e := RevisionError(pre.value, revision, now);
    if e.Some? {
      return Err(e.value);
    }
    var kind := ANCHOR(revision.preId);
    var prior := store.ResearchEvent(revision.id, kind);
    if prior.None? {
      var last := store.LatestResearchEvent(kind);
      var tail := if last.Some? && last.value.content.AnchorContent? then TailAfter(last.value.content.revision)
                  else Tail(revision.preId, pre.value.frozen.pre.anchor, pre.value.recordedAt);
      if revision.previousId != tail.id || revision.oldAnchor != tail.anchor || revision.changedAt < tail.at {
        return Err(AnchorHistoryMismatch);
      }
    }
    r := AppendTo(store, kind, revision.id, AnchorContent(revision), now);
    if r.Ok? && Coherent(calendar, old(store.log)) {
      AnchorRevised(calendar, old(store.log), revision, now);
    }
  }
}
