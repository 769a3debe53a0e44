/** Chronology over every run of the control-transfer protocol: reviewed results rest on strictly
    ordered events, the first assessment of some evidence is the lasting one, and references cannot be
    redrawn. */
module ControlTransfer {
  import opened Common
  import opened ResearchStore
  import opened ControlModel
  import O = OverbalanceModel

  // ---------------------------------------------------------------- the invariant

  /** The assessment stored under `id` is the dated outcome of `c`, evaluated after its events ended. */
  ghost predicate Made(w: World, id: string, a: Assessment, c: Classified, at: int) {
    && id == w.AssessmentKey(c) && a.outcome == Dated(c, at)
    && (c.post.Some? ==> c.post.value.timestamp < at) && (c.review.Some? ==> c.review.value.timestamp < at)
  }

  ghost predicate AssessmentSound(w: World, id: string, a: Assessment) {
    exists c, at :: Made(w, id, a, c, at)
  }

  /** A frozen candidate is measured, carries its own digest and holds the reference lock. */
  ghost predicate CandidateSound(w: World, log: Log, id: string, c: Candidate) {
    && c.id == id && id == w.CandidateKey(c.observationId, c.referenceHash)
    && c.measurements.Measured? && c.referenceHash == w.ReferenceHash(c.measurements)
    && Event(log, w.LockKey(c.observationId, c.provenance), REFERENCE_LOCK) == Some(LockRow(c.measurements.references))
  }

  ghost predicate RowSound(w: World, log: Log, row: Row<Kind, Payload>) {
    match row.kind
    case OBSERVATION => row.payload.ObservationRow?
    case REFERENCE_LOCK => row.payload.LockRow?
    case CANDIDATE => row.payload.CandidateRow? && CandidateSound(w, log, row.id, row.payload.c)
    case ASSESSMENT => row.payload.AssessmentRow? && AssessmentSound(w, row.id, row.payload.a)
    case FOREIGN => true
  }

  ghost predicate Sound(w: World, log: Log) {
    forall i :: 0 <= i < |log| ==> RowSound(w, log, log[i])
  }

  lemma RowKept(w: World, log: Log, log': Log, row: Row<Kind, Payload>)
    requires log <= log' && RowSound(w, log, row)
    ensures RowSound(w, log', row)
  {
    if row.kind == CANDIDATE {
      EventKept(log, log', w.LockKey(row.payload.c.observationId, row.payload.c.provenance), REFERENCE_LOCK);
    }
  }

  /** Recording a row that the new table justifies keeps every row justified. */
  lemma RecordKeeps(w: World, log: Log, id: string, kind: Kind, payload: Payload)
    requires Sound(w, log) && Recorded(log, id, kind, payload).Ok?
    requires RowSound(w, log, Row(id, kind, payload))
    ensures log <= Recorded(log, id, kind, payload).value && Sound(w, Recorded(log, id, kind, payload).value)
  {
    var log' := Recorded(log, id, kind, payload).value;
    RecordedReads(log, id, kind, payload);
    forall i | 0 <= i < |log'| ensures RowSound(w, log', log'[i]) {
      RowKept(w, log, log', log'[i]);
    }
  }

  // ---------------------------------------------------------------- freezing

  lemma ProposedFacts(w: World, log: Log, p: Proposal)
    requires Proposed(w, log, p).Ok?
    ensures var c := Proposed(w, log, p).value;
            && c.measurements.Measured? && c.referenceHash == w.ReferenceHash(c.measurements)
            && c.id == w.CandidateKey(c.observationId, c.referenceHash)
  {
  }

  lemma FreezeKeeps(w: World, log: Log, p: Proposal)
    requires Sound(w, log)
    ensures log <= FreezeCandidate(w, log, p).0 && Sound(w, FreezeCandidate(w, log, p).0)
  {
    if Proposed(w, log, p).Ok? {
      var c := Proposed(w, log, p).value;
      ProposedFacts(w, log, p);
      var key, lock := w.LockKey(c.observationId, c.provenance), LockRow(c.measurements.references);
      if Recorded(log, key, REFERENCE_LOCK, lock).Ok? {
        RecordKeeps(w, log, key, REFERENCE_LOCK, lock);
        RecordedReads(log, key, REFERENCE_LOCK, lock);
        var locked := Recorded(log, key, REFERENCE_LOCK, lock).value;
        if Recorded(locked, c.id, CANDIDATE, CandidateRow(c)).Ok? {
          RecordKeeps(w, locked, c.id, CANDIDATE, CandidateRow(c));
        }
      }
    }
  }

  lemma KeptIsStored(log: Log, c: Candidate)
    requires KeepCandidate(log, c).1.Ok?
    ensures var (log', r) := KeepCandidate(log, c);
            log <= log' && StoredCandidate(log', c.id) == Some(r.value)
  {
    if StoredCandidate(log, c.id).None? {
      RecordedReads(log, c.id, CANDIDATE, CandidateRow(c));
    }
  }

  lemma StoredIsCandidate(w: World, log: Log, id: string)
    requires Sound(w, log) && StoredCandidate(log, id).Some?
    ensures CandidateSound(w, log, id, StoredCandidate(log, id).value)
  {
    var row := Find(log, id).value;
    var i :| 0 <= i < |log| && log[i] == row;
    assert RowSound(w, log, log[i]);
  }

  /** A freeze that returns leaves its candidate stored, measured and holding the reference lock. */
  lemma FrozenIsSound(w: World, log: Log, p: Proposal)
    requires Sound(w, log) && FreezeCandidate(w, log, p).1.Ok?
    ensures var (log', r) := FreezeCandidate(w, log, p);
            StoredCandidate(log', r.value.id) == Some(r.value) && CandidateSound(w, log', r.value.id, r.value)
  {
    var c := Proposed(w, log, p).value;
    FreezeKeeps(w, log, p);
    var locked := Recorded(log, w.LockKey(c.observationId, c.provenance), REFERENCE_LOCK,
                           LockRow(if c.measurements.Measured? then c.measurements.references else 0)).value;
    hide Proposed, KeepCandidate, Sound, RowSound;
    KeptIsStored(locked, c);
    StoredIsCandidate(w, FreezeCandidate(w, log, p).0, c.id);
  }

  // ---------------------------------------------------------------- evaluating

  /** The post-C window opens after the candidate formed and ends before the evaluation. */
  ghost predicate PostFacts(log: Log, e: Evidence, d: Derived, cutoff: int) {
    && d.followup.Some? && d.classified.post == Some(d.followup.value.event) && e.post.Some?
    && var o := d.followup.value.observation;
       && StoredObservation(log, e.post.value.observationId) == Some(o) && d.followup.value.event.timestamp == o.end
       && d.followup.value.event.observationId == e.post.value.observationId && d.followup.value.event.judged == e.post.value.judged
       && d.grounded.candidate.formedAt < o.start <= o.end < cutoff
  }

  /** The review window opens after the frozen validation clock and ends before the evaluation. */
  ghost predicate ReviewFacts(w: World, log: Log, e: Evidence, d: Derived, cutoff: int) {
    && d.classified.review.Some? && e.review.Some?
    && StoredObservation(log, e.review.value.observationId).Some?
    && var o := StoredObservation(log, e.review.value.observationId).value;
       var frozen := FrozenValidation(w, log, d.classified.(review := None));
       && d.classified.review.value.timestamp == o.end && o.start <= o.end < cutoff
       && frozen.Some? && frozen.value < o.start
  }

  lemma DeriveFacts(w: World, log: Log, id: string, c: Candidate, e: Evidence, cutoff: int)
    requires Derive(w, log, id, c, e, cutoff).Ok?
    ensures var d := Derive(w, log, id, c, e, cutoff).value;
            && d.classified.candidate == c && Ground(w, log, id, c, cutoff) == Ok(d.grounded)
            && (d.classified.post.Some? ==> PostFacts(log, e, d, cutoff))
            && (d.classified.review.Some? ==> d.classified.post.Some? && ReviewFacts(w, log, e, d, cutoff))
  {
    var d := Derive(w, log, id, c, e, cutoff).value;
    var base := d.classified.(review := None);
    if d.classified.review.Some? {
      assert ReviewOf(w, log, base, d.followup.value.observation, e.review.value, cutoff) == Ok(d.classified.review.value);
    }
  }

  lemma DerivedIsMade(w: World, log: Log, id: string, c: Candidate, e: Evidence, cutoff: int)
    requires Derive(w, log, id, c, e, cutoff).Ok?
    ensures var d := Derive(w, log, id, c, e, cutoff).value;
            Made(w, w.AssessmentKey(d.classified), AssessmentOf(d, cutoff), d.classified, cutoff)
  {
    DeriveFacts(w, log, id, c, e, cutoff);
  }

  lemma EvaluateKeeps(w: World, log: Log, e: Evidence, cutoff: int)
    requires Sound(w, log)
    ensures log <= Evaluate(w, log, e, cutoff).0 && Sound(w, Evaluate(w, log, e, cutoff).0)
  {
    if e.candidateId.Some? && StoredCandidate(log, e.candidateId.value).Some? {
      var id, c := e.candidateId.value, StoredCandidate(log, e.candidateId.value).value;
      var derived := Derive(w, log, id, c, e, cutoff);
      if derived.Ok? {
        DerivedIsMade(w, log, id, c, e, cutoff);
        var key, row := w.AssessmentKey(derived.value.classified), AssessmentRow(AssessmentOf(derived.value, cutoff));
        assert RowSound(w, log, Row(key, ASSESSMENT, row));
        if Recorded(log, key, ASSESSMENT, row).Ok? {
          RecordKeeps(w, log, key, ASSESSMENT, row);
        }
      }
    }
  }

  lemma StepKeeps(w: World, log: Log, op: Op)
    requires Sound(w, log)
    ensures log <= Step(w, log, op) && Sound(w, Step(w, log, op))
  {
    match op
    case OpObserve(id, o) =>
      if Recorded(log, id, OBSERVATION, ObservationRow(o)).Ok? { RecordKeeps(w, log, id, OBSERVATION, ObservationRow(o)); }
    case OpFreeze(p) => FreezeKeeps(w, log, p);
    case OpEvaluate(e, cutoff) => EvaluateKeeps(w, log, e, cutoff);
    case OpForeign(id, text) =>
      if Recorded(log, id, FOREIGN, ForeignRow(text)).Ok? { RecordKeeps(w, log, id, FOREIGN, ForeignRow(text)); }
  }

  /** Every run keeps the table append-only and every row justified. */
  lemma {:induction false} RunKeeps(w: World, log: Log, ops: seq<Op>)
    requires Sound(w, log)
    ensures log <= Run(w, log, ops) && Sound(w, Run(w, log, ops))
  {
    if ops != [] {
      RunKeeps(w, log, ops[..|ops| - 1]);
      StepKeeps(w, Run(w, log, ops[..|ops| - 1]), ops[|ops| - 1]);
    }
  }

  // ---------------------------------------------------------------- chronology

  /** The reference window ends before its freeze clock, which is at or before formation; the candidate
      window ends before formation; formation precedes the post-C window, which ends before the frozen
      validation clock, which precedes the review window. */
  ghost predicate StrictlyOrdered(reference: Observation, frozenAt: int, original: Observation, formedAt: int,
                                  post: Observation, validatedAt: int, review: Observation) {
    && reference.end < frozenAt <= formedAt && original.end < formedAt < post.start
    && post.start <= post.end < validatedAt < review.start && review.start <= review.end
  }

  predicate IsReviewed(o: Outcome) {
    o.status == Some(REVIEWING) || o.status == Some(REVERSED)
  }

  lemma SamePrefix(p: string, x: string, y: string)
    requires p + x == p + y
    ensures x == y
  {
    assert x == (p + x)[|p|..] && y == (p + y)[|p|..];
  }

  lemma KeyDetermines(w: World, c: Classified, d: Classified)
    requires w.Valid() && w.AssessmentKey(c) == w.AssessmentKey(d)
    ensures c == d
  {
    SamePrefix("assessment:", w.hash(ClassifiedIdentity(c)), w.hash(ClassifiedIdentity(d)));
  }

  lemma StoredIsSound(w: World, log: Log, key: string)
    requires Sound(w, log) && StoredAssessment(log, key).Some?
    ensures AssessmentSound(w, key, StoredAssessment(log, key).value)
  {
    var row := Find(log, key).value;
    var i :| 0 <= i < |log| && log[i] == row;
    assert RowSound(w, log, log[i]);
  }

  /** A stored assessment was made from the classified evidence its key digests. */
  lemma StoredIsMade(w: World, log: Log, c: Classified) returns (at: int)
    requires w.Valid() && Sound(w, log) && StoredAssessment(log, w.AssessmentKey(c)).Some?
    ensures Made(w, w.AssessmentKey(c), StoredAssessment(log, w.AssessmentKey(c)).value, c, at)
  {
    var a := StoredAssessment(log, w.AssessmentKey(c)).value;
    StoredIsSound(w, log, w.AssessmentKey(c));
    var c', at' :| Made(w, w.AssessmentKey(c), a, c', at');
    KeyDetermines(w, c, c');
    at := at';
  }

  /** What an evaluation returns, stored now or earlier, was made from the evidence it derived. */
  lemma SettledIsMade(w: World, log: Log, id: string, c: Candidate, e: Evidence, cutoff: int) returns (at: int)
    requires w.Valid() && Sound(w, log) && Derive(w, log, id, c, e, cutoff).Ok?
    requires Settle(w, log, Derive(w, log, id, c, e, cutoff).value, cutoff).1.Ok?
    ensures var d := Derive(w, log, id, c, e, cutoff).value;
            var r := Settle(w, log, d, cutoff).1.value;
            r.assessment.Some? && Made(w, w.AssessmentKey(d.classified), r.assessment.value, d.classified, at)
  {
    var d := Derive(w, log, id, c, e, cutoff).value;
    if StoredAssessment(log, w.AssessmentKey(d.classified)).Some? {
      at := StoredIsMade(w, log, d.classified);
    } else {
      DerivedIsMade(w, log, id, c, e, cutoff);
      at := cutoff;
    }
  }

  lemma ReviewedHasReview(c: Classified, at: int)
    requires IsReviewed(Dated(c, at))
    ensures c.post.Some? && c.review.Some? && Dated(c, at).validatedAt == Some(at)
  {
  }

  /** The frozen validation clock lies after the post-C window. */
  lemma ValidationAfterPost(w: World, log: Log, c: Classified)
    requires w.Valid() && Sound(w, log) && FrozenValidation(w, log, c).Some? && c.post.Some?
    ensures c.post.value.timestamp < FrozenValidation(w, log, c).value
  {
    var at := StoredIsMade(w, log, c);
  }

  lemma FrozenBeforeFormed(w: World, log: Log, id: string, c: Candidate, cutoff: int)
    requires w.Valid() && Ground(w, log, id, c, cutoff).Ok? && c.measurements.Measured?
    ensures c.references.frozenAt <= c.formedAt
  {
    var g := Ground(w, log, id, c, cutoff).value;
    assert w.measure(g.original.bars, c.timestamp, c.references) == c.measurements;
  }

  /** The post-C test of `e` as it is classified before any review. */
  function Unreviewed(w: World, log: Log, e: Evidence, c: Candidate): Option<Classified> {
    if e.post.None? || StoredObservation(log, e.post.value.observationId).None? then None
    else
      var s, o := e.post.value, StoredObservation(log, e.post.value.observationId).value;
      var id := w.hash(PostIdentity(o.observationId, c.referenceHash));
      Some(Classified(c, Some(PostEvent(id, s.observationId, s.referenceHash, o.end, AFTER, true, s.judged)), None))
  }

  /** The stored observations behind `e` are ordered around the validation clock frozen for the same candidate
      and post-C test, under the same judgement, without a review; the review window ends before `dated`. */
  ghost predicate OrderedAround(w: World, log: Log, e: Evidence, c: Candidate, dated: int) {
    && e.post.Some? && e.review.Some? && Unreviewed(w, log, e, c).Some?
    && var frozen := FrozenValidation(w, log, Unreviewed(w, log, e, c).value);
       var reference, original := StoredObservation(log, c.provenance), StoredObservation(log, c.observationId);
       var post, review := StoredObservation(log, e.post.value.observationId), StoredObservation(log, e.review.value.observationId);
       && frozen.Some? && reference.Some? && original.Some? && post.Some? && review.Some? && review.value.end < dated
       && StrictlyOrdered(reference.value, c.references.frozenAt, original.value, c.formedAt, post.value, frozen.value, review.value)
  }

  /** The chronology behind a reviewed evaluation of `e`. */
  ghost predicate ReviewedChronology(w: World, log: Log, e: Evidence, o: Outcome) {
    && e.candidateId.Some? && StoredCandidate(log, e.candidateId.value).Some? && o.validatedAt.Some?
    && OrderedAround(w, log, e, StoredCandidate(log, e.candidateId.value).value, o.validatedAt.value)
  }

  lemma FollowUpEvent(w: World, log: Log, g: Grounded, s: Supplied, cutoff: int)
    requires FollowUp(w, log, g, s, cutoff).Ok?
    ensures var f := FollowUp(w, log, g, s, cutoff).value;
            && StoredObservation(log, s.observationId) == Some(f.observation)
            && f.event == PostEvent(w.hash(PostIdentity(f.observation.observationId, g.candidate.referenceHash)), s.observationId,
                                    s.referenceHash, f.observation.end, AFTER, true, s.judged)
  {
  }

  lemma DerivedUnreviewed(w: World, log: Log, id: string, c: Candidate, e: Evidence, cutoff: int)
    requires Derive(w, log, id, c, e, cutoff).Ok? && Derive(w, log, id, c, e, cutoff).value.classified.post.Some?
    ensures Unreviewed(w, log, e, c) == Some(Derive(w, log, id, c, e, cutoff).value.classified.(review := None))
  {
    hide FollowUp, ReviewOf, Ground;
    var g := Ground(w, log, id, c, cutoff).value;
    FollowUpEvent(w, log, g, e.post.value, cutoff);
  }

  /** A reviewed result, fresh or stored, comes from strictly ordered events. Its own validation clock is
      later than the review window: it is not the frozen one. */
  lemma ReviewedInOrder(w: World, log: Log, e: Evidence, cutoff: int)
    requires w.Valid() && Sound(w, log) && Evaluate(w, log, e, cutoff).1.Ok?
    requires Evaluate(w, log, e, cutoff).1.value.assessment.Some?
    requires IsReviewed(Evaluate(w, log, e, cutoff).1.value.assessment.value.outcome)
    ensures ReviewedChronology(w, log, e, Evaluate(w, log, e, cutoff).1.value.assessment.value.outcome)
  {
    var id := e.candidateId.value;
    var c := StoredCandidate(log, id).value;
    var d := Derive(w, log, id, c, e, cutoff).value;
    var at := SettledIsMade(w, log, id, c, e, cutoff);
    ReviewedHasReview(d.classified, at);
    DeriveFacts(w, log, id, c, e, cutoff);
    var base := d.classified.(review := None);
    ValidationAfterPost(w, log, base);
    StoredIsCandidate(w, log, id);
    FrozenBeforeFormed(w, log, id, c, cutoff);
    GroundStored(w, log, id, c, cutoff);
    DerivedUnreviewed(w, log, id, c, e, cutoff);
  }

  lemma GroundStored(w: World, log: Log, id: string, c: Candidate, cutoff: int)
    requires Ground(w, log, id, c, cutoff).Ok?
    ensures StoredObservation(log, c.observationId) == Some(Ground(w, log, id, c, cutoff).value.original)
    ensures StoredObservation(log, c.provenance) == Some(Ground(w, log, id, c, cutoff).value.reference)
  {
  }

  /** The same after any run from the empty table. */
  lemma RunsReviewInOrder(w: World, ops: seq<Op>, e: Evidence, cutoff: int)
    requires w.Valid() && Evaluate(w, Run(w, [], ops), e, cutoff).1.Ok?
    requires Evaluate(w, Run(w, [], ops), e, cutoff).1.value.assessment.Some?
    requires IsReviewed(Evaluate(w, Run(w, [], ops), e, cutoff).1.value.assessment.value.outcome)
    ensures ReviewedChronology(w, Run(w, [], ops), e, Evaluate(w, Run(w, [], ops), e, cutoff).1.value.assessment.value.outcome)
  {
    RunKeeps(w, [], ops);
    ReviewedInOrder(w, Run(w, [], ops), e, cutoff);
  }

  /** The judgement under which a post-C test validates. */
  predicate Supports(j: Judged) {
    j.zone in {HELD, BREACHED_AND_RECLAIMED} && j.structure == PRESERVED && j.expansion == CONFIRMED && j.highBreak != BREAK_OTHER
  }

  lemma ValidatedNeeds(c: Classified, at: int)
    requires Dated(c, at).research == VALIDATED
    ensures c.post.Some? && Supports(c.post.value.judged) && Dated(c, at).validatedAt == Some(at)
  {
  }

  /** The chronology and the judgement behind a validated evaluation of `e`: the reference window ends before
      its freeze clock, the candidate window before formation, and the post-C window opens after formation
      and ends before the reported validation clock. */
  ghost predicate ValidatedChronology(log: Log, e: Evidence, o: Outcome) {
    && e.candidateId.Some? && StoredCandidate(log, e.candidateId.value).Some? && e.post.Some? && o.validatedAt.Some?
    && Supports(e.post.value.judged)
    && var c := StoredCandidate(log, e.candidateId.value).value;
       var reference, original := StoredObservation(log, c.provenance), StoredObservation(log, c.observationId);
       var post := StoredObservation(log, e.post.value.observationId);
       && reference.Some? && original.Some? && post.Some?
       && reference.value.end < c.references.frozenAt <= c.formedAt && original.value.end < c.formedAt < post.value.start
       && post.value.start <= post.value.end < o.validatedAt.value
  }

  /** Every VALIDATED result, fresh or stored, rests on a supporting judgement of strictly ordered events. */
  lemma ValidatedInOrder(w: World, log: Log, e: Evidence, cutoff: int)
    requires w.Valid() && Sound(w, log) && Evaluate(w, log, e, cutoff).1.Ok?
    requires Evaluate(w, log, e, cutoff).1.value.assessment.Some?
    requires Evaluate(w, log, e, cutoff).1.value.assessment.value.outcome.research == VALIDATED
    ensures ValidatedChronology(log, e, Evaluate(w, log, e, cutoff).1.value.assessment.value.outcome)
  {
    var id := e.candidateId.value;
    var c := StoredCandidate(log, id).value;
    var d := Derive(w, log, id, c, e, cutoff).value;
    hide Derive, Ground, Settle, Sound, Classify;
    var at := SettledIsMade(w, log, id, c, e, cutoff);
    ValidatedNeeds(d.classified, at);
    DeriveFacts(w, log, id, c, e, cutoff);
    StoredIsCandidate(w, log, id);
    FrozenBeforeFormed(w, log, id, c, cutoff);
    GroundStored(w, log, id, c, cutoff);
  }

  /** The same after any run from the empty table. */
  lemma RunsValidateInOrder(w: World, ops: seq<Op>, e: Evidence, cutoff: int)
    requires w.Valid() && Evaluate(w, Run(w, [], ops), e, cutoff).1.Ok?
    requires Evaluate(w, Run(w, [], ops), e, cutoff).1.value.assessment.Some?
    requires Evaluate(w, Run(w, [], ops), e, cutoff).1.value.assessment.value.outcome.research == VALIDATED
    ensures ValidatedChronology(Run(w, [], ops), e, Evaluate(w, Run(w, [], ops), e, cutoff).1.value.assessment.value.outcome)
  {
    RunKeeps(w, [], ops);
    hide Evaluate, Run, Sound;
    ValidatedInOrder(w, Run(w, [], ops), e, cutoff);
  }

  /** Both guarantees about one evaluation. */
  lemma EvaluatedInOrder(w: World, log: Log, e: Evidence, cutoff: int)
    requires Sound(w, log)
    ensures var r := Evaluate(w, log, e, cutoff).1;
            w.Valid() && r.Ok? && r.value.assessment.Some? ==>
              var o := r.value.assessment.value.outcome;
              && (o.research == VALIDATED ==> ValidatedChronology(log, e, o))
              && (IsReviewed(o) ==> ReviewedChronology(w, log, e, o))
  {
    hide Evaluate, Sound, ValidatedChronology, ReviewedChronology, IsReviewed;
    var r := Evaluate(w, log, e, cutoff).1;
    if w.Valid() && r.Ok? && r.value.assessment.Some? {
      var o := r.value.assessment.value.outcome;
      if o.research == VALIDATED { ValidatedInOrder(w, log, e, cutoff); }
      if IsReviewed(o) { ReviewedInOrder(w, log, e, cutoff); }
    }
  }

  // ---------------------------------------------------------------- first assessment wins

  lemma StoredKept(log: Log, later: Log, id: string)
    requires log <= later
    ensures StoredObservation(log, id).Some? ==> StoredObservation(later, id) == StoredObservation(log, id)
    ensures StoredCandidate(log, id).Some? ==> StoredCandidate(later, id) == StoredCandidate(log, id)
    ensures StoredAssessment(log, id).Some? ==> StoredAssessment(later, id) == StoredAssessment(log, id)
  {
    if StoredObservation(log, id).Some? { EventKept(log, later, id, OBSERVATION); }
    if StoredCandidate(log, id).Some? { EventKept(log, later, id, CANDIDATE); }
    if StoredAssessment(log, id).Some? { EventKept(log, later, id, ASSESSMENT); }
  }

  /** The same world, perhaps with another archive. */
  ghost predicate SameButArchive(w: World, v: World) {
    v == w.(archived := v.archived)
  }

  lemma SameFollowUp(w: World, v: World, log: Log, later: Log, g: Grounded, g': Grounded, s: Supplied, c1: int, c2: int)
    requires SameButArchive(w, v) && log <= later && g.candidate == g'.candidate
    requires FollowUp(w, log, g, s, c1).Ok? && FollowUp(v, later, g', s, c2).Ok?
    ensures FollowUp(v, later, g', s, c2).value.event == FollowUp(w, log, g, s, c1).value.event
  {
    StoredKept(log, later, s.observationId);
  }

  lemma SameReview(w: World, v: World, log: Log, later: Log, c: Classified, o: Observation, o': Observation, r: ReviewClaim, c1: int, c2: int)
    requires SameButArchive(w, v) && log <= later && ReviewOf(w, log, c, o, r, c1).Ok? && ReviewOf(v, later, c, o', r, c2).Ok?
    ensures ReviewOf(v, later, c, o', r, c2) == ReviewOf(w, log, c, o, r, c1)
  {
    StoredKept(log, later, r.observationId);
  }

  /** The classified evidence does not depend on when it is derived. */
  lemma SameClassified(w: World, v: World, log: Log, later: Log, id: string, c: Candidate, e: Evidence, c1: int, c2: int)
    requires SameButArchive(w, v) && log <= later && Derive(w, log, id, c, e, c1).Ok? && Derive(v, later, id, c, e, c2).Ok?
    ensures Derive(v, later, id, c, e, c2).value.classified == Derive(w, log, id, c, e, c1).value.classified
  {
    var d, d' := Derive(w, log, id, c, e, c1).value, Derive(v, later, id, c, e, c2).value;
    if e.post.Some? {
      SameFollowUp(w, v, log, later, d.grounded, d'.grounded, e.post.value, c1, c2);
    }
    if d.classified.review.Some? {
      SameReview(w, v, log, later, d.classified.(review := None), d.followup.value.observation, d'.followup.value.observation,
                 e.review.value, c1, c2);
    }
  }

  lemma SettledIsStored(w: World, log: Log, d: Derived, cutoff: int)
    requires Settle(w, log, d, cutoff).1.Ok?
    ensures var (log', r) := Settle(w, log, d, cutoff);
            log <= log' && r.value.assessment.Some? && StoredAssessment(log', w.AssessmentKey(d.classified)) == r.value.assessment
  {
    var key := w.AssessmentKey(d.classified);
    if StoredAssessment(log, key).None? {
      RecordedReads(log, key, ASSESSMENT, AssessmentRow(AssessmentOf(d, cutoff)));
    }
  }

  /** Evaluating the same evidence again, from any later table, at any clock and with any archive, returns the assessment
      that was stored first and writes nothing, whenever its checks still pass. */
  lemma FirstAssessmentLasts(w: World, v: World, log: Log, e: Evidence, c1: int, later: Log, c2: int)
    requires SameButArchive(w, v) && e.candidateId.Some? && Evaluate(w, log, e, c1).1.Ok? && Evaluate(w, log, e, c1).0 <= later
    requires Evaluate(v, later, e, c2).1.Ok?
    ensures Evaluate(v, later, e, c2) == (later, Ok(Evaluate(w, log, e, c1).1.value.(evaluatedAt := c2)))
  {
    var id := e.candidateId.value;
    var c := StoredCandidate(log, id).value;
    var d := Derive(w, log, id, c, e, c1).value;
    SettledIsStored(w, log, d, c1);
    StoredKept(log, later, id);
    SameClassified(w, v, log, later, id, c, e, c1, c2);
    StoredKept(Evaluate(w, log, e, c1).0, later, w.AssessmentKey(d.classified));
  }

  ghost predicate Archived(w: World, log: Log, id: string, cutoff: int) {
    StoredObservation(log, id).Some? && w.archived(StoredObservation(log, id).value, cutoff)
  }

  /** What a later evaluation of `e` still has to find in the archive: the candidate's own window at its formation
      clock, the reference window at its freeze clock, and the post-C and review windows at the evaluation clock. */
  ghost predicate StillArchived(w: World, log: Log, e: Evidence, c: Candidate, cutoff: int) {
    && Archived(w, log, c.observationId, c.formedAt) && Archived(w, log, c.provenance, c.references.frozenAt)
    && (e.post.Some? ==> Archived(w, log, e.post.value.observationId, cutoff))
    && (e.review.Some? && e.review.value.state != NONE ==> Archived(w, log, e.review.value.observationId, cutoff))
  }

  /** An observation that was usable stays usable at a later clock exactly while the archive holds it. */
  lemma ObservationLater(w: World, v: World, log: Log, later: Log, id: string, c1: int, c2: int)
    requires SameButArchive(w, v) && log <= later && c1 <= c2 && ObservationAt(w, log, id, c1).Ok?
    ensures StoredObservation(later, id) == Some(ObservationAt(w, log, id, c1).value)
    ensures ObservationAt(v, later, id, c2).Ok? <==> v.archived(StoredObservation(later, id).value, c2)
    ensures ObservationAt(v, later, id, c2).Ok? ==> ObservationAt(v, later, id, c2) == ObservationAt(w, log, id, c1)
  {
    StoredKept(log, later, id);
  }

  /** Grounding is dated by the candidate, so only the archive behind its windows can change it. */
  lemma GroundLater(w: World, v: World, log: Log, later: Log, id: string, c: Candidate, c1: int, c2: int)
    requires SameButArchive(w, v) && log <= later && c1 <= c2 && Ground(w, log, id, c, c1).Ok?
    ensures Ground(v, later, id, c, c2).Ok?
            <==> Archived(v, later, c.observationId, c.formedAt) && Archived(v, later, c.provenance, c.references.frozenAt)
    ensures Ground(v, later, id, c, c2).Ok? ==> Ground(v, later, id, c, c2) == Ground(w, log, id, c, c1)
  {
    hide ObservationAt;
    ObservationLater(w, v, log, later, c.observationId, c.formedAt, c.formedAt);
    ObservationLater(w, v, log, later, c.provenance, c.references.frozenAt, c.references.frozenAt);
  }

  lemma {:induction false} VisibleAlike(rows: seq<O.RawBar>, a: int, b: int)
    requires forall i :: 0 <= i < |rows| ==> rows[i].available <= a && rows[i].available <= b
    ensures O.VisibleBars(rows, a) == O.VisibleBars(rows, b)
  {
    if rows != [] {
      VisibleAlike(rows[..|rows| - 1], a, b);
    }
  }

  lemma UsableBarsAvailable(w: World, log: Log, id: string, cutoff: int)
    requires ObservationAt(w, log, id, cutoff).Ok?
    ensures forall i :: 0 <= i < |ObservationAt(w, log, id, cutoff).value.bars| ==>
              ObservationAt(w, log, id, cutoff).value.bars[i].availableAt <= cutoff
  {
  }

  /** Bars that could be measured when all of them were available, after the candidate, measure at any later
      clock. */
  lemma MeasuredLater(w: World, bars: seq<Bar>, a: int, b: int, r: References)
    requires a <= b && (forall i :: 0 <= i < |bars| ==> bars[i].availableAt <= a)
    requires r.breakoutAt.Some? ==> r.breakoutAt.value <= a
    requires w.measure(bars, a, r).Measured?
    ensures w.measure(bars, b, r) == w.measure(bars, a, r).(at := b)
  {
    VisibleAlike(RawBars(bars), a, b);
    hide O.VisibleBars, O.StructureError, RawBars, ReachesFrom;
  }

  lemma FollowUpLater(w: World, v: World, log: Log, later: Log, g: Grounded, s: Supplied, c1: int, c2: int)
    requires SameButArchive(w, v) && log <= later && c1 <= c2 && FollowUp(w, log, g, s, c1).Ok? && g.candidate.timestamp <= c1
    ensures var o := StoredObservation(later, s.observationId);
            && o.Some?
            && (FollowUp(v, later, g, s, c2).Ok? <==> v.archived(o.value, c2))
            && (FollowUp(v, later, g, s, c2).Ok? ==>
                  && FollowUp(v, later, g, s, c2).value.event == FollowUp(w, log, g, s, c1).value.event
                  && FollowUp(v, later, g, s, c2).value.observation == FollowUp(w, log, g, s, c1).value.observation)
  {
    UsableBarsAvailable(w, log, s.observationId, c1);
    hide ObservationAt, World.measure;
    ObservationLater(w, v, log, later, s.observationId, c1, c2);
    var o := ObservationAt(w, log, s.observationId, c1).value;
    MeasuredLater(w, o.bars, c1, c2, g.candidate.references.(breakoutAt := Some(g.candidate.timestamp)));
  }

  lemma ReviewLater(w: World, v: World, log: Log, later: Log, c: Classified, o: Observation, r: ReviewClaim, c1: int, c2: int)
    requires SameButArchive(w, v) && log <= later && c1 <= c2 && ReviewOf(w, log, c, o, r, c1).Ok?
    ensures StoredObservation(later, r.observationId).Some?
    ensures ReviewOf(v, later, c, o, r, c2).Ok? <==> v.archived(StoredObservation(later, r.observationId).value, c2)
  {
    hide ObservationAt;
    StoredKept(log, later, w.AssessmentKey(c));
    ObservationLater(w, v, log, later, r.observationId, c1, c2);
  }

  lemma GroundDated(w: World, log: Log, id: string, c: Candidate, cutoff: int)
    requires Ground(w, log, id, c, cutoff).Ok?
    ensures c.timestamp <= cutoff
  {
  }

  lemma DeriveLater(w: World, v: World, log: Log, later: Log, id: string, c: Candidate, e: Evidence, c1: int, c2: int)
    requires SameButArchive(w, v) && log <= later && c1 <= c2 && Derive(w, log, id, c, e, c1).Ok?
    ensures Derive(v, later, id, c, e, c2).Ok? <==> StillArchived(v, later, e, c, c2)
  {
    GroundDated(w, log, id, c, c1);
    hide Ground, FollowUp, ReviewOf;
    GroundLater(w, v, log, later, id, c, c1, c2);
    var g := Ground(w, log, id, c, c1).value;
    if e.post.Some? {
      FollowUpLater(w, v, log, later, g, e.post.value, c1, c2);
      if e.review.Some? && e.review.value.state != NONE {
        var f := FollowUp(w, log, g, e.post.value, c1).value;
        ReviewLater(w, v, log, later, Classified(c, Some(f.event), None), f.observation, e.review.value, c1, c2);
      }
    }
  }

  /** Evaluating accepted evidence again, from any later table, at any later clock and with any archive, returns
      the assessment stored first exactly while the archive still holds its four windows; otherwise it is
      refused. Either way it writes nothing. */
  lemma Reevaluated(w: World, v: World, log: Log, e: Evidence, c1: int, later: Log, c2: int)
    requires SameButArchive(w, v) && e.candidateId.Some? && Evaluate(w, log, e, c1).1.Ok? && Evaluate(w, log, e, c1).0 <= later && c1 <= c2
    ensures StoredCandidate(later, e.candidateId.value).Some?
    ensures if StillArchived(v, later, e, StoredCandidate(later, e.candidateId.value).value, c2)
            then Evaluate(v, later, e, c2) == (later, Ok(Evaluate(w, log, e, c1).1.value.(evaluatedAt := c2)))
            else Evaluate(v, later, e, c2).0 == later && Evaluate(v, later, e, c2).1.Err?
  {
    var id := e.candidateId.value;
    var c := StoredCandidate(log, id).value;
    hide Derive, Settle, StillArchived;
    SettledIsStored(w, log, Derive(w, log, id, c, e, c1).value, c1);
    StoredKept(log, later, id);
    DeriveLater(w, v, log, later, id, c, e, c1, c2);
    if StillArchived(v, later, e, c, c2) {
      SettlesAgain(w, v, log, later, id, c, e, c1, c2);
      FirstAssessmentLasts(w, v, log, e, c1, later, c2);
    }
  }

  lemma SettlesAgain(w: World, v: World, log: Log, later: Log, id: string, c: Candidate, e: Evidence, c1: int, c2: int)
    requires SameButArchive(w, v) && Derive(w, log, id, c, e, c1).Ok? && Derive(v, later, id, c, e, c2).Ok?
    requires Settle(w, log, Derive(w, log, id, c, e, c1).value, c1).1.Ok?
    requires Settle(w, log, Derive(w, log, id, c, e, c1).value, c1).0 <= later
    ensures Settle(v, later, Derive(v, later, id, c, e, c2).value, c2).1.Ok?
  {
    var d := Derive(w, log, id, c, e, c1).value;
    hide Derive;
    SettledIsStored(w, log, d, c1);
    SameClassified(w, v, log, later, id, c, e, c1, c2);
    StoredKept(Settle(w, log, d, c1).0, later, w.AssessmentKey(d.classified));
  }

  // ---------------------------------------------------------------- reference lock

  /** One observation and one reference source ever yield one candidate. */
  lemma ReferencesNotRedrawn(w: World, log: Log, i: string, j: string)
    requires Sound(w, log) && StoredCandidate(log, i).Some? && StoredCandidate(log, j).Some?
    requires StoredCandidate(log, i).value.observationId == StoredCandidate(log, j).value.observationId
    requires StoredCandidate(log, i).value.provenance == StoredCandidate(log, j).value.provenance
    ensures i == j
  {
    StoredIsCandidate(w, log, i);
    StoredIsCandidate(w, log, j);
  }

  // ---------------------------------------------------------------- the high-break reading

  /** The same evidence with another recognised high-break reading. */
  function WithHighBreak(e: Evidence, high: HighBreak): Evidence
    requires e.post.Some?
  {
    e.(post := Some(e.post.value.(judged := e.post.value.judged.(highBreak := high))))
  }

  function Rejudged(c: Classified, high: HighBreak): Classified
    requires c.post.Some?
  {
    c.(post := Some(c.post.value.(judged := c.post.value.judged.(highBreak := high))))
  }

  lemma ClassifiedAlike(c: Classified, high: HighBreak)
    requires c.post.Some? && c.post.value.judged.highBreak != BREAK_OTHER && high != BREAK_OTHER
    ensures Classify(Rejudged(c, high)) == Classify(c)
  {
  }

  lemma FollowUpRejudged(w: World, log: Log, g: Grounded, s: Supplied, high: HighBreak, cutoff: int)
    requires FollowUp(w, log, g, s, cutoff).Ok?
    ensures var s' := s.(judged := s.judged.(highBreak := high));
            var f := FollowUp(w, log, g, s, cutoff).value;
            FollowUp(w, log, g, s', cutoff) == Ok(f.(event := f.event.(judged := s'.judged)))
  {
    hide ObservationAt;
  }

  lemma ReviewRejudged(w: World, log: Log, c: Classified, c': Classified, o: Observation, r: ReviewClaim, cutoff: int)
    requires ReviewOf(w, log, c, o, r, cutoff).Ok? && ReviewOf(w, log, c', o, r, cutoff).Ok?
    ensures ReviewOf(w, log, c', o, r, cutoff) == ReviewOf(w, log, c, o, r, cutoff)
  {
    hide ObservationAt;
  }

  lemma DeriveRejudged(w: World, log: Log, id: string, c: Candidate, e: Evidence, high: HighBreak, cutoff: int)
    requires e.post.Some? && Derive(w, log, id, c, e, cutoff).Ok? && Derive(w, log, id, c, WithHighBreak(e, high), cutoff).Ok?
    ensures var d := Derive(w, log, id, c, e, cutoff).value;
            && d.classified.post.Some? && d.classified.post.value.judged == e.post.value.judged
            && Derive(w, log, id, c, WithHighBreak(e, high), cutoff).value.classified == Rejudged(d.classified, high)
  {
    hide Ground, FollowUp, ReviewOf;
    var g := Ground(w, log, id, c, cutoff).value;
    var f := FollowUp(w, log, g, e.post.value, cutoff).value;
    FollowUpRejudged(w, log, g, e.post.value, high, cutoff);
    PostJudged(w, log, g, e.post.value, cutoff);
    if e.review.Some? && e.review.value.state != NONE {
      var base := Classified(c, Some(f.event), None);
      ReviewRejudged(w, log, base, Rejudged(base, high), f.observation, e.review.value, cutoff);
    }
  }

  lemma PostJudged(w: World, log: Log, g: Grounded, s: Supplied, cutoff: int)
    requires FollowUp(w, log, g, s, cutoff).Ok?
    ensures FollowUp(w, log, g, s, cutoff).value.event.judged == s.judged
  {
  }

  /** The two outcomes differ at most in their validation clock. */
  ghost predicate SameVerdict(a: Outcome, b: Outcome) {
    && a.research == b.research && a.candidateId == b.candidateId && a.validationId == b.validationId && a.status == b.status
    && (a.validatedAt.Some? <==> b.validatedAt.Some?)
  }

  /** A recognised high-break reading strengthens a result but never decides it: evaluations of evidence that
      differ only in that reading report the same verdict. */
  lemma HighBreakNeverGates(w: World, log: Log, e: Evidence, high: HighBreak, cutoff: int)
    requires w.Valid() && Sound(w, log) && e.candidateId.Some? && e.post.Some?
    requires e.post.value.judged.highBreak != BREAK_OTHER && high != BREAK_OTHER
    requires Evaluate(w, log, e, cutoff).1.Ok? && Evaluate(w, log, WithHighBreak(e, high), cutoff).1.Ok?
    ensures var r, r' := Evaluate(w, log, e, cutoff).1.value, Evaluate(w, log, WithHighBreak(e, high), cutoff).1.value;
            r.assessment.Some? && r'.assessment.Some? && SameVerdict(r.assessment.value.outcome, r'.assessment.value.outcome)
  {
    var id, e' := e.candidateId.value, WithHighBreak(e, high);
    var c := StoredCandidate(log, id).value;
    hide Derive, Settle, Sound, Classify;
    DeriveRejudged(w, log, id, c, e, high, cutoff);
    var at := SettledIsMade(w, log, id, c, e, cutoff);
    var at' := SettledIsMade(w, log, id, c, e', cutoff);
    ClassifiedAlike(Derive(w, log, id, c, e, cutoff).value.classified, high);
  }
}
