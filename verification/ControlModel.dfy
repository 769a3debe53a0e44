/** Control-transfer research: an analyst freezes a candidate, a later independent observation tests it,
    and a further one may review the validation. Everything is derived from observations in the
    append-only store. Clocks are milliseconds. */
module ControlModel {
  import opened Common
  import opened ResearchStore
  import O = OverbalanceModel

  datatype Error =
    | ResearchClockInvalid | ObservationMissing | ObservationIdentityInvalid | ObservationNotVisible | ObservationSourceInvalid
    | ObservationBarsMissing | BarClockMismatch | WindowMismatch | ArchiveMismatch | ProvenanceRequired
    | MeasurementBlocked(reason: Unmeasured) | ReferenceObservationMissing | FrozenCandidateConflict | AuthorityInvalid
    | FrozenCandidateNotFound | CandidateNotYetVisible | CandidateIdentityInvalid | MeasurementChanged
    | PostReferenceMismatch | PostNotIndependent | ReviewWithoutValidation | ReviewWithoutFrozenValidation
    | ReviewNotIndependent | Store(why: StoreError)

  // ---------------------------------------------------------------- observations

  datatype Bar = Bar(observedAt: int, availableAt: int, opening: real, high: real, low: real, close: real)

  /** `sourceOk` stands for the fixed quality, authority, source and product values. */
  datatype Observation = Observation(
    observationId: string, sourceId: string, product: string, start: int, end: int, definition: string,
    available: int, first: int, recorded: int, sourceOk: bool, bars: seq<Bar>)

  /** `prices` is the tuple of control levels. */
  datatype References = References(prices: nat, frozenAt: int, provenance: string, breakoutAt: Option<int>)

  /** Why `build_structure_measurements` is blocked. */
  datatype Unmeasured =
    | ReferencesNotVisible | ReferencesInvalid(code: nat) | StructureInvalid(why: O.Error) | NoVisibleBars
    | FrozenAfterCandidate | CandidateWindowEmpty

  /** The measured coordinates, with the clock and the references they were measured at. */
  datatype Measurement = Unmeasurable(reason: Unmeasured) | Measured(at: int, references: nat, facts: nat)

  // ---------------------------------------------------------------- protocol records

  datatype Candidate = Candidate(
    id: string, observationId: string, formedAt: int, timestamp: int, references: References, referenceHash: string,
    measurements: Measurement, classification: string, provenance: string)

  datatype Zone = HELD | BREACHED_AND_RECLAIMED | LOST_NOT_RECLAIMED | ZONE_UNRESOLVED | ZONE_OTHER
  datatype Structure = PRESERVED | INVALIDATED | STRUCTURE_UNRESOLVED | STRUCTURE_OTHER
  datatype Expansion = CONFIRMED | NOT_CONFIRMED | EXPANSION_UNRESOLVED | EXPANSION_OTHER
  datatype HighBreak = BREAK_CONFIRMED | BREAK_NOT_CONFIRMED | BREAK_UNAVAILABLE | BREAK_OTHER
  datatype ReviewState = NONE | UNDER_REVIEW | REVERSAL_CONFIRMED | REVIEW_OTHER

  datatype Judged = Judged(zone: Zone, structure: Structure, expansion: Expansion, highBreak: HighBreak)

  datatype Order = AFTER | ORDER_UNRESOLVED | ORDER_OTHER
  datatype PostEvent = PostEvent(id: string, observationId: string, referenceHash: string, timestamp: int, order: Order,
                                 distinct: bool, judged: Judged)
  datatype ReviewEvent = ReviewEvent(state: ReviewState, id: string, timestamp: int, order: Order, distinct: bool)

  /** The evidence the classifier sees. */
  datatype Classified = Classified(candidate: Candidate, post: Option<PostEvent>, review: Option<ReviewEvent>)

  datatype Status = ACTIVE | REVIEWING | REVERSED
  datatype ResearchState = PENDING | FAILED | VALIDATED | CLASSIFICATION_BLOCKED
  datatype Outcome = Outcome(research: ResearchState, candidateId: Option<string>, validationId: Option<string>,
                             validatedAt: Option<int>, status: Option<Status>)

  /** What an evaluation stores, without its evaluation clock. */
  datatype Assessment = Assessment(outcome: Outcome, formedAt: int, original: Observation, followup: Option<Observation>,
                                   followupMeasured: Option<Measurement>, referenceHash: string)

  datatype Kind = OBSERVATION | REFERENCE_LOCK | CANDIDATE | ASSESSMENT | FOREIGN
  datatype Payload = ObservationRow(o: Observation) | LockRow(references: nat) | CandidateRow(c: Candidate)
                   | AssessmentRow(a: Assessment) | ForeignRow(text: string)
  type Log = seq<Row<Kind, Payload>>

  // ---------------------------------------------------------------- identities

  /** What `research_identity` digests. */
  datatype Identity =
    | ObservationIdentity(sourceId: string, product: string, start: int, end: int, definition: string)
    | ReferencesIdentity(references: Option<nat>)
    | LockIdentity(observationId: string, provenance: string)
    | CandidateIdentity(observationId: string, referenceHash: string)
    | PostIdentity(observationId: string, referenceHash: string)
    | ClassifiedIdentity(classified: Classified)

  function RawBars(bars: seq<Bar>): seq<O.RawBar> {
    seq(|bars|, i requires 0 <= i < |bars| =>
      O.RawBar(bars[i].availableAt, O.Unspecified, bars[i].observedAt, Some(bars[i].observedAt),
               bars[i].opening, bars[i].high, bars[i].low, bars[i].close))
  }

  /** `_visible_structure_bars`. */
  function StructureBars(bars: seq<Bar>, at: int): Result<seq<O.RawBar>, O.Error> {
    var visible :- O.VisibleBars(RawBars(bars), at);
    var e := O.StructureError(visible);
    if e.Some? then Err(e.value) else Ok(visible)
  }

  /** Some bar was observed at or after `start`. */
  predicate ReachesFrom(rows: seq<O.RawBar>, start: int) {
    exists i :: 0 <= i < |rows| && O.ObservedAt(rows[i]) >= start
  }

  /** The digest, the archive reader, the checks and normal form of the reference levels, and the coordinates
      read off the visible bars. */
  datatype World = World(hash: Identity -> string, archived: (Observation, int) -> bool,
                         levels: References -> Result<nat, nat>, facts: (seq<O.RawBar>, References, bool) -> nat)
  {
    /** Digests separate what they digest. */
    ghost predicate Valid() {
      forall x, y :: hash(x) == hash(y) ==> x == y
    }

    /** `build_structure_measurements` as of `at`. */
    function measure(bars: seq<Bar>, at: int, r: References): Measurement {
      if r.frozenAt > at then Unmeasurable(ReferencesNotVisible)
      else
        match levels(r.(breakoutAt := None))
        case Err(code) => Unmeasurable(ReferencesInvalid(code))
        case Ok(references) =>
          match StructureBars(bars, at)
          case Err(e) => Unmeasurable(StructureInvalid(e))
          case Ok(visible) =>
            if visible == [] then Unmeasurable(NoVisibleBars)
            else if r.breakoutAt.Some? && r.frozenAt > r.breakoutAt.value then Unmeasurable(FrozenAfterCandidate)
            else
              var candidateVisible := r.breakoutAt.Some? && r.breakoutAt.value <= at;
              if candidateVisible && !ReachesFrom(visible, r.breakoutAt.value) then Unmeasurable(CandidateWindowEmpty)
              else Measured(at, references, facts(visible, r, candidateVisible))
    }

    function AssessmentKey(c: Classified): string { "assessment:" + hash(ClassifiedIdentity(c)) }
    function LockKey(observationId: string, provenance: string): string { "reference:" + hash(LockIdentity(observationId, provenance)) }
    function CandidateKey(observationId: string, referenceHash: string): string { hash(CandidateIdentity(observationId, referenceHash)) }

    function ReferenceHash(m: Measurement): string {
      hash(ReferencesIdentity(if m.Measured? then Some(m.references) else None))
    }
  }

  // ---------------------------------------------------------------- _observation

  function StoredObservation(log: Log, id: string): Option<Observation> {
    var row := Event(log, id, OBSERVATION);
    if row.Some? && row.value.ObservationRow? then Some(row.value.o) else None
  }

  predicate BarsWithin(o: Observation) {
    forall i :: 0 <= i < |o.bars| ==> o.start <= o.bars[i].observedAt <= o.end && o.bars[i].availableAt == o.first
  }

  predicate ClocksPositive(o: Observation) {
    o.start > 0 && o.end > 0 && o.available > 0 && o.first > 0 && o.recorded > 0
  }

  function ObservationError(w: World, id: string, o: Observation, cutoff: int): Option<Error> {
    if w.hash(ObservationIdentity(o.sourceId, o.product, o.start, o.end, o.definition)) != id then Some(ObservationIdentityInvalid)
    else if !ClocksPositive(o) then Some(ResearchClockInvalid)
    else if !(o.start <= o.end < o.available <= o.first <= o.recorded <= cutoff) then Some(ObservationNotVisible)
    else if !o.sourceOk then Some(ObservationSourceInvalid)
    else if o.bars == [] then Some(ObservationBarsMissing)
    else if !BarsWithin(o) then Some(BarClockMismatch)
    else if o.bars[|o.bars| - 1].observedAt != o.end then Some(WindowMismatch)
    else if !w.archived(o, cutoff) then Some(ArchiveMismatch)
    else None
  }

  /** `_observation`. */
  function ObservationAt(w: World, log: Log, id: string, cutoff: int): (r: Result<Observation, Error>)
    ensures r.Ok? ==> StoredObservation(log, id) == Some(r.value) && r.value.start <= r.value.end < cutoff
  {
    var o := StoredObservation(log, id);
    if o.None? then Err(ObservationMissing)
    else
      var e := ObservationError(w, id, o.value, cutoff);
      if e.Some? then Err(e.value) else Ok(o.value)
  }

  // ---------------------------------------------------------------- freezing a candidate

  datatype Proposal = Proposal(observationId: string, formedAt: int, references: References, classification: string)

  /** The candidate a proposal describes, before the store is written. */
  function Proposed(w: World, log: Log, p: Proposal): Result<Candidate, Error> {
    if p.formedAt <= 0 then Err(ResearchClockInvalid)
    else if Blank(p.classification) then Err(ProvenanceRequired)
    else
      var o :- ObservationAt(w, log, p.observationId, p.formedAt);
      var m := w.measure(o.bars, p.formedAt, p.references);
      if m.Unmeasurable? then Err(MeasurementBlocked(m.reason))
      else if StoredObservation(log, p.references.provenance).None? then Err(ReferenceObservationMissing)
      else
        var _ :- ObservationAt(w, log, p.references.provenance, p.references.frozenAt);
        var hash := w.ReferenceHash(m);
        Ok(Candidate(w.CandidateKey(p.observationId, hash), p.observationId, p.formedAt, p.formedAt, p.references, hash, m,
                     p.classification, p.references.provenance))
  }

  function StoredCandidate(log: Log, id: string): Option<Candidate> {
    var row := Event(log, id, CANDIDATE);
    if row.Some? && row.value.CandidateRow? then Some(row.value.c) else None
  }

  /** The candidate write that follows the reference lock. */
  function KeepCandidate(log: Log, c: Candidate): (Log, Result<Candidate, Error>) {
    match StoredCandidate(log, c.id)
    case Some(prior) =>
      (log, if prior.references != c.references || prior.classification != c.classification then Err(FrozenCandidateConflict) else Ok(prior))
    case None =>
      match Recorded(log, c.id, CANDIDATE, CandidateRow(c))
      case Ok(log') => (log', Ok(c))
      case Err(e) => (log, Err(Store(e)))
  }

  /** `freeze_control_transfer_candidate`; a lock that was written stays written. */
  function FreezeCandidate(w: World, log: Log, p: Proposal): (Log, Result<Candidate, Error>) {
    match Proposed(w, log, p)
    case Err(e) => (log, Err(e))
    case Ok(c) =>
      var lock := LockRow(if c.measurements.Measured? then c.measurements.references else 0);
      match Recorded(log, w.LockKey(c.observationId, c.provenance), REFERENCE_LOCK, lock)
      case Ok(locked) => KeepCandidate(locked, c)
      case Err(e) => (log, Err(Store(e)))
  }

  // ---------------------------------------------------------------- the classifier

  const BLOCKED_OUTCOME := Outcome(CLASSIFICATION_BLOCKED, None, None, None, None)

  function Pending(c: Classified, validationId: Option<string>): Outcome {
    Outcome(PENDING, Some(c.candidate.id), validationId, None, None)
  }

  /** The status a review leaves, or `None` when the review is malformed. */
  function ReviewStatus(c: Classified, post: PostEvent): Option<Status> {
    if c.review.None? || c.review.value.state == NONE then Some(ACTIVE)
    else
      var r := c.review.value;
      if r.state == REVIEW_OTHER || Blank(r.id) || r.order != AFTER || !r.distinct || r.id == c.candidate.id || r.id == post.id then None
      else Some(if r.state == UNDER_REVIEW then REVIEWING else REVERSED)
  }

  /** `_evaluate_classified_control_transfer_validation` on evidence whose authority and shape are given. */
  function Classify(c: Classified): Outcome {
    if Blank(c.candidate.id) || Blank(c.candidate.referenceHash) || Blank(c.candidate.provenance) then BLOCKED_OUTCOME
    else
      match c.post
      case None => Pending(c, None)
      case Some(post) =>
        var j := post.judged;
        if Blank(post.id) || post.order == ORDER_OTHER || (post.distinct && post.id == c.candidate.id) || j.highBreak == BREAK_OTHER
        then BLOCKED_OUTCOME
        else if post.order == ORDER_UNRESOLVED || !post.distinct then Pending(c, Some(post.id))
        else if j.zone == ZONE_OTHER || j.structure == STRUCTURE_OTHER || j.expansion == EXPANSION_OTHER then BLOCKED_OUTCOME
        else if j.zone == LOST_NOT_RECLAIMED || j.structure == INVALIDATED
        then Outcome(FAILED, Some(c.candidate.id), Some(post.id), None, None)
        else if j.zone == ZONE_UNRESOLVED || j.structure == STRUCTURE_UNRESOLVED || j.expansion != CONFIRMED
        then Pending(c, Some(post.id))
        else
          match ReviewStatus(c, post)
          case None => BLOCKED_OUTCOME
          case Some(status) => Outcome(VALIDATED, Some(c.candidate.id), Some(post.id), Some(post.timestamp), Some(status))
  }

  // ---------------------------------------------------------------- evaluating observed evidence

  datatype Supplied = Supplied(observationId: string, referenceHash: string, judged: Judged)
  datatype ReviewClaim = ReviewClaim(state: ReviewState, observationId: string, referenceHash: string)
  datatype Evidence = Evidence(authorityOk: bool, candidateId: Option<string>, observationId: string,
                               post: Option<Supplied>, review: Option<ReviewClaim>)

  /** A frozen candidate with the observations that ground it. */
  datatype Grounded = Grounded(candidate: Candidate, original: Observation, reference: Observation)

  predicate CandidateConsistent(w: World, id: string, c: Candidate) {
    w.CandidateKey(c.observationId, c.referenceHash) == id && c.id == id && c.timestamp == c.formedAt
  }

  /** The candidate named by the evidence, re-derived from the store. */
  function Ground(w: World, log: Log, id: string, c: Candidate, cutoff: int): (r: Result<Grounded, Error>)
    ensures r.Ok? ==> r.value.candidate == c && c.id == id && c.formedAt <= cutoff
    ensures r.Ok? ==> r.value.original.start <= r.value.original.end < c.formedAt
    ensures r.Ok? ==> r.value.reference.start <= r.value.reference.end < c.references.frozenAt
  {
    if c.formedAt <= 0 then Err(ResearchClockInvalid)
    else if c.formedAt > cutoff then Err(CandidateNotYetVisible)
    else
      var original :- ObservationAt(w, log, c.observationId, c.formedAt);
      if !CandidateConsistent(w, id, c) then Err(CandidateIdentityInvalid)
      else
        var measured := w.measure(original.bars, c.timestamp, c.references);
        if measured != c.measurements || w.ReferenceHash(measured) != c.referenceHash then Err(MeasurementChanged)
        else
          var reference :- ObservationAt(w, log, c.provenance, c.references.frozenAt);
          Ok(Grounded(c, original, reference))
  }

  /** The post-C event with the observation and measurement behind it. */
  datatype Followup = Followup(event: PostEvent, observation: Observation, measured: Measurement)

  function FollowUp(w: World, log: Log, g: Grounded, s: Supplied, cutoff: int): Result<Followup, Error> {
    var later :- ObservationAt(w, log, s.observationId, cutoff);
    if s.referenceHash != g.candidate.referenceHash then Err(PostReferenceMismatch)
    else if later.product != g.original.product || later.start <= g.original.end || later.start <= g.candidate.formedAt
    then Err(PostNotIndependent)
    else
      var m := w.measure(later.bars, cutoff, g.candidate.references.(breakoutAt := Some(g.candidate.timestamp)));
      if m.Unmeasurable? then Err(MeasurementBlocked(m.reason))
      else
        var id := w.hash(PostIdentity(later.observationId, g.candidate.referenceHash));
        Ok(Followup(PostEvent(id, s.observationId, s.referenceHash, later.end, AFTER, true, s.judged), later, m))
  }

  function FollowUpIfAny(w: World, log: Log, g: Grounded, s: Option<Supplied>, cutoff: int): Result<Option<Followup>, Error> {
    if s.None? then Ok(None)
    else
      var f :- FollowUp(w, log, g, s.value, cutoff);
      Ok(Some(f))
  }

  function StoredAssessment(log: Log, key: string): Option<Assessment> {
    var row := Event(log, key, ASSESSMENT);
    if row.Some? && row.value.AssessmentRow? then Some(row.value.a) else None
  }

  /** The frozen validation clock a review refers to. */
  function FrozenValidation(w: World, log: Log, c: Classified): Option<int> {
    match StoredAssessment(log, w.AssessmentKey(c))
    case None => None
    case Some(a) => if a.outcome.research == VALIDATED then a.outcome.validatedAt else None
  }

  function ReviewOf(w: World, log: Log, c: Classified, later: Observation, r: ReviewClaim, cutoff: int): Result<ReviewEvent, Error> {
    match FrozenValidation(w, log, c)
    case None => Err(ReviewWithoutFrozenValidation)
    case Some(validatedAt) =>
      var o :- ObservationAt(w, log, r.observationId, cutoff);
      if r.referenceHash != c.candidate.referenceHash || o.start <= later.end || o.start <= validatedAt then Err(ReviewNotIndependent)
      else Ok(ReviewEvent(r.state, o.observationId, o.end, AFTER, true))
  }

  function ReviewIfAny(w: World, log: Log, c: Classified, f: Option<Followup>, r: Option<ReviewClaim>, cutoff: int): Result<Option<ReviewEvent>, Error> {
    if r.None? || r.value.state == NONE then Ok(None)
    else if f.None? then Err(ReviewWithoutValidation)
    else
      var event :- ReviewOf(w, log, c, f.value.observation, r.value, cutoff);
      Ok(Some(event))
  }

  /** Everything an evaluation derives before it consults the stored assessments. */
  datatype Derived = Derived(grounded: Grounded, followup: Option<Followup>, classified: Classified)

  function Derive(w: World, log: Log, id: string, c: Candidate, e: Evidence, cutoff: int): Result<Derived, Error> {
    var g :- Ground(w, log, id, c, cutoff);
    var f :- FollowUpIfAny(w, log, g, e.post, cutoff);
    var base := Classified(c, if f.Some? then Some(f.value.event) else None, None);
    var review :- ReviewIfAny(w, log, base, f, e.review, cutoff);
    Ok(Derived(g, f, base.(review := review)))
  }

  /** The classifier's outcome, dated by the evaluation when it validates. */
  function Dated(c: Classified, cutoff: int): Outcome {
    var o := Classify(c);
    if o.validatedAt.Some? then o.(validatedAt := Some(cutoff)) else o
  }

  function AssessmentOf(d: Derived, cutoff: int): Assessment {
    Assessment(Dated(d.classified, cutoff), d.grounded.candidate.formedAt, d.grounded.original,
               if d.followup.Some? then Some(d.followup.value.observation) else None,
               if d.followup.Some? then Some(d.followup.value.measured) else None, d.grounded.candidate.referenceHash)
  }

  /** `None` is the inconclusive result for evidence that names no candidate. */
  datatype Evaluated = Evaluated(assessment: Option<Assessment>, evaluatedAt: int)

  /** Store the first assessment of this classified evidence, or return the one already stored. */
  function Settle(w: World, log: Log, d: Derived, cutoff: int): (Log, Result<Evaluated, Error>) {
    var key := w.AssessmentKey(d.classified);
    match StoredAssessment(log, key)
    case Some(prior) => (log, Ok(Evaluated(Some(prior), cutoff)))
    case None =>
      match Recorded(log, key, ASSESSMENT, AssessmentRow(AssessmentOf(d, cutoff)))
      case Ok(log') => (log', Ok(Evaluated(Some(AssessmentOf(d, cutoff)), cutoff)))
      case Err(e) => (log, Err(Store(e)))
  }

  /** `evaluate_control_transfer_validation` on observed evidence; `Err` is the BLOCKED result. */
  function Evaluate(w: World, log: Log, e: Evidence, cutoff: int): (Log, Result<Evaluated, Error>) {
    if cutoff <= 0 then (log, Err(ResearchClockInvalid))
    else if !e.authorityOk then (log, Err(AuthorityInvalid))
    else
      var candidate := if e.candidateId.Some? then StoredCandidate(log, e.candidateId.value) else None;
      if candidate.None? then
        if e.candidateId.Some? then (log, Err(FrozenCandidateNotFound))
        else
          match ObservationAt(w, log, e.observationId, cutoff)
          case Ok(_) => (log, Ok(Evaluated(None, cutoff)))
          case Err(why) => (log, Err(why))
      else
        match Derive(w, log, e.candidateId.value, candidate.value, e, cutoff)
        case Ok(d) => Settle(w, log, d, cutoff)
        case Err(why) => (log, Err(why))
  }

  // ---------------------------------------------------------------- runs

  datatype Op = OpObserve(id: string, o: Observation) | OpFreeze(p: Proposal) | OpEvaluate(e: Evidence, cutoff: int)
              | OpForeign(id: string, text: string)

  function Step(w: World, log: Log, op: Op): Log {
    match op
    case OpObserve(id, o) => (match Recorded(log, id, OBSERVATION, ObservationRow(o)) case Ok(log') => log' case Err(_) => log)
    case OpFreeze(p) => FreezeCandidate(w, log, p).0
    case OpEvaluate(e, cutoff) => Evaluate(w, log, e, cutoff).0
    case OpForeign(id, text) => (match Recorded(log, id, FOREIGN, ForeignRow(text)) case Ok(log') => log' case Err(_) => log)
  }

  function Run(w: World, log: Log, ops: seq<Op>): Log {
    if ops == [] then log else Step(w, Run(w, log, ops[..|ops| - 1]), ops[|ops| - 1])
  }
}
