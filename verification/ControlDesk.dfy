/** The control-transfer operations as they read from and append to the event store, keeping a justified
    table justified. */
module ControlDesk {
  import opened Common
  import opened ResearchStore
  import opened ControlModel
  import opened ControlTransfer

  type Store = ObservationStore<Kind, Payload>

  /** A justified table stays justified, and its rows stay where they are. */
  ghost predicate Kept(w: World, before: Log, after: Log) {
    Sound(w, before) ==> Sound(w, after) && before <= after
  }

  /** The bar loop of `_observation`. */
  method CheckBars(o: Observation) returns (ok: bool)
    ensures ok == BarsWithin(o)
  {
    for i := 0 to |o.bars|
      invariant forall j :: 0 <= j < i ==> o.start <= o.bars[j].observedAt <= o.end && o.bars[j].availableAt == o.first
    {
      if !(o.start <= o.bars[i].observedAt <= o.end) || o.bars[i].availableAt != o.first {
        return false;
      }
    }
    ok := true;
  }

  method CheckObservation(w: World, id: string, o: Observation, cutoff: int) returns (r: Option<Error>)
    ensures r == ObservationError(w, id, o, cutoff)
  {
    if w.hash(ObservationIdentity(o.sourceId, o.product, o.start, o.end, o.definition)) != id {
      return Some(ObservationIdentityInvalid);
    }
    if !ClocksPositive(o) {
      return Some(ResearchClockInvalid);
    }
    if !(o.start <= o.end < o.available <= o.first <= o.recorded <= cutoff) {
      return Some(ObservationNotVisible);
    }
    if !o.sourceOk {
      return Some(ObservationSourceInvalid);
    }
    if o.bars == [] {
      return Some(ObservationBarsMissing);
    }
    var within := CheckBars(o);
    if !within {
      return Some(BarClockMismatch);
    }
    if o.bars[|o.bars| - 1].observedAt != o.end {
      return Some(WindowMismatch);
    }
    r := if w.archived(o, cutoff) then None else Some(ArchiveMismatch);
  }

  /** `_observation`. */
  method ReadObservation(store: Store, w: World, id: string, cutoff: int) returns (r: Result<Observation, Error>)
    requires store.Valid()
    ensures r == ObservationAt(w, store.log, id, cutoff)
  {
    var row := store.ResearchEvent(id, OBSERVATION);
    if row.None? || !row.value.ObservationRow? {
      return Err(ObservationMissing);
    }
    var e := CheckObservation(w, id, row.value.o, cutoff);
    r := if e.Some? then Err(e.value) else Ok(row.value.o);
  }

  method ReadCandidate(store: Store, id: string) returns (r: Option<Candidate>)
    requires store.Valid()
    ensures r == StoredCandidate(store.log, id)
  {
    var row := store.ResearchEvent(id, CANDIDATE);
    r := if row.Some? && row.value.CandidateRow? then Some(row.value.c) else None;
  }

  method ReadAssessment(store: Store, key: string) returns (r: Option<Assessment>)
    requires store.Valid()
    ensures r == StoredAssessment(store.log, key)
  {
    var row := store.ResearchEvent(key, ASSESSMENT);
    r := if row.Some? && row.value.AssessmentRow? then Some(row.value.a) else None;
  }

  /** The reading half of `freeze_control_transfer_candidate`. */
  method ProposeCandidate(store: Store, w: World, p: Proposal) returns (r: Result<Candidate, Error>)
    requires store.Valid()
    ensures r == Proposed(w, store.log, p)
  {
    if p.formedAt <= 0 {
      return Err(ResearchClockInvalid);
    }
    if Blank(p.classification) {
      return Err(ProvenanceRequired);
    }
    var o := ReadObservation(store, w, p.observationId, p.formedAt);
    if o.Err? {
      return Err(o.error);
    }
    var m := w.measure(o.value.bars, p.formedAt, p.references);
    if m.Unmeasurable? {
      return Err(MeasurementBlocked(m.reason));
    }
    var source := store.ResearchEvent(p.references.provenance, OBSERVATION);
    if source.None? || !source.value.ObservationRow? {
      return Err(ReferenceObservationMissing);
    }
    var reference := ReadObservation(store, w, p.references.provenance, p.references.frozenAt);
    if reference.Err? {
      return Err(reference.error);
    }
    var hash := w.ReferenceHash(m);
    r := Ok(Candidate(w.CandidateKey(p.observationId, hash), p.observationId, p.formedAt, p.formedAt, p.references, hash, m,
                      p.classification, p.references.provenance));
  }

  /** `freeze_control_transfer_candidate`: lock the references, then keep the first candidate. */
  method FreezeCandidateIn(store: Store, w: World, p: Proposal) returns (r: Result<Candidate, Error>)
    requires store.Valid()
    modifies store
    ensures store.Valid()
    ensures (store.log, r) == FreezeCandidate(w, old(store.log), p)
    ensures Kept(w, old(store.log), store.log)
    ensures Sound(w, old(store.log)) && r.Ok? ==>
              StoredCandidate(store.log, r.value.id) == Some(r.value) && CandidateSound(w, store.log, r.value.id, r.value)
  {
    if Sound(w, store.log) {
      FreezeKeeps(w, store.log, p);
      if FreezeCandidate(w, store.log, p).1.Ok? {
        FrozenIsSound(w, store.log, p);
      }
    }
    var proposed := ProposeCandidate(store, w, p);
    if proposed.Err? {
      return Err(proposed.error);
    }
    var c := proposed.value;
    var references := if c.measurements.Measured? then c.measurements.references else 0;
    var locked := store.RecordResearchEvent(w.LockKey(c.observationId, c.provenance), REFERENCE_LOCK, LockRow(references));
    if locked.Err? {
      return Err(Store(locked.error));
    }
    r := KeepCandidateIn(store, c);
  }

  method KeepCandidateIn(store: Store, c: Candidate) returns (r: Result<Candidate, Error>)
    requires store.Valid()
    modifies store
    ensures store.Valid()
    ensures (store.log, r) == KeepCandidate(old(store.log), c)
  {
    var prior := ReadCandidate(store, c.id);
    if prior.Some? {
      if prior.value.references != c.references || prior.value.classification != c.classification {
        return Err(FrozenCandidateConflict);
      }
      return Ok(prior.value);
    }
    var recorded := store.RecordResearchEvent(c.id, CANDIDATE, CandidateRow(c));
    r := if recorded.Err? then Err(Store(recorded.error)) else Ok(c);
  }

  /** Re-derive the frozen candidate from the store. */
  method GroundIn(store: Store, w: World, id: string, c: Candidate, cutoff: int) returns (r: Result<Grounded, Error>)
    requires store.Valid()
    ensures r == Ground(w, store.log, id, c, cutoff)
  {
    if c.formedAt <= 0 {
      return Err(ResearchClockInvalid);
    }
    if c.formedAt > cutoff {
      return Err(CandidateNotYetVisible);
    }
    var original := ReadObservation(store, w, c.observationId, c.formedAt);
    if original.Err? {
      return Err(original.error);
    }
    if w.CandidateKey(c.observationId, c.referenceHash) != id || c.id != id || c.timestamp != c.formedAt {
      return Err(CandidateIdentityInvalid);
    }
    var measured := w.measure(original.value.bars, c.timestamp, c.references);
    if measured != c.measurements || w.ReferenceHash(measured) != c.referenceHash {
      return Err(MeasurementChanged);
    }
    var reference := ReadObservation(store, w, c.provenance, c.references.frozenAt);
    if reference.Err? {
      return Err(reference.error);
    }
    r := Ok(Grounded(c, original.value, reference.value));
  }

  method FollowUpIn(store: Store, w: World, g: Grounded, s: Supplied, cutoff: int) returns (r: Result<Followup, Error>)
    requires store.Valid()
    ensures r == FollowUp(w, store.log, g, s, cutoff)
  {
    var later := ReadObservation(store, w, s.observationId, cutoff);
    if later.Err? {
      return Err(later.error);
    }
    if s.referenceHash != g.candidate.referenceHash {
      return Err(PostReferenceMismatch);
    }
    var o := later.value;
    if o.product != g.original.product || o.start <= g.original.end || o.start <= g.candidate.formedAt {
      return Err(PostNotIndependent);
    }
    var m := w.measure(o.bars, cutoff, g.candidate.references.(breakoutAt := Some(g.candidate.timestamp)));
    if m.Unmeasurable? {
      return Err(MeasurementBlocked(m.reason));
    }
    var id := w.hash(PostIdentity(o.observationId, g.candidate.referenceHash));
    r := Ok(Followup(PostEvent(id, s.observationId, s.referenceHash, o.end, AFTER, true, s.judged), o, m));
  }

  method ReviewIn(store: Store, w: World, c: Classified, later: Observation, claim: ReviewClaim, cutoff: int) returns (r: Result<ReviewEvent, Error>)
    requires store.Valid()
    ensures r == ReviewOf(w, store.log, c, later, claim, cutoff)
  {
    var prior := ReadAssessment(store, w.AssessmentKey(c));
    if prior.None? || prior.value.outcome.research != VALIDATED || prior.value.outcome.validatedAt.None? {
      return Err(ReviewWithoutFrozenValidation);
    }
    var o := ReadObservation(store, w, claim.observationId, cutoff);
    if o.Err? {
      return Err(o.error);
    }
    if claim.referenceHash != c.candidate.referenceHash || o.value.start <= later.end
       || o.value.start <= prior.value.outcome.validatedAt.value {
      return Err(ReviewNotIndependent);
    }
    r := Ok(ReviewEvent(claim.state, o.value.observationId, o.value.end, AFTER, true));
  }

  /** The reading half of the evaluation. */
  method DeriveIn(store: Store, w: World, id: string, c: Candidate, e: Evidence, cutoff: int) returns (r: Result<Derived, Error>)
    requires store.Valid()
    ensures r == Derive(w, store.log, id, c, e, cutoff)
  {
    var g := GroundIn(store, w, id, c, cutoff);
    if g.Err? {
      return Err(g.error);
    }
    var classified, followup := Classified(c, None, None), None;
    if e.post.Some? {
      var f := FollowUpIn(store, w, g.value, e.post.value, cutoff);
      if f.Err? {
        return Err(f.error);
      }
      followup := Some(f.value);
      classified := classified.(post := Some(f.value.event));
    }
    if e.review.Some? && e.review.value.state != NONE {
      if followup.None? {
        return Err(ReviewWithoutValidation);
      }
      var event := ReviewIn(store, w, classified, followup.value.observation, e.review.value, cutoff);
      if event.Err? {
        return Err(event.error);
      }
      classified := classified.(review := Some(event.value));
    }
    r := Ok(Derived(g.value, followup, classified));
  }

  /** `evaluate_control_transfer_validation` on observed evidence. */
  method EvaluateIn(store: Store, w: World, e: Evidence, cutoff: int) returns (r: Result<Evaluated, Error>)
    requires store.Valid()
    modifies store
    ensures store.Valid()
    ensures (store.log, r) == Evaluate(w, old(store.log), e, cutoff)
    ensures Kept(w, old(store.log), store.log)
    ensures w.Valid() && Sound(w, old(store.log)) && r.Ok? && r.value.assessment.Some? ==>
              var o := r.value.assessment.value.outcome;
              && (o.research == VALIDATED ==> ValidatedChronology(old(store.log), e, o))
              && (IsReviewed(o) ==> ReviewedChronology(w, old(store.log), e, o))
  {
    if Sound(w, store.log) {
      EvaluateKeeps(w, store.log, e, cutoff);
      EvaluatedInOrder(w, store.log, e, cutoff);
    }
    if cutoff <= 0 {
      return Err(ResearchClockInvalid);
    }
    if !e.authorityOk {
      return Err(AuthorityInvalid);
    }
    if e.candidateId.None? {
      var o := ReadObservation(store, w, e.observationId, cutoff);
      return if o.Err? then Err(o.error) else Ok(Evaluated(None, cutoff));
    }
    var candidate := ReadCandidate(store, e.candidateId.value);
    if candidate.None? {
      return Err(FrozenCandidateNotFound);
    }
    var derived := DeriveIn(store, w, e.candidateId.value, candidate.value, e, cutoff);
    if derived.Err? {
      return Err(derived.error);
    }
    r := SettleIn(store, w, derived.value, cutoff);
  }

  method SettleIn(store: Store, w: World, d: Derived, cutoff: int) returns (r: Result<Evaluated, Error>)
    requires store.Valid()
    modifies store
    ensures store.Valid()
    ensures (store.log, r) == Settle(w, old(store.log), d, cutoff)
  {
    var key := w.AssessmentKey(d.classified);
    var prior := ReadAssessment(store, key);
    if prior.Some? {
      return Ok(Evaluated(prior, cutoff));
    }
    var first := AssessmentOf(d, cutoff);
    var recorded := store.RecordResearchEvent(key, ASSESSMENT, AssessmentRow(first));
    r := if recorded.Err? then Err(Store(recorded.error)) else Ok(Evaluated(Some(first), cutoff));
  }
}
