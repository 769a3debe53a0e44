/** A run of the control-transfer protocol that ends in a reviewed result, and a world it runs in. */
module ControlWitness {
  import opened Common
  import opened Serial
  import opened ResearchStore
  import opened ControlModel
  import opened ControlTransfer
  import O = OverbalanceModel

  // ---------------------------------------------------------------- digests exist

  function PutMaybe(o: Option<int>, rest: string): string {
    match o case None => PutInt(0, rest) case Some(n) => PutInt(1, PutInt(n, rest))
  }

  function PutReferences(r: References, rest: string): string {
    PutInt(r.prices, PutInt(r.frozenAt, PutText(r.provenance, PutMaybe(r.breakoutAt, rest))))
  }

  lemma ReferencesBack(a: References, b: References, x: string, y: string)
    requires PutReferences(a, x) == PutReferences(b, y)
    ensures a == b && x == y
  {
    hide PutInt, PutText, GetInt, GetText;
  }

  function BarFault(e: O.Error): nat {
    match e
    case OpeningNotPositive => 0 case HighNotPositive => 1 case LowNotPositive => 2 case CloseNotPositive => 3
    case InvalidOhlcRange => 4 case ObservationNotComplete => 5 case DuplicateStructureBar => 6
    case UnsortedStructureBars => 7 case ExplicitCompletionRequired => 8 case CompletionFutureLeakage => 9
    case DuplicateOrUnsortedClose => 10 case ClockOrderInvalid => 11 case InvalidPositiveNumber => 12 case InvalidText => 13
    case ReferenceGainNotPositive => 14 case ConsecutiveDaysRequired => 15 case ReferenceCoverageInvalid => 16
    case ReferenceHighNotSupported => 17 case NoCandidateDays => 18 case CandidateCoverageIncomplete => 19
    case CheckpointChanged => 20 case FutureCheckpoint => 21 case CandidateHistoryChanged => 22
  }

  lemma BarFaultBack(a: O.Error, b: O.Error)
    requires BarFault(a) == BarFault(b)
    ensures a == b
  {
  }

  function PutReason(u: Unmeasured, rest: string): string {
    match u
    case ReferencesNotVisible => PutInt(0, rest)
    case ReferencesInvalid(code) => PutInt(1, PutInt(code, rest))
    case StructureInvalid(why) => PutInt(2, PutInt(BarFault(why), rest))
    case NoVisibleBars => PutInt(3, rest)
    case FrozenAfterCandidate => PutInt(4, rest)
    case CandidateWindowEmpty => PutInt(5, rest)
  }

  function PutMeasurement(m: Measurement, rest: string): string {
    match m
    case Unmeasurable(reason) => PutInt(0, PutReason(reason, rest))
    case Measured(at, references, facts) => PutInt(1, PutInt(at, PutInt(references, PutInt(facts, rest))))
  }

  lemma MeasurementBack(a: Measurement, b: Measurement, x: string, y: string)
    requires PutMeasurement(a, x) == PutMeasurement(b, y)
    ensures a == b && x == y
  {
    hide PutInt, PutText, GetInt, GetText;
    hide BarFault;
    if a.Unmeasurable? && a.reason.StructureInvalid? && b.Unmeasurable? && b.reason.StructureInvalid? {
      BarFaultBack(a.reason.why, b.reason.why);
    }
  }

  function PutCandidate(c: Candidate, rest: string): string {
    PutText(c.id, PutText(c.observationId, PutInt(c.formedAt, PutInt(c.timestamp, PutText(c.referenceHash,
      PutText(c.classification, PutText(c.provenance, PutReferences(c.references, PutMeasurement(c.measurements, rest)))))))))
  }

  lemma CandidateBack(a: Candidate, b: Candidate, x: string, y: string)
    requires PutCandidate(a, x) == PutCandidate(b, y)
    ensures a == b && x == y
  {
    hide PutInt, PutText, GetInt, GetText;
    hide PutReferences, PutMeasurement;
    assert PutReferences(a.references, PutMeasurement(a.measurements, x)) == PutReferences(b.references, PutMeasurement(b.measurements, y));
    ReferencesBack(a.references, b.references, PutMeasurement(a.measurements, x), PutMeasurement(b.measurements, y));
    MeasurementBack(a.measurements, b.measurements, x, y);
  }

  function PutJudged(j: Judged, rest: string): string {
    var zone := match j.zone
                case HELD => 0 case BREACHED_AND_RECLAIMED => 1 case LOST_NOT_RECLAIMED => 2 case ZONE_UNRESOLVED => 3 case ZONE_OTHER => 4;
    var structure := match j.structure case PRESERVED => 0 case INVALIDATED => 1 case STRUCTURE_UNRESOLVED => 2 case STRUCTURE_OTHER => 3;
    var expansion := match j.expansion case CONFIRMED => 0 case NOT_CONFIRMED => 1 case EXPANSION_UNRESOLVED => 2 case EXPANSION_OTHER => 3;
    var high := match j.highBreak case BREAK_CONFIRMED => 0 case BREAK_NOT_CONFIRMED => 1 case BREAK_UNAVAILABLE => 2 case BREAK_OTHER => 3;
    PutInt(zone, PutInt(structure, PutInt(expansion, PutInt(high, rest))))
  }

  lemma JudgedBack(a: Judged, b: Judged, x: string, y: string)
    requires PutJudged(a, x) == PutJudged(b, y)
    ensures a == b && x == y
  {
    hide PutInt, GetInt;
  }

  function EventIndex(order: Order, distinct: bool): int {
    (match order case AFTER => 0 case ORDER_UNRESOLVED => 1 case ORDER_OTHER => 2) + if distinct then 3 else 0
  }

  function StateIndex(s: ReviewState): int {
    match s case NONE => 0 case UNDER_REVIEW => 1 case REVERSAL_CONFIRMED => 2 case REVIEW_OTHER => 3
  }

  function PutPost(p: Option<PostEvent>, rest: string): string {
    match p
    case None => PutInt(0, rest)
    case Some(e) => PutInt(1, PutText(e.id, PutText(e.observationId, PutText(e.referenceHash, PutInt(e.timestamp,
                      PutInt(EventIndex(e.order, e.distinct), PutJudged(e.judged, rest)))))))
  }

  lemma PostBack(a: Option<PostEvent>, b: Option<PostEvent>, x: string, y: string)
    requires PutPost(a, x) == PutPost(b, y)
    ensures a == b && x == y
  {
    hide PutInt, PutText, GetInt, GetText;
    hide PutJudged;
    if a.Some? && b.Some? {
      assert PutJudged(a.value.judged, x) == PutJudged(b.value.judged, y);
      JudgedBack(a.value.judged, b.value.judged, x, y);
    }
  }

  function PutReview(r: Option<ReviewEvent>, rest: string): string {
    match r
    case None => PutInt(0, rest)
    case Some(e) => PutInt(1, PutInt(StateIndex(e.state), PutText(e.id, PutInt(e.timestamp, PutInt(EventIndex(e.order, e.distinct), rest)))))
  }

  lemma ReviewBack(a: Option<ReviewEvent>, b: Option<ReviewEvent>, x: string, y: string)
    requires PutReview(a, x) == PutReview(b, y)
    ensures a == b && x == y
  {
    hide PutInt, PutText, GetInt, GetText;
  }

  function IdentityText(i: Identity): string {
    match i
    case ObservationIdentity(sourceId, product, start, end, definition) =>
      PutInt(0, PutText(sourceId, PutText(product, PutInt(start, PutInt(end, PutText(definition, ""))))))
    case ReferencesIdentity(references) => PutInt(1, PutMaybe(references, ""))
    case LockIdentity(observationId, provenance) => PutInt(2, PutText(observationId, PutText(provenance, "")))
    case CandidateIdentity(observationId, referenceHash) => PutInt(3, PutText(observationId, PutText(referenceHash, "")))
    case PostIdentity(observationId, referenceHash) => PutInt(4, PutText(observationId, PutText(referenceHash, "")))
    case ClassifiedIdentity(c) => PutInt(5, PutCandidate(c.candidate, PutPost(c.post, PutReview(c.review, ""))))
  }

  lemma ClassifiedBack(a: Classified, b: Classified)
    requires IdentityText(ClassifiedIdentity(a)) == IdentityText(ClassifiedIdentity(b))
    ensures a == b
  {
    hide PutInt, PutText, GetInt, GetText;
    hide PutCandidate, PutPost, PutReview;
    var x, y := PutPost(a.post, PutReview(a.review, "")), PutPost(b.post, PutReview(b.review, ""));
    CandidateBack(a.candidate, b.candidate, x, y);
    PostBack(a.post, b.post, PutReview(a.review, ""), PutReview(b.review, ""));
    ReviewBack(a.review, b.review, "", "");
  }

  lemma IdentityBack(a: Identity, b: Identity)
    requires IdentityText(a) == IdentityText(b)
    ensures a == b
  {
    hide PutInt, PutText, GetInt, GetText;
    hide PutCandidate, PutPost, PutReview;
    if a.ClassifiedIdentity? && b.ClassifiedIdentity? {
      ClassifiedBack(a.classified, b.classified);
    }
  }

  function IdentityDigest(i: Identity): string {
    PutText(IdentityText(i), "")
  }

  /** Digests are not blank and hold no colon, as hexadecimal ones. */
  ghost predicate PlainDigests(w: World) {
    forall x :: !Blank(w.hash(x)) && ':' !in w.hash(x)
  }

  lemma DigestsSeparate(x: Identity, y: Identity)
    requires IdentityDigest(x) == IdentityDigest(y)
    ensures x == y
  {
    hide IdentityText, PutText, GetText;
    IdentityBack(x, y);
  }

  lemma DigestPlain(x: Identity)
    ensures !Blank(IdentityDigest(x)) && ':' !in IdentityDigest(x)
  {
    hide IdentityText, PutText, GetText;
    TextDigits(IdentityText(x), "");
    assert IdentityDigest(x)[0] in IdentityDigest(x);
  }

  /** Whatever the archive, the level checks and the coordinates are, some digest makes a valid world of them. */
  lemma WorldsExist(w: World)
    ensures w.(hash := IdentityDigest).Valid() && PlainDigests(w.(hash := IdentityDigest))
  {
    hide IdentityDigest, Blank;
    forall x, y | IdentityDigest(x) == IdentityDigest(y) ensures x == y {
      DigestsSeparate(x, y);
    }
    forall x ensures !Blank(IdentityDigest(x)) && ':' !in IdentityDigest(x) {
      DigestPlain(x);
    }
  }

  // ---------------------------------------------------------------- a reviewed run

  /** Plain separating digests, a complete archive and acceptable reference levels. */
  ghost predicate Hospitable(w: World) {
    && w.Valid() && PlainDigests(w) && (forall o, at :: w.archived(o, at)) && forall r :: w.levels(r).Ok?
  }

  /** An observation of one bar in the window `[start, start + 1]`, recorded a millisecond later. */
  function Window(w: World, start: nat): Observation {
    Observation(WindowId(w, start), "source", "product", start, start + 1, "definition", start + 2, start + 2, start + 2, true,
                [Bar(start + 1, start + 2, 1.0, 1.0, 1.0, 1.0)])
  }

  function WindowId(w: World, start: nat): string {
    w.hash(ObservationIdentity("source", "product", start, start + 1, "definition"))
  }

  lemma WindowUsable(w: World, log: Log, start: nat, cutoff: int)
    requires Hospitable(w) && 0 < start && start + 2 <= cutoff
    requires StoredObservation(log, WindowId(w, start)) == Some(Window(w, start))
    ensures ObservationAt(w, log, WindowId(w, start), cutoff) == Ok(Window(w, start))
  {
    assert ObservationError(w, WindowId(w, start), Window(w, start), cutoff).None?;
  }

  lemma WindowMeasures(w: World, start: nat, at: int, r: References)
    requires Hospitable(w) && start + 2 <= at && r.frozenAt <= at
    requires r.breakoutAt.Some? ==> r.frozenAt <= r.breakoutAt.value <= start + 1
    ensures w.measure(Window(w, start).bars, at, r).Measured?
  {
    var rows := RawBars(Window(w, start).bars);
    assert rows == [O.RawBar(start + 2, O.Unspecified, start + 1, Some(start + 1), 1.0, 1.0, 1.0, 1.0)];
    var raw := rows[0];
    assert rows[..0] == [] && O.VisibleBars([], at) == Ok([]) && [] + [raw] == rows;
    assert O.VisibleBars(rows, at) == Ok(rows);
    assert O.StructureError([]).None? && O.PriceError(raw).None? && O.StructureError(rows).None?;
    assert O.ObservedAt(raw) == start + 1;
  }

  /** A write under a new id. */
  lemma Written(log: Log, id: string, kind: Kind, payload: Payload)
    requires id != "" && forall i :: 0 <= i < |log| ==> log[i].id != id
    ensures Recorded(log, id, kind, payload) == Ok(log + [Row(id, kind, payload)])
    ensures Event(log + [Row(id, kind, payload)], id, kind) == Some(payload)
  {
    RecordedReads(log, id, kind, payload);
  }

  function Levels(w: World): References {
    References(0, 5, WindowId(w, 1), None)
  }

  function Measured20(w: World): Measurement {
    w.measure(Window(w, 10).bars, 20, Levels(w))
  }

  /** The candidate frozen at 20 from the window at 10, against levels frozen at 5 from the window at 1. */
  function Frozen(w: World): Candidate {
    var hash := w.ReferenceHash(Measured20(w));
    Candidate(w.CandidateKey(WindowId(w, 10), hash), WindowId(w, 10), 20, 20, Levels(w), hash, Measured20(w), "analyst", WindowId(w, 1))
  }

  const SUPPORTING := Judged(HELD, PRESERVED, CONFIRMED, BREAK_CONFIRMED)

  /** Evidence of the window at 30, with or without a review of the window at 50. */
  function EvidenceOf(w: World, reviewed: bool): Evidence {
    Evidence(true, Some(Frozen(w).id), "", Some(Supplied(WindowId(w, 30), Frozen(w).referenceHash, SUPPORTING)),
             if reviewed then Some(ReviewClaim(UNDER_REVIEW, WindowId(w, 50), Frozen(w).referenceHash)) else None)
  }

  function Tested(w: World): Classified {
    Classified(Frozen(w), Some(PostEvent(w.hash(PostIdentity(WindowId(w, 30), Frozen(w).referenceHash)), WindowId(w, 30),
                                         Frozen(w).referenceHash, 31, AFTER, true, SUPPORTING)), None)
  }

  function ReviewedTest(w: World): Classified {
    Tested(w).(review := Some(ReviewEvent(UNDER_REVIEW, WindowId(w, 50), 51, AFTER, true)))
  }

  function ObserveWindow(w: World, start: nat): Op {
    OpObserve(WindowId(w, start), Window(w, start))
  }

  /** Two observations, the freeze, the post-C observation, its evaluation at 40, and the review observation. */
  function Prelude(w: World): seq<Op> {
    [ObserveWindow(w, 1), ObserveWindow(w, 10), OpFreeze(Proposal(WindowId(w, 10), 20, Levels(w), "analyst")), ObserveWindow(w, 30),
     OpEvaluate(EvidenceOf(w, false), 40), ObserveWindow(w, 50)]
  }

  function ObservedRow(w: World, start: nat): Row<Kind, Payload> {
    Row(WindowId(w, start), OBSERVATION, ObservationRow(Window(w, start)))
  }

  function LockOf(w: World): Row<Kind, Payload> {
    Row(w.LockKey(WindowId(w, 10), WindowId(w, 1)), REFERENCE_LOCK,
        LockRow(if Measured20(w).Measured? then Measured20(w).references else 0))
  }

  function CandidateOf(w: World): Row<Kind, Payload> {
    Row(Frozen(w).id, CANDIDATE, CandidateRow(Frozen(w)))
  }

  /** What the evaluation at 40 stores. */
  function FirstAssessment(w: World): Assessment {
    Assessment(Dated(Tested(w), 40), 20, Window(w, 10), Some(Window(w, 30)),
               Some(w.measure(Window(w, 30).bars, 40, Levels(w).(breakoutAt := Some(20)))), Frozen(w).referenceHash)
  }

  /** The table the prelude leaves. */
  function Table(w: World): (log: Log)
    ensures |log| == 7
  {
    [ObservedRow(w, 1), ObservedRow(w, 10), LockOf(w), CandidateOf(w), ObservedRow(w, 30),
     Row(w.AssessmentKey(Tested(w)), ASSESSMENT, AssessmentRow(FirstAssessment(w))), ObservedRow(w, 50)]
  }

  lemma WindowIdsDiffer(w: World, a: nat, b: nat)
    requires w.Valid() && a != b
    ensures WindowId(w, a) != WindowId(w, b)
  {
  }

  lemma HashesDiffer(w: World, start: nat)
    requires w.Valid()
    ensures WindowId(w, start) != Frozen(w).id
  {
    hide World.measure;
  }

  /** A digest never equals a prefixed key. */
  lemma PrefixedDiffers(w: World, x: Identity, y: Identity)
    requires PlainDigests(w)
    ensures w.hash(x) != "reference:" + w.hash(y) && w.hash(x) != "assessment:" + w.hash(y)
    ensures w.hash(x) != ""
  {
    assert ':' !in w.hash(x) && !Blank(w.hash(x));
    assert ("reference:" + w.hash(y))[9] == ':' && ("assessment:" + w.hash(y))[10] == ':';
  }

  lemma KeysDiffer(x: string, y: string)
    ensures "reference:" + x != "assessment:" + y
  {
    assert ("reference:" + x)[0] == 'r' && ("assessment:" + y)[0] == 'a';
  }

  /** The ids of the table's rows. */
  function TableIds(w: World): (ids: seq<string>)
    ensures |ids| == 7
  {
    [WindowId(w, 1), WindowId(w, 10), w.LockKey(WindowId(w, 10), WindowId(w, 1)), Frozen(w).id, WindowId(w, 30),
     w.AssessmentKey(Tested(w)), WindowId(w, 50)]
  }

  lemma TableRows(w: World)
    ensures Table(w)[0] == ObservedRow(w, 1) && Table(w)[1] == ObservedRow(w, 10) && Table(w)[4] == ObservedRow(w, 30)
    ensures Table(w)[2] == LockOf(w) && Table(w)[3] == CandidateOf(w) && Table(w)[6] == ObservedRow(w, 50)
    ensures Table(w)[5] == Row(w.AssessmentKey(Tested(w)), ASSESSMENT, AssessmentRow(FirstAssessment(w)))
    ensures forall i :: 0 <= i < 7 ==> Table(w)[i].id == TableIds(w)[i]
  {
    hide Tested, FirstAssessment, Frozen, Window, WindowId, World.measure, Measured20;
  }

  /** A digest key differs from every window id. */
  lemma WindowUnlike(w: World, start: nat, x: Identity)
    requires PlainDigests(w)
    ensures WindowId(w, start) != "reference:" + w.hash(x) && WindowId(w, start) != "assessment:" + w.hash(x) && WindowId(w, start) != ""
  {
    PrefixedDiffers(w, ObservationIdentity("source", "product", start, start + 1, "definition"), x);
    hide PlainDigests;
  }

  lemma FrozenUnlike(w: World, x: Identity)
    requires PlainDigests(w)
    ensures Frozen(w).id != "reference:" + w.hash(x) && Frozen(w).id != "assessment:" + w.hash(x) && Frozen(w).id != ""
  {
    PrefixedDiffers(w, CandidateIdentity(WindowId(w, 10), w.ReferenceHash(Measured20(w))), x);
    hide PlainDigests, Measured20;
  }

  lemma LockIs(w: World)
    ensures w.LockKey(WindowId(w, 10), WindowId(w, 1)) == "reference:" + w.hash(LockIdentity(WindowId(w, 10), WindowId(w, 1)))
  {
  }

  lemma KeyIs(w: World, c: Classified)
    ensures w.AssessmentKey(c) == "assessment:" + w.hash(ClassifiedIdentity(c)) && w.AssessmentKey(c) != ""
  {
  }

  /** The first five ids, without the assessment key. */
  lemma PlainIds(w: World, i: nat)
    requires Hospitable(w) && i < 7 && i != 2 && i != 5
    ensures forall x :: TableIds(w)[i] != "reference:" + w.hash(x) && TableIds(w)[i] != "assessment:" + w.hash(x)
    ensures TableIds(w)[i] != ""
  {
    hide Tested, Measured20, Frozen, WindowId;
    forall x ensures TableIds(w)[i] != "reference:" + w.hash(x) && TableIds(w)[i] != "assessment:" + w.hash(x) && TableIds(w)[i] != "" {
      if i == 3 {
        FrozenUnlike(w, x);
      } else {
        WindowUnlike(w, if i == 0 then 1 else if i == 1 then 10 else if i == 4 then 30 else 50, x);
      }
    }
    var x := LockIdentity("", "");
    assert TableIds(w)[i] != "reference:" + w.hash(x);
  }

  lemma PlainIdsDiffer(w: World, i: nat, j: nat)
    requires Hospitable(w) && i < j < 7 && i != 2 && i != 5 && j != 2 && j != 5
    ensures TableIds(w)[i] != TableIds(w)[j]
  {
    hide Tested, Measured20, Frozen, WindowId;
    var a := if i == 0 then 1 else if i == 1 then 10 else 30;
    var b := if j == 1 then 10 else if j == 4 then 30 else 50;
    if i == 3 {
      HashesDiffer(w, b);
    } else if j == 3 {
      HashesDiffer(w, a);
    } else {
      WindowIdsDiffer(w, a, b);
    }
  }

  lemma PrefixedIds(w: World)
    ensures TableIds(w)[2] == w.LockKey(WindowId(w, 10), WindowId(w, 1)) && TableIds(w)[5] == w.AssessmentKey(Tested(w))
  {
    hide WindowId, Tested, Frozen, World.LockKey, World.AssessmentKey;
  }

  lemma IdsDistinct(w: World, i: nat, j: nat)
    requires Hospitable(w) && i < j < 7
    ensures TableIds(w)[i] != TableIds(w)[j] && TableIds(w)[i] != "" && TableIds(w)[j] != ""
  {
    hide *;
    LockIs(w);
    KeyIs(w, Tested(w));
    KeysDiffer(w.hash(LockIdentity(WindowId(w, 10), WindowId(w, 1))), w.hash(ClassifiedIdentity(Tested(w))));
    PrefixedIds(w);
    if i != 2 && i != 5 { PlainIds(w, i); }
    if j != 2 && j != 5 { PlainIds(w, j); }
    if i != 2 && i != 5 && j != 2 && j != 5 { PlainIdsDiffer(w, i, j); }
    assert TableIds(w)[2] != "" && TableIds(w)[5] != "";
  }

  lemma TableKeyed(w: World)
    requires Hospitable(w)
    ensures Keyed(Table(w))
  {
    hide Hospitable, Table, TableIds;
    TableRows(w);
    forall i, j | 0 <= i < j < 7 ensures Table(w)[i].id != Table(w)[j].id && Table(w)[i].id != "" && Table(w)[j].id != "" {
      IdsDistinct(w, i, j);
    }
    assert Table(w)[0].id != Table(w)[1].id;
  }

  lemma {:induction false} KeyedFinds(log: Log, i: nat)
    requires Keyed(log) && i < |log|
    ensures Find(log, log[i].id) == Some(log[i])
  {
    var init := log[..|log| - 1];
    if i < |init| {
      assert Keyed(init);
      KeyedFinds(init, i);
    }
  }

  /** Row `i` is found in every prefix that reaches it. */
  lemma TableFinds(w: World, n: nat, i: nat)
    requires Hospitable(w) && i < n <= 7
    ensures Event(Table(w)[..n], Table(w)[i].id, Table(w)[i].kind) == Some(Table(w)[i].payload)
  {
    hide Table, Hospitable;
    TableKeyed(w);
    var log := Table(w)[..n];
    assert Keyed(log) && log[i] == Table(w)[i];
    KeyedFinds(log, i);
  }

  /** Writing row `n` after the first `n` rows yields the first `n + 1`. */
  lemma TableGrows(w: World, n: nat)
    requires Hospitable(w) && n < 7
    ensures var row := Table(w)[n];
            && Recorded(Table(w)[..n], row.id, row.kind, row.payload) == Ok(Table(w)[..n + 1])
            && Event(Table(w)[..n], row.id, row.kind).None?
  {
    hide Table, Hospitable, Find;
    TableKeyed(w);
    var log, row := Table(w)[..n], Table(w)[n];
    forall i | 0 <= i < |log| ensures log[i].id != row.id {
      assert log[i] == Table(w)[i];
    }
    Written(log, row.id, row.kind, row.payload);
    assert log + [row] == Table(w)[..n + 1];
  }

  lemma ObservesWindow(w: World, n: nat, start: nat)
    requires Hospitable(w) && n < 7 && Table(w)[n] == ObservedRow(w, start)
    ensures Step(w, Table(w)[..n], ObserveWindow(w, start)) == Table(w)[..n + 1]
  {
    hide Table, Hospitable, Window, WindowId, Recorded;
    TableGrows(w, n);
  }

  lemma HoldsWindow(w: World, n: nat, i: nat, start: nat)
    requires Hospitable(w) && i < n <= 7 && Table(w)[i] == ObservedRow(w, start)
    ensures StoredObservation(Table(w)[..n], WindowId(w, start)) == Some(Window(w, start))
  {
    hide Table, Hospitable, Window, WindowId, Event;
    TableFinds(w, n, i);
  }

  lemma HoldsCandidate(w: World, n: nat)
    requires Hospitable(w) && 4 <= n <= 7
    ensures StoredCandidate(Table(w)[..n], Frozen(w).id) == Some(Frozen(w))
  {
    hide Table, Hospitable, Frozen, Event, Tested, FirstAssessment, TableIds;
    TableRows(w);
    TableFinds(w, n, 3);
  }

  lemma HoldsAssessment(w: World, n: nat)
    requires Hospitable(w) && 6 <= n <= 7
    ensures StoredAssessment(Table(w)[..n], w.AssessmentKey(Tested(w))) == Some(FirstAssessment(w))
  {
    hide Table, Hospitable, Frozen, Event, Tested, FirstAssessment, TableIds;
    TableRows(w);
    TableFinds(w, n, 5);
  }

  /** The windows at 1 and 10 are stored from row 2 on, the one at 30 from row 5 on, the one at 50 in the end. */
  lemma TableHolds(w: World, n: nat)
    requires Hospitable(w) && 2 <= n <= 7
    ensures StoredObservation(Table(w)[..n], WindowId(w, 1)) == Some(Window(w, 1))
    ensures StoredObservation(Table(w)[..n], WindowId(w, 10)) == Some(Window(w, 10))
    ensures n >= 5 ==> StoredObservation(Table(w)[..n], WindowId(w, 30)) == Some(Window(w, 30))
    ensures n >= 7 ==> StoredObservation(Table(w)[..n], WindowId(w, 50)) == Some(Window(w, 50))
  {
    hide *;
    TableRows(w);
    HoldsWindow(w, n, 0, 1);
    HoldsWindow(w, n, 1, 10);
    if n >= 5 { HoldsWindow(w, n, 4, 30); }
    if n >= 7 { HoldsWindow(w, n, 6, 50); }
  }

  // ---------------------------------------------------------------- freezing

  lemma ProposedOf(w: World, log: Log, p: Proposal, o: Observation, reference: Observation)
    requires p.formedAt > 0 && !Blank(p.classification) && ObservationAt(w, log, p.observationId, p.formedAt) == Ok(o)
    requires w.measure(o.bars, p.formedAt, p.references).Measured? && StoredObservation(log, p.references.provenance).Some?
    requires ObservationAt(w, log, p.references.provenance, p.references.frozenAt) == Ok(reference)
    ensures var m := w.measure(o.bars, p.formedAt, p.references);
            Proposed(w, log, p) == Ok(Candidate(w.CandidateKey(p.observationId, w.ReferenceHash(m)), p.observationId, p.formedAt, p.formedAt,
                                                p.references, w.ReferenceHash(m), m, p.classification, p.references.provenance))
  {
    hide ObservationAt, World.measure, StoredObservation, Blank;
  }

  lemma FreezeOf(w: World, log: Log, p: Proposal, c: Candidate, locked: Log, kept: Log)
    requires Proposed(w, log, p) == Ok(c) && StoredCandidate(locked, c.id).None?
    requires Recorded(log, w.LockKey(c.observationId, c.provenance), REFERENCE_LOCK,
                      LockRow(if c.measurements.Measured? then c.measurements.references else 0)) == Ok(locked)
    requires Recorded(locked, c.id, CANDIDATE, CandidateRow(c)) == Ok(kept)
    ensures FreezeCandidate(w, log, p) == (kept, Ok(c))
  {
    hide Proposed, Recorded, StoredCandidate, World.LockKey;
  }

  lemma Measured20Is(w: World)
    requires Hospitable(w)
    ensures Measured20(w).Measured?
  {
    hide World.measure, Window;
    WindowMeasures(w, 10, 20, Levels(w));
  }

  lemma AnalystNamed()
    ensures !Blank("analyst")
  {
    assert "analyst"[0] in "analyst";
  }

  lemma FrozenProposed(w: World)
    requires Hospitable(w)
    ensures Proposed(w, Table(w)[..2], Proposal(WindowId(w, 10), 20, Levels(w), "analyst")) == Ok(Frozen(w))
  {
    hide ObservationAt, World.measure, Window, WindowId, Hospitable, Blank, Table, Proposed, StoredObservation, World.CandidateKey, World.ReferenceHash;
    var log, p := Table(w)[..2], Proposal(WindowId(w, 10), 20, Levels(w), "analyst");
    AnalystNamed();
    TableHolds(w, 2);
    WindowUsable(w, log, 10, 20);
    WindowUsable(w, log, 1, 5);
    Measured20Is(w);
    ProposedOf(w, log, p, Window(w, 10), Window(w, 1));
  }

  lemma FreezeRuns(w: World)
    requires Hospitable(w)
    ensures FreezeCandidate(w, Table(w)[..2], Proposal(WindowId(w, 10), 20, Levels(w), "analyst")) == (Table(w)[..4], Ok(Frozen(w)))
  {
    hide World.measure, Window, WindowId, Hospitable, Table, Proposed, FreezeCandidate, World.CandidateKey, World.ReferenceHash, World.LockKey;
    hide TableIds, Tested, FirstAssessment, Recorded, Event;
    FrozenProposed(w);
    TableRows(w);
    TableGrows(w, 2);
    TableGrows(w, 3);
    FreezeOf(w, Table(w)[..2], Proposal(WindowId(w, 10), 20, Levels(w), "analyst"), Frozen(w), Table(w)[..3], Table(w)[..4]);
  }

  // ---------------------------------------------------------------- evaluating

  lemma GroundOf(w: World, log: Log, id: string, c: Candidate, cutoff: int, original: Observation, reference: Observation)
    requires 0 < c.formedAt <= cutoff && CandidateConsistent(w, id, c) && w.ReferenceHash(c.measurements) == c.referenceHash
    requires ObservationAt(w, log, c.observationId, c.formedAt) == Ok(original)
    requires w.measure(original.bars, c.timestamp, c.references) == c.measurements
    requires ObservationAt(w, log, c.provenance, c.references.frozenAt) == Ok(reference)
    ensures Ground(w, log, id, c, cutoff) == Ok(Grounded(c, original, reference))
  {
    hide ObservationAt, World.measure, CandidateConsistent, World.ReferenceHash;
  }

  lemma GroundRuns(w: World, n: nat, cutoff: int)
    requires Hospitable(w) && 4 <= n <= 7 && 20 <= cutoff
    ensures Ground(w, Table(w)[..n], Frozen(w).id, Frozen(w), cutoff) == Ok(Grounded(Frozen(w), Window(w, 10), Window(w, 1)))
  {
    hide ObservationAt, World.measure, Window, WindowId, Hospitable, Table, Ground, World.CandidateKey, World.ReferenceHash;
    TableHolds(w, n);
    WindowUsable(w, Table(w)[..n], 10, 20);
    WindowUsable(w, Table(w)[..n], 1, 5);
    GroundOf(w, Table(w)[..n], Frozen(w).id, Frozen(w), cutoff, Window(w, 10), Window(w, 1));
  }

  lemma FollowUpOf(w: World, log: Log, g: Grounded, s: Supplied, cutoff: int, o: Observation)
    requires ObservationAt(w, log, s.observationId, cutoff) == Ok(o) && s.referenceHash == g.candidate.referenceHash
    requires o.product == g.original.product && o.start > g.original.end && o.start > g.candidate.formedAt
    requires w.measure(o.bars, cutoff, g.candidate.references.(breakoutAt := Some(g.candidate.timestamp))).Measured?
    ensures var id := w.hash(PostIdentity(o.observationId, g.candidate.referenceHash));
            FollowUp(w, log, g, s, cutoff)
            == Ok(Followup(PostEvent(id, s.observationId, s.referenceHash, o.end, AFTER, true, s.judged), o,
                           w.measure(o.bars, cutoff, g.candidate.references.(breakoutAt := Some(g.candidate.timestamp)))))
  {
    hide ObservationAt, World.measure;
  }

  lemma FollowUpRuns(w: World, n: nat, cutoff: int, reviewed: bool)
    requires Hospitable(w) && 5 <= n <= 7 && 40 <= cutoff
    ensures FollowUp(w, Table(w)[..n], Grounded(Frozen(w), Window(w, 10), Window(w, 1)), EvidenceOf(w, reviewed).post.value, cutoff)
            == Ok(Followup(Tested(w).post.value, Window(w, 30),
                           w.measure(Window(w, 30).bars, cutoff, Levels(w).(breakoutAt := Some(20)))))
  {
    hide ObservationAt, World.measure, Hospitable, Table, WindowId, FollowUp, Measured20, World.CandidateKey, World.ReferenceHash;
    TableHolds(w, n);
    WindowUsable(w, Table(w)[..n], 30, cutoff);
    WindowMeasures(w, 30, cutoff, Levels(w).(breakoutAt := Some(20)));
    FollowUpOf(w, Table(w)[..n], Grounded(Frozen(w), Window(w, 10), Window(w, 1)), EvidenceOf(w, reviewed).post.value, cutoff, Window(w, 30));
  }

  /** What the classifier says of evidence that is complete and supported. */
  lemma ClassifiesValid(c: Classified, status: Status)
    requires !Blank(c.candidate.id) && !Blank(c.candidate.referenceHash) && !Blank(c.candidate.provenance)
    requires c.post.Some? && !Blank(c.post.value.id) && c.post.value.id != c.candidate.id && c.post.value.order == AFTER
    requires c.post.value.distinct && c.post.value.judged == SUPPORTING && ReviewStatus(c, c.post.value) == Some(status)
    ensures Classify(c) == Outcome(VALIDATED, Some(c.candidate.id), Some(c.post.value.id), Some(c.post.value.timestamp), Some(status))
  {
    hide Blank, ReviewStatus;
  }

  lemma TestedFacts(w: World)
    requires Hospitable(w)
    ensures !Blank(Frozen(w).id) && !Blank(Frozen(w).referenceHash) && !Blank(WindowId(w, 1)) && !Blank(WindowId(w, 50))
    ensures !Blank(Tested(w).post.value.id) && Tested(w).post.value.id != Frozen(w).id
    ensures WindowId(w, 50) != Tested(w).post.value.id && WindowId(w, 50) != Frozen(w).id
  {
    hide World.measure, Blank, Measured20;
    HashesDiffer(w, 50);
  }

  lemma TestedValidates(w: World)
    requires Hospitable(w)
    ensures Classify(Tested(w)) == Outcome(VALIDATED, Some(Frozen(w).id), Some(Tested(w).post.value.id), Some(31), Some(ACTIVE))
    ensures Classify(ReviewedTest(w)) == Outcome(VALIDATED, Some(Frozen(w).id), Some(Tested(w).post.value.id), Some(31), Some(REVIEWING))
  {
    TestedFacts(w);
    hide World.measure, Blank, Hospitable, Classify, WindowId, Measured20, World.ReferenceHash, World.CandidateKey;
    ClassifiesValid(Tested(w), ACTIVE);
    ClassifiesValid(ReviewedTest(w), REVIEWING);
  }

  lemma DeriveOf(w: World, log: Log, id: string, c: Candidate, e: Evidence, cutoff: int, g: Grounded, f: Followup)
    requires Ground(w, log, id, c, cutoff) == Ok(g) && e.post.Some? && FollowUp(w, log, g, e.post.value, cutoff) == Ok(f)
    ensures e.review.None? ==> Derive(w, log, id, c, e, cutoff) == Ok(Derived(g, Some(f), Classified(c, Some(f.event), None)))
    ensures forall r: ReviewEvent :: e.review.Some? && e.review.value.state != NONE
              && ReviewOf(w, log, Classified(c, Some(f.event), None), f.observation, e.review.value, cutoff) == Ok(r)
              ==> Derive(w, log, id, c, e, cutoff) == Ok(Derived(g, Some(f), Classified(c, Some(f.event), Some(r))))
  {
    hide Ground, FollowUp, ReviewOf;
  }

  lemma EvaluateOf(w: World, log: Log, e: Evidence, cutoff: int, c: Candidate, d: Derived)
    requires cutoff > 0 && e.authorityOk && e.candidateId.Some? && StoredCandidate(log, e.candidateId.value) == Some(c)
    requires Derive(w, log, e.candidateId.value, c, e, cutoff) == Ok(d) && StoredAssessment(log, w.AssessmentKey(d.classified)).None?
    ensures match Recorded(log, w.AssessmentKey(d.classified), ASSESSMENT, AssessmentRow(AssessmentOf(d, cutoff)))
            case Ok(log') => Evaluate(w, log, e, cutoff) == (log', Ok(Evaluated(Some(AssessmentOf(d, cutoff)), cutoff)))
            case Err(_) => true
  {
    hide StoredCandidate, Derive, Recorded, World.AssessmentKey, AssessmentOf;
  }

  function FirstDerived(w: World): Derived {
    Derived(Grounded(Frozen(w), Window(w, 10), Window(w, 1)),
            Some(Followup(Tested(w).post.value, Window(w, 30), w.measure(Window(w, 30).bars, 40, Levels(w).(breakoutAt := Some(20))))), Tested(w))
  }

  lemma FirstAssessed(w: World)
    ensures AssessmentOf(FirstDerived(w), 40) == FirstAssessment(w) && FirstDerived(w).classified == Tested(w)
  {
    hide Dated, Window, World.measure, Measured20, World.ReferenceHash, World.CandidateKey;
  }

  lemma FirstDerives(w: World)
    requires Hospitable(w)
    ensures Derive(w, Table(w)[..5], Frozen(w).id, Frozen(w), EvidenceOf(w, false), 40) == Ok(FirstDerived(w))
  {
    hide Ground, FollowUp, World.measure, Window, WindowId, Hospitable, Frozen, Table, Derive;
    GroundRuns(w, 5, 40);
    FollowUpRuns(w, 5, 40, false);
    DeriveOf(w, Table(w)[..5], Frozen(w).id, Frozen(w), EvidenceOf(w, false), 40, FirstDerived(w).grounded, FirstDerived(w).followup.value);
  }

  lemma FirstEvaluation(w: World)
    requires Hospitable(w)
    ensures Evaluate(w, Table(w)[..5], EvidenceOf(w, false), 40) == (Table(w)[..6], Ok(Evaluated(Some(FirstAssessment(w)), 40)))
  {
    hide World.measure, Window, WindowId, Hospitable, Frozen, Table, Derive, Evaluate, Recorded, Tested, FirstDerived, FirstAssessment;
    hide AssessmentOf, TableIds, Event, World.AssessmentKey;
    HoldsCandidate(w, 5);
    FirstDerives(w);
    FirstAssessed(w);
    TableRows(w);
    TableGrows(w, 5);
    EvaluateOf(w, Table(w)[..5], EvidenceOf(w, false), 40, Frozen(w), FirstDerived(w));
  }

  // ---------------------------------------------------------------- reviewing

  lemma FrozenAt40(w: World)
    requires Hospitable(w)
    ensures FrozenValidation(w, Table(w)[..7], Tested(w)) == Some(40)
  {
    hide World.measure, Window, Hospitable, Frozen, Table, Tested, StoredAssessment, Classify;
    HoldsAssessment(w, 7);
    TestedValidates(w);
  }

  lemma ReviewOfIs(w: World, log: Log, c: Classified, later: Observation, r: ReviewClaim, cutoff: int, validatedAt: int, o: Observation)
    requires FrozenValidation(w, log, c) == Some(validatedAt) && ObservationAt(w, log, r.observationId, cutoff) == Ok(o)
    requires r.referenceHash == c.candidate.referenceHash && o.start > later.end && o.start > validatedAt
    ensures ReviewOf(w, log, c, later, r, cutoff) == Ok(ReviewEvent(r.state, o.observationId, o.end, AFTER, true))
  {
    hide FrozenValidation, ObservationAt;
  }

  lemma ReviewRuns(w: World)
    requires Hospitable(w)
    ensures ReviewOf(w, Table(w)[..7], Tested(w), Window(w, 30), EvidenceOf(w, true).review.value, 60) == Ok(ReviewedTest(w).review.value)
  {
    hide ObservationAt, World.measure, Hospitable, Table, WindowId, FrozenValidation, ReviewOf, Frozen;
    TableHolds(w, 7);
    WindowUsable(w, Table(w)[..7], 50, 60);
    FrozenAt40(w);
    ReviewOfIs(w, Table(w)[..7], Tested(w), Window(w, 30), EvidenceOf(w, true).review.value, 60, 40, Window(w, 50));
  }

  function SecondDerived(w: World): Derived {
    Derived(Grounded(Frozen(w), Window(w, 10), Window(w, 1)),
            Some(Followup(Tested(w).post.value, Window(w, 30), w.measure(Window(w, 30).bars, 60, Levels(w).(breakoutAt := Some(20))))), ReviewedTest(w))
  }

  lemma SecondDerives(w: World)
    requires Hospitable(w)
    ensures Derive(w, Table(w)[..7], Frozen(w).id, Frozen(w), EvidenceOf(w, true), 60) == Ok(SecondDerived(w))
  {
    hide Ground, FollowUp, ReviewOf, World.measure, Window, WindowId, Hospitable, Frozen, Table, Derive;
    GroundRuns(w, 7, 60);
    FollowUpRuns(w, 7, 60, true);
    ReviewRuns(w);
    DeriveOf(w, Table(w)[..7], Frozen(w).id, Frozen(w), EvidenceOf(w, true), 60, SecondDerived(w).grounded, SecondDerived(w).followup.value);
  }

  /** The key of the reviewed evidence is none of the table's ids. */
  lemma SecondKeyFresh(w: World, i: nat)
    requires Hospitable(w) && i < 7
    ensures TableIds(w)[i] != w.AssessmentKey(ReviewedTest(w))
  {
    hide Frozen, WindowId, TableIds, World.AssessmentKey, World.LockKey, World.Valid, PlainDigests;
    assert ReviewedTest(w).review.Some? && Tested(w).review.None? && w.Valid();
    hide Tested, ReviewedTest, Hospitable;
    PrefixedIds(w);
    KeyIs(w, ReviewedTest(w));
    LockIs(w);
    KeysDiffer(w.hash(LockIdentity(WindowId(w, 10), WindowId(w, 1))), w.hash(ClassifiedIdentity(ReviewedTest(w))));
    if i == 5 && w.AssessmentKey(Tested(w)) == w.AssessmentKey(ReviewedTest(w)) {
      KeyDetermines(w, Tested(w), ReviewedTest(w));
    } else if i != 2 && i != 5 {
      PlainIds(w, i);
    }
  }

  lemma SecondRecorded(w: World, a: Assessment)
    requires Hospitable(w)
    ensures StoredAssessment(Table(w)[..7], w.AssessmentKey(ReviewedTest(w))).None?
    ensures Recorded(Table(w)[..7], w.AssessmentKey(ReviewedTest(w)), ASSESSMENT, AssessmentRow(a)).Ok?
  {
    hide Table, TableIds, Hospitable, ReviewedTest, Tested, FirstAssessment, Frozen, World.AssessmentKey, Find;
    var log, key := Table(w)[..7], w.AssessmentKey(ReviewedTest(w));
    KeyIs(w, ReviewedTest(w));
    TableRows(w);
    forall i | 0 <= i < |log| ensures log[i].id != key {
      SecondKeyFresh(w, i);
      assert log[i] == Table(w)[i];
    }
    Written(log, key, ASSESSMENT, AssessmentRow(a));
  }

  lemma SecondEvaluation(w: World)
    requires Hospitable(w)
    ensures Evaluate(w, Table(w)[..7], EvidenceOf(w, true), 60).1 == Ok(Evaluated(Some(AssessmentOf(SecondDerived(w), 60)), 60))
  {
    assert SecondDerived(w).classified == ReviewedTest(w);
    hide World.measure, Window, WindowId, Hospitable, Frozen, Table, Derive, Evaluate, Recorded, ReviewedTest, SecondDerived;
    hide AssessmentOf, StoredAssessment, World.AssessmentKey;
    HoldsCandidate(w, 7);
    SecondDerives(w);
    SecondRecorded(w, AssessmentOf(SecondDerived(w), 60));
    EvaluateOf(w, Table(w)[..7], EvidenceOf(w, true), 60, Frozen(w), SecondDerived(w));
  }

  // ---------------------------------------------------------------- the run

  lemma RunSnoc(w: World, ops: seq<Op>, n: nat)
    requires n < |ops|
    ensures Run(w, [], ops[..n + 1]) == Step(w, Run(w, [], ops[..n]), ops[n])
  {
    hide Step;
    assert ops[..n + 1][..n] == ops[..n];
  }

  lemma FreezeSteps(w: World)
    requires Hospitable(w)
    ensures Step(w, Table(w)[..2], Prelude(w)[2]) == Table(w)[..4] && Step(w, Table(w)[..5], Prelude(w)[4]) == Table(w)[..6]
  {
    hide FreezeCandidate, Evaluate, EvidenceOf, Hospitable, Table, Levels, WindowId, Window, Frozen;
    FreezeRuns(w);
    FirstEvaluation(w);
  }

  lemma PreludeOps(w: World)
    ensures var ops := Prelude(w);
            && |ops| == 6 && ops[0] == ObserveWindow(w, 1) && ops[1] == ObserveWindow(w, 10) && ops[3] == ObserveWindow(w, 30)
            && ops[5] == ObserveWindow(w, 50) && Run(w, [], ops[..0]) == Table(w)[..0]
  {
    hide ObserveWindow, EvidenceOf, Levels, Table;
  }

  lemma PreludeRuns(w: World)
    requires Hospitable(w)
    ensures Run(w, [], Prelude(w)) == Table(w)
  {
    hide *;
    var ops := Prelude(w);
    PreludeOps(w);
    TableRows(w);
    ObservesWindow(w, 0, 1);
    ObservesWindow(w, 1, 10);
    FreezeSteps(w);
    ObservesWindow(w, 4, 30);
    ObservesWindow(w, 6, 50);
    RunSnoc(w, ops, 0);
    RunSnoc(w, ops, 1);
    RunSnoc(w, ops, 2);
    RunSnoc(w, ops, 3);
    RunSnoc(w, ops, 4);
    RunSnoc(w, ops, 5);
    assert ops[..6] == ops && Table(w)[..7] == Table(w);
  }

  /** After the prelude the review is accepted. Its assessment is dated by the review at 60, although the
      validation it reviews stays frozen at 40. */
  ghost predicate Redated(w: World) {
    var log := Run(w, [], Prelude(w));
    && FrozenValidation(w, log, Tested(w)) == Some(40)
    && var r := Evaluate(w, log, EvidenceOf(w, true), 60).1;
       && r.Ok? && r.value.assessment.Some?
       && var o := r.value.assessment.value.outcome; o.status == Some(REVIEWING) && o.validatedAt == Some(60)
  }

  lemma ReviewIsRedated(w: World)
    requires Hospitable(w)
    ensures Redated(w)
  {
    hide Run, Evaluate, Classify, Hospitable, Table, EvidenceOf, FrozenValidation, Tested, Window, World.measure;
    PreludeRuns(w);
    FrozenAt40(w);
    TestedValidates(w);
    SecondEvaluation(w);
    assert Table(w)[..7] == Table(w);
  }

  /** Such worlds exist, so the run does. */
  lemma ReviewedRunExists()
    ensures exists w :: Hospitable(w) && Redated(w)
  {
    var w := World(IdentityDigest, (o, at) => true, r => Ok(0), (bars, r, visible) => 0);
    WorldsExist(w);
    assert w.(hash := IdentityDigest) == w;
    hide IdentityDigest;
    assert Hospitable(w);
    hide Redated;
    ReviewIsRedated(w);
  }
}
