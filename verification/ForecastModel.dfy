/** Typed PRE / POST / ANCHOR research records and the checks each of them must pass before it is
    frozen. Clocks are milliseconds; session dates are day numbers; a content hash is the content it
    digests. */
module ForecastModel {
  import opened Common
  import opened ResearchStore

  const DAY_MS := 86_400_000

  datatype Error =
    | ClockInvalid | RequiredTextMissing | SourceReferencesMissing | SourceNotVisible | SourceClockOrderInvalid
    | UpstreamQualificationRequired | DuplicateSourceReference | PriceAnchorInvalid | PriceCurrencyRequired
    | PriceBasisRequired | PriceAnchorSourceInvalid | PreNotFound | PreHashMismatch | PreClockOrderInvalid
    | SessionNotCovered | FalsifiableClaimsRequired | HorizonOutsideRange | DuplicateClaimId
    | PostClockOrderInvalid | PostBeforeSessionReview | MustReviewEachClaim | ReviewRedefinesTarget
    | ReviewSourceUnknown | ReviewEvidenceBlocked | ReviewOutcomeObservationMissing | HorizonNotComplete
    | AnchorRevisionClockInvalid | AnchorHistoryMismatch | Store(why: StoreError)

  // ---------------------------------------------------------------- records

  datatype Quality = VALID | RESEARCH_ONLY | BLOCKED | STALE | Unqualified
  datatype SourceRow = SourceRow(ref: string, texts: seq<string>, observedAt: int, availableAt: int,
                                 retrievedAt: int, validatedAt: int, quality: Quality)

  datatype Currency = USD | USDT | OtherCurrency
  datatype PriceBasis = COMPLETED_CLOSE | SPOT_OBSERVATION | BID_ASK | OtherBasis
  datatype Anchor = Anchor(price: real, currency: Currency, basis: PriceBasis, observedAt: int, ref: string)

  datatype Schedule = Schedule(open: int, close: int)
  {
    function PreDue(): int { open - 3_600_000 }
    function PostDue(): int { close + 21_600_000 }
  }

  /** `session_schedule`; `None` is a date without a covered session. */
  type Calendar = int -> Option<Schedule>

  datatype Claim = Claim(id: string, texts: seq<string>, targetAt: int)
  datatype Pre = Pre(id: string, session: int, generatedAt: int, cutoff: int, texts: seq<string>,
                     sources: seq<SourceRow>, anchor: Anchor, claims: seq<Claim>)

  datatype Verdict = SUPPORTED | REFUTED | INCONCLUSIVE | PENDING
  datatype Review = Review(claim: string, verdict: Verdict, refs: seq<string>, reason: string, exactFields: bool)

  datatype Timing = PRE_WINDOW | OUTSIDE_PRE_WINDOW
  datatype Frozen = Frozen(pre: Pre, schedule: Schedule, timing: Timing)
  datatype PreHash = HashOf(content: Frozen) | OtherHash

  datatype Post = Post(id: string, preId: string, preHash: PreHash, session: int, generatedAt: int, cutoff: int,
                       texts: seq<string>, sources: seq<SourceRow>, reviews: seq<Review>)
  datatype Revision = Revision(id: string, preId: string, preHash: PreHash, previousId: string, oldAnchor: Anchor,
                               newAnchor: Anchor, changedAt: int, reason: string, sources: seq<SourceRow>)

  datatype Content = PreContent(frozen: Frozen) | PostContent(post: Post, timing: Timing) | AnchorContent(revision: Revision)
                   | ForeignContent(text: string)

  /** Rows of other research share the table under their own kinds. */
  datatype Kind = PRE | POST | ANCHOR(preId: string) | FOREIGN(name: string)
  datatype Record = Record(content: Content, recordedAt: int)
  type Log = seq<Row<Kind, Record>>

  // ---------------------------------------------------------------- field checks

  predicate AllTexts(texts: seq<string>) {
    forall t :: t in texts ==> !Blank(t)
  }

  predicate AllClocks(clocks: seq<int>) {
    forall c :: c in clocks ==> c > 0
  }

  // ---------------------------------------------------------------- _sources

  type Qualifications = map<string, Quality>

  function SourceClocks(row: SourceRow): seq<int> {
    [row.observedAt, row.availableAt, row.retrievedAt, row.validatedAt]
  }

  /** The clock loop: each clock is checked for shape and then for visibility. */
  function ClocksError(clocks: seq<int>, cutoff: int): Option<Error> {
    if clocks == [] then None
    else if clocks[0] <= 0 then Some(ClockInvalid)
    else if clocks[0] > cutoff then Some(SourceNotVisible)
    else ClocksError(clocks[1..], cutoff)
  }

  function SourceError(row: SourceRow, cutoff: int, known: Qualifications): Option<Error> {
    if !AllTexts([row.ref] + row.texts) then Some(RequiredTextMissing)
    else if ClocksError(SourceClocks(row), cutoff).Some? then ClocksError(SourceClocks(row), cutoff)
    else if !(row.observedAt <= row.availableAt <= row.retrievedAt <= row.validatedAt) then Some(SourceClockOrderInvalid)
    else if row.quality == Unqualified then Some(UpstreamQualificationRequired)
    else if row.ref in known then Some(DuplicateSourceReference)
    else None
  }

  function SourcesSoFar(rows: seq<SourceRow>, cutoff: int): Result<Qualifications, Error> {
    if rows == [] then Ok(map[])
    else
      var known :- SourcesSoFar(rows[..|rows| - 1], cutoff);
      var row := rows[|rows| - 1];
      var e := SourceError(row, cutoff, known);
      if e.Some? then Err(e.value) else Ok(known[row.ref := row.quality])
  }

  /** `_sources`. */
  function Sources(rows: seq<SourceRow>, cutoff: int): Result<Qualifications, Error> {
    if rows == [] then Err(SourceReferencesMissing) else SourcesSoFar(rows, cutoff)
  }

  predicate Usable(refs: Qualifications, ref: string) {
    ref in refs && refs[ref] in {VALID, RESEARCH_ONLY}
  }

  /** `_anchor`. */
  function AnchorError(a: Anchor, refs: Qualifications, cutoff: int): Option<Error> {
    if a.price <= 0.0 then Some(PriceAnchorInvalid)
    else if a.currency == OtherCurrency then Some(PriceCurrencyRequired)
    else if a.basis == OtherBasis then Some(PriceBasisRequired)
    else if a.observedAt <= 0 then Some(ClockInvalid)
    else if a.observedAt > cutoff || !Usable(refs, a.ref) then Some(PriceAnchorSourceInvalid)
    else None
  }

  // ---------------------------------------------------------------- _append and read_pre

  /** `_append`: the new table and the record that stands for the payload. */
  function Append(log: Log, kind: Kind, id: string, content: Content, now: int): Result<(Log, Record), Error> {
    if now <= 0 then Err(ClockInvalid)
    else if Blank(id) then Err(RequiredTextMissing)
    else
      match Event(log, id, kind)
      case Some(prior) => if prior.content != content then Err(Store(FrozenEventConflict)) else Ok((log, prior))
      case None =>
        match Recorded(log, id, kind, Record(content, now))
        case Ok(log') => Ok((log', Record(content, now)))
        case Err(e) => Err(Store(e))
  }

  datatype PreRecord = PreRecord(frozen: Frozen, recordedAt: int)

  /** `read_pre`. */
  function ReadPre(log: Log, id: string, hash: PreHash): Result<PreRecord, Error> {
    match Event(log, id, PRE)
    case None => Err(PreNotFound)
    case Some(record) =>
      if record.content.PreContent? && hash == HashOf(record.content.frozen)
      then Ok(PreRecord(record.content.frozen, record.recordedAt)) else Err(PreHashMismatch)
  }

  // ---------------------------------------------------------------- freeze_pre

  function ClaimError(c: Claim, generatedAt: int, ids: set<string>): Option<Error> {
    if !AllTexts([c.id] + c.texts) then Some(RequiredTextMissing)
    else if c.targetAt <= 0 then Some(ClockInvalid)
    else if !(7 * DAY_MS <= c.targetAt - generatedAt <= 21 * DAY_MS) then Some(HorizonOutsideRange)
    else if c.id in ids then Some(DuplicateClaimId)
    else None
  }

  /** The claim loop: the ids seen, or the first rejection. */
  function ClaimIds(claims: seq<Claim>, generatedAt: int): Result<set<string>, Error> {
    if claims == [] then Ok({})
    else
      var ids :- ClaimIds(claims[..|claims| - 1], generatedAt);
      var c := claims[|claims| - 1];
      var e := ClaimError(c, generatedAt, ids);
      if e.Some? then Err(e.value) else Ok(ids + {c.id})
  }

  /** Everything `freeze_pre` checks that does not depend on the table. */
  function CheckedPre(calendar: Calendar, pre: Pre, now: int): Result<Schedule, Error> {
    if !AllClocks([now, pre.generatedAt, pre.cutoff]) then Err(ClockInvalid)
    else if !(pre.cutoff <= pre.generatedAt <= now) then Err(PreClockOrderInvalid)
    else if !AllTexts(pre.texts) then Err(RequiredTextMissing)
    else
      match calendar(pre.session)
      case None => Err(SessionNotCovered)
      case Some(schedule) =>
        var refs :- Sources(pre.sources, pre.cutoff);
        var e := AnchorError(pre.anchor, refs, pre.cutoff);
        if e.Some? then Err(e.value)
        else if pre.claims == [] then Err(FalsifiableClaimsRequired)
        else
          var _ :- ClaimIds(pre.claims, pre.generatedAt);
          Ok(schedule)
  }

  function TimingOf(schedule: Schedule, generatedAt: int, frozenAt: int): Timing {
    if schedule.PreDue() <= generatedAt <= frozenAt < schedule.open then PRE_WINDOW else OUTSIDE_PRE_WINDOW
  }

  /** The clock at which this id was, or is now being, frozen. */
  function FrozenAt(log: Log, id: string, now: int): int {
    match Event(log, id, PRE)
    case Some(prior) => prior.recordedAt
    case None => now
  }

  /** `freeze_pre`. */
  function FreezePre(calendar: Calendar, log: Log, pre: Pre, now: int): Result<(Log, Record), Error> {
    var schedule :- CheckedPre(calendar, pre, now);
    var timing := TimingOf(schedule, pre.generatedAt, FrozenAt(log, pre.id, now));
    Append(log, PRE, pre.id, PreContent(Frozen(pre, schedule, timing)), now)
  }

  // ---------------------------------------------------------------- freeze_post

  /** `targets`: later duplicates would win, as in a dictionary display. */
  function Targets(claims: seq<Claim>): map<string, int> {
    if claims == [] then map[]
    else Targets(claims[..|claims| - 1])[claims[|claims| - 1].id := claims[|claims| - 1].targetAt]
  }

  function ObservedTimes(rows: seq<SourceRow>): map<string, int> {
    if rows == [] then map[]
    else ObservedTimes(rows[..|rows| - 1])[rows[|rows| - 1].ref := rows[|rows| - 1].observedAt]
  }

  function ReviewIds(reviews: seq<Review>): seq<string> {
    seq(|reviews|, i requires 0 <= i < |reviews| => reviews[i].claim)
  }

  predicate ObservedSince(refs: seq<string>, observed: map<string, int>, required: int) {
    exists ref :: ref in refs && ref in observed && observed[ref] >= required
  }

  function ReviewError(r: Review, refs: Qualifications, observed: map<string, int>, targets: map<string, int>,
                       recordedAt: int, cutoff: int): Option<Error>
    requires r.claim in targets
  {
    if !r.exactFields then Some(ReviewRedefinesTarget)
    else if Blank(r.reason) then Some(RequiredTextMissing)
    else if exists ref :: ref in r.refs && ref !in refs then Some(ReviewSourceUnknown)
    else if r.verdict in {SUPPORTED, REFUTED} && (r.refs == [] || exists ref :: ref in r.refs && !Usable(refs, ref))
    then Some(ReviewEvidenceBlocked)
    else if r.verdict in {SUPPORTED, REFUTED}
         && !ObservedSince(r.refs, observed, if r.verdict == SUPPORTED then targets[r.claim] else recordedAt)
    then Some(ReviewOutcomeObservationMissing)
    else if r.verdict == SUPPORTED && cutoff < targets[r.claim] then Some(HorizonNotComplete)
    else None
  }

  predicate CoversTargets(reviews: seq<Review>, targets: map<string, int>) {
    |reviews| == |targets| && Elements(ReviewIds(reviews)) == targets.Keys
  }

  /** The review loop. */
  function ReviewsError(reviews: seq<Review>, refs: Qualifications, observed: map<string, int>, targets: map<string, int>,
                        recordedAt: int, cutoff: int): Option<Error>
    requires forall i :: 0 <= i < |reviews| ==> reviews[i].claim in targets
  {
    if reviews == [] then None
    else
      var e := ReviewsError(reviews[..|reviews| - 1], refs, observed, targets, recordedAt, cutoff);
      if e.Some? then e else ReviewError(reviews[|reviews| - 1], refs, observed, targets, recordedAt, cutoff)
  }

  lemma ReviewsTargeted(reviews: seq<Review>, targets: map<string, int>)
    requires CoversTargets(reviews, targets)
    ensures forall i :: 0 <= i < |reviews| ==> reviews[i].claim in targets
  {
    forall i | 0 <= i < |reviews| ensures reviews[i].claim in targets {
      assert ReviewIds(reviews)[i] in Elements(ReviewIds(reviews));
    }
  }

  /** Everything `freeze_post` checks against the PRE record it names. */
  function PostError(calendar: Calendar, pre: PreRecord, post: Post, now: int): Option<Error> {
    var original := pre.frozen.pre;
    if !AllClocks([post.generatedAt, post.cutoff]) then Some(ClockInvalid)
    else if !(pre.recordedAt <= post.cutoff <= post.generatedAt <= now) then Some(PostClockOrderInvalid)
    else
      match calendar(post.session)
      case None => Some(SessionNotCovered)
      case Some(schedule) =>
        if post.session < original.session || post.generatedAt < schedule.PostDue() || post.cutoff < schedule.close
        then Some(PostBeforeSessionReview)
        else if !AllTexts(post.texts) then Some(RequiredTextMissing)
        else ReviewOutcome(pre, post)
  }

  function ReviewOutcome(pre: PreRecord, post: Post): Option<Error> {
    match Sources(post.sources, post.cutoff)
    case Err(e) => Some(e)
    case Ok(refs) =>
      var targets := Targets(pre.frozen.pre.claims);
      if !CoversTargets(post.reviews, targets) then Some(MustReviewEachClaim)
      else
        ReviewsTargeted(post.reviews, targets);
        ReviewsError(post.reviews, refs, ObservedTimes(post.sources), targets, pre.recordedAt, post.cutoff)
  }

  /** `freeze_post`. */
  function FreezePost(calendar: Calendar, log: Log, post: Post, now: int): Result<(Log, Record), Error> {
    if now <= 0 then Err(ClockInvalid)
    else
      var pre :- ReadPre(log, post.preId, post.preHash);
      var e := PostError(calendar, pre, post, now);
      if e.Some? then Err(e.value)
      else Append(log, POST, post.id, PostContent(post, pre.frozen.timing), now)
  }

  // ---------------------------------------------------------------- revise_price_anchor

  /** The end of the anchor list a revision must extend: the latest revision, or the PRE itself. */
  datatype Tail = Tail(id: string, anchor: Anchor, at: int)

  function TailAfter(r: Revision): Tail {
    Tail(r.id, r.newAnchor, r.changedAt)
  }

  function TailOf(log: Log, preId: string, pre: PreRecord): Tail {
    var last := Latest(log, ANCHOR(preId));
    if last.Some? && last.value.content.AnchorContent?
    then TailAfter(last.value.content.revision)
    else Tail(preId, pre.frozen.pre.anchor, pre.recordedAt)
  }

  /** Checks of a revision that do not look at earlier revisions. */
  function RevisionError(pre: PreRecord, r: Revision, now: int): Option<Error> {
    if Blank(r.reason) then Some(RequiredTextMissing)
    else if r.changedAt <= 0 then Some(ClockInvalid)
    else if !(pre.recordedAt <= r.changedAt <= now) then Some(AnchorRevisionClockInvalid)
    else
      match Sources(r.sources, r.changedAt)
      case Err(e) => Some(e)
      case Ok(refs) => AnchorError(r.newAnchor, refs, r.changedAt)
  }

  predicate ExtendsTail(t: Tail, r: Revision) {
    r.previousId == t.id && r.oldAnchor == t.anchor && r.changedAt >= t.at
  }

  /** `revise_price_anchor`. */
  function ReviseAnchor(log: Log, r: Revision, now: int): Result<(Log, Record), Error> {
    if now <= 0 then Err(ClockInvalid)
    else
      var pre :- ReadPre(log, r.preId, r.preHash);
      var e := RevisionError(pre, r, now);
      if e.Some? then Err(e.value)
      else if Event(log, r.id, ANCHOR(r.preId)).None? && !ExtendsTail(TailOf(log, r.preId, pre), r)
      then Err(AnchorHistoryMismatch)
      else Append(log, ANCHOR(r.preId), r.id, AnchorContent(r), now)
  }

  // ---------------------------------------------------------------- runs

  /** Any operation, accepted or not, including writes by other research. */
  datatype Op = OpPre(pre: Pre, now: int) | OpPost(post: Post, now: int) | OpAnchor(revision: Revision, now: int)
              | OpForeign(id: string, name: string, text: string, now: int)

  function Attempt(calendar: Calendar, log: Log, op: Op): Result<(Log, Record), Error> {
    match op
    case OpPre(pre, now) => FreezePre(calendar, log, pre, now)
    case OpPost(post, now) => FreezePost(calendar, log, post, now)
    case OpAnchor(revision, now) => ReviseAnchor(log, revision, now)
    case OpForeign(id, name, text, now) => Append(log, FOREIGN(name), id, ForeignContent(text), now)
  }

  function Step(calendar: Calendar, log: Log, op: Op): Log {
    match Attempt(calendar, log, op)
    case Ok((log', _)) => log'
    case Err(_) => log
  }

  function Run(calendar: Calendar, log: Log, ops: seq<Op>): Log {
    if ops == [] then log else Step(calendar, Run(calendar, log, ops[..|ops| - 1]), ops[|ops| - 1])
  }
}
