/** Values held by the prospective capture archive and the pure decisions of one capture.

    SHA-256 is the free constructor `Sha256`: two digests are equal exactly when their
    preimages are. Archive paths are content addresses, so a path is represented by the
    digest in its file name; a tampered file is a map entry whose value does not hash to
    its key. The market calendar, the page scraper, the order of hexadecimal digests and
    the listing of a directory are arbitrary functions supplied by `Contracts`. */
module CaptureModel {
  import opened Common
  import opened Sorting

  newtype byte = x: int | 0 <= x < 256
  type Bytes = seq<byte>

  /** `Malformed` stands for any text that is not the digest of anything. */
  datatype Digest<T> = Malformed | Sha256(preimage: T)

  datatype Ticker = IBIT | BITB | ARKB | HODL | GBTC | BTC

  const READY_TICKERS: seq<Ticker> := [IBIT, BITB, ARKB, HODL, GBTC, BTC]
  const MAX_CLOCK_SKEW_MS := 300_000

  datatype ContentType = TextHtml | TextPlain | OtherType
  datatype EvidenceClass = CurrentFirstSeenCapture | ImmutableProviderArchive | OfficialFiling | SyntheticFixture

  datatype ErrorCode =
    | NowMsInvalid
    | FetchRaised(code: nat)
    | FetchStatusNotOk | FetchFinalUrlNotLocked | FetchContentTypeNotAllowed | FetchBodyInvalid
    | FetchBodyTooLarge | FetchRetrievedAtInvalid | FetchRetrievedAtClockSkew
    | ExistingBytesHashMismatch
    | IdentityHashMismatch | IdentityBindingMismatch | RawSha256Mismatch
    | SourceUrlNotLocked | FirstSeenInvalid | FirstSeenBeforeObservation
    | AdapterError(code: nat)
    | ObservedPrecedesExpected | ObservedFollowsExpected
    | ReceiptMissing | ReceiptSha256Mismatch | RawPathNotContentAddressed | RawMissing
    | RawSizeMismatch | SnapshotBindingMismatch | SnapshotHashMismatch | ReceiptIdentityMismatch
    | ReceiptCaptureHashMismatch | ReceiptFirstSeenInvalid | ReceiptParentHashMismatch | ReplaySnapshotMismatch
    | RawBytesRequired | TimestampInvalid | FirstSeenAfterRetrieval | CoverageReversed
    | CoverageAfterRetrieval | CurrentCaptureBackdated | SyntheticReplayEligible
    | FirstSeenConflict | ArtifactIdentityConflict | RetrievalPrecedesFirstCapture
    | StagedRawArtifactMismatch
    | DuplicateArtifactIdentity | ManifestInvalid | ManifestHashInvalid
    | NoError

  datatype DecisionState = MarketClosed | NotDue | CalendarOutOfRange | CaptureDue
  datatype Decision = Decision(state: DecisionState, expectedSession: int)

  datatype ContractHashes = ContractHashes(capture: nat, adapter: nat, acquisition: nat, source: nat, protocol: nat)

  datatype Fields = Fields(nav: real, netAssets: real, shares: real)

  /** The locked contracts, together with the functions the model leaves open. */
  datatype Contracts = Contracts(
    hashes: ContractHashes,
    registryHash: nat,
    authorityHash: nat,
    maxBytes: nat,
    url: Ticker -> string,
    decide: nat -> Decision,
    observedAtMs: int -> int,
    extractDate: (Ticker, Bytes, ContentType) -> Result<int, ErrorCode>,
    extractFields: (Ticker, Bytes, ContentType, int) -> Result<Fields, ErrorCode>,
    hexRank: Digest<Bytes> -> int,
    listing: set<Digest<Receipt>> -> seq<Digest<Receipt>>)
  {
    /** The locked adapter contract names a different page for every ready ticker, the
        hexadecimal order separates digests, and the sorted listing of a directory names
        the files in it. */
    ghost predicate Valid() {
      && (forall t, u :: url(t) == url(u) ==> t == u)
      && (forall d, e :: hexRank(d) == hexRank(e) ==> d == e)
      && (forall ds :: Elements(listing(ds)) == ds)
    }
  }

  // ---------------------------------------------------------------- contracts exist

  function ByteRank(s: Bytes): nat {
    if s == [] then 0 else ByteRank(s[..|s| - 1]) * 257 + s[|s| - 1] as int + 1
  }

  lemma {:induction false} ByteRankSeparates(a: Bytes, b: Bytes)
    requires ByteRank(a) == ByteRank(b)
    ensures a == b
    decreases |a|
  {
    if a != [] && b != [] {
      var m, n := |a| - 1, |b| - 1;
      var x, y := ByteRank(a[..m]), ByteRank(b[..n]);
      assert x * 257 + a[m] as int == y * 257 + b[n] as int;
      assert x == y && a[m] == b[n];
      ByteRankSeparates(a[..m], b[..n]);
      assert a == a[..m] + [a[m]] && b == b[..n] + [b[n]];
    }
  }

  function DigestRank(d: Digest<Bytes>): int {
    match d
    case Malformed => -1
    case Sha256(body) => ByteRank(body)
  }

  ghost function AnyListing<T(!new)>(ds: set<T>): (r: seq<T>)
    ensures Elements(r) == ds
  {
    if ds == {} then []
    else
      var d :| d in ds;
      var rest := AnyListing(ds - {d});
      assert forall x :: x in rest <==> x in Elements(rest);
      assert Elements([d] + rest) == {d} + Elements(rest);
      [d] + rest
  }

  function TickerName(t: Ticker): string {
    match t
    case IBIT => "IBIT" case BITB => "BITB" case ARKB => "ARKB" case HODL => "HODL" case GBTC => "GBTC" case BTC => "BTC"
  }

  /** Whatever the hashes, calendar, clocks and scraper are, there are pages, an order of digests and directory
      listings that make valid contracts of them. */
  lemma ContractsExist(c: Contracts)
    ensures c.(url := TickerName, hexRank := DigestRank, listing := (ds: set<Digest<Receipt>>) => AnyListing(ds)).Valid()
  {
    forall d, e | DigestRank(d) == DigestRank(e) ensures d == e {
      if d.Sha256? && e.Sha256? {
        ByteRankSeparates(d.preimage, e.preimage);
      }
    }
  }

  datatype SnapshotBody = SnapshotBody(
    ticker: Ticker, url: string, contentType: ContentType, observedOn: int, observedAtMs: int,
    firstSeen: int, evidenceClass: EvidenceClass, replayEligible: bool, rawSha: Digest<Bytes>, fields: Fields)
  datatype Snapshot = Snapshot(body: SnapshotBody, sha: Digest<SnapshotBody>)

  datatype Artifact = Artifact(
    url: string, retrievedAt: int, firstSeen: int, coverageStart: int, coverageEnd: int,
    sha: Digest<Bytes>, size: nat, path: Digest<Bytes>, contentType: ContentType,
    evidenceClass: EvidenceClass, replayEligible: bool, revisionOf: Option<Digest<Bytes>>)

  datatype StagedRef = StagedRef(sha: Digest<Bytes>, size: nat, path: Digest<Bytes>)
  datatype CasRef<T> = CasRef(sha: Digest<T>, path: Digest<T>)

  datatype IdentityFields = IdentityFields(url: string, sha: Digest<Bytes>)
  datatype IdentityRecord = IdentityRecord(artifact: Artifact, recordSha: Digest<Artifact>)

  datatype Receipt = Receipt(hashes: ContractHashes, ticker: Ticker, observedOn: int, url: string,
                             artifact: Artifact, snapshot: Snapshot)

  datatype TickerState =
    | Captured
    | FetchFailedRetry | ParseFailedRetry | StaleSourceRetry
    | FutureDateBlocked | ArchiveValidationBlocked
  datatype TickerResult = TickerResult(
    state: TickerState, error: ErrorCode, url: string, staged: Option<StagedRef>,
    artifact: Option<Artifact>, snapshot: Option<Snapshot>, receipt: Option<CasRef<Receipt>>)

  datatype ManifestBody = ManifestBody(registry: nat, authority: nat, acquisition: nat, source: nat,
                                       createdAt: int, artifacts: seq<Artifact>)
  datatype Manifest = Manifest(body: ManifestBody, sha: Digest<ManifestBody>)

  datatype RunState =
    | MarketClosedNoCapture | NotDueNoCapture | BlockedCalendarOutOfRange
    | CompleteShadowCapture | PartialBlocked | BlockedNoValidCapture
    | PartialRetryRequired | RetryRequiredNoValidCapture
  datatype RunReport = RunReport(
    hashes: ContractHashes, runAt: int, decision: Decision, state: RunState,
    results: map<Ticker, TickerResult>, captured: nat, retry: nat, blocked: nat,
    manifest: Option<CasRef<ManifestBody>>)

  datatype Archive = Archive(
    raw: map<Digest<Bytes>, Bytes>,
    identities: map<Digest<IdentityFields>, IdentityRecord>,
    receipts: map<Digest<Receipt>, Receipt>,
    manifests: map<Digest<ManifestBody>, Manifest>,
    runs: map<Digest<RunReport>, RunReport>)

  const EMPTY_ARCHIVE := Archive(map[], map[], map[], map[], map[])

  // ---------------------------------------------------------------- fetch and parse

  datatype Fetch =
    | Raised(code: nat)
    | Response(status: int, finalUrl: string, contentType: ContentType, body: Bytes, retrievedAt: int)
  datatype Validated = Validated(contentType: ContentType, body: Bytes, retrievedAt: int)

  function Distance(x: int, y: int): nat {
    if x <= y then y - x else x - y
  }

  function ValidatedResponse(c: Contracts, t: Ticker, runAt: int, f: Fetch): Result<Validated, ErrorCode> {
    match f
    case Raised(code) => Err(FetchRaised(code))
    case Response(status, finalUrl, contentType, body, retrievedAt) =>
      if status != 200 then Err(FetchStatusNotOk)
      else if finalUrl != c.url(t) then Err(FetchFinalUrlNotLocked)
      else if contentType == OtherType then Err(FetchContentTypeNotAllowed)
      else if body == [] then Err(FetchBodyInvalid)
      else if |body| > c.maxBytes then Err(FetchBodyTooLarge)
      else if retrievedAt < 0 then Err(FetchRetrievedAtInvalid)
      else if Distance(retrievedAt, runAt) > MAX_CLOCK_SKEW_MS then Err(FetchRetrievedAtClockSkew)
      else Ok(Validated(contentType, body, retrievedAt))
  }

  /** `parse_issuer_snapshot` around the two scraping functions. */
  function ParseSnapshot(c: Contracts, t: Ticker, body: Bytes, url: string, ct: ContentType, firstSeen: int)
    : Result<Snapshot, ErrorCode>
  {
    if url != c.url(t) then Err(SourceUrlNotLocked)
    else if firstSeen < 0 then Err(FirstSeenInvalid)
    else
      var observedOn :- c.extractDate(t, body, ct);
      var observedAt := c.observedAtMs(observedOn);
      if firstSeen < observedAt then Err(FirstSeenBeforeObservation)
      else
        var fields :- c.extractFields(t, body, ct, observedOn);
        var b := SnapshotBody(t, url, ct, observedOn, observedAt, firstSeen, CurrentFirstSeenCapture, true,
                              Sha256(body), fields);
        Ok(Snapshot(b, Sha256(b)))
  }

  // ---------------------------------------------------------------- archive reads

  function IdentityKey(url: string, sha: Digest<Bytes>): Digest<IdentityFields> {
    Sha256(IdentityFields(url, sha))
  }

  function LoadExistingIdentity(s: Archive, url: string, sha: Digest<Bytes>): Result<Option<Artifact>, ErrorCode> {
    var key := IdentityKey(url, sha);
    if key !in s.identities then Ok(None)
    else
      var record := s.identities[key];
      var a := record.artifact;
      if record.recordSha != Sha256(a) then Err(IdentityHashMismatch)
      else if a.url != url || a.sha != sha then Err(IdentityBindingMismatch)
      else if a.path !in s.raw || Sha256(s.raw[a.path]) != sha then Err(RawSha256Mismatch)
      else Ok(Some(a))
  }

  function ReadReceipt(s: Archive, d: Digest<Receipt>): Result<Receipt, ErrorCode> {
    if d !in s.receipts then Err(ReceiptMissing)
    else
      var r := s.receipts[d];
      var a := r.artifact;
      if Sha256(r) != d then Err(ReceiptSha256Mismatch)
      else if a.path != a.sha then Err(RawPathNotContentAddressed)
      else if a.path !in s.raw then Err(RawMissing)
      else if Sha256(s.raw[a.path]) != a.sha then Err(RawSha256Mismatch)
      else if |s.raw[a.path]| != a.size then Err(RawSizeMismatch)
      else if r.snapshot.body.rawSha != a.sha then Err(SnapshotBindingMismatch)
      else if r.snapshot.sha != Sha256(r.snapshot.body) then Err(SnapshotHashMismatch)
      else
        var identity :- LoadExistingIdentity(s, r.snapshot.body.url, a.sha);
        if identity != Some(a) then Err(ReceiptIdentityMismatch) else Ok(r)
  }

  function ReplayReceipt(c: Contracts, s: Archive, d: Digest<Receipt>): Result<Snapshot, ErrorCode> {
    var r :- ReadReceipt(s, d);
    if r.hashes != c.hashes then Err(ReceiptParentHashMismatch)
    else if r.artifact.path !in s.raw then Err(RawMissing)
    else if r.artifact.firstSeen < 0 then Err(FirstSeenInvalid)
    else
      var replayed :- ParseSnapshot(c, r.ticker, s.raw[r.artifact.path], r.snapshot.body.url,
                                    r.artifact.contentType, r.artifact.firstSeen);
      if replayed != r.snapshot then Err(ReplaySnapshotMismatch) else Ok(replayed)
  }

  /** The receipts `_find_prior_revision` collects. */
  predicate PriorCandidate(r: Receipt, t: Ticker, on: int, sha: Digest<Bytes>) {
    r.ticker == t && r.observedOn == on && r.artifact.sha != sha
  }

  /** Python's order on (first_seen_at_ms, sha256). */
  predicate OlderOrSame(c: Contracts, a: Artifact, b: Artifact) {
    a.firstSeen < b.firstSeen || (a.firstSeen == b.firstSeen && c.hexRank(a.sha) <= c.hexRank(b.sha))
  }

  ghost predicate IsPrior(c: Contracts, s: Archive, t: Ticker, on: int, sha: Digest<Bytes>, p: Option<Digest<Bytes>>) {
    match p
    case None => forall d :: d in s.receipts ==> !PriorCandidate(s.receipts[d], t, on, sha)
    case Some(best) => exists d :: NewestCandidate(c, s, t, on, sha, d) && s.receipts[d].artifact.sha == best
  }

  ghost predicate NewestCandidate(c: Contracts, s: Archive, t: Ticker, on: int, sha: Digest<Bytes>, d: Digest<Receipt>) {
    && d in s.receipts && PriorCandidate(s.receipts[d], t, on, sha)
    && forall e :: e in s.receipts && PriorCandidate(s.receipts[e], t, on, sha)
         ==> OlderOrSame(c, s.receipts[e].artifact, s.receipts[d].artifact)
  }

  /** The exception `_find_prior_revision` raises at receipt `d`, if any. */
  function ScanError(c: Contracts, s: Archive, t: Ticker, on: int, sha: Digest<Bytes>, d: Digest<Receipt>): Option<ErrorCode> {
    match ReadReceipt(s, d)
    case Err(e) => Some(e)
    case Ok(r) =>
      if r.hashes.capture != c.hashes.capture then Some(ReceiptCaptureHashMismatch)
      else if PriorCandidate(r, t, on, sha) && r.artifact.firstSeen < 0 then Some(ReceiptFirstSeenInvalid)
      else None
  }

  lemma Listed(c: Contracts, s: Archive)
    requires c.Valid()
    ensures forall d :: d in c.listing(s.receipts.Keys) <==> d in s.receipts
  {
    var ds := s.receipts.Keys;
    assert Elements(c.listing(ds)) == ds;
    forall d ensures d in c.listing(ds) <==> d in s.receipts {
      assert d in c.listing(ds) <==> d in Elements(c.listing(ds));
    }
  }

  /** The exception of the first bad receipt among `ds`. */
  function FirstError(c: Contracts, s: Archive, t: Ticker, on: int, sha: Digest<Bytes>, ds: seq<Digest<Receipt>>): Option<ErrorCode> {
    if ds == [] then None
    else
      var before := FirstError(c, s, t, on, sha, ds[..|ds| - 1]);
      if before.Some? then before else ScanError(c, s, t, on, sha, ds[|ds| - 1])
  }

  lemma {:induction false} NewestExists(c: Contracts, s: Archive, t: Ticker, on: int, sha: Digest<Bytes>, ds: set<Digest<Receipt>>)
    returns (d: Digest<Receipt>)
    requires ds != {} && ds <= s.receipts.Keys
    requires forall e :: e in ds ==> PriorCandidate(s.receipts[e], t, on, sha)
    ensures d in ds
    ensures forall e :: e in ds ==> OlderOrSame(c, s.receipts[e].artifact, s.receipts[d].artifact)
    decreases |ds|
  {
    var x :| x in ds;
    if ds == {x} {
      d := x;
    } else {
      var rest := ds - {x};
      assert |rest| < |ds|;
      assert ds == rest + {x};
      var y := NewestExists(c, s, t, on, sha, rest);
      d := if OlderOrSame(c, s.receipts[x].artifact, s.receipts[y].artifact) then y else x;
      forall e | e in ds ensures OlderOrSame(c, s.receipts[e].artifact, s.receipts[d].artifact) {
        assert e == x || e in rest;
      }
    }
  }

  lemma PriorExists(c: Contracts, s: Archive, t: Ticker, on: int, sha: Digest<Bytes>)
    ensures exists p :: IsPrior(c, s, t, on, sha, p)
  {
    var ds := set d | d in s.receipts && PriorCandidate(s.receipts[d], t, on, sha);
    if ds == {} {
      forall d | d in s.receipts ensures !PriorCandidate(s.receipts[d], t, on, sha) {
        assert d !in ds;
      }
      assert IsPrior(c, s, t, on, sha, None);
    } else {
      var d := NewestExists(c, s, t, on, sha, ds);
      assert NewestCandidate(c, s, t, on, sha, d);
      assert IsPrior(c, s, t, on, sha, Some(s.receipts[d].artifact.sha));
    }
  }

  lemma PriorUnique(c: Contracts, s: Archive, t: Ticker, on: int, sha: Digest<Bytes>,
                    p: Option<Digest<Bytes>>, q: Option<Digest<Bytes>>)
    requires c.Valid() && IsPrior(c, s, t, on, sha, p) && IsPrior(c, s, t, on, sha, q)
    ensures p == q
  {
    if p.Some? {
      var d :| NewestCandidate(c, s, t, on, sha, d) && s.receipts[d].artifact.sha == p.value;
      if q.Some? {
        var e :| NewestCandidate(c, s, t, on, sha, e) && s.receipts[e].artifact.sha == q.value;
        assert c.hexRank(p.value) == c.hexRank(q.value);
      }
    }
  }

  /** `_find_prior_revision`: every stored receipt is re-read in listing order, and the first bad one blocks. */
  ghost function FindPriorRevision(c: Contracts, s: Archive, t: Ticker, on: int, sha: Digest<Bytes>)
    : (r: Result<Option<Digest<Bytes>>, ErrorCode>)
    ensures r.Ok? ==> IsPrior(c, s, t, on, sha, r.value)
  {
    var e := FirstError(c, s, t, on, sha, c.listing(s.receipts.Keys));
    if e.Some? then Err(e.value)
    else
      PriorExists(c, s, t, on, sha);
      var p :| IsPrior(c, s, t, on, sha, p);
      Ok(p)
  }

  // ---------------------------------------------------------------- archive writes

  function StagedOf(body: Bytes): StagedRef {
    StagedRef(Sha256(body), |body|, Sha256(body))
  }

  function StageRaw(s: Archive, body: Bytes): Result<(Archive, StagedRef), ErrorCode> {
    var d := Sha256(body);
    if d in s.raw then
      if Sha256(s.raw[d]) != d then Err(ExistingBytesHashMismatch) else Ok((s, StagedOf(body)))
    else Ok((s.(raw := s.raw[d := body]), StagedOf(body)))
  }

  /** `_bind_first_seen_metadata`: create the identity record, or return the first one unchanged. */
  function BindFirstSeen(s: Archive, a: Artifact): (Archive, Result<Artifact, ErrorCode>) {
    var key := IdentityKey(a.url, a.sha);
    if key in s.identities then
      var record := s.identities[key];
      var stored := record.artifact;
      if record.recordSha != Sha256(stored) then (s, Err(IdentityHashMismatch))
      else if stored.firstSeen != a.firstSeen then (s, Err(FirstSeenConflict))
      else if stored.(retrievedAt := a.retrievedAt) != a then (s, Err(ArtifactIdentityConflict))
      else if a.retrievedAt < stored.retrievedAt then (s, Err(RetrievalPrecedesFirstCapture))
      else (s, Ok(stored))
    else
      (s.(identities := s.identities[key := IdentityRecord(a, Sha256(a))]), Ok(a))
  }

  /** The argument checks of `archive_artifact`, in source order. */
  function ArtifactArgumentError(body: Bytes, m: Artifact): ErrorCode {
    if body == [] then RawBytesRequired
    else if m.evidenceClass == SyntheticFixture && m.replayEligible then SyntheticReplayEligible
    else if m.retrievedAt < 0 || m.firstSeen < 0 || m.coverageStart < 0 || m.coverageEnd < 0 then TimestampInvalid
    else if m.firstSeen > m.retrievedAt then FirstSeenAfterRetrieval
    else if m.coverageStart > m.coverageEnd then CoverageReversed
    else if m.coverageEnd > m.retrievedAt then CoverageAfterRetrieval
    else if m.evidenceClass == CurrentFirstSeenCapture
            && (m.coverageStart != m.firstSeen || m.coverageEnd != m.firstSeen) then CurrentCaptureBackdated
    else NoError
  }

  /** `archive_artifact`; the metadata arrives as an artifact whose address fields are recomputed. */
  function ArchiveArtifact(s: Archive, body: Bytes, m: Artifact): (Archive, Result<Artifact, ErrorCode>) {
    var e := ArtifactArgumentError(body, m);
    if e != NoError then (s, Err(e))
    else
      match StageRaw(s, body)
      case Err(x) => (s, Err(x))
      case Ok((s1, ref)) => BindFirstSeen(s1, m.(sha := ref.sha, size := ref.size, path := ref.path))
  }

  function AcquisitionMetadata(snap: Snapshot, v: Validated, revision: Option<Digest<Bytes>>): Artifact {
    var b := snap.body;
    Artifact(b.url, v.retrievedAt, b.firstSeen, b.firstSeen, b.firstSeen, b.rawSha, 0, b.rawSha, v.contentType,
             b.evidenceClass, b.evidenceClass == CurrentFirstSeenCapture, revision)
  }

  function MakeReceipt(c: Contracts, t: Ticker, a: Artifact, snap: Snapshot): Receipt {
    Receipt(c.hashes, t, snap.body.observedOn, snap.body.url, a, snap)
  }

  function WriteReceipt(s: Archive, r: Receipt): Result<(Archive, CasRef<Receipt>), ErrorCode> {
    var d := Sha256(r);
    if d in s.receipts then
      if Sha256(s.receipts[d]) != d then Err(ExistingBytesHashMismatch) else Ok((s, CasRef(d, d)))
    else Ok((s.(receipts := s.receipts[d := r]), CasRef(d, d)))
  }

  // ---------------------------------------------------------------- one ticker of a cycle

  function Unpromoted(state: TickerState, error: ErrorCode, url: string, staged: Option<StagedRef>): TickerResult {
    TickerResult(state, error, url, staged, None, None, None)
  }

  /** Identity lookup, first-seen choice and parse of a staged response. */
  function Snapshotted(c: Contracts, s: Archive, t: Ticker, v: Validated): Result<Snapshot, TickerResult> {
    var staged := Some(StagedOf(v.body));
    match LoadExistingIdentity(s, c.url(t), Sha256(v.body))
    case Err(e) => Err(Unpromoted(ArchiveValidationBlocked, e, c.url(t), staged))
    case Ok(existing) =>
      var firstSeen := if existing.Some? then existing.value.firstSeen else v.retrievedAt;
      match ParseSnapshot(c, t, v.body, c.url(t), v.contentType, firstSeen)
      case Err(e) =>
        var state := if e == FirstSeenBeforeObservation then FutureDateBlocked else ParseFailedRetry;
        Err(Unpromoted(state, e, c.url(t), staged))
      case Ok(snap) => Ok(snap)
  }

  /** Revision lookup, identity binding and receipt for a snapshot of the expected session. */
  ghost function Promote(c: Contracts, s: Archive, t: Ticker, v: Validated, snap: Snapshot)
    : (Archive, Result<TickerResult, ErrorCode>)
  {
    match FindPriorRevision(c, s, t, snap.body.observedOn, Sha256(v.body))
    case Err(e) => (s, Err(e))
    case Ok(prior) =>
      match ArchiveArtifact(s, v.body, AcquisitionMetadata(snap, v, prior))
      case (s1, Err(e)) => (s1, Err(e))
      case (s1, Ok(a)) =>
        if a.sha != Sha256(v.body) then (s1, Err(StagedRawArtifactMismatch))
        else
          match WriteReceipt(s1, MakeReceipt(c, t, a, snap))
          case Err(e) => (s1, Err(e))
          case Ok((s2, ref)) =>
            (s2, Ok(TickerResult(Captured, NoError, c.url(t),
                                 Some(StagedOf(v.body)),
                                 Some(a), Some(snap), Some(ref))))
  }

  /** The session test and the promotion of a parsed response. */
  ghost function CaptureSnapshot(c: Contracts, s: Archive, session: int, t: Ticker, v: Validated, snap: Snapshot): (Archive, TickerResult) {
    if snap.body.observedOn < session then
      (s, Unpromoted(StaleSourceRetry, ObservedPrecedesExpected, c.url(t), Some(StagedOf(v.body))))
    else if snap.body.observedOn > session then
      (s, Unpromoted(FutureDateBlocked, ObservedFollowsExpected, c.url(t), Some(StagedOf(v.body))))
    else
      match Promote(c, s, t, v, snap)
      case (s1, Err(e)) => (s1, Unpromoted(ArchiveValidationBlocked, e, c.url(t), Some(StagedOf(v.body))))
      case (s1, Ok(result)) => (s1, result)
  }

  /** The loop body once the response is staged; every exception is caught and becomes a result. */
  ghost function CaptureStaged(c: Contracts, s: Archive, session: int, t: Ticker, v: Validated): (Archive, TickerResult) {
    match Snapshotted(c, s, t, v)
    case Err(result) => (s, result)
    case Ok(snap) => CaptureSnapshot(c, s, session, t, v, snap)
  }

  /** What one iteration of the ticker loop does after a response validated; `Err` is an
      exception that no handler of the loop catches. */
  ghost function CaptureValidated(c: Contracts, s: Archive, session: int, t: Ticker, v: Validated)
    : Result<(Archive, TickerResult), ErrorCode>
  {
    var (s1, _) :- StageRaw(s, v.body);
    Ok(CaptureStaged(c, s1, session, t, v))
  }

  ghost function CaptureTicker(c: Contracts, s: Archive, runAt: int, session: int, t: Ticker, f: Fetch)
    : Result<(Archive, TickerResult), ErrorCode>
  {
    match ValidatedResponse(c, t, runAt, f)
    case Err(e) => Ok((s, Unpromoted(FetchFailedRetry, e, c.url(t), None)))
    case Ok(v) => CaptureValidated(c, s, session, t, v)
  }

  // ---------------------------------------------------------------- the cycle

  datatype CycleInput = CycleInput(runAt: int, fetches: map<Ticker, Fetch>)
  {
    /** A ticker without an entry is one whose fetcher raised. */
    function FetchOf(t: Ticker): Fetch {
      if t in fetches then fetches[t] else Raised(0)
    }
  }

  datatype Progress = Progress(s: Archive, results: map<Ticker, TickerResult>, artifacts: seq<Artifact>)

  /** State after the first `n` tickers of the loop in `run_capture_cycle`. */
  ghost function CaptureFirst(c: Contracts, s: Archive, input: CycleInput, session: int, n: nat): Result<Progress, ErrorCode>
    requires n <= |READY_TICKERS|
  {
    if n == 0 then Ok(Progress(s, map[], []))
    else
      var p :- CaptureFirst(c, s, input, session, n - 1);
      var t := READY_TICKERS[n - 1];
      var (s1, result) :- CaptureTicker(c, p.s, input.runAt, session, t, input.FetchOf(t));
      Ok(Progress(s1, p.results[t := result],
                  if result.artifact.Some? then p.artifacts + [result.artifact.value] else p.artifacts))
  }

  /** The archive after the first `n` tickers, whether or not an exception escaped one of them: a ticker
      that raises has written nothing. */
  ghost function LoopArchive(c: Contracts, s: Archive, input: CycleInput, session: int, n: nat): Archive
    requires n <= |READY_TICKERS|
  {
    match CaptureFirst(c, s, input, session, n)
    case Ok(p) => p.s
    case Err(_) => if n == 0 then s else LoopArchive(c, s, input, session, n - 1)
  }

  predicate ManifestOrder(c: Contracts, a: Artifact, b: Artifact) {
    a.coverageStart < b.coverageStart
    || (a.coverageStart == b.coverageStart && c.hexRank(a.sha) <= c.hexRank(b.sha))
  }

  predicate HasDuplicateIdentity(artifacts: seq<Artifact>) {
    exists i, j :: 0 <= i < j < |artifacts| && artifacts[i].url == artifacts[j].url && artifacts[i].sha == artifacts[j].sha
  }

  function BuildManifest(c: Contracts, artifacts: seq<Artifact>, createdAt: int): Result<Manifest, ErrorCode> {
    if createdAt < 0 then Err(TimestampInvalid)
    else
      var normalized := SortBy(artifacts, (a, b) => ManifestOrder(c, a, b));
      if HasDuplicateIdentity(normalized) then Err(DuplicateArtifactIdentity)
      else
        var b := ManifestBody(c.registryHash, c.authorityHash, c.hashes.acquisition, c.hashes.source, createdAt, normalized);
        Ok(Manifest(b, Sha256(b)))
  }

  /** Every check `validate_dataset_manifest` makes of one artifact row. */
  predicate ManifestArtifactValid(s: Archive, a: Artifact) {
    && a.path == a.sha && a.path in s.raw
    && Sha256(s.raw[a.path]) == a.sha
    && a.size == |s.raw[a.path]|
    && !(a.evidenceClass == SyntheticFixture && a.replayEligible)
    && 0 <= a.retrievedAt && 0 <= a.firstSeen && 0 <= a.coverageStart && 0 <= a.coverageEnd
    && a.firstSeen <= a.retrievedAt
    && a.coverageStart <= a.coverageEnd <= a.retrievedAt
    && (a.evidenceClass == CurrentFirstSeenCapture ==> a.coverageStart == a.firstSeen == a.coverageEnd)
  }

  /** `validate_dataset_manifest` returns no error. */
  predicate ManifestValid(s: Archive, m: Manifest) {
    && m.sha == Sha256(m.body)
    && (forall i :: 0 <= i < |m.body.artifacts| ==> ManifestArtifactValid(s, m.body.artifacts[i]))
    && (exists i :: 0 <= i < |m.body.artifacts| && m.body.artifacts[i].replayEligible
                    && m.body.artifacts[i].evidenceClass != SyntheticFixture)
  }

  function WriteManifest(s: Archive, m: Manifest): Result<(Archive, CasRef<ManifestBody>), ErrorCode> {
    if m.sha != Sha256(m.body) then Err(ManifestHashInvalid)
    else if m.sha in s.manifests then
      if s.manifests[m.sha] != m then Err(ExistingBytesHashMismatch) else Ok((s, CasRef(m.sha, m.sha)))
    else Ok((s.(manifests := s.manifests[m.sha := m]), CasRef(m.sha, m.sha)))
  }

  function PublishManifest(c: Contracts, s: Archive, artifacts: seq<Artifact>, runAt: int)
    : Result<(Archive, Option<CasRef<ManifestBody>>), ErrorCode>
  {
    if artifacts == [] then Ok((s, None))
    else
      var m :- BuildManifest(c, artifacts, runAt);
      if !ManifestValid(s, m) then Err(ManifestInvalid)
      else
        var (s1, ref) :- WriteManifest(s, m);
        Ok((s1, Some(ref)))
  }

  predicate IsRetry(st: TickerState) {
    st == FetchFailedRetry || st == ParseFailedRetry || st == StaleSourceRetry
  }

  predicate IsBlocked(st: TickerState) {
    st == FutureDateBlocked || st == ArchiveValidationBlocked
  }

  function CountCaptured(results: map<Ticker, TickerResult>): nat {
    |set t | t in results && results[t].state == Captured|
  }

  function CountRetry(results: map<Ticker, TickerResult>): nat {
    |set t | t in results && IsRetry(results[t].state)|
  }

  function CountBlocked(results: map<Ticker, TickerResult>): nat {
    |set t | t in results && IsBlocked(results[t].state)|
  }

  function RunStateOf(captured: nat, blocked: nat): RunState {
    if captured == |READY_TICKERS| then CompleteShadowCapture
    else if blocked > 0 && captured > 0 then PartialBlocked
    else if blocked > 0 then BlockedNoValidCapture
    else if captured > 0 then PartialRetryRequired
    else RetryRequiredNoValidCapture
  }

  function NoCaptureState(d: DecisionState): RunState
    requires d != CaptureDue
  {
    match d
    case MarketClosed => MarketClosedNoCapture
    case NotDue => NotDueNoCapture
    case CalendarOutOfRange => BlockedCalendarOutOfRange
  }

  function WriteRun(s: Archive, r: RunReport): Result<Archive, ErrorCode> {
    var d := Sha256(r);
    if d in s.runs then if Sha256(s.runs[d]) != d then Err(ExistingBytesHashMismatch) else Ok(s)
    else Ok(s.(runs := s.runs[d := r]))
  }

  /** The report of a cycle that is not due. */
  function IdleReport(c: Contracts, runAt: nat): RunReport
    requires c.decide(runAt).state != CaptureDue
  {
    RunReport(c.hashes, runAt, c.decide(runAt), NoCaptureState(c.decide(runAt).state), map[], 0, 0, 0, None)
  }

  /** The report a capture-due cycle writes about its results. */
  function ReportOf(c: Contracts, runAt: nat, results: map<Ticker, TickerResult>, manifest: Option<CasRef<ManifestBody>>): RunReport {
    RunReport(c.hashes, runAt, c.decide(runAt),
              RunStateOf(CountCaptured(results), CountBlocked(results)), results,
              CountCaptured(results), CountRetry(results), CountBlocked(results), manifest)
  }

  /** `run_capture_cycle`: the archive and report of a cycle that completes. */
  ghost function Cycle(c: Contracts, s: Archive, input: CycleInput): Result<(Archive, RunReport), ErrorCode> {
    if input.runAt < 0 then Err(NowMsInvalid)
    else if c.decide(input.runAt).state != CaptureDue then
      var report := IdleReport(c, input.runAt);
      var s1 :- WriteRun(s, report);
      Ok((s1, report))
    else
      var p :- CaptureFirst(c, s, input, c.decide(input.runAt).expectedSession, |READY_TICKERS|);
      var (s1, manifest) :- PublishManifest(c, p.s, p.artifacts, input.runAt);
      var report := ReportOf(c, input.runAt, p.results, manifest);
      var s2 :- WriteRun(s1, report);
      Ok((s2, report))
  }

  /** The archive a cycle leaves behind when an exception ends it. */
  ghost function Abandoned(c: Contracts, s: Archive, input: CycleInput): Archive {
    if input.runAt < 0 || c.decide(input.runAt).state != CaptureDue then s
    else
      var session := c.decide(input.runAt).expectedSession;
      match CaptureFirst(c, s, input, session, |READY_TICKERS|)
      case Err(_) => LoopArchive(c, s, input, session, |READY_TICKERS|)
      case Ok(p) =>
        match PublishManifest(c, p.s, p.artifacts, input.runAt)
        case Err(_) => p.s
        case Ok((s1, _)) => s1
  }

  /** The archive after a cycle, however it ends. */
  ghost function CycleArchive(c: Contracts, s: Archive, input: CycleInput): Archive {
    match Cycle(c, s, input)
    case Ok((s', _)) => s'
    case Err(_) => Abandoned(c, s, input)
  }
}
