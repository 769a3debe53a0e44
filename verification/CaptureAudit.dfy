/** The separately written archive auditor: which archives it accepts, when it raises instead of reporting,
    and the theorem that it accepts every archive the writer can reach. */
module CaptureAudit {
  import opened Common
  import opened CaptureModel
  import opened CaptureInvariant
  import opened CaptureReachable

  // ---------------------------------------------------------------- what the auditor accepts

  /** `_validate_raw_reference` records no error. */
  predicate RawReferenceOk(s: Archive, sha: Digest<Bytes>, path: Digest<Bytes>, size: nat) {
    sha.Sha256? && path == sha && sha in s.raw && Sha256(s.raw[sha]) == sha && size == |s.raw[sha]|
  }

  predicate ArtifactReferenceOk(s: Archive, a: Artifact) {
    RawReferenceOk(s, a.sha, a.path, a.size)
  }

  /** The per-ticker checks of one run report. */
  predicate ResultOk(s: Archive, r: TickerResult) {
    && (r.staged.Some? ==> RawReferenceOk(s, r.staged.value.sha, r.staged.value.path, r.staged.value.size))
    && if r.state == Captured then
         && r.artifact.Some? && r.snapshot.Some? && ArtifactReferenceOk(s, r.artifact.value)
         && r.receipt.Some? && r.receipt.value.sha.Sha256? && r.receipt.value.path == r.receipt.value.sha
       else r.artifact.None? && r.snapshot.None? && r.receipt.None?
  }

  function ExpectedState(d: DecisionState, captured: nat, blocked: nat): RunState {
    if d != CaptureDue then NoCaptureState(d) else RunStateOf(captured, blocked)
  }

  /** The checks of one run report other than its ticker results. */
  predicate HeaderOk(c: Contracts, k: Digest<RunReport>, run: RunReport) {
    && k == Sha256(run) && run.hashes == c.hashes
    && run.runAt >= 0 && run.decision == c.decide(run.runAt)
    && (if run.decision.state == CaptureDue then (forall t :: t in READY_TICKERS ==> t in run.results) else run.results == map[])
    && run.captured == CountCaptured(run.results) && run.retry == CountRetry(run.results)
    && run.blocked == CountBlocked(run.results)
    && run.state == ExpectedState(run.decision.state, CountCaptured(run.results), CountBlocked(run.results))
    && (if CountCaptured(run.results) > 0
        then run.manifest.Some? && run.manifest.value.sha.Sha256? && run.manifest.value.path == run.manifest.value.sha
        else run.manifest.None?)
  }

  /** A captured result together with the run and ticker it is reported under. */
  ghost predicate Reports(s: Archive, k: Digest<RunReport>, t: Ticker, d: Digest<Receipt>) {
    && k in s.runs && t in s.runs[k].results && s.runs[k].results[t].state == Captured
    && s.runs[k].results[t].receipt.Some? && s.runs[k].results[t].receipt.value.path == d
  }

  datatype Expected = Expected(ticker: Ticker, artifact: Option<Artifact>, snapshot: Option<Snapshot>)

  function ExpectedOf(t: Ticker, r: TickerResult): Expected {
    Expected(t, r.artifact, r.snapshot)
  }

  ghost predicate NoConflict(s: Archive) {
    forall k, t, k', t', d :: Reports(s, k, t, d) && Reports(s, k', t', d) ==>
      ExpectedOf(t, s.runs[k].results[t]) == ExpectedOf(t', s.runs[k'].results[t'])
  }

  ghost predicate RunsClean(c: Contracts, s: Archive) {
    && (forall k :: k in s.runs ==> HeaderOk(c, k, s.runs[k]))
    && (forall k, t :: k in s.runs && t in s.runs[k].results ==> ResultOk(s, s.runs[k].results[t]))
    && NoConflict(s)
  }

  ghost predicate ReceiptClean(c: Contracts, s: Archive, d: Digest<Receipt>)
    requires d in s.receipts
  {
    var r := s.receipts[d];
    && d == Sha256(r)
    && (exists k, t :: Reports(s, k, t, d))
    && (forall k, t :: Reports(s, k, t, d) ==>
          ExpectedOf(t, s.runs[k].results[t]) == Expected(r.ticker, Some(r.artifact), Some(r.snapshot)))
    && ReplayReceipt(c, s, d).Ok?
    && ArtifactReferenceOk(s, r.artifact)
  }

  ghost predicate ReceiptsClean(c: Contracts, s: Archive) {
    forall d :: d in s.receipts ==> ReceiptClean(c, s, d)
  }

  ghost predicate HasReceipt(s: Archive, a: Artifact) {
    exists d :: d in s.receipts && s.receipts[d].artifact == a
  }

  ghost predicate NamesManifest(s: Archive, m: Digest<ManifestBody>) {
    exists k :: k in s.runs && CountCaptured(s.runs[k].results) > 0 && s.runs[k].manifest == Some(CasRef(m, m))
  }

  ghost predicate ManifestClean(c: Contracts, s: Archive, m: Digest<ManifestBody>)
    requires m in s.manifests
  {
    var man := s.manifests[m];
    && man.sha.Sha256? && m == man.sha && NamesManifest(s, m)
    && man.body.registry == c.registryHash && man.body.authority == c.authorityHash
    && man.body.acquisition == c.hashes.acquisition && man.body.source == c.hashes.source
    && ManifestValid(s, man)
    && forall i :: 0 <= i < |man.body.artifacts| ==>
         ArtifactReferenceOk(s, man.body.artifacts[i]) && HasReceipt(s, man.body.artifacts[i])
  }

  ghost predicate ManifestsClean(c: Contracts, s: Archive) {
    forall m :: m in s.manifests ==> ManifestClean(c, s, m)
  }

  ghost predicate IdentityClean(s: Archive, k: Digest<IdentityFields>)
    requires k in s.identities
  {
    var a := s.identities[k].artifact;
    && s.identities[k].recordSha == Sha256(a) && k == IdentityKey(a.url, a.sha)
    && (exists d :: d in s.receipts && IdentityKey(s.receipts[d].snapshot.body.url, s.receipts[d].artifact.sha) == k)
    && ArtifactReferenceOk(s, a) && HasReceipt(s, a)
  }

  ghost predicate IdentitiesClean(s: Archive) {
    forall k :: k in s.identities ==> IdentityClean(s, k)
  }

  ghost predicate RunNamesRaw(s: Archive, d: Digest<Bytes>) {
    exists k, t :: k in s.runs && t in s.runs[k].results && ResultNamesRaw(s.runs[k].results[t], d)
  }

  predicate ResultNamesRaw(r: TickerResult, d: Digest<Bytes>) {
    (r.staged.Some? && r.staged.value.path == d) || (r.state == Captured && r.artifact.Some? && r.artifact.value.path == d)
  }

  ghost predicate RawNamed(s: Archive, d: Digest<Bytes>) {
    || RunNamesRaw(s, d)
    || (exists e :: e in s.receipts && s.receipts[e].artifact.path == d)
    || (exists m, i :: m in s.manifests && 0 <= i < |s.manifests[m].body.artifacts| && s.manifests[m].body.artifacts[i].path == d)
    || (exists k :: k in s.identities && s.identities[k].artifact.path == d)
  }

  ghost predicate RawClean(s: Archive, d: Digest<Bytes>)
    requires d in s.raw
  {
    d.Sha256? && Sha256(s.raw[d]) == d && RawNamed(s, d)
  }

  ghost predicate RawsClean(s: Archive) {
    forall d :: d in s.raw ==> RawClean(s, d)
  }

  /** The archive on which `audit_capture_archive` records no error. */
  ghost predicate Clean(c: Contracts, s: Archive) {
    RunsClean(c, s) && ReceiptsClean(c, s) && ManifestsClean(c, s) && IdentitiesClean(s) && RawsClean(s)
  }

  // ---------------------------------------------------------------- when the audit raises

  /** The receipt reads back under the current contracts, but its bytes no longer parse as an issuer page. The
      parser's exception is not one of those the receipt loop catches. */
  ghost predicate ReplayRaises(c: Contracts, s: Archive, d: Digest<Receipt>) {
    && ReadReceipt(s, d).Ok?
    && var r := s.receipts[d];
       && r.hashes == c.hashes && 0 <= r.artifact.firstSeen
       && ParseSnapshot(c, r.ticker, s.raw[r.artifact.path], r.snapshot.body.url, r.artifact.contentType, r.artifact.firstSeen).Err?
  }

  ghost predicate AuditRaises(c: Contracts, s: Archive) {
    exists d :: d in s.receipts && ReplayRaises(c, s, d)
  }

  lemma ReplayedDoesNotRaise(c: Contracts, s: Archive, d: Digest<Receipt>)
    requires ReplayReceipt(c, s, d).Ok?
    ensures !ReplayRaises(c, s, d)
  {
  }

  lemma CleanDoesNotRaise(c: Contracts, s: Archive)
    requires ReceiptsClean(c, s)
    ensures !AuditRaises(c, s)
  {
    forall d | d in s.receipts ensures !ReplayRaises(c, s, d) {
      assert ReceiptClean(c, s, d);
      ReplayedDoesNotRaise(c, s, d);
    }
  }

  lemma SoundDoesNotRaise(c: Contracts, s: Archive)
    requires Sound(c, s)
    ensures !AuditRaises(c, s)
  {
    forall d | d in s.receipts ensures !ReplayRaises(c, s, d) {
      SoundReceipt(c, s, d);
      ReplayedDoesNotRaise(c, s, d);
    }
  }

  const PAGE: Bytes := [1]

  /** A receipt that is intact in every respect but names a page the ticker is not fetched from. */
  function StrayReceipt(c: Contracts): Receipt {
    var url := c.url(IBIT) + "?";
    var body := SnapshotBody(IBIT, url, TextHtml, 0, 0, 0, CurrentFirstSeenCapture, true, Sha256(PAGE), Fields(0.0, 0.0, 0.0));
    var a := Artifact(url, 0, 0, 0, 0, Sha256(PAGE), 1, Sha256(PAGE), TextHtml, CurrentFirstSeenCapture, true, None);
    Receipt(c.hashes, IBIT, 0, url, a, Snapshot(body, Sha256(body)))
  }

  /** An archive that holds the stray receipt with its raw bytes and identity record. */
  function StrayArchive(c: Contracts): Archive {
    var r := StrayReceipt(c);
    Archive(map[Sha256(PAGE) := PAGE], map[IdentityKey(r.artifact.url, Sha256(PAGE)) := IdentityRecord(r.artifact, Sha256(r.artifact))],
            map[Sha256(r) := r], map[], map[])
  }

  /** Under any contracts there is an archive on which the audit raises: no report, not even a blocked one. */
  lemma StrayReceiptRaises(c: Contracts)
    ensures AuditRaises(c, StrayArchive(c))
  {
    var s, r := StrayArchive(c), StrayReceipt(c);
    assert |PAGE| == 1;
    assert LoadExistingIdentity(s, r.snapshot.body.url, r.artifact.sha) == Ok(Some(r.artifact));
    assert ReadReceipt(s, Sha256(r)) == Ok(r);
    assert ReplayRaises(c, s, Sha256(r));
  }

  // ---------------------------------------------------------------- writer and auditor agree

  lemma HeldRuns(c: Contracts, s: Archive)
    requires RunsHeld(c, s)
    ensures RunsClean(c, s)
  {
    forall k | k in s.runs ensures HeaderOk(c, k, s.runs[k]) {
      assert RunHeld(c, s, k);
    }
    forall k, t | k in s.runs && t in s.runs[k].results
      ensures ResultOk(s, s.runs[k].results[t])
      ensures ResultHeld(c, s, t, s.runs[k].results[t])
    {
      assert RunHeld(c, s, k);
    }
  }

  lemma HeldReceipt(c: Contracts, s: Archive, d: Digest<Receipt>)
    requires Held(c, s, map[]) && d in s.receipts
    ensures ReceiptClean(c, s, d)
  {
    assert ReceiptHeld(c, s, d) && ReceiptCited(s, map[], d);
    var k :| k in s.runs && Cites(s.runs[k].results, d);
    var t :| t in s.runs[k].results && s.runs[k].results[t].receipt == Some(CasRef(d, d));
    ReportedHeld(c, s, k, t);
    assert Reports(s, k, t, d);
    forall k, t | Reports(s, k, t, d)
      ensures ExpectedOf(t, s.runs[k].results[t])
              == Expected(s.receipts[d].ticker, Some(s.receipts[d].artifact), Some(s.receipts[d].snapshot))
    {
      ReportedHeld(c, s, k, t);
    }
    SoundReceipt(c, s, d);
  }

  lemma ReportedHeld(c: Contracts, s: Archive, k: Digest<RunReport>, t: Ticker)
    requires RunsHeld(c, s) && k in s.runs && t in s.runs[k].results
    ensures ResultHeld(c, s, t, s.runs[k].results[t])
  {
    assert RunHeld(c, s, k);
  }

  lemma HeldManifest(c: Contracts, s: Archive, m: Digest<ManifestBody>)
    requires ManifestsHeld(c, s) && RunsHeld(c, s) && m in s.manifests
    ensures ManifestClean(c, s, m)
  {
    assert ManifestHeld(c, s, m);
    var k :| k in s.runs && s.runs[k].manifest == Some(CasRef(m, m));
    assert RunHeld(c, s, k);
    assert NamesManifest(s, m);
    var artifacts := s.manifests[m].body.artifacts;
    forall i | 0 <= i < |artifacts| ensures ArtifactReferenceOk(s, artifacts[i]) && HasReceipt(s, artifacts[i]) {
      assert ManifestArtifactValid(s, artifacts[i]) && artifacts[i] in artifacts;
    }
  }

  lemma HeldReference(c: Contracts, s: Archive, d: Digest<Receipt>)
    requires d in s.receipts && ReceiptHeld(c, s, d)
    ensures s.receipts[d].snapshot.body.url == s.receipts[d].artifact.url && ArtifactReferenceOk(s, s.receipts[d].artifact)
  {
    var r := s.receipts[d];
    ParseFacts(c, r.ticker, s.raw[r.artifact.sha], c.url(r.ticker), r.artifact.contentType, r.artifact.firstSeen);
    hide ParseSnapshot;
  }

  lemma HeldIdentity(c: Contracts, s: Archive, k: Digest<IdentityFields>)
    requires Sound(c, s) && k in s.identities
    ensures IdentityClean(s, k)
  {
    hide ReceiptHeld, ArtifactReferenceOk;
    assert IdentityHeld(s, k);
    var d :| d in s.receipts && s.receipts[d].artifact == s.identities[k].artifact;
    assert ReceiptHeld(c, s, d);
    HeldReference(c, s, d);
  }

  lemma HeldRaw(c: Contracts, s: Archive, d: Digest<Bytes>)
    requires RawAddressed(s) && RawsCited(s, map[]) && RunsHeld(c, s) && d in s.raw
    ensures RawClean(s, d)
  {
    assert RawCited(s, map[], d);
    var k :| k in s.runs && Stages(s.runs[k].results, d);
    var t :| t in s.runs[k].results && s.runs[k].results[t].staged.Some? && s.runs[k].results[t].staged.value.sha == d;
    ReportedHeld(c, s, k, t);
    assert ResultNamesRaw(s.runs[k].results[t], d);
  }

  lemma HeldIsClean(c: Contracts, s: Archive)
    requires Held(c, s, map[])
    ensures Clean(c, s)
  {
    HeldRuns(c, s);
    forall d | d in s.receipts ensures ReceiptClean(c, s, d) { HeldReceipt(c, s, d); }
    forall m | m in s.manifests ensures ManifestClean(c, s, m) { HeldManifest(c, s, m); }
    forall k | k in s.identities ensures IdentityClean(s, k) { HeldIdentity(c, s, k); }
    forall d | d in s.raw ensures RawClean(s, d) { HeldRaw(c, s, d); }
  }

  /** Writer and auditor agree: every archive reached by capture cycles from the empty archive,
      whatever was fetched and parsed, audits with no error. */
  lemma ReachableArchivesAuditClean(c: Contracts, inputs: seq<CycleInput>)
    requires c.Valid()
    ensures Clean(c, RunCycles(c, EMPTY_ARCHIVE, inputs))
  {
    ReachableHeld(c, inputs);
    HeldIsClean(c, RunCycles(c, EMPTY_ARCHIVE, inputs));
  }

  // ---------------------------------------------------------------- orphans are blocked

  lemma NoOrphanReceipt(c: Contracts, s: Archive, s': Archive, d: Digest<Receipt>)
    requires RunsHeld(c, s) && s'.runs == s.runs && d in s'.receipts && ReceiptClean(c, s', d)
    ensures d in s.receipts
  {
    var k, t :| Reports(s', k, t, d);
    ReportedHeld(c, s, k, t);
  }

  lemma NoOrphanManifest(c: Contracts, s: Archive, s': Archive, m: Digest<ManifestBody>)
    requires RunsHeld(c, s) && s'.runs == s.runs && m in s'.manifests && ManifestClean(c, s', m)
    ensures m in s.manifests
  {
    var k :| k in s'.runs && CountCaptured(s'.runs[k].results) > 0 && s'.runs[k].manifest == Some(CasRef(m, m));
    assert RunHeld(c, s, k);
  }

  ghost predicate ReceiptsIdentified(s: Archive) {
    forall d :: d in s.receipts ==> IdentityKey(s.receipts[d].snapshot.body.url, s.receipts[d].artifact.sha) in s.identities
  }

  lemma HeldReceiptsIdentified(c: Contracts, s: Archive)
    requires ReceiptsHeld(c, s)
    ensures ReceiptsIdentified(s)
  {
    forall d | d in s.receipts
      ensures IdentityKey(s.receipts[d].snapshot.body.url, s.receipts[d].artifact.sha) in s.identities
    {
      assert ReceiptHeld(c, s, d);
      var r := s.receipts[d];
      ParseFacts(c, r.ticker, s.raw[r.artifact.sha], c.url(r.ticker), r.artifact.contentType, r.artifact.firstSeen);
    }
  }

  /** Every raw file named by the reports, receipts, manifests or identities of a held archive exists. */
  lemma NamedRawStored(c: Contracts, s: Archive, d: Digest<Bytes>)
    requires Held(c, s, map[]) && RawNamed(s, d)
    ensures d in s.raw
  {
    hide ParseSnapshot, ManifestsHeld, RunsHeld, IdentitiesHeld, ResultsHeld, ReceiptsCited, RawsCited;
    if RunNamesRaw(s, d) {
      var k, t :| k in s.runs && t in s.runs[k].results && ResultNamesRaw(s.runs[k].results[t], d);
      ReportedHeld(c, s, k, t);
    } else {
      var a := NamedArtifact(c, s, d);
      var e :| e in s.receipts && s.receipts[e].artifact == a;
      assert ReceiptHeld(c, s, e);
    }
  }

  lemma NamedArtifact(c: Contracts, s: Archive, d: Digest<Bytes>) returns (a: Artifact)
    requires ManifestsHeld(c, s) && IdentitiesHeld(s) && RawNamed(s, d) && !RunNamesRaw(s, d)
    ensures a.path == d && HasReceipt(s, a)
  {
    if e :| e in s.receipts && s.receipts[e].artifact.path == d {
      a := s.receipts[e].artifact;
    } else if k :| k in s.identities && s.identities[k].artifact.path == d {
      assert IdentityHeld(s, k);
      a := s.identities[k].artifact;
    } else {
      var m, i :| m in s.manifests && 0 <= i < |s.manifests[m].body.artifacts| && s.manifests[m].body.artifacts[i].path == d;
      assert ManifestHeld(c, s, m);
      a := s.manifests[m].body.artifacts[i];
      assert a in s.manifests[m].body.artifacts;
    }
  }

  lemma SameReceipts(c: Contracts, s: Archive, s': Archive)
    requires RunsHeld(c, s) && s'.runs == s.runs && ReceiptsClean(c, s')
    requires Grows(s.receipts, s'.receipts)
    ensures s'.receipts == s.receipts
  {
    forall d | d in s'.receipts ensures d in s.receipts {
      NoOrphanReceipt(c, s, s', d);
    }
    SameMap(s.receipts, s'.receipts);
  }

  lemma SameManifests(c: Contracts, s: Archive, s': Archive)
    requires RunsHeld(c, s) && s'.runs == s.runs && ManifestsClean(c, s')
    requires Grows(s.manifests, s'.manifests)
    ensures s'.manifests == s.manifests
  {
    hide RunsHeld;
    forall m | m in s'.manifests ensures m in s.manifests {
      NoOrphanManifest(c, s, s', m);
    }
    SameMap(s.manifests, s'.manifests);
  }

  lemma SameIdentities(s: Archive, s': Archive)
    requires ReceiptsIdentified(s) && s'.receipts == s.receipts && IdentitiesClean(s')
    requires Grows(s.identities, s'.identities)
    ensures s'.identities == s.identities
  {
    forall k | k in s'.identities ensures k in s.identities {
      assert IdentityClean(s', k);
    }
    SameMap(s.identities, s'.identities);
  }

  lemma NamedAlike(s: Archive, s': Archive, d: Digest<Bytes>)
    requires s'.runs == s.runs && s'.receipts == s.receipts && s'.manifests == s.manifests && s'.identities == s.identities
    requires RawNamed(s', d)
    ensures RawNamed(s, d)
  {
    if RunNamesRaw(s', d) {
      var k, t :| k in s'.runs && t in s'.runs[k].results && ResultNamesRaw(s'.runs[k].results[t], d);
      assert RunNamesRaw(s, d);
    }
  }

  lemma SameRaws(c: Contracts, s: Archive, s': Archive)
    requires Held(c, s, map[]) && RawsClean(s')
    requires s'.runs == s.runs && s'.receipts == s.receipts && s'.manifests == s.manifests && s'.identities == s.identities
    requires Grows(s.raw, s'.raw)
    ensures s'.raw == s.raw
  {
    forall d | d in s'.raw ensures d in s.raw {
      NamedAlike(s, s', d);
      NamedRawStored(c, s, d);
    }
    SameMap(s.raw, s'.raw);
  }

  lemma CleanGrowthIsNone(c: Contracts, s: Archive, s': Archive)
    requires Held(c, s, map[]) && Extends(s, s') && s'.runs == s.runs && Clean(c, s')
    ensures s' == s
  {
    SameReceipts(c, s, s');
    SameManifests(c, s, s');
    HeldReceiptsIdentified(c, s);
    SameIdentities(s, s');
    SameRaws(c, s, s');
  }

  /** A reachable archive to which anything was added without a new run report is not clean: a clean archive
      with the same reports is the reachable archive itself. */
  lemma InterruptedCycleBlocked(c: Contracts, inputs: seq<CycleInput>, s': Archive)
    requires c.Valid() && var s := RunCycles(c, EMPTY_ARCHIVE, inputs); Extends(s, s') && s'.runs == s.runs
    ensures Clean(c, s') <==> s' == RunCycles(c, EMPTY_ARCHIVE, inputs)
  {
    var s := RunCycles(c, EMPTY_ARCHIVE, inputs);
    ReachableHeld(c, inputs);
    if Clean(c, s') {
      CleanGrowthIsNone(c, s, s');
    } else {
      HeldIsClean(c, s);
    }
  }

  /** A cycle interrupted after any ticker leaves an archive that the auditor reports on, and blocks exactly
      when the cycle had added a file. */
  lemma InterruptedLoopBlocked(c: Contracts, inputs: seq<CycleInput>, input: CycleInput, session: int, n: nat)
    requires c.Valid() && n <= |READY_TICKERS|
    ensures var s := RunCycles(c, EMPTY_ARCHIVE, inputs);
            var p := CaptureFirst(c, s, input, session, n);
            p.Ok? && !AuditRaises(c, p.value.s) && (Clean(c, p.value.s) <==> p.value.s == s)
  {
    var s := RunCycles(c, EMPTY_ARCHIVE, inputs);
    ReachableHeld(c, inputs);
    hide RunCycles, CaptureFirst, Sound, RawsCited, ReceiptsCited, ManifestsHeld, RunsHeld, ResultsHeld;
    TickersKeep(c, s, input, session, n);
    LoopKeepsRuns(c, s, input, session, n);
    var p := CaptureFirst(c, s, input, session, n).value;
    SoundDoesNotRaise(c, p.s);
    InterruptedCycleBlocked(c, inputs, p.s);
  }
}
