/** What every capture step keeps: each file is addressed by its content, each receipt replays
    against the raw bytes and the identity record it names, and every file is cited by a run
    report or by the results of the cycle in progress. */
module CaptureInvariant {
  import opened Common
  import opened CaptureModel

  /** Archives only grow, and no stored file changes. */
  ghost predicate Extends(s: Archive, s': Archive) {
    && Grows(s.raw, s'.raw) && Grows(s.identities, s'.identities) && Grows(s.receipts, s'.receipts)
    && Grows(s.manifests, s'.manifests) && Grows(s.runs, s'.runs)
  }

  ghost predicate Grows<K, V>(before: map<K, V>, after: map<K, V>) {
    forall k :: k in before ==> k in after && after[k] == before[k]
  }

  ghost predicate RawAddressed(s: Archive) {
    forall d :: d in s.raw ==> d == Sha256(s.raw[d])
  }

  /** A promoted observation: archived bytes, bound identity, replayable snapshot, stored receipt. */
  ghost predicate EvidenceHeld(c: Contracts, s: Archive, t: Ticker, a: Artifact, snap: Snapshot) {
    && a.url == c.url(t) && a.path == a.sha
    && a.sha in s.raw && a.sha == Sha256(s.raw[a.sha]) && a.size == |s.raw[a.sha]|
    && 0 <= a.firstSeen <= a.retrievedAt && a.coverageStart == a.firstSeen == a.coverageEnd
    && a.evidenceClass == CurrentFirstSeenCapture && a.replayEligible
    && IdentityKey(a.url, a.sha) in s.identities
    && s.identities[IdentityKey(a.url, a.sha)] == IdentityRecord(a, Sha256(a))
    && ParseSnapshot(c, t, s.raw[a.sha], c.url(t), a.contentType, a.firstSeen) == Ok(snap)
    && Sha256(MakeReceipt(c, t, a, snap)) in s.receipts
    && s.receipts[Sha256(MakeReceipt(c, t, a, snap))] == MakeReceipt(c, t, a, snap)
  }

  ghost predicate StagedHeld(s: Archive, ref: StagedRef) {
    ref.path == ref.sha && ref.sha in s.raw && ref.sha == Sha256(s.raw[ref.sha]) && ref.size == |s.raw[ref.sha]|
  }

  ghost predicate ResultHeld(c: Contracts, s: Archive, t: Ticker, r: TickerResult) {
    && (r.staged.Some? ==> StagedHeld(s, r.staged.value))
    && if r.state == Captured then
         && r.artifact.Some? && r.snapshot.Some? && r.receipt.Some?
         && EvidenceHeld(c, s, t, r.artifact.value, r.snapshot.value)
         && r.receipt.value == CasRef(Sha256(MakeReceipt(c, t, r.artifact.value, r.snapshot.value)),
                                      Sha256(MakeReceipt(c, t, r.artifact.value, r.snapshot.value)))
       else r.artifact.None? && r.snapshot.None? && r.receipt.None?
  }

  ghost predicate ResultsHeld(c: Contracts, s: Archive, results: map<Ticker, TickerResult>) {
    forall t :: t in results ==> ResultHeld(c, s, t, results[t])
  }

  /** Receipt `d` belongs to a captured result of `results`. */
  ghost predicate Cites(results: map<Ticker, TickerResult>, d: Digest<Receipt>) {
    exists t :: t in results && results[t].receipt == Some(CasRef(d, d))
  }

  ghost predicate Stages(results: map<Ticker, TickerResult>, d: Digest<Bytes>) {
    exists t :: t in results && results[t].staged.Some? && results[t].staged.value.sha == d
  }

  ghost predicate ReceiptCited(s: Archive, pending: map<Ticker, TickerResult>, d: Digest<Receipt>) {
    Cites(pending, d) || exists k :: k in s.runs && Cites(s.runs[k].results, d)
  }

  ghost predicate RawCited(s: Archive, pending: map<Ticker, TickerResult>, d: Digest<Bytes>) {
    Stages(pending, d) || exists k :: k in s.runs && Stages(s.runs[k].results, d)
  }

  ghost predicate ReceiptHeld(c: Contracts, s: Archive, d: Digest<Receipt>)
    requires d in s.receipts
  {
    var r := s.receipts[d];
    r == MakeReceipt(c, r.ticker, r.artifact, r.snapshot) && d == Sha256(r)
    && EvidenceHeld(c, s, r.ticker, r.artifact, r.snapshot)
  }

  /** The identity record is the one a stored receipt names. */
  ghost predicate IdentityHeld(s: Archive, k: Digest<IdentityFields>)
    requires k in s.identities
  {
    var a := s.identities[k].artifact;
    && k == IdentityKey(a.url, a.sha) && s.identities[k].recordSha == Sha256(a)
    && exists d :: d in s.receipts && s.receipts[d].artifact == a
  }

  ghost predicate ManifestHeld(c: Contracts, s: Archive, m: Digest<ManifestBody>)
    requires m in s.manifests
  {
    var man := s.manifests[m];
    && m == man.sha && ManifestValid(s, man)
    && man.body.registry == c.registryHash && man.body.authority == c.authorityHash
    && man.body.acquisition == c.hashes.acquisition && man.body.source == c.hashes.source
    && (forall a :: a in man.body.artifacts ==> exists d :: d in s.receipts && s.receipts[d].artifact == a)
    && exists k :: k in s.runs && s.runs[k].manifest == Some(CasRef(m, m))
  }

  /** The report's own arithmetic: what `run_capture_cycle` computes from its results. */
  ghost predicate ReportConsistent(c: Contracts, r: RunReport) {
    && r.hashes == c.hashes && 0 <= r.runAt && r.decision == c.decide(r.runAt)
    && r.captured == CountCaptured(r.results) && r.retry == CountRetry(r.results) && r.blocked == CountBlocked(r.results)
    && (r.decision.state == CaptureDue ==>
          && (forall t :: t in r.results)
          && r.state == RunStateOf(r.captured, r.blocked))
    && (r.decision.state != CaptureDue ==>
          r.results == map[] && r.state == NoCaptureState(r.decision.state))
    && (r.manifest.Some? <==> r.captured > 0)
    && (r.manifest.Some? ==> r.manifest.value.path == r.manifest.value.sha && r.manifest.value.sha.Sha256?)
  }

  ghost predicate RunHeld(c: Contracts, s: Archive, k: Digest<RunReport>)
    requires k in s.runs
  {
    && k == Sha256(s.runs[k]) && ReportConsistent(c, s.runs[k]) && ResultsHeld(c, s, s.runs[k].results)
    && (s.runs[k].manifest.Some? ==> s.runs[k].manifest.value.sha in s.manifests)
  }

  ghost predicate RawsCited(s: Archive, pending: map<Ticker, TickerResult>) {
    forall d :: d in s.raw ==> RawCited(s, pending, d)
  }

  ghost predicate ReceiptsCited(s: Archive, pending: map<Ticker, TickerResult>) {
    forall d :: d in s.receipts ==> ReceiptCited(s, pending, d)
  }

  ghost predicate IdentitiesHeld(s: Archive) {
    forall k :: k in s.identities ==> IdentityHeld(s, k)
  }

  ghost predicate ReceiptsHeld(c: Contracts, s: Archive) {
    forall d :: d in s.receipts ==> ReceiptHeld(c, s, d)
  }

  ghost predicate ManifestsHeld(c: Contracts, s: Archive) {
    forall m :: m in s.manifests ==> ManifestHeld(c, s, m)
  }

  ghost predicate RunsHeld(c: Contracts, s: Archive) {
    forall k :: k in s.runs ==> RunHeld(c, s, k)
  }

  /** The part of the invariant that does not speak about citations. */
  ghost predicate Sound(c: Contracts, s: Archive) {
    RawAddressed(s) && IdentitiesHeld(s) && ReceiptsHeld(c, s)
  }

  /** The invariant, relative to the results a running cycle has not reported yet. */
  ghost predicate Held(c: Contracts, s: Archive, pending: map<Ticker, TickerResult>) {
    && Sound(c, s) && RawsCited(s, pending) && ReceiptsCited(s, pending)
    && ManifestsHeld(c, s) && RunsHeld(c, s) && ResultsHeld(c, s, pending)
  }

  // ---------------------------------------------------------------- growth keeps evidence

  lemma ResultsGrow(c: Contracts, s: Archive, s': Archive, results: map<Ticker, TickerResult>)
    requires Extends(s, s') && ResultsHeld(c, s, results)
    ensures ResultsHeld(c, s', results)
  {
    forall t | t in results ensures ResultHeld(c, s', t, results[t]) {
      assert ResultHeld(c, s, t, results[t]);
    }
  }

  lemma ReceiptsGrow(c: Contracts, s: Archive, s': Archive, d: Digest<Receipt>)
    requires Extends(s, s') && d in s.receipts && ReceiptHeld(c, s, d)
    ensures ReceiptHeld(c, s', d)
  {
  }

  lemma ManifestGrows(c: Contracts, s: Archive, s': Archive, m: Digest<ManifestBody>)
    requires Extends(s, s') && m in s.manifests && ManifestHeld(c, s, m)
    ensures ManifestHeld(c, s', m)
  {
    var man := s.manifests[m];
    forall a | a in man.body.artifacts ensures exists d :: d in s'.receipts && s'.receipts[d].artifact == a {
      var d :| d in s.receipts && s.receipts[d].artifact == a;
      assert d in s'.receipts;
    }
    var k :| k in s.runs && s.runs[k].manifest == Some(CasRef(m, m));
    assert k in s'.runs;
    forall i | 0 <= i < |man.body.artifacts| ensures ManifestArtifactValid(s', man.body.artifacts[i]) {
      assert ManifestArtifactValid(s, man.body.artifacts[i]);
    }
  }

  lemma ManifestsGrow(c: Contracts, s: Archive, s': Archive)
    requires Extends(s, s') && ManifestsHeld(c, s) && s'.manifests == s.manifests
    ensures ManifestsHeld(c, s')
  {
    forall m | m in s'.manifests ensures ManifestHeld(c, s', m) {
      ManifestGrows(c, s, s', m);
    }
  }

  lemma RunsGrow(c: Contracts, s: Archive, s': Archive)
    requires Extends(s, s') && RunsHeld(c, s) && s'.runs == s.runs
    ensures RunsHeld(c, s')
  {
    forall k | k in s'.runs ensures RunHeld(c, s', k) {
      assert RunHeld(c, s, k);
      ResultsGrow(c, s, s', s.runs[k].results);
    }
  }

  lemma IdentityGrows(s: Archive, s': Archive, k: Digest<IdentityFields>)
    requires Extends(s, s') && k in s.identities && IdentityHeld(s, k)
    ensures IdentityHeld(s', k)
  {
    var d :| d in s.receipts && s.receipts[d].artifact == s.identities[k].artifact;
    assert d in s'.receipts;
  }

  lemma ReceiptCitedGrows(s: Archive, s': Archive, p: map<Ticker, TickerResult>, p': map<Ticker, TickerResult>, d: Digest<Receipt>)
    requires forall k :: k in s.runs ==> k in s'.runs && s'.runs[k] == s.runs[k]
    requires forall t :: t in p ==> t in p' && p'[t] == p[t]
    requires ReceiptCited(s, p, d)
    ensures ReceiptCited(s', p', d)
  {
    if Cites(p, d) {
      var t :| t in p && p[t].receipt == Some(CasRef(d, d));
      assert t in p';
    } else {
      var k :| k in s.runs && Cites(s.runs[k].results, d);
      assert k in s'.runs;
    }
  }

  lemma RawCitedGrows(s: Archive, s': Archive, p: map<Ticker, TickerResult>, p': map<Ticker, TickerResult>, d: Digest<Bytes>)
    requires forall k :: k in s.runs ==> k in s'.runs && s'.runs[k] == s.runs[k]
    requires forall t :: t in p ==> t in p' && p'[t] == p[t]
    requires RawCited(s, p, d)
    ensures RawCited(s', p', d)
  {
    if Stages(p, d) {
      var t :| t in p && p[t].staged.Some? && p[t].staged.value.sha == d;
      assert t in p';
    } else {
      var k :| k in s.runs && Stages(s.runs[k].results, d);
      assert k in s'.runs;
    }
  }

  // ---------------------------------------------------------------- one ticker

  /** `s'` adds to `s` at most the files of the ticker result `r`. */
  ghost predicate AddsFilesOf(s: Archive, s': Archive, r: TickerResult) {
    && Extends(s, s') && s'.manifests == s.manifests && s'.runs == s.runs
    && (forall d :: d in s'.raw && d !in s.raw ==> r.staged.Some? && d == r.staged.value.sha)
    && (forall d :: d in s'.receipts && d !in s.receipts ==> r.receipt == Some(CasRef(d, d)))
    && (forall k :: k in s'.identities && k !in s.identities ==>
          r.artifact.Some? && k == IdentityKey(r.artifact.value.url, r.artifact.value.sha))
  }

  lemma RawsCitedStep(s: Archive, s': Archive, p: map<Ticker, TickerResult>, t: Ticker, r: TickerResult)
    requires RawsCited(s, p) && t !in p && AddsFilesOf(s, s', r)
    ensures RawsCited(s', p[t := r])
  {
    var p' := p[t := r];
    forall d | d in s'.raw ensures RawCited(s', p', d) {
      if d in s.raw {
        RawCitedGrows(s, s', p, p', d);
      } else {
        assert t in p' && p'[t] == r;
        assert Stages(p', d);
      }
    }
  }

  lemma ReceiptsCitedStep(s: Archive, s': Archive, p: map<Ticker, TickerResult>, t: Ticker, r: TickerResult)
    requires ReceiptsCited(s, p) && t !in p && AddsFilesOf(s, s', r)
    ensures ReceiptsCited(s', p[t := r])
  {
    var p' := p[t := r];
    forall d | d in s'.receipts ensures ReceiptCited(s', p', d) {
      if d in s.receipts {
        ReceiptCitedGrows(s, s', p, p', d);
      } else {
        assert t in p' && p'[t] == r;
        assert Cites(p', d);
      }
    }
  }

  lemma IdentitiesStep(c: Contracts, s: Archive, s': Archive, t: Ticker, r: TickerResult)
    requires IdentitiesHeld(s) && AddsFilesOf(s, s', r) && ResultHeld(c, s', t, r)
    ensures IdentitiesHeld(s')
  {
    forall k | k in s'.identities ensures IdentityHeld(s', k) {
      if k in s.identities {
        IdentityGrows(s, s', k);
      } else {
        assert r.state == Captured;
        var d := r.receipt.value.sha;
        assert d in s'.receipts && s'.receipts[d].artifact == r.artifact.value;
      }
    }
  }

  lemma ReceiptsStep(c: Contracts, s: Archive, s': Archive, t: Ticker, r: TickerResult)
    requires ReceiptsHeld(c, s) && AddsFilesOf(s, s', r) && ResultHeld(c, s', t, r)
    ensures ReceiptsHeld(c, s')
  {
    forall d | d in s'.receipts ensures ReceiptHeld(c, s', d) {
      if d in s.receipts {
        ReceiptsGrow(c, s, s', d);
      }
    }
  }

  lemma ResultsStep(c: Contracts, s: Archive, s': Archive, p: map<Ticker, TickerResult>, t: Ticker, r: TickerResult)
    requires ResultsHeld(c, s, p) && t !in p && Extends(s, s') && ResultHeld(c, s', t, r)
    ensures ResultsHeld(c, s', p[t := r])
  {
    ResultsGrow(c, s, s', p);
  }

  /** Adding one ticker's files and its result keeps the invariant. */
  lemma HeldStep(c: Contracts, s: Archive, s': Archive, p: map<Ticker, TickerResult>, t: Ticker, r: TickerResult)
    requires Held(c, s, p) && t !in p && AddsFilesOf(s, s', r)
    requires RawAddressed(s') && ResultHeld(c, s', t, r)
    ensures Held(c, s', p[t := r])
  {
    RawsCitedStep(s, s', p, t, r);
    ReceiptsCitedStep(s, s', p, t, r);
    IdentitiesStep(c, s, s', t, r);
    ReceiptsStep(c, s, s', t, r);
    ManifestsGrow(c, s, s');
    RunsGrow(c, s, s');
    ResultsStep(c, s, s', p, t, r);
  }

  lemma SoundIdentity(c: Contracts, s: Archive, url: string, sha: Digest<Bytes>)
    requires Sound(c, s)
    ensures LoadExistingIdentity(s, url, sha).Ok?
    ensures IdentityKey(url, sha) in s.identities ==>
              LoadExistingIdentity(s, url, sha) == Ok(Some(s.identities[IdentityKey(url, sha)].artifact))
    ensures IdentityKey(url, sha) !in s.identities ==> LoadExistingIdentity(s, url, sha) == Ok(None)
  {
    var key := IdentityKey(url, sha);
    if key in s.identities {
      assert IdentityHeld(s, key);
      var d :| d in s.receipts && s.receipts[d].artifact == s.identities[key].artifact;
      assert ReceiptHeld(c, s, d);
    }
  }

  /** What a successful parse says about its snapshot. */
  lemma ParseFacts(c: Contracts, t: Ticker, body: Bytes, url: string, ct: ContentType, firstSeen: int)
    ensures match ParseSnapshot(c, t, body, url, ct, firstSeen)
            case Ok(snap) =>
              && url == c.url(t) && 0 <= firstSeen && snap.sha == Sha256(snap.body)
              && snap.body.ticker == t && snap.body.url == url && snap.body.contentType == ct
              && snap.body.firstSeen == firstSeen && snap.body.rawSha == Sha256(body)
              && snap.body.evidenceClass == CurrentFirstSeenCapture
              && c.extractDate(t, body, ct) == Ok(snap.body.observedOn)
            case Err(_) => true
  {
  }

  lemma ReceiptReads(c: Contracts, s: Archive, d: Digest<Receipt>)
    requires d in s.receipts && ReceiptHeld(c, s, d)
    ensures ReadReceipt(s, d) == Ok(s.receipts[d])
  {
    var r := s.receipts[d];
    ParseFacts(c, r.ticker, s.raw[r.artifact.sha], c.url(r.ticker), r.artifact.contentType, r.artifact.firstSeen);
    assert LoadExistingIdentity(s, r.snapshot.body.url, r.artifact.sha) == Ok(Some(r.artifact));
  }

  lemma SoundReceipt(c: Contracts, s: Archive, d: Digest<Receipt>)
    requires Sound(c, s) && d in s.receipts
    ensures ReadReceipt(s, d) == Ok(s.receipts[d])
    ensures ReplayReceipt(c, s, d) == Ok(s.receipts[d].snapshot)
  {
    assert ReceiptHeld(c, s, d);
    ReceiptReads(c, s, d);
    var r := s.receipts[d];
    ParseFacts(c, r.ticker, s.raw[r.artifact.sha], c.url(r.ticker), r.artifact.contentType, r.artifact.firstSeen);
  }

  lemma ReceiptScans(c: Contracts, s: Archive, t: Ticker, on: int, sha: Digest<Bytes>, d: Digest<Receipt>)
    requires d in s.receipts && ReceiptHeld(c, s, d)
    ensures ScanError(c, s, t, on, sha, d).None?
  {
    ReceiptReads(c, s, d);
    hide ReadReceipt, ParseSnapshot;
  }

  lemma {:induction false} SoundAmong(c: Contracts, s: Archive, t: Ticker, on: int, sha: Digest<Bytes>, ds: seq<Digest<Receipt>>)
    requires Sound(c, s) && forall d :: d in ds ==> d in s.receipts
    ensures FirstError(c, s, t, on, sha, ds).None?
  {
    hide ScanError, Sound;
    if ds != [] {
      var last := ds[|ds| - 1];
      assert last in ds;
      SoundAmong(c, s, t, on, sha, ds[..|ds| - 1]);
      SoundScans(c, s, t, on, sha, last);
    }
  }

  lemma SoundScans(c: Contracts, s: Archive, t: Ticker, on: int, sha: Digest<Bytes>, d: Digest<Receipt>)
    requires Sound(c, s) && d in s.receipts
    ensures ScanError(c, s, t, on, sha, d).None?
  {
    hide ScanError, ReceiptHeld;
    assert ReceiptHeld(c, s, d);
    ReceiptScans(c, s, t, on, sha, d);
  }

  lemma SoundReceipts(c: Contracts, s: Archive, t: Ticker, on: int, sha: Digest<Bytes>)
    requires c.Valid() && Sound(c, s)
    ensures FirstError(c, s, t, on, sha, c.listing(s.receipts.Keys)).None?
  {
    hide Sound, FirstError;
    Listed(c, s);
    SoundAmong(c, s, t, on, sha, c.listing(s.receipts.Keys));
  }

  /** First-seen clock under which a response is parsed. */
  function FirstSeenFor(c: Contracts, s: Archive, t: Ticker, v: Validated): int {
    var key := IdentityKey(c.url(t), Sha256(v.body));
    if key in s.identities then s.identities[key].artifact.firstSeen else v.retrievedAt
  }

  lemma SnapshottedOutcome(c: Contracts, s: Archive, t: Ticker, v: Validated)
    requires Sound(c, s)
    ensures match Snapshotted(c, s, t, v)
            case Ok(snap) => ParseSnapshot(c, t, v.body, c.url(t), v.contentType, FirstSeenFor(c, s, t, v)) == Ok(snap)
            case Err(r) => Uncaptured(r, v.body)
  {
    hide ParseSnapshot, Sound;
    SoundIdentity(c, s, c.url(t), Sha256(v.body));
  }

  /** The stored identity of a validated response, when there is one, is the first capture of it. */
  lemma StoredArtifact(c: Contracts, s: Archive, t: Ticker, v: Validated)
    requires Sound(c, s) && IdentityKey(c.url(t), Sha256(v.body)) in s.identities
    ensures var record := s.identities[IdentityKey(c.url(t), Sha256(v.body))];
            var a := record.artifact;
            && record == IdentityRecord(a, Sha256(a))
            && a.url == c.url(t) && a.sha == Sha256(v.body) && a.path == a.sha
            && 0 <= a.firstSeen <= a.retrievedAt
  {
    var key := IdentityKey(c.url(t), Sha256(v.body));
    assert IdentityHeld(s, key);
    var d :| d in s.receipts && s.receipts[d].artifact == s.identities[key].artifact;
    assert ReceiptHeld(c, s, d);
  }

  /** A promoted artifact describes exactly the validated response. */
  ghost predicate DescribesResponse(c: Contracts, t: Ticker, v: Validated, firstSeen: int, a: Artifact) {
    && a.url == c.url(t) && a.sha == Sha256(v.body) && a.path == a.sha && a.size == |v.body|
    && a.contentType == v.contentType && a.firstSeen == firstSeen
    && 0 <= a.firstSeen <= a.retrievedAt && a.coverageStart == a.firstSeen == a.coverageEnd
    && a.evidenceClass == CurrentFirstSeenCapture && a.replayEligible
  }

  /** A validated artifact is bound to the archive either as a new identity or as the stored one. */
  lemma ArchiveOutcome(c: Contracts, s: Archive, t: Ticker, v: Validated, snap: Snapshot, prior: Option<Digest<Bytes>>)
    requires Sha256(v.body) in s.raw && s.raw[Sha256(v.body)] == v.body
    requires FirstCaptureStored(c, s, t, v)
    requires snap.body.url == c.url(t) && snap.body.firstSeen == FirstSeenFor(c, s, t, v)
    requires snap.body.evidenceClass == CurrentFirstSeenCapture && snap.body.rawSha == Sha256(v.body)
    ensures var (s', r) := ArchiveArtifact(s, v.body, AcquisitionMetadata(snap, v, prior));
            var key := IdentityKey(c.url(t), Sha256(v.body));
            match r
            case Err(_) => s' == s
            case Ok(a) =>
              && s' == s.(identities := s.identities[key := IdentityRecord(a, Sha256(a))])
              && (if key in s.identities then s' == s else a.retrievedAt == v.retrievedAt) && a.retrievedAt <= v.retrievedAt
              && DescribesResponse(c, t, v, FirstSeenFor(c, s, t, v), a) && a.revisionOf == prior
  {
    var key := IdentityKey(c.url(t), Sha256(v.body));
    var m := AcquisitionMetadata(snap, v, prior);
    if ArtifactArgumentError(v.body, m) == NoError {
      var a := m.(sha := Sha256(v.body), size := |v.body|, path := Sha256(v.body));
      assert ArchiveArtifact(s, v.body, m) == BindFirstSeen(s, a);
      if key in s.identities {
        assert s.identities[key := s.identities[key]] == s.identities;
      }
    }
  }

  /** Binding the identity and storing the receipt of a described response holds its evidence. */
  lemma EvidenceStored(c: Contracts, s: Archive, s': Archive, t: Ticker, v: Validated, firstSeen: int, a: Artifact, snap: Snapshot)
    requires Sha256(v.body) in s.raw && s.raw[Sha256(v.body)] == v.body
    requires DescribesResponse(c, t, v, firstSeen, a)
    requires ParseSnapshot(c, t, v.body, c.url(t), v.contentType, firstSeen) == Ok(snap)
    requires s' == s.(identities := s.identities[IdentityKey(c.url(t), Sha256(v.body)) := IdentityRecord(a, Sha256(a))],
                      receipts := s.receipts[Sha256(MakeReceipt(c, t, a, snap)) := MakeReceipt(c, t, a, snap)])
    ensures EvidenceHeld(c, s', t, a, snap)
  {
  }

  /** Files and result of a promoted response. */
  ghost predicate Promoted(c: Contracts, s: Archive, s': Archive, t: Ticker, v: Validated, firstSeen: int, snap: Snapshot,
                           res: TickerResult)
  {
    && res.state == Captured && res.artifact.Some? && res.snapshot == Some(snap)
    && res.staged == Some(StagedOf(v.body))
    && var a := res.artifact.value;
       var receipt := MakeReceipt(c, t, a, snap);
       && res.receipt == Some(CasRef(Sha256(receipt), Sha256(receipt)))
       && DescribesResponse(c, t, v, firstSeen, a)
       && s' == s.(identities := s.identities[IdentityKey(c.url(t), Sha256(v.body)) := IdentityRecord(a, Sha256(a))],
                   receipts := s.receipts[Sha256(receipt) := receipt])
       && (if IdentityKey(c.url(t), Sha256(v.body)) in s.identities then s'.identities == s.identities
           else a.retrievedAt == v.retrievedAt) && a.retrievedAt <= v.retrievedAt
       && (Sha256(receipt) in s.receipts ==> s'.receipts == s.receipts)
  }

  lemma PromotedHeld(c: Contracts, s: Archive, s': Archive, t: Ticker, v: Validated, firstSeen: int, snap: Snapshot,
                     res: TickerResult)
    requires Promoted(c, s, s', t, v, firstSeen, snap, res)
    requires Sha256(v.body) in s.raw && s.raw[Sha256(v.body)] == v.body
    requires ParseSnapshot(c, t, v.body, c.url(t), v.contentType, firstSeen) == Ok(snap)
    ensures ResultHeld(c, s', t, res) && AddsFilesOf(s, s', res)
  {
    EvidenceStored(c, s, s', t, v, firstSeen, res.artifact.value, snap);
  }

  ghost predicate ReceiptsAddressed(s: Archive) {
    forall d :: d in s.receipts ==> d == Sha256(s.receipts[d])
  }

  lemma WriteReceiptOutcome(s: Archive, r: Receipt)
    requires ReceiptsAddressed(s)
    ensures WriteReceipt(s, r) == Ok((s.(receipts := s.receipts[Sha256(r) := r]), CasRef(Sha256(r), Sha256(r))))
    ensures Sha256(r) in s.receipts ==> s.receipts[Sha256(r) := r] == s.receipts
  {
    if Sha256(r) in s.receipts {
      assert s.receipts[Sha256(r) := r] == s.receipts;
    }
  }

  ghost predicate FirstCaptureStored(c: Contracts, s: Archive, t: Ticker, v: Validated) {
    IdentityKey(c.url(t), Sha256(v.body)) in s.identities ==>
      var a := s.identities[IdentityKey(c.url(t), Sha256(v.body))].artifact;
      s.identities[IdentityKey(c.url(t), Sha256(v.body))] == IdentityRecord(a, Sha256(a))
      && a.firstSeen <= a.retrievedAt
  }

  lemma PromoteSteps(c: Contracts, s: Archive, t: Ticker, v: Validated, snap: Snapshot, prior: Option<Digest<Bytes>>)
    requires FindPriorRevision(c, s, t, snap.body.observedOn, Sha256(v.body)) == Ok(prior)
    requires Sha256(v.body) in s.raw && s.raw[Sha256(v.body)] == v.body
    requires FirstCaptureStored(c, s, t, v) && ReceiptsAddressed(s)
    requires snap.body.url == c.url(t) && snap.body.firstSeen == FirstSeenFor(c, s, t, v)
    requires snap.body.evidenceClass == CurrentFirstSeenCapture && snap.body.rawSha == Sha256(v.body)
    ensures var (s', r) := Promote(c, s, t, v, snap);
            match r
            case Err(_) => s' == s
            case Ok(res) =>
              && Promoted(c, s, s', t, v, FirstSeenFor(c, s, t, v), snap, res)
              && res.artifact.value.revisionOf == prior
  {
    ArchiveOutcome(c, s, t, v, snap, prior);
    var (s1, r1) := ArchiveArtifact(s, v.body, AcquisitionMetadata(snap, v, prior));
    if r1.Ok? {
      assert ReceiptsAddressed(s1);
      WriteReceiptOutcome(s1, MakeReceipt(c, t, r1.value, snap));
    }
  }

  /** The only two outcomes of promoting a snapshot: nothing is written, or its evidence is. */
  lemma PromoteOutcome(c: Contracts, s: Archive, t: Ticker, v: Validated, snap: Snapshot)
    requires c.Valid() && Sound(c, s) && Sha256(v.body) in s.raw && s.raw[Sha256(v.body)] == v.body
    requires ParseSnapshot(c, t, v.body, c.url(t), v.contentType, FirstSeenFor(c, s, t, v)) == Ok(snap)
    ensures var (s', r) := Promote(c, s, t, v, snap);
            match r
            case Err(_) => s' == s
            case Ok(res) =>
              && Promoted(c, s, s', t, v, FirstSeenFor(c, s, t, v), snap, res)
              && IsPrior(c, s, t, snap.body.observedOn, Sha256(v.body), res.artifact.value.revisionOf)
  {
    SoundReceipts(c, s, t, snap.body.observedOn, Sha256(v.body));
    assert FirstCaptureStored(c, s, t, v) by {
      if IdentityKey(c.url(t), Sha256(v.body)) in s.identities {
        StoredArtifact(c, s, t, v);
      }
    }
    assert ReceiptsAddressed(s) by {
      forall d | d in s.receipts ensures d == Sha256(s.receipts[d]) { assert ReceiptHeld(c, s, d); }
    }
    ParseFacts(c, t, v.body, c.url(t), v.contentType, FirstSeenFor(c, s, t, v));
    PromoteSteps(c, s, t, v, snap, FindPriorRevision(c, s, t, snap.body.observedOn, Sha256(v.body)).value);
  }

  function Staged(s: Archive, body: Bytes): Archive {
    s.(raw := s.raw[Sha256(body) := body])
  }

  lemma StagedOutcome(s: Archive, body: Bytes)
    requires RawAddressed(s)
    ensures StageRaw(s, body) == Ok((Staged(s, body), StagedOf(body)))
    ensures Extends(s, Staged(s, body)) && RawAddressed(Staged(s, body))
  {
    if Sha256(body) in s.raw {
      assert s.raw[Sha256(body) := body] == s.raw;
    }
  }

  lemma StagedSound(c: Contracts, s: Archive, body: Bytes)
    requires Sound(c, s) && Extends(s, Staged(s, body)) && RawAddressed(Staged(s, body))
    ensures Sound(c, Staged(s, body))
  {
    var s1 := Staged(s, body);
    forall d | d in s1.receipts ensures ReceiptHeld(c, s1, d) {
      assert ReceiptHeld(c, s, d);
      ReceiptsGrow(c, s, s1, d);
    }
    forall k | k in s1.identities ensures IdentityHeld(s1, k) {
      assert IdentityHeld(s, k);
      IdentityGrows(s, s1, k);
    }
  }

  /** A response that is not promoted adds at most its raw bytes. */
  lemma UnpromotedHeld(c: Contracts, s: Archive, t: Ticker, body: Bytes, r: TickerResult)
    requires Uncaptured(r, body) && Extends(s, Staged(s, body))
    ensures ResultHeld(c, Staged(s, body), t, r) && AddsFilesOf(s, Staged(s, body), r)
  {
  }

  lemma AddsFilesAfterStaging(s: Archive, s': Archive, body: Bytes, r: TickerResult)
    requires Extends(s, Staged(s, body)) && AddsFilesOf(Staged(s, body), s', r) && s'.raw == Staged(s, body).raw
    requires r.staged == Some(StagedOf(body))
    ensures AddsFilesOf(s, s', r)
  {
  }

  /** `r` is the capture of response `v`, made from the staged archive `s`. */
  ghost predicate CapturedFrom(c: Contracts, s: Archive, s': Archive, session: int, t: Ticker, v: Validated, r: TickerResult) {
    && r.artifact.Some? && r.snapshot.Some? && r.snapshot.value.body.observedOn == session
    && ParseSnapshot(c, t, v.body, c.url(t), v.contentType, FirstSeenFor(c, s, t, v)) == Ok(r.snapshot.value)
    && Promoted(c, s, s', t, v, FirstSeenFor(c, s, t, v), r.snapshot.value, r)
    && IsPrior(c, s, t, session, Sha256(v.body), r.artifact.value.revisionOf)
  }

  ghost predicate Uncaptured(r: TickerResult, body: Bytes) {
    r.state != Captured && r.artifact.None? && r.snapshot.None? && r.receipt.None? && r.staged == Some(StagedOf(body))
  }

  lemma SnapshotOutcome(c: Contracts, s: Archive, session: int, t: Ticker, v: Validated, snap: Snapshot)
    requires c.Valid() && Sound(c, s) && Sha256(v.body) in s.raw && s.raw[Sha256(v.body)] == v.body
    requires ParseSnapshot(c, t, v.body, c.url(t), v.contentType, FirstSeenFor(c, s, t, v)) == Ok(snap)
    ensures var (s', r) := CaptureSnapshot(c, s, session, t, v, snap);
            if r.state == Captured then CapturedFrom(c, s, s', session, t, v, r) else s' == s && Uncaptured(r, v.body)
  {
    hide Promote, Sound, ParseSnapshot, IsPrior, FirstSeenFor;
    PromoteOutcome(c, s, t, v, snap);
  }

  /** The loop body either captures the response or adds nothing to the staged archive. */
  lemma StagedCapture(c: Contracts, s: Archive, session: int, t: Ticker, v: Validated)
    requires c.Valid() && Sound(c, s) && Sha256(v.body) in s.raw && s.raw[Sha256(v.body)] == v.body
    ensures var (s', r) := CaptureStaged(c, s, session, t, v);
            if r.state == Captured then CapturedFrom(c, s, s', session, t, v, r) else s' == s && Uncaptured(r, v.body)
  {
    hide CaptureSnapshot, CapturedFrom, Snapshotted;
    SnapshottedOutcome(c, s, t, v);
    if Snapshotted(c, s, t, v).Ok? {
      SnapshotOutcome(c, s, session, t, v, Snapshotted(c, s, t, v).value);
    }
  }

  /** On a sound archive staging succeeds, so a validated response is always answered by a result. */
  lemma ResponseStaged(c: Contracts, s: Archive, session: int, t: Ticker, v: Validated)
    requires Sound(c, s)
    ensures var s1 := Staged(s, v.body);
            && Extends(s, s1) && Sound(c, s1) && Sha256(v.body) in s1.raw && s1.raw[Sha256(v.body)] == v.body
            && CaptureValidated(c, s, session, t, v) == Ok(CaptureStaged(c, s1, session, t, v))
  {
    StagedOutcome(s, v.body);
    StagedSound(c, s, v.body);
  }

  /** The body of the ticker loop never fails on a sound archive and adds only its own files. */
  lemma ValidatedOutcome(c: Contracts, s: Archive, session: int, t: Ticker, v: Validated)
    requires c.Valid() && Sound(c, s)
    ensures CaptureValidated(c, s, session, t, v).Ok?
    ensures var (s', r) := CaptureValidated(c, s, session, t, v).value;
            ResultHeld(c, s', t, r) && AddsFilesOf(s, s', r) && s'.raw == Staged(s, v.body).raw
  {
    var s1 := Staged(s, v.body);
    ResponseStaged(c, s, session, t, v);
    StagedCapture(c, s1, session, t, v);
    var (s', r) := CaptureStaged(c, s1, session, t, v);
    if r.state == Captured {
      PromotedHeld(c, s1, s', t, v, FirstSeenFor(c, s1, t, v), r.snapshot.value, r);
      AddsFilesAfterStaging(s, s', v.body, r);
    } else {
      UnpromotedHeld(c, s, t, v.body, r);
    }
  }

  lemma TickerKeeps(c: Contracts, s: Archive, p: map<Ticker, TickerResult>, runAt: int, session: int, t: Ticker, f: Fetch)
    requires c.Valid() && Held(c, s, p) && t !in p
    ensures CaptureTicker(c, s, runAt, session, t, f).Ok?
    ensures var (s', r) := CaptureTicker(c, s, runAt, session, t, f).value;
            Held(c, s', p[t := r]) && Extends(s, s')
  {
    hide CaptureValidated, ResultHeld, IdentitiesHeld, ReceiptsHeld, RawsCited, ReceiptsCited, ManifestsHeld, RunsHeld, ResultsHeld;
    match ValidatedResponse(c, t, runAt, f)
    case Err(e) =>
      HeldStep(c, s, s, p, t, Unpromoted(FetchFailedRetry, e, c.url(t), None));
    case Ok(v) =>
      ValidatedOutcome(c, s, session, t, v);
      StagedOutcome(s, v.body);
      var (s', r) := CaptureValidated(c, s, session, t, v).value;
      HeldStep(c, s, s', p, t, r);
  }
}
