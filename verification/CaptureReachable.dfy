/** From any held archive every capture cycle completes and leaves a held archive, so the
    invariant holds after any sequence of cycles from the empty archive. */
module CaptureReachable {
  import opened Common
  import opened Sorting
  import opened CaptureModel
  import opened CaptureInvariant

  function TickerIndex(t: Ticker): nat {
    match t case IBIT => 0 case BITB => 1 case ARKB => 2 case HODL => 3 case GBTC => 4 case BTC => 5
  }

  lemma ReadyOrder(n: nat)
    requires n < |READY_TICKERS|
    ensures TickerIndex(READY_TICKERS[n]) == n
    ensures forall t :: TickerIndex(t) == n ==> t == READY_TICKERS[n]
  {
  }

  ghost predicate DistinctUrls(artifacts: seq<Artifact>) {
    forall i, j :: 0 <= i < j < |artifacts| ==> artifacts[i].url != artifacts[j].url
  }

  ghost predicate AnyCaptured(results: map<Ticker, TickerResult>) {
    exists t :: t in results && results[t].state == Captured
  }

  /** The artifact list of a cycle is the artifacts of its captured results. */
  ghost predicate ArtifactsOf(results: map<Ticker, TickerResult>, artifacts: seq<Artifact>) {
    && (forall a :: a in artifacts ==> exists t :: t in results && results[t].state == Captured && results[t].artifact == Some(a))
    && (artifacts != [] <==> AnyCaptured(results))
    && DistinctUrls(artifacts)
  }

  ghost predicate NamesOwnUrls(c: Contracts, results: map<Ticker, TickerResult>) {
    forall t :: t in results && results[t].artifact.Some? ==> results[t].artifact.value.url == c.url(t)
  }

  lemma HeldNamesOwnUrls(c: Contracts, s: Archive, results: map<Ticker, TickerResult>)
    requires ResultsHeld(c, s, results)
    ensures NamesOwnUrls(c, results)
    ensures forall t :: t in results ==> (results[t].artifact.Some? <==> results[t].state == Captured)
  {
    forall t | t in results
      ensures results[t].artifact.Some? <==> results[t].state == Captured
      ensures results[t].artifact.Some? ==> results[t].artifact.value.url == c.url(t)
    {
      assert ResultHeld(c, s, t, results[t]);
    }
  }

  lemma ArtifactsStep(c: Contracts, results: map<Ticker, TickerResult>, artifacts: seq<Artifact>, t: Ticker, r: TickerResult)
    requires c.Valid() && t !in results && ArtifactsOf(results, artifacts)
    requires NamesOwnUrls(c, results[t := r]) && (r.artifact.Some? <==> r.state == Captured)
    ensures ArtifactsOf(results[t := r], if r.artifact.Some? then artifacts + [r.artifact.value] else artifacts)
  {
    var results' := results[t := r];
    assert t in results' && results'[t] == r;
    forall a | a in artifacts
      ensures exists u :: u in results' && results'[u].state == Captured && results'[u].artifact == Some(a)
      ensures r.artifact.Some? ==> a.url != r.artifact.value.url
    {
      var u :| u in results && results[u].state == Captured && results[u].artifact == Some(a);
      assert u in results' && u != t && results'[u] == results[u];
    }
    if artifacts != [] {
      var u :| u in results && results[u].state == Captured;
      assert u in results' && results'[u].state == Captured;
    }
  }

  lemma ProgressStep(c: Contracts, p: Progress, runAt: int, session: int, t: Ticker, f: Fetch)
    requires c.Valid() && Held(c, p.s, p.results) && ArtifactsOf(p.results, p.artifacts) && t !in p.results
    ensures CaptureTicker(c, p.s, runAt, session, t, f).Ok?
    ensures var (s', r) := CaptureTicker(c, p.s, runAt, session, t, f).value;
            && Held(c, s', p.results[t := r]) && Extends(p.s, s')
            && ArtifactsOf(p.results[t := r], if r.artifact.Some? then p.artifacts + [r.artifact.value] else p.artifacts)
  {
    TickerKeeps(c, p.s, p.results, runAt, session, t, f);
    var (s', r) := CaptureTicker(c, p.s, runAt, session, t, f).value;
    var results' := p.results[t := r];
    HeldNamesOwnUrls(c, s', results');
    assert results'[t] == r;
    ArtifactsStep(c, p.results, p.artifacts, t, r);
  }

  lemma CaptureNone(c: Contracts, s: Archive, input: CycleInput, session: int)
    ensures CaptureFirst(c, s, input, session, 0) == Ok(Progress(s, map[], []))
  {
  }

  lemma NothingCaptured()
    ensures ArtifactsOf(map[], [])
  {
  }

  /** The progress after one more ticker. */
  lemma CaptureNext(c: Contracts, s: Archive, input: CycleInput, session: int, n: nat)
    requires 0 < n <= |READY_TICKERS| && CaptureFirst(c, s, input, session, n - 1).Ok?
    ensures var p, t := CaptureFirst(c, s, input, session, n - 1).value, READY_TICKERS[n - 1];
            match CaptureTicker(c, p.s, input.runAt, session, t, input.FetchOf(t))
            case Err(e) => CaptureFirst(c, s, input, session, n) == Err(e)
            case Ok((s', r)) =>
              CaptureFirst(c, s, input, session, n)
              == Ok(Progress(s', p.results[t := r], if r.artifact.Some? then p.artifacts + [r.artifact.value] else p.artifacts))
  {
    hide CaptureTicker;
  }

  lemma {:induction false} TickersKeep(c: Contracts, s: Archive, input: CycleInput, session: int, n: nat)
    requires c.Valid() && Held(c, s, map[]) && n <= |READY_TICKERS|
    ensures CaptureFirst(c, s, input, session, n).Ok?
    ensures var p := CaptureFirst(c, s, input, session, n).value;
            && Held(c, p.s, p.results) && Extends(s, p.s) && ArtifactsOf(p.results, p.artifacts)
            && forall t :: t in p.results <==> TickerIndex(t) < n
  {
    hide CaptureFirst, Held, ArtifactsOf;
    CaptureNone(c, s, input, session);
    NothingCaptured();
    if n > 0 {
      TickersKeep(c, s, input, session, n - 1);
      KeepStep(c, s, input, session, n);
    }
  }

  lemma KeepStep(c: Contracts, s: Archive, input: CycleInput, session: int, n: nat)
    requires c.Valid() && 0 < n <= |READY_TICKERS| && CaptureFirst(c, s, input, session, n - 1).Ok?
    requires var p := CaptureFirst(c, s, input, session, n - 1).value;
             && Held(c, p.s, p.results) && Extends(s, p.s) && ArtifactsOf(p.results, p.artifacts)
             && forall t :: t in p.results <==> TickerIndex(t) < n - 1
    ensures CaptureFirst(c, s, input, session, n).Ok?
    ensures var p := CaptureFirst(c, s, input, session, n).value;
            && Held(c, p.s, p.results) && Extends(s, p.s) && ArtifactsOf(p.results, p.artifacts)
            && forall t :: t in p.results <==> TickerIndex(t) < n
  {
    hide CaptureFirst, CaptureTicker, Held, Extends, ArtifactsOf;
    ReadyOrder(n - 1);
    var p := CaptureFirst(c, s, input, session, n - 1).value;
    var t := READY_TICKERS[n - 1];
    ProgressStep(c, p, input.runAt, session, t, input.FetchOf(t));
    ExtendsTransitive(s, p.s, CaptureTicker(c, p.s, input.runAt, session, t, input.FetchOf(t)).value.0);
    CaptureNext(c, s, input, session, n);
  }

  lemma LoopSound(c: Contracts, s: Archive, input: CycleInput, session: int, n: nat)
    requires c.Valid() && Held(c, s, map[]) && n <= |READY_TICKERS|
    ensures CaptureFirst(c, s, input, session, n).Ok? && Sound(c, CaptureFirst(c, s, input, session, n).value.s)
  {
    hide CaptureFirst, Sound;
    TickersKeep(c, s, input, session, n);
  }

  lemma TickerKeepsRuns(c: Contracts, s: Archive, runAt: int, session: int, t: Ticker, f: Fetch)
    requires c.Valid() && Sound(c, s)
    ensures CaptureTicker(c, s, runAt, session, t, f).Ok?
    ensures CaptureTicker(c, s, runAt, session, t, f).value.0.runs == s.runs
  {
    var response := ValidatedResponse(c, t, runAt, f);
    if response.Ok? {
      ValidatedOutcome(c, s, session, t, response.value);
    }
  }

  lemma {:induction false} LoopKeepsRuns(c: Contracts, s: Archive, input: CycleInput, session: int, n: nat)
    requires c.Valid() && Held(c, s, map[]) && n <= |READY_TICKERS|
    ensures CaptureFirst(c, s, input, session, n).Ok? && CaptureFirst(c, s, input, session, n).value.s.runs == s.runs
  {
    hide CaptureFirst, CaptureTicker, Held;
    CaptureNone(c, s, input, session);
    if n > 0 {
      LoopKeepsRuns(c, s, input, session, n - 1);
      LoopSound(c, s, input, session, n - 1);
      var t := READY_TICKERS[n - 1];
      TickerKeepsRuns(c, CaptureFirst(c, s, input, session, n - 1).value.s, input.runAt, session, t, input.FetchOf(t));
      CaptureNext(c, s, input, session, n);
    }
  }

  // ---------------------------------------------------------------- the manifest

  lemma NormalizedDistinct(a: seq<Artifact>, b: seq<Artifact>)
    requires DistinctUrls(a) && multiset(a) == multiset(b)
    ensures !HasDuplicateIdentity(b)
  {
    if HasDuplicateIdentity(b) {
      var i, j :| 0 <= i < j < |b| && b[i].url == b[j].url && b[i].sha == b[j].sha;
      var i', j' := TwoPositions(a, b, i, j);
      assert false;
    }
  }

  lemma HeldArtifactValid(c: Contracts, s: Archive, results: map<Ticker, TickerResult>, artifacts: seq<Artifact>, a: Artifact)
    requires ResultsHeld(c, s, results) && ArtifactsOf(results, artifacts) && a in artifacts
    ensures ManifestArtifactValid(s, a) && a.replayEligible && a.evidenceClass == CurrentFirstSeenCapture
    ensures exists d :: d in s.receipts && s.receipts[d].artifact == a
  {
    var t :| t in results && results[t].state == Captured && results[t].artifact == Some(a);
    assert ResultHeld(c, s, t, results[t]);
    var d := results[t].receipt.value.sha;
    assert d in s.receipts && s.receipts[d].artifact == a;
  }

  /** Publishing the manifest of held results always succeeds. */
  lemma ManifestBuilt(c: Contracts, s: Archive, results: map<Ticker, TickerResult>, artifacts: seq<Artifact>, runAt: int)
    requires ResultsHeld(c, s, results) && ArtifactsOf(results, artifacts) && artifacts != [] && 0 <= runAt
    ensures BuildManifest(c, artifacts, runAt).Ok?
    ensures var m := BuildManifest(c, artifacts, runAt).value;
            && ManifestValid(s, m) && m.sha == Sha256(m.body)
            && m.body.registry == c.registryHash && m.body.authority == c.authorityHash
            && m.body.acquisition == c.hashes.acquisition && m.body.source == c.hashes.source
            && forall a :: a in m.body.artifacts ==> exists d :: d in s.receipts && s.receipts[d].artifact == a
  {
    hide ResultsHeld, ManifestArtifactValid;
    var normalized := SortBy(artifacts, (a, b) => ManifestOrder(c, a, b));
    NormalizedDistinct(artifacts, normalized);
    SameElements(artifacts, normalized);
    forall i | 0 <= i < |normalized|
      ensures ManifestArtifactValid(s, normalized[i]) && normalized[i].replayEligible
              && normalized[i].evidenceClass == CurrentFirstSeenCapture
      ensures exists d :: d in s.receipts && s.receipts[d].artifact == normalized[i]
    {
      assert normalized[i] in artifacts;
      HeldArtifactValid(c, s, results, artifacts, normalized[i]);
    }
    assert normalized[0].replayEligible;
  }

  /** The manifest is new or already stored; either way the archive is `s` plus the manifest. */
  lemma ManifestWritten(c: Contracts, s: Archive, m: Manifest)
    requires ManifestsHeld(c, s) && m.sha == Sha256(m.body)
    ensures WriteManifest(s, m) == Ok((s.(manifests := s.manifests[m.sha := m]), CasRef(m.sha, m.sha)))
    ensures Extends(s, s.(manifests := s.manifests[m.sha := m]))
  {
    if m.sha in s.manifests {
      assert ManifestHeld(c, s, m.sha);
      assert s.manifests[m.sha := m] == s.manifests;
    }
  }

  // ---------------------------------------------------------------- the run report

  /** Reporting the pending results turns their citations into citations by a stored run. */
  lemma CitationsReported(s: Archive, s': Archive, results: map<Ticker, TickerResult>, k: Digest<RunReport>)
    requires forall j :: j in s.runs ==> j in s'.runs && s'.runs[j] == s.runs[j]
    requires k in s'.runs && s'.runs[k].results == results
    requires s'.raw == s.raw && s'.receipts == s.receipts
    requires RawsCited(s, results) && ReceiptsCited(s, results)
    ensures RawsCited(s', map[]) && ReceiptsCited(s', map[])
  {
    forall d | d in s'.raw ensures RawCited(s', map[], d) {
      assert RawCited(s, results, d);
      if Stages(results, d) {
        assert Stages(s'.runs[k].results, d);
      } else {
        var j :| j in s.runs && Stages(s.runs[j].results, d);
        assert j in s'.runs;
      }
    }
    forall d | d in s'.receipts ensures ReceiptCited(s', map[], d) {
      assert ReceiptCited(s, results, d);
      if Cites(results, d) {
        assert Cites(s'.runs[k].results, d);
      } else {
        var j :| j in s.runs && Cites(s.runs[j].results, d);
        assert j in s'.runs;
      }
    }
  }

  lemma SoundGrows(c: Contracts, s: Archive, s': Archive)
    requires Sound(c, s) && Extends(s, s')
    requires s'.raw == s.raw && s'.receipts == s.receipts && s'.identities == s.identities
    ensures Sound(c, s')
  {
    forall d | d in s'.receipts ensures ReceiptHeld(c, s', d) {
      assert ReceiptHeld(c, s, d);
      ReceiptsGrow(c, s, s', d);
    }
    forall k | k in s'.identities ensures IdentityHeld(s', k) {
      assert IdentityHeld(s, k);
      IdentityGrows(s, s', k);
    }
  }

  lemma RunsReported(c: Contracts, s: Archive, s': Archive, report: RunReport)
    requires RunsHeld(c, s) && Extends(s, s') && s'.runs == s.runs[Sha256(report) := report]
    requires ReportConsistent(c, report) && ResultsHeld(c, s, report.results)
    requires report.manifest.Some? ==> report.manifest.value.sha in s'.manifests
    ensures RunsHeld(c, s')
  {
    forall k | k in s'.runs ensures RunHeld(c, s', k) {
      if k == Sha256(report) {
        ResultsGrow(c, s, s', report.results);
      } else {
        assert RunHeld(c, s, k);
        ResultsGrow(c, s, s', s.runs[k].results);
      }
    }
  }

  /** `man` is a well-formed manifest of receipts held by `s`. */
  ghost predicate ManifestReady(c: Contracts, s: Archive, man: Manifest) {
    && ManifestValid(s, man) && man.sha == Sha256(man.body)
    && man.body.registry == c.registryHash && man.body.authority == c.authorityHash
    && man.body.acquisition == c.hashes.acquisition && man.body.source == c.hashes.source
    && forall a :: a in man.body.artifacts ==> exists d :: d in s.receipts && s.receipts[d].artifact == a
  }

  lemma ManifestsReported(c: Contracts, s: Archive, s': Archive, man: Option<Manifest>, report: RunReport)
    requires ManifestsHeld(c, s) && Extends(s, s')
    requires s'.raw == s.raw && s'.receipts == s.receipts
    requires Sha256(report) in s'.runs && s'.runs[Sha256(report)] == report
    requires if man.Some?
             then ManifestReady(c, s, man.value) && s'.manifests == s.manifests[man.value.sha := man.value]
                  && report.manifest == Some(CasRef(man.value.sha, man.value.sha))
             else s'.manifests == s.manifests
    ensures ManifestsHeld(c, s')
  {
    forall m | m in s'.manifests ensures ManifestHeld(c, s', m) {
      if man.Some? && m == man.value.sha {
        forall i | 0 <= i < |man.value.body.artifacts| ensures ManifestArtifactValid(s', man.value.body.artifacts[i]) {
          assert ManifestArtifactValid(s, man.value.body.artifacts[i]);
        }
      } else {
        assert ManifestHeld(c, s, m);
        ManifestGrows(c, s, s', m);
      }
    }
  }

  /** Writing the manifest and the run report of held results yields a held archive. */
  lemma ReportKeeps(c: Contracts, s: Archive, s': Archive, man: Option<Manifest>, report: RunReport)
    requires Held(c, s, report.results) && ReportConsistent(c, report) && Extends(s, s')
    requires s'.raw == s.raw && s'.receipts == s.receipts && s'.identities == s.identities
    requires s'.runs == s.runs[Sha256(report) := report]
    requires if man.Some?
             then ManifestReady(c, s, man.value) && s'.manifests == s.manifests[man.value.sha := man.value]
                  && report.manifest == Some(CasRef(man.value.sha, man.value.sha))
             else s'.manifests == s.manifests && report.manifest.None?
    ensures Held(c, s', map[])
  {
    SoundGrows(c, s, s');
    CitationsReported(s, s', report.results, Sha256(report));
    RunsReported(c, s, s', report);
    ManifestsReported(c, s, s', man, report);
  }

  lemma RunWritten(c: Contracts, s: Archive, report: RunReport)
    requires RunsHeld(c, s)
    ensures WriteRun(s, report) == Ok(s.(runs := s.runs[Sha256(report) := report]))
    ensures Extends(s, s.(runs := s.runs[Sha256(report) := report]))
  {
    if Sha256(report) in s.runs {
      assert RunHeld(c, s, Sha256(report));
      assert s.runs[Sha256(report) := report] == s.runs;
    }
  }

  lemma ExtendsTransitive(a: Archive, b: Archive, d: Archive)
    requires Extends(a, b) && Extends(b, d)
    ensures Extends(a, d)
  {
  }

  // ---------------------------------------------------------------- whole cycles

  lemma CountZero(results: map<Ticker, TickerResult>)
    ensures CountCaptured(results) > 0 <==> AnyCaptured(results)
  {
    var captured := set t | t in results && results[t].state == Captured;
    if AnyCaptured(results) {
      var t :| t in results && results[t].state == Captured;
      assert t in captured;
    } else {
      assert captured == {};
    }
  }

  lemma CountsBounded(results: map<Ticker, TickerResult>)
    ensures CountCaptured(results) <= |results| && CountRetry(results) <= |results| && CountBlocked(results) <= |results|
  {
    SubsetSize((set t | t in results && results[t].state == Captured), results.Keys);
    SubsetSize((set t | t in results && IsRetry(results[t].state)), results.Keys);
    SubsetSize((set t | t in results && IsBlocked(results[t].state)), results.Keys);
  }

  lemma IdleCycleKeeps(c: Contracts, s: Archive, input: CycleInput)
    requires Held(c, s, map[]) && 0 <= input.runAt && c.decide(input.runAt).state != CaptureDue
    ensures Cycle(c, s, input).Ok?
    ensures Held(c, Cycle(c, s, input).value.0, map[]) && Extends(s, Cycle(c, s, input).value.0)
  {
    var report := IdleReport(c, input.runAt);
    CountsBounded(map[]);
    assert ReportConsistent(c, report);
    RunWritten(c, s, report);
    ReportKeeps(c, s, s.(runs := s.runs[Sha256(report) := report]), None, report);
  }

  /** Publishing the manifest of a held cycle always succeeds and adds at most that manifest. */
  lemma PublishOutcome(c: Contracts, p: Progress, runAt: int) returns (man: Option<Manifest>)
    requires ManifestsHeld(c, p.s) && ResultsHeld(c, p.s, p.results) && ArtifactsOf(p.results, p.artifacts) && 0 <= runAt
    ensures man.Some? <==> AnyCaptured(p.results)
    ensures match man
            case None => PublishManifest(c, p.s, p.artifacts, runAt) == Ok((p.s, None))
            case Some(m) =>
              && ManifestReady(c, p.s, m) && Extends(p.s, p.s.(manifests := p.s.manifests[m.sha := m]))
              && PublishManifest(c, p.s, p.artifacts, runAt)
                 == Ok((p.s.(manifests := p.s.manifests[m.sha := m]), Some(CasRef(m.sha, m.sha))))
  {
    if p.artifacts == [] {
      man := None;
    } else {
      ManifestBuilt(c, p.s, p.results, p.artifacts, runAt);
      var m := BuildManifest(c, p.artifacts, runAt).value;
      ManifestWritten(c, p.s, m);
      man := Some(m);
    }
  }

  /** The archive written by the last two steps of a cycle. */
  function Finished(s: Archive, man: Option<Manifest>, report: RunReport): Archive {
    s.(manifests := if man.Some? then s.manifests[man.value.sha := man.value] else s.manifests,
       runs := s.runs[Sha256(report) := report])
  }

  lemma FinishWrites(c: Contracts, s: Archive, man: Option<Manifest>, report: RunReport)
    requires RunsHeld(c, s)
    requires man.Some? ==> Extends(s, s.(manifests := s.manifests[man.value.sha := man.value]))
    ensures var s1 := if man.Some? then s.(manifests := s.manifests[man.value.sha := man.value]) else s;
            WriteRun(s1, report) == Ok(Finished(s, man, report))
    ensures Extends(s, Finished(s, man, report))
  {
    var s1 := if man.Some? then s.(manifests := s.manifests[man.value.sha := man.value]) else s;
    RunsGrow(c, s, s1);
    RunWritten(c, s1, report);
    ExtendsTransitive(s, s1, Finished(s, man, report));
  }

  function RefOf(man: Option<Manifest>): Option<CasRef<ManifestBody>> {
    if man.Some? then Some(CasRef(man.value.sha, man.value.sha)) else None
  }

  lemma ReportOfConsistent(c: Contracts, runAt: nat, results: map<Ticker, TickerResult>, man: Option<Manifest>)
    requires c.decide(runAt).state == CaptureDue
    requires forall t :: t in results
    requires man.Some? <==> AnyCaptured(results)
    requires man.Some? ==> man.value.sha.Sha256?
    ensures ReportConsistent(c, ReportOf(c, runAt, results, RefOf(man)))
  {
    CountZero(results);
  }

  /** A capture-due cycle runs the ticker loop, publishes the manifest and writes the report. */
  lemma CycleParts(c: Contracts, s: Archive, input: CycleInput) returns (p: Progress, man: Option<Manifest>)
    requires c.Valid() && Held(c, s, map[]) && 0 <= input.runAt && c.decide(input.runAt).state == CaptureDue
    ensures Held(c, p.s, p.results) && Extends(s, p.s)
    ensures CaptureFirst(c, s, input, c.decide(input.runAt).expectedSession, |READY_TICKERS|) == Ok(p)
    ensures forall t :: t in p.results
    ensures man.Some? <==> AnyCaptured(p.results)
    ensures man.Some? ==> ManifestReady(c, p.s, man.value)
                          && Extends(p.s, p.s.(manifests := p.s.manifests[man.value.sha := man.value]))
    ensures PublishManifest(c, p.s, p.artifacts, input.runAt)
            == if man.Some? then Ok((p.s.(manifests := p.s.manifests[man.value.sha := man.value]),
                                     Some(CasRef(man.value.sha, man.value.sha))))
               else Ok((p.s, None))
  {
    hide PublishManifest, ManifestReady, Sound, RawsCited, ReceiptsCited, ManifestsHeld, RunsHeld, ResultsHeld, ArtifactsOf;
    var session := c.decide(input.runAt).expectedSession;
    TickersKeep(c, s, input, session, |READY_TICKERS|);
    p := CaptureFirst(c, s, input, session, |READY_TICKERS|).value;
    man := PublishOutcome(c, p, input.runAt);
  }

  lemma CaptureCycleKeeps(c: Contracts, s: Archive, input: CycleInput)
    requires c.Valid() && Held(c, s, map[]) && 0 <= input.runAt && c.decide(input.runAt).state == CaptureDue
    ensures Cycle(c, s, input).Ok?
    ensures Held(c, Cycle(c, s, input).value.0, map[]) && Extends(s, Cycle(c, s, input).value.0)
  {
    var p, man := CycleParts(c, s, input);
    var report := ReportOf(c, input.runAt, p.results, RefOf(man));
    FinishWrites(c, p.s, man, report);
    var s' := Finished(p.s, man, report);
    assert Cycle(c, s, input) == Ok((s', report));
    ExtendsTransitive(s, p.s, s');
    ReportOfConsistent(c, input.runAt, p.results, man);
    ReportKeeps(c, p.s, s', man, report);
  }

  /** A cycle on a held archive completes, keeps it held and rewrites no file. The only cycle that
      does not complete is one started with a negative clock, which writes nothing. */
  lemma CycleKeeps(c: Contracts, s: Archive, input: CycleInput)
    requires c.Valid() && Held(c, s, map[])
    ensures Cycle(c, s, input).Ok? <==> 0 <= input.runAt
    ensures Cycle(c, s, input).Ok? ==>
              Held(c, Cycle(c, s, input).value.0, map[]) && Extends(s, Cycle(c, s, input).value.0)
  {
    if 0 <= input.runAt {
      if c.decide(input.runAt).state == CaptureDue {
        CaptureCycleKeeps(c, s, input);
      } else {
        IdleCycleKeeps(c, s, input);
      }
    }
  }

  // ---------------------------------------------------------------- cycles that raise

  lemma StageExtends(s: Archive, body: Bytes)
    ensures StageRaw(s, body).Ok? ==> Extends(s, StageRaw(s, body).value.0)
  {
  }

  lemma BindExtends(s: Archive, a: Artifact)
    ensures Extends(s, BindFirstSeen(s, a).0)
  {
  }

  lemma ArchiveExtends(s: Archive, body: Bytes, m: Artifact)
    ensures Extends(s, ArchiveArtifact(s, body, m).0)
  {
    if ArtifactArgumentError(body, m) == NoError && StageRaw(s, body).Ok? {
      var (s1, ref) := StageRaw(s, body).value;
      StageExtends(s, body);
      BindExtends(s1, m.(sha := ref.sha, size := ref.size, path := ref.path));
      ExtendsTransitive(s, s1, ArchiveArtifact(s, body, m).0);
    }
  }

  lemma PromoteExtends(c: Contracts, s: Archive, t: Ticker, v: Validated, snap: Snapshot)
    ensures Extends(s, Promote(c, s, t, v, snap).0)
  {
    var prior := FindPriorRevision(c, s, t, snap.body.observedOn, Sha256(v.body));
    if prior.Ok? {
      var (s1, a) := ArchiveArtifact(s, v.body, AcquisitionMetadata(snap, v, prior.value));
      ArchiveExtends(s, v.body, AcquisitionMetadata(snap, v, prior.value));
      if a.Ok? {
        WriteExtends(s1, MakeReceipt(c, t, a.value, snap));
      }
      ExtendsTransitive(s, s1, Promote(c, s, t, v, snap).0);
    }
  }

  lemma WriteExtends(s: Archive, r: Receipt)
    ensures Extends(s, s)
    ensures WriteReceipt(s, r).Ok? ==> Extends(s, WriteReceipt(s, r).value.0)
  {
  }

  lemma StagedExtends(c: Contracts, s: Archive, session: int, t: Ticker, v: Validated)
    ensures Extends(s, CaptureStaged(c, s, session, t, v).0)
  {
    hide Promote, Snapshotted;
    var parsed := Snapshotted(c, s, t, v);
    if parsed.Ok? {
      PromoteExtends(c, s, t, v, parsed.value);
    }
  }

  lemma TickerExtends(c: Contracts, s: Archive, runAt: int, session: int, t: Ticker, f: Fetch)
    requires CaptureTicker(c, s, runAt, session, t, f).Ok?
    ensures Extends(s, CaptureTicker(c, s, runAt, session, t, f).value.0)
  {
    if ValidatedResponse(c, t, runAt, f).Ok? {
      ResponseExtends(c, s, session, t, ValidatedResponse(c, t, runAt, f).value);
    }
  }

  lemma ResponseExtends(c: Contracts, s: Archive, session: int, t: Ticker, v: Validated)
    requires CaptureValidated(c, s, session, t, v).Ok?
    ensures Extends(s, CaptureValidated(c, s, session, t, v).value.0)
  {
    var s1 := StageRaw(s, v.body).value.0;
    StageExtends(s, v.body);
    StagedExtends(c, s1, session, t, v);
    ExtendsTransitive(s, s1, CaptureStaged(c, s1, session, t, v).0);
  }

  lemma {:induction false} LoopExtends(c: Contracts, s: Archive, input: CycleInput, session: int, n: nat)
    requires n <= |READY_TICKERS|
    ensures Extends(s, LoopArchive(c, s, input, session, n))
  {
    if n > 0 {
      LoopExtends(c, s, input, session, n - 1);
      var before := CaptureFirst(c, s, input, session, n - 1);
      if CaptureFirst(c, s, input, session, n).Ok? {
        var t := READY_TICKERS[n - 1];
        TickerExtends(c, before.value.s, input.runAt, session, t, input.FetchOf(t));
        ExtendsTransitive(s, before.value.s, LoopArchive(c, s, input, session, n));
      }
    }
  }

  lemma ManifestExtends(s: Archive, m: Manifest)
    ensures WriteManifest(s, m).Ok? ==> Extends(s, WriteManifest(s, m).value.0)
  {
  }

  lemma PublishExtends(c: Contracts, s: Archive, artifacts: seq<Artifact>, runAt: int)
    requires PublishManifest(c, s, artifacts, runAt).Ok?
    ensures Extends(s, PublishManifest(c, s, artifacts, runAt).value.0)
  {
    if artifacts != [] {
      ManifestExtends(s, BuildManifest(c, artifacts, runAt).value);
    }
  }

  lemma RunExtends(s: Archive, r: RunReport)
    ensures WriteRun(s, r).Ok? ==> Extends(s, WriteRun(s, r).value)
  {
  }

  /** On any archive whatever, tampered or not, a cycle rewrites no file and removes none, even when an
      exception ends it part of the way through. */
  lemma CycleNeverRewrites(c: Contracts, s: Archive, input: CycleInput)
    ensures Extends(s, CycleArchive(c, s, input))
  {
    if 0 <= input.runAt {
      if c.decide(input.runAt).state != CaptureDue {
        RunExtends(s, IdleReport(c, input.runAt));
      } else {
        CaptureNeverRewrites(c, s, input);
      }
    }
  }

  lemma CaptureNeverRewrites(c: Contracts, s: Archive, input: CycleInput)
    requires 0 <= input.runAt && c.decide(input.runAt).state == CaptureDue
    ensures Extends(s, CycleArchive(c, s, input))
  {
    var session := c.decide(input.runAt).expectedSession;
    LoopExtends(c, s, input, session, |READY_TICKERS|);
    var loop := CaptureFirst(c, s, input, session, |READY_TICKERS|);
    if loop.Ok? {
      var p := loop.value;
      var published := PublishManifest(c, p.s, p.artifacts, input.runAt);
      if published.Ok? {
        PublishExtends(c, p.s, p.artifacts, input.runAt);
        var (s1, manifest) := published.value;
        ExtendsTransitive(s, p.s, s1);
        RunExtends(s1, ReportOf(c, input.runAt, p.results, manifest));
        ExtendsTransitive(s, s1, CycleArchive(c, s, input));
      }
    }
  }

  // ---------------------------------------------------------------- runs of cycles

  /** The archive after a sequence of cycles; a cycle that raises at its clock check writes nothing. */
  ghost function RunCycles(c: Contracts, s: Archive, inputs: seq<CycleInput>): Archive {
    if inputs == [] then s
    else
      var before := RunCycles(c, s, inputs[..|inputs| - 1]);
      match Cycle(c, before, inputs[|inputs| - 1])
      case Ok((after, _)) => after
      case Err(_) => before
  }

  /** Every archive reached from empty by capture cycles satisfies the invariant. */
  lemma {:induction false} ReachableHeld(c: Contracts, inputs: seq<CycleInput>)
    requires c.Valid()
    ensures Held(c, RunCycles(c, EMPTY_ARCHIVE, inputs), map[])
  {
    if inputs != [] {
      ReachableHeld(c, inputs[..|inputs| - 1]);
      CycleKeeps(c, RunCycles(c, EMPTY_ARCHIVE, inputs[..|inputs| - 1]), inputs[|inputs| - 1]);
    }
  }

  /** First-seen metadata, receipts, raw bytes, manifests and reports are never rewritten. */
  lemma {:induction false} NothingRewritten(c: Contracts, earlier: seq<CycleInput>, later: seq<CycleInput>)
    requires c.Valid() && earlier <= later
    ensures Extends(RunCycles(c, EMPTY_ARCHIVE, earlier), RunCycles(c, EMPTY_ARCHIVE, later))
    decreases |later|
  {
    if |earlier| < |later| {
      var init := later[..|later| - 1];
      assert earlier <= init;
      NothingRewritten(c, earlier, init);
      ReachableHeld(c, init);
      CycleKeeps(c, RunCycles(c, EMPTY_ARCHIVE, init), later[|later| - 1]);
      ExtendsTransitive(RunCycles(c, EMPTY_ARCHIVE, earlier), RunCycles(c, EMPTY_ARCHIVE, init),
                        RunCycles(c, EMPTY_ARCHIVE, later));
    } else {
      assert earlier == later;
    }
  }
}
