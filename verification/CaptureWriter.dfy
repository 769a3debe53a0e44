/** The capture archive as the program updates it: five stores changed in place by one cycle,
    each method tied to the function of the archive value that specifies it. */
module CaptureWriter {
  import opened Common
  import M = CaptureModel
  import opened CaptureModel

  class CaptureArchive {
    var raw: map<Digest<Bytes>, Bytes>
    var identities: map<Digest<IdentityFields>, IdentityRecord>
    var receipts: map<Digest<Receipt>, Receipt>
    var manifests: map<Digest<ManifestBody>, Manifest>
    var runs: map<Digest<RunReport>, RunReport>

    function State(): Archive
      reads this
    {
      Archive(raw, identities, receipts, manifests, runs)
    }

    constructor ()
      ensures State() == EMPTY_ARCHIVE
    {
      raw, identities, receipts, manifests, runs := map[], map[], map[], map[], map[];
    }

    /** `_stage_raw`: write-once storage of response bytes. */
    method StageRaw(body: Bytes) returns (r: Result<StagedRef, ErrorCode>)
      modifies this`raw
      ensures match M.StageRaw(old(State()), body)
              case Ok((s, ref)) => State() == s && r == Ok(ref)
              case Err(e) => State() == old(State()) && r == Err(e)
    {
      var d := Sha256(body);
      if d in raw {
        if Sha256(raw[d]) != d {
          return Err(ExistingBytesHashMismatch);
        }
      } else {
        raw := raw[d := body];
      }
      r := Ok(StagedOf(body));
    }

    /** `_find_prior_revision`: re-read every listed receipt and keep the greatest (first seen, digest). */
    method FindPriorRevision(c: Contracts, t: Ticker, on: int, sha: Digest<Bytes>)
      returns (r: Result<Option<Digest<Bytes>>, ErrorCode>)
      requires c.Valid()
      ensures r == M.FindPriorRevision(c, State(), t, on, sha)
    {
      hide ScanError, FirstError, NewestAmong, M.FindPriorRevision;
      var s, paths := State(), c.listing(receipts.Keys);
      Listed(c, s);
      NothingScanned(c, s, t, on, sha, paths);
      var best: Option<Digest<Receipt>> := None;
      for i := 0 to |paths|
        invariant FirstError(c, s, t, on, sha, paths[..i]).None?
        invariant NewestAmong(c, s, t, on, sha, paths[..i], best) && (best.Some? ==> best.value in s.receipts)
      {
        var d := paths[i];
        assert d in paths;
        ScanStep(c, s, t, on, sha, paths, i);
        var e := ScanError(c, s, t, on, sha, d);
        if e.Some? {
          FirstErrorFound(c, s, t, on, sha, paths, i + 1);
          ScanFails(c, s, t, on, sha);
          return Err(e.value);
        }
        NewestStep(c, s, t, on, sha, paths, i, best);
        if PriorCandidate(receipts[d], t, on, sha)
           && (best.None? || OlderOrSame(c, receipts[best.value].artifact, receipts[d].artifact))
        {
          best := Some(d);
        }
      }
      assert paths[..|paths|] == paths;
      NewestIsPrior(c, s, t, on, sha, best);
      r := Ok(if best.Some? then Some(receipts[best.value].artifact.sha) else None);
    }

    /** `_bind_first_seen_metadata`: the first identity record is kept, never rewritten. */
    method BindFirstSeen(a: Artifact) returns (r: Result<Artifact, ErrorCode>)
      modifies this`identities
      ensures (State(), r) == M.BindFirstSeen(old(State()), a)
    {
      var key := IdentityKey(a.url, a.sha);
      if key !in identities {
        identities := identities[key := IdentityRecord(a, Sha256(a))];
        return Ok(a);
      }
      var stored := identities[key].artifact;
      if identities[key].recordSha != Sha256(stored) {
        r := Err(IdentityHashMismatch);
      } else if stored.firstSeen != a.firstSeen {
        r := Err(FirstSeenConflict);
      } else if stored.(retrievedAt := a.retrievedAt) != a {
        r := Err(ArtifactIdentityConflict);
      } else if a.retrievedAt < stored.retrievedAt {
        r := Err(RetrievalPrecedesFirstCapture);
      } else {
        r := Ok(stored);
      }
    }

    method ArchiveArtifact(body: Bytes, m: Artifact) returns (r: Result<Artifact, ErrorCode>)
      modifies this`raw, this`identities
      ensures (State(), r) == M.ArchiveArtifact(old(State()), body, m)
    {
      var e := ArtifactArgumentError(body, m);
      if e != NoError {
        return Err(e);
      }
      var staged := StageRaw(body);
      if staged.Err? {
        return Err(staged.error);
      }
      r := BindFirstSeen(m.(sha := staged.value.sha, size := staged.value.size, path := staged.value.path));
    }

    method WriteReceipt(receipt: Receipt) returns (r: Result<CasRef<Receipt>, ErrorCode>)
      modifies this`receipts
      ensures match M.WriteReceipt(old(State()), receipt)
              case Ok((s, ref)) => State() == s && r == Ok(ref)
              case Err(e) => State() == old(State()) && r == Err(e)
    {
      var d := Sha256(receipt);
      if d in receipts {
        if Sha256(receipts[d]) != d {
          return Err(ExistingBytesHashMismatch);
        }
      } else {
        receipts := receipts[d := receipt];
      }
      r := Ok(CasRef(d, d));
    }

    /** The guarded block that binds an in-session snapshot to the archive. */
    method Promote(c: Contracts, t: Ticker, v: Validated, snap: Snapshot) returns (r: Result<TickerResult, ErrorCode>)
      requires c.Valid()
      modifies this`raw, this`identities, this`receipts
      ensures (State(), r) == M.Promote(c, old(State()), t, v, snap)
    {
      var prior := FindPriorRevision(c, t, snap.body.observedOn, Sha256(v.body));
      if prior.Err? {
        return Err(prior.error);
      }
      var artifact := ArchiveArtifact(v.body, AcquisitionMetadata(snap, v, prior.value));
      if artifact.Err? {
        return Err(artifact.error);
      }
      if artifact.value.sha != Sha256(v.body) {
        return Err(StagedRawArtifactMismatch);
      }
      var ref := WriteReceipt(MakeReceipt(c, t, artifact.value, snap));
      if ref.Err? {
        return Err(ref.error);
      }
      r := Ok(TickerResult(Captured, NoError, c.url(t), Some(StagedOf(v.body)),
                           Some(artifact.value), Some(snap), Some(ref.value)));
    }

    /** The loop body from the point where the response is parsed. */
    method CaptureSnapshot(c: Contracts, session: int, t: Ticker, v: Validated, snap: Snapshot) returns (r: TickerResult)
      requires c.Valid()
      modifies this`raw, this`identities, this`receipts
      ensures (State(), r) == M.CaptureSnapshot(c, old(State()), session, t, v, snap)
    {
      if snap.body.observedOn < session {
        return Unpromoted(StaleSourceRetry, ObservedPrecedesExpected, c.url(t), Some(StagedOf(v.body)));
      }
      if snap.body.observedOn > session {
        return Unpromoted(FutureDateBlocked, ObservedFollowsExpected, c.url(t), Some(StagedOf(v.body)));
      }
      var promoted := Promote(c, t, v, snap);
      r := if promoted.Ok? then promoted.value
           else Unpromoted(ArchiveValidationBlocked, promoted.error, c.url(t), Some(StagedOf(v.body)));
    }

    /** One iteration of the ticker loop. */
    method CaptureTicker(c: Contracts, runAt: int, session: int, t: Ticker, f: Fetch) returns (r: Result<TickerResult, ErrorCode>)
      requires c.Valid()
      modifies this`raw, this`identities, this`receipts
      ensures match M.CaptureTicker(c, old(State()), runAt, session, t, f)
              case Ok((s, result)) => State() == s && r == Ok(result)
              case Err(e) => State() == old(State()) && r == Err(e)
    {
      var validated := ValidatedResponse(c, t, runAt, f);
      if validated.Err? {
        return Ok(Unpromoted(FetchFailedRetry, validated.error, c.url(t), None));
      }
      var v := validated.value;
      var staged := StageRaw(v.body);
      if staged.Err? {
        return Err(staged.error);
      }
      var parsed := Snapshotted(c, State(), t, v);
      if parsed.Err? {
        return Ok(parsed.error);
      }
      var result := CaptureSnapshot(c, session, t, v, parsed.value);
      r := Ok(result);
    }

    /** The ticker loop of `run_capture_cycle`. */
    method CaptureTickers(c: Contracts, input: CycleInput, session: int)
      returns (r: Result<(map<Ticker, TickerResult>, seq<Artifact>), ErrorCode>)
      requires c.Valid()
      modifies this`raw, this`identities, this`receipts
      ensures State() == LoopArchive(c, old(State()), input, session, |READY_TICKERS|)
      ensures match CaptureFirst(c, old(State()), input, session, |READY_TICKERS|)
              case Ok(p) => r == Ok((p.results, p.artifacts))
              case Err(e) => r == Err(e)
    {
      var results: map<Ticker, TickerResult>, artifacts: seq<Artifact> := map[], [];
      for i := 0 to |READY_TICKERS|
        invariant CaptureFirst(c, old(State()), input, session, i) == Ok(Progress(State(), results, artifacts))
      {
        var t := READY_TICKERS[i];
        var captured := CaptureTicker(c, input.runAt, session, t, input.FetchOf(t));
        if captured.Err? {
          FailureStays(c, old(State()), input, session, i + 1, |READY_TICKERS|);
          return Err(captured.error);
        }
        results := results[t := captured.value];
        if captured.value.artifact.Some? {
          artifacts := artifacts + [captured.value.artifact.value];
        }
      }
      r := Ok((results, artifacts));
    }

    method PublishManifest(c: Contracts, artifacts: seq<Artifact>, runAt: int)
      returns (r: Result<Option<CasRef<ManifestBody>>, ErrorCode>)
      modifies this`manifests
      ensures match M.PublishManifest(c, old(State()), artifacts, runAt)
              case Ok((s, ref)) => State() == s && r == Ok(ref)
              case Err(e) => State() == old(State()) && r == Err(e)
    {
      if artifacts == [] {
        return Ok(None);
      }
      var built := BuildManifest(c, artifacts, runAt);
      if built.Err? {
        return Err(built.error);
      }
      var m := built.value;
      if !ManifestValid(State(), m) {
        return Err(ManifestInvalid);
      }
      if m.sha != Sha256(m.body) {
        return Err(ManifestHashInvalid);
      }
      if m.sha in manifests {
        if manifests[m.sha] != m {
          return Err(ExistingBytesHashMismatch);
        }
      } else {
        manifests := manifests[m.sha := m];
      }
      r := Ok(Some(CasRef(m.sha, m.sha)));
    }

    method WriteRun(report: RunReport) returns (r: Result<RunReport, ErrorCode>)
      modifies this`runs
      ensures match M.WriteRun(old(State()), report)
              case Ok(s) => State() == s && r == Ok(report)
              case Err(e) => State() == old(State()) && r == Err(e)
    {
      var d := Sha256(report);
      if d in runs {
        if Sha256(runs[d]) != d {
          return Err(ExistingBytesHashMismatch);
        }
      } else {
        runs := runs[d := report];
      }
      r := Ok(report);
    }

    /** `run_capture_cycle`: the report or the exception, and the archive left behind in either case. */
    method RunCaptureCycle(c: Contracts, input: CycleInput) returns (r: Result<RunReport, ErrorCode>)
      requires c.Valid()
      modifies this
      ensures State() == CycleArchive(c, old(State()), input)
      ensures match Cycle(c, old(State()), input)
              case Ok((_, report)) => r == Ok(report)
              case Err(e) => r == Err(e)
    {
      if input.runAt < 0 {
        return Err(NowMsInvalid);
      }
      var decision := c.decide(input.runAt);
      if decision.state != CaptureDue {
        r := WriteRun(IdleReport(c, input.runAt));
        return;
      }
      var loop := CaptureTickers(c, input, decision.expectedSession);
      if loop.Err? {
        return Err(loop.error);
      }
      var (results, artifacts) := loop.value;
      var manifest := PublishManifest(c, artifacts, input.runAt);
      if manifest.Err? {
        return Err(manifest.error);
      }
      r := WriteRun(ReportOf(c, input.runAt, results, manifest.value));
    }
  }

  /** An exception that escapes the ticker loop ends the cycle. */
  lemma {:induction false} FailureStays(c: Contracts, s: Archive, input: CycleInput, session: int, n: nat, m: nat)
    requires n <= m <= |READY_TICKERS| && CaptureFirst(c, s, input, session, n).Err?
    ensures CaptureFirst(c, s, input, session, m) == CaptureFirst(c, s, input, session, n)
    ensures LoopArchive(c, s, input, session, m) == LoopArchive(c, s, input, session, n)
  {
    if n < m {
      FailureStays(c, s, input, session, n, m - 1);
    }
  }

  lemma NothingScanned(c: Contracts, s: Archive, t: Ticker, on: int, sha: Digest<Bytes>, ds: seq<Digest<Receipt>>)
    ensures FirstError(c, s, t, on, sha, ds[..0]).None? && NewestAmong(c, s, t, on, sha, ds[..0], None)
  {
  }

  lemma ScanStep(c: Contracts, s: Archive, t: Ticker, on: int, sha: Digest<Bytes>, ds: seq<Digest<Receipt>>, i: nat)
    requires i < |ds| && FirstError(c, s, t, on, sha, ds[..i]).None?
    ensures FirstError(c, s, t, on, sha, ds[..i + 1]) == ScanError(c, s, t, on, sha, ds[i])
  {
    hide ScanError;
    assert ds[..i + 1][..i] == ds[..i];
  }

  lemma {:induction false} FirstErrorFound(c: Contracts, s: Archive, t: Ticker, on: int, sha: Digest<Bytes>, ds: seq<Digest<Receipt>>, n: nat)
    requires n <= |ds| && FirstError(c, s, t, on, sha, ds[..n]).Some?
    ensures FirstError(c, s, t, on, sha, ds) == FirstError(c, s, t, on, sha, ds[..n])
    decreases |ds| - n
  {
    hide ScanError;
    if n < |ds| {
      assert ds[..n + 1][..n] == ds[..n];
      FirstErrorFound(c, s, t, on, sha, ds, n + 1);
    } else {
      assert ds[..n] == ds;
    }
  }

  lemma ScanFails(c: Contracts, s: Archive, t: Ticker, on: int, sha: Digest<Bytes>)
    requires FirstError(c, s, t, on, sha, c.listing(s.receipts.Keys)).Some?
    ensures M.FindPriorRevision(c, s, t, on, sha) == Err(FirstError(c, s, t, on, sha, c.listing(s.receipts.Keys)).value)
  {
    hide FirstError;
  }

  /** `best` is the newest candidate among the receipts already read. */
  ghost predicate NewestAmong(c: Contracts, s: Archive, t: Ticker, on: int, sha: Digest<Bytes>, done: seq<Digest<Receipt>>,
                              best: Option<Digest<Receipt>>)
  {
    if best.None? then forall d :: d in done && d in s.receipts ==> !PriorCandidate(s.receipts[d], t, on, sha)
    else
      && best.value in s.receipts && PriorCandidate(s.receipts[best.value], t, on, sha)
      && forall d :: d in done && d in s.receipts && PriorCandidate(s.receipts[d], t, on, sha)
           ==> OlderOrSame(c, s.receipts[d].artifact, s.receipts[best.value].artifact)
  }

  lemma NewestStep(c: Contracts, s: Archive, t: Ticker, on: int, sha: Digest<Bytes>, ds: seq<Digest<Receipt>>, i: nat,
                   best: Option<Digest<Receipt>>)
    requires i < |ds| && NewestAmong(c, s, t, on, sha, ds[..i], best) && ds[i] in s.receipts
    ensures NewestAmong(c, s, t, on, sha, ds[..i + 1],
                        if PriorCandidate(s.receipts[ds[i]], t, on, sha)
                           && (best.None? || OlderOrSame(c, s.receipts[best.value].artifact, s.receipts[ds[i]].artifact))
                        then Some(ds[i]) else best)
  {
    assert ds[..i + 1] == ds[..i] + [ds[i]];
  }

  lemma NewestIsPrior(c: Contracts, s: Archive, t: Ticker, on: int, sha: Digest<Bytes>, best: Option<Digest<Receipt>>)
    requires c.Valid() && FirstError(c, s, t, on, sha, c.listing(s.receipts.Keys)).None?
    requires NewestAmong(c, s, t, on, sha, c.listing(s.receipts.Keys), best)
    ensures M.FindPriorRevision(c, s, t, on, sha)
            == Ok(if best.Some? then Some(s.receipts[best.value].artifact.sha) else None)
  {
    hide FirstError;
    Listed(c, s);
    var prior := if best.Some? then Some(s.receipts[best.value].artifact.sha) else None;
    assert best.Some? ==> NewestCandidate(c, s, t, on, sha, best.value);
    PriorUnique(c, s, t, on, sha, prior, M.FindPriorRevision(c, s, t, on, sha).value);
  }
}
