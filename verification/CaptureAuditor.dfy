/** The first pass of the auditor, over run reports: a loop that collects errors and the references later
    passes check, proved to record no error exactly when the reports are clean. */
module CaptureAuditor {
  import opened Common
  import opened CaptureModel
  import opened CaptureReachable
  import opened CaptureAudit

  datatype AuditError =
    | RunReportInvalid(run: Digest<RunReport>)
    | TickerResultInvalid(ticker: Ticker)
    | ReceiptReferenceConflict(path: Digest<Receipt>)
    | ReceiptInvalid(receipt: Digest<Receipt>)
    | ManifestFileInvalid(manifest: Digest<ManifestBody>)
    | ManifestRowInvalid(row: Artifact)
    | ManifestHasNoEligibleRow
    | IdentityInvalid(identity: Digest<IdentityFields>)
    | RawArtifactInvalid(raw: Digest<Bytes>)

  // ---------------------------------------------------------------- pass 1: run reports

  type Pair = (Digest<RunReport>, Ticker)

  ghost predicate IsPair(s: Archive, p: Pair) {
    p.0 in s.runs && p.1 in s.runs[p.0].results
  }

  ghost function ResultAt(s: Archive, p: Pair): TickerResult
    requires IsPair(s, p)
  {
    s.runs[p.0].results[p.1]
  }

  ghost predicate ReportsAt(s: Archive, p: Pair, d: Digest<Receipt>)
    requires IsPair(s, p)
  {
    var r := ResultAt(s, p);
    r.state == Captured && r.receipt.Some? && r.receipt.value.path == d
  }

  /** The per-result checks of the reports processed so far. */
  ghost predicate PairsOk(s: Archive, pairs: set<Pair>) {
    && (forall p :: p in pairs ==> IsPair(s, p) && ResultOk(s, ResultAt(s, p)))
    && forall p, q, d :: p in pairs && q in pairs && ReportsAt(s, p, d) && ReportsAt(s, q, d) ==>
         ExpectedOf(p.1, ResultAt(s, p)) == ExpectedOf(q.1, ResultAt(s, q))
  }

  /** `referenced_receipts` and `referenced_raw` hold exactly what the processed results name. */
  ghost predicate BookOk(s: Archive, pairs: set<Pair>, receipts: map<Digest<Receipt>, Expected>, raw: set<Digest<Bytes>>)
    requires forall p :: p in pairs ==> IsPair(s, p)
  {
    && (forall d :: d in receipts ==> exists p :: p in pairs && ReportsAt(s, p, d))
    && (forall p, d :: p in pairs && ReportsAt(s, p, d) ==> d in receipts && receipts[d] == ExpectedOf(p.1, ResultAt(s, p)))
    && (forall d :: d in raw <==> exists p :: p in pairs && ResultNamesRaw(ResultAt(s, p), d))
  }

  function NamedRaw(r: TickerResult): set<Digest<Bytes>> {
    (if r.staged.Some? then {r.staged.value.path} else {})
    + (if r.state == Captured && r.artifact.Some? then {r.artifact.value.path} else {})
  }

  /** One ticker result: check its references and record them. */
  method AuditResult(s: Archive, t: Ticker, r: TickerResult, receipts: map<Digest<Receipt>, Expected>, raw: set<Digest<Bytes>>)
    returns (errors: set<AuditError>, receipts': map<Digest<Receipt>, Expected>, raw': set<Digest<Bytes>>)
    ensures errors == {} <==>
              && ResultOk(s, r)
              && (r.state == Captured && r.receipt.value.path in receipts ==> receipts[r.receipt.value.path] == ExpectedOf(t, r))
    ensures errors == {} ==> raw' == raw + NamedRaw(r)
    ensures errors == {} ==>
              receipts' == if r.state == Captured then receipts[r.receipt.value.path := ExpectedOf(t, r)] else receipts
  {
    errors, receipts', raw' := {}, receipts, raw;
    if r.staged.Some? {
      var ref := r.staged.value;
      raw' := raw' + {ref.path};
      if !RawReferenceOk(s, ref.sha, ref.path, ref.size) {
        errors := errors + {TickerResultInvalid(t)};
      }
    }
    if r.state == Captured {
      if r.artifact.None? || r.snapshot.None? {
        errors := errors + {TickerResultInvalid(t)};
        return;
      }
      raw' := raw' + {r.artifact.value.path};
      if !ArtifactReferenceOk(s, r.artifact.value) {
        errors := errors + {TickerResultInvalid(t)};
      }
      if r.receipt.None? || !r.receipt.value.sha.Sha256? || r.receipt.value.path != r.receipt.value.sha {
        errors := errors + {TickerResultInvalid(t)};
      } else {
        var path := r.receipt.value.path;
        if path in receipts' && receipts'[path] != ExpectedOf(t, r) {
          errors := errors + {ReceiptReferenceConflict(path)};
        }
        receipts' := receipts'[path := ExpectedOf(t, r)];
      }
    } else if r.artifact.Some? || r.snapshot.Some? || r.receipt.Some? {
      errors := errors + {TickerResultInvalid(t)};
    }
  }

  /** Recording one more result keeps the books exact, and the checks stay equivalent. */
  lemma PairStep(s: Archive, pairs: set<Pair>, p: Pair, receipts: map<Digest<Receipt>, Expected>, raw: set<Digest<Bytes>>)
    requires PairsOk(s, pairs) && BookOk(s, pairs, receipts, raw) && IsPair(s, p)
    ensures var r := ResultAt(s, p);
            PairsOk(s, pairs + {p}) <==>
              && ResultOk(s, r)
              && (r.state == Captured && r.receipt.value.path in receipts ==>
                    receipts[r.receipt.value.path] == ExpectedOf(p.1, r))
    ensures PairsOk(s, pairs + {p}) ==>
              var r := ResultAt(s, p);
              BookOk(s, pairs + {p},
                     if r.state == Captured then receipts[r.receipt.value.path := ExpectedOf(p.1, r)] else receipts,
                     raw + NamedRaw(r))
  {
    var r := ResultAt(s, p);
    if PairsOk(s, pairs + {p}) {
      assert p in pairs + {p};
      assert ResultOk(s, r);
      if r.state == Captured && r.receipt.value.path in receipts {
        var q :| q in pairs && ReportsAt(s, q, r.receipt.value.path);
        assert q in pairs + {p};
        assert ReportsAt(s, p, r.receipt.value.path);
      }
      PairBook(s, pairs, p, receipts, raw);
    }
  }

  lemma PairBook(s: Archive, pairs: set<Pair>, p: Pair, receipts: map<Digest<Receipt>, Expected>, raw: set<Digest<Bytes>>)
    requires (forall q :: q in pairs ==> IsPair(s, q)) && IsPair(s, p) && BookOk(s, pairs, receipts, raw)
    requires var r := ResultAt(s, p);
             && (r.state == Captured ==> r.receipt.Some?)
             && (r.state == Captured && r.receipt.value.path in receipts ==>
                   receipts[r.receipt.value.path] == ExpectedOf(p.1, r))
    ensures var r := ResultAt(s, p);
            BookOk(s, pairs + {p},
                   if r.state == Captured then receipts[r.receipt.value.path := ExpectedOf(p.1, r)] else receipts,
                   raw + NamedRaw(r))
  {
    hide IsPair;
    var r := ResultAt(s, p);
    var all := pairs + {p};
    var receipts' := if r.state == Captured then receipts[r.receipt.value.path := ExpectedOf(p.1, r)] else receipts;
    forall d | d in receipts' ensures exists q :: q in all && ReportsAt(s, q, d) {
      if r.state == Captured && d == r.receipt.value.path {
        assert p in all && ReportsAt(s, p, d);
      } else {
        var q :| q in pairs && ReportsAt(s, q, d);
        assert q in all;
      }
    }
    forall d ensures d in raw + NamedRaw(r) <==> exists q :: q in all && ResultNamesRaw(ResultAt(s, q), d) {
      assert d in NamedRaw(r) <==> ResultNamesRaw(r, d);
      if d in raw {
        var q :| q in pairs && ResultNamesRaw(ResultAt(s, q), d);
        assert q in all;
      } else if ResultNamesRaw(r, d) {
        assert p in all && ResultNamesRaw(ResultAt(s, p), d);
      }
    }
  }

  /** The results of run `k` among the first `n` ready tickers. */
  ghost function PairsOf(s: Archive, k: Digest<RunReport>, n: nat): set<Pair>
    requires k in s.runs
  {
    set t | t in s.runs[k].results && TickerIndex(t) < n :: (k, t)
  }

  lemma PairsOfStep(s: Archive, k: Digest<RunReport>, n: nat)
    requires k in s.runs && n < |READY_TICKERS|
    ensures var t := READY_TICKERS[n];
            PairsOf(s, k, n + 1) == PairsOf(s, k, n) + if t in s.runs[k].results then {(k, t)} else {}
  {
    ReadyOrder(n);
  }

  lemma FewerPairsOk(s: Archive, pairs: set<Pair>, more: set<Pair>)
    requires pairs <= more && PairsOk(s, more)
    ensures PairsOk(s, pairs)
  {
  }

  function StatesBefore(results: map<Ticker, TickerResult>, n: nat, wanted: TickerState -> bool): set<Ticker> {
    set t | t in results && TickerIndex(t) < n && wanted(results[t].state)
  }

  lemma StatesStep(results: map<Ticker, TickerResult>, n: nat, wanted: TickerState -> bool)
    requires n < |READY_TICKERS|
    ensures var t := READY_TICKERS[n];
            |StatesBefore(results, n + 1, wanted)|
            == |StatesBefore(results, n, wanted)| + if t in results && wanted(results[t].state) then 1 else 0
  {
    ReadyOrder(n);
    var t := READY_TICKERS[n];
    if t in results && wanted(results[t].state) {
      assert StatesBefore(results, n + 1, wanted) == StatesBefore(results, n, wanted) + {t};
    } else {
      assert StatesBefore(results, n + 1, wanted) == StatesBefore(results, n, wanted);
    }
  }

  /** The three counters after the first `n` ready tickers. */
  ghost predicate Counted(results: map<Ticker, TickerResult>, n: nat, captured: nat, retried: nat, blocked: nat) {
    && captured == |StatesBefore(results, n, st => st == Captured)|
    && retried == |StatesBefore(results, n, st => IsRetry(st))|
    && blocked == |StatesBefore(results, n, st => IsBlocked(st))|
  }

  lemma CountedStep(results: map<Ticker, TickerResult>, n: nat, captured: nat, retried: nat, blocked: nat)
    requires n < |READY_TICKERS| && Counted(results, n, captured, retried, blocked)
    ensures var t := READY_TICKERS[n];
            if t !in results then Counted(results, n + 1, captured, retried, blocked)
            else if results[t].state == Captured then Counted(results, n + 1, captured + 1, retried, blocked)
            else if IsRetry(results[t].state) then Counted(results, n + 1, captured, retried + 1, blocked)
            else Counted(results, n + 1, captured, retried, blocked + 1)
  {
    StatesStep(results, n, st => st == Captured);
    StatesStep(results, n, st => IsRetry(st));
    StatesStep(results, n, st => IsBlocked(st));
  }

  lemma CountedAll(results: map<Ticker, TickerResult>, captured: nat, retried: nat, blocked: nat)
    requires Counted(results, |READY_TICKERS|, captured, retried, blocked)
    ensures captured == CountCaptured(results) && retried == CountRetry(results) && blocked == CountBlocked(results)
  {
    assert StatesBefore(results, |READY_TICKERS|, st => st == Captured) == set t | t in results && results[t].state == Captured;
    assert StatesBefore(results, |READY_TICKERS|, st => IsRetry(st)) == set t | t in results && IsRetry(results[t].state);
    assert StatesBefore(results, |READY_TICKERS|, st => IsBlocked(st)) == set t | t in results && IsBlocked(results[t].state);
  }

  /** Relative to acceptable earlier reports: no error so far exactly when all processed results are
      acceptable, and then the books are exact. */
  ghost predicate Tracked(s: Archive, pairs: set<Pair>, done: set<Pair>, ok: bool,
                          receipts: map<Digest<Receipt>, Expected>, raw: set<Digest<Bytes>>)
  {
    PairsOk(s, pairs) ==> (ok <==> PairsOk(s, done)) && (ok ==> BookOk(s, done, receipts, raw))
  }

  lemma TrackedStep(s: Archive, pairs: set<Pair>, done: set<Pair>, p: Pair, ok: bool, ok': bool,
                    receipts: map<Digest<Receipt>, Expected>, raw: set<Digest<Bytes>>,
                    receipts': map<Digest<Receipt>, Expected>, raw': set<Digest<Bytes>>)
    requires Tracked(s, pairs, done, ok, receipts, raw) && IsPair(s, p)
    requires var r := ResultAt(s, p);
             && (ok' <==> && ResultOk(s, r)
                          && (r.state == Captured && r.receipt.value.path in receipts ==>
                                receipts[r.receipt.value.path] == ExpectedOf(p.1, r)))
             && (ok' ==> raw' == raw + NamedRaw(r))
             && (ok' ==> receipts' == if r.state == Captured then receipts[r.receipt.value.path := ExpectedOf(p.1, r)] else receipts)
    ensures Tracked(s, pairs, done + {p}, ok && ok', receipts', raw')
  {
    if PairsOk(s, pairs) {
      if ok {
        PairStep(s, done, p, receipts, raw);
      } else if PairsOk(s, done + {p}) {
        FewerPairsOk(s, done, done + {p});
      }
    }
  }

  /** Which counter a ticker state belongs to. */
  method Tally(results: map<Ticker, TickerResult>, i: nat, captured: nat, retried: nat, blocked: nat)
    returns (captured': nat, retried': nat, blocked': nat)
    requires i < |READY_TICKERS| && Counted(results, i, captured, retried, blocked)
    ensures Counted(results, i + 1, captured', retried', blocked')
  {
    captured', retried', blocked' := captured, retried, blocked;
    var t := READY_TICKERS[i];
    CountedStep(results, i, captured, retried, blocked);
    if t in results {
      if results[t].state == Captured {
        captured' := captured + 1;
      } else if IsRetry(results[t].state) {
        retried' := retried + 1;
      } else {
        blocked' := blocked + 1;
      }
    }
  }

  /** One iteration of the ticker loop. */
  method AuditTicker(s: Archive, k: Digest<RunReport>, i: nat, ghost pairs: set<Pair>, errors: set<AuditError>,
                     receipts: map<Digest<Receipt>, Expected>, raw: set<Digest<Bytes>>)
    returns (errors': set<AuditError>, receipts': map<Digest<Receipt>, Expected>, raw': set<Digest<Bytes>>)
    requires k in s.runs && i < |READY_TICKERS|
    requires Tracked(s, pairs, pairs + PairsOf(s, k, i), errors == {}, receipts, raw)
    ensures Tracked(s, pairs, pairs + PairsOf(s, k, i + 1), errors' == {}, receipts', raw')
  {
    errors', receipts', raw' := errors, receipts, raw;
    var t := READY_TICKERS[i];
    ghost var done := pairs + PairsOf(s, k, i);
    PairsOfStep(s, k, i);
    if t in s.runs[k].results {
      var more: set<AuditError>;
      more, receipts', raw' := AuditResult(s, t, s.runs[k].results[t], receipts, raw);
      errors' := errors + more;
      TrackedStep(s, pairs, done, (k, t), errors == {}, more == {}, receipts, raw, receipts', raw');
      assert pairs + PairsOf(s, k, i + 1) == done + {(k, t)};
    } else {
      assert pairs + PairsOf(s, k, i + 1) == done;
    }
  }

  /** The loop over one report's ticker results. */
  method AuditResults(s: Archive, k: Digest<RunReport>, receipts: map<Digest<Receipt>, Expected>, raw: set<Digest<Bytes>>,
                      ghost pairs: set<Pair>)
    returns (errors: set<AuditError>, receipts': map<Digest<Receipt>, Expected>, raw': set<Digest<Bytes>>,
             captured: nat, retried: nat, blocked: nat)
    requires k in s.runs
    requires Tracked(s, pairs, pairs, PairsOk(s, pairs), receipts, raw)
    ensures captured == CountCaptured(s.runs[k].results)
    ensures retried == CountRetry(s.runs[k].results)
    ensures blocked == CountBlocked(s.runs[k].results)
    ensures Tracked(s, pairs, pairs + PairsOf(s, k, |READY_TICKERS|), errors == {}, receipts', raw')
  {
    errors, receipts', raw' := {}, receipts, raw;
    captured, retried, blocked := 0, 0, 0;
    assert pairs + PairsOf(s, k, 0) == pairs;
    for i := 0 to |READY_TICKERS|
      invariant Counted(s.runs[k].results, i, captured, retried, blocked)
      invariant Tracked(s, pairs, pairs + PairsOf(s, k, i), errors == {}, receipts', raw')
    {
      captured, retried, blocked := Tally(s.runs[k].results, i, captured, retried, blocked);
      errors, receipts', raw' := AuditTicker(s, k, i, pairs, errors, receipts', raw');
    }
    CountedAll(s.runs[k].results, captured, retried, blocked);
  }

  /** The manifests named by the reports processed so far. A report's manifest path is determined by
      its digest, so the source's digest-per-path dictionary is a set of digests. */
  ghost predicate ManifestsNamed(s: Archive, done: set<Digest<RunReport>>, manifests: set<Digest<ManifestBody>>) {
    && (forall k :: k in done ==> k in s.runs)
    && forall m :: m in manifests <==>
         exists k :: k in done && CountCaptured(s.runs[k].results) > 0 && s.runs[k].manifest == Some(CasRef(m, m))
  }

  /** One run report: its results, its recomputed counts and state, and its manifest reference. */
  method AuditRun(c: Contracts, s: Archive, k: Digest<RunReport>, receipts: map<Digest<Receipt>, Expected>,
                  raw: set<Digest<Bytes>>, ghost pairs: set<Pair>)
    returns (errors: set<AuditError>, receipts': map<Digest<Receipt>, Expected>, raw': set<Digest<Bytes>>,
             manifest: Option<Digest<ManifestBody>>, complete: bool)
    requires k in s.runs
    requires Tracked(s, pairs, pairs, PairsOk(s, pairs), receipts, raw)
    ensures PairsOk(s, pairs) ==>
              (errors == {} <==> HeaderOk(c, k, s.runs[k]) && PairsOk(s, pairs + PairsOf(s, k, |READY_TICKERS|)))
    ensures PairsOk(s, pairs) && PairsOk(s, pairs + PairsOf(s, k, |READY_TICKERS|)) ==>
              BookOk(s, pairs + PairsOf(s, k, |READY_TICKERS|), receipts', raw')
    ensures errors == {} ==>
              if CountCaptured(s.runs[k].results) > 0
              then manifest.Some? && s.runs[k].manifest == Some(CasRef(manifest.value, manifest.value))
              else manifest.None?
    ensures errors == {} ==> (complete <==> s.runs[k].state == CompleteShadowCapture)
  {
    var run := s.runs[k];
    var captured, retried, blocked;
    errors, receipts', raw', captured, retried, blocked := AuditResults(s, k, receipts, raw, pairs);
    manifest, complete := None, false;
    if k != Sha256(run) || run.hashes != c.hashes {
      errors := errors + {RunReportInvalid(k)};
    }
    if run.runAt < 0 || run.decision != c.decide(run.runAt) {
      errors := errors + {RunReportInvalid(k)};
    }
    if run.decision.state == CaptureDue {
      if exists t :: t in READY_TICKERS && t !in run.results {
        errors := errors + {RunReportInvalid(k)};
      }
    } else if run.results != map[] {
      errors := errors + {RunReportInvalid(k)};
    }
    if run.captured != captured || run.retry != retried || run.blocked != blocked {
      errors := errors + {RunReportInvalid(k)};
    }
    if run.state != ExpectedState(run.decision.state, captured, blocked) {
      errors := errors + {RunReportInvalid(k)};
    } else {
      complete := run.state == CompleteShadowCapture;
    }
    if captured > 0 {
      if run.manifest.None? || !run.manifest.value.sha.Sha256? || run.manifest.value.path != run.manifest.value.sha {
        errors := errors + {RunReportInvalid(k)};
      } else {
        manifest := Some(run.manifest.value.sha);
      }
    } else if run.manifest.Some? {
      errors := errors + {RunReportInvalid(k)};
    }
  }

  ghost function AllPairs(s: Archive, done: set<Digest<RunReport>>): set<Pair>
    requires done <= s.runs.Keys
  {
    set k, t | k in done && t in s.runs[k].results :: (k, t)
  }

  lemma AllPairsStep(s: Archive, done: set<Digest<RunReport>>, k: Digest<RunReport>)
    requires done <= s.runs.Keys && k in s.runs
    ensures AllPairs(s, done + {k}) == AllPairs(s, done) + PairsOf(s, k, |READY_TICKERS|)
  {
    forall t ensures TickerIndex(t) < |READY_TICKERS| {}
  }

  /** What the first pass has established about the reports in `done`. */
  ghost predicate RunsTracked(c: Contracts, s: Archive, done: set<Digest<RunReport>>, ok: bool,
                              receipts: map<Digest<Receipt>, Expected>, raw: set<Digest<Bytes>>,
                              manifests: set<Digest<ManifestBody>>)
  {
    && done <= s.runs.Keys
    && (ok <==> (forall k :: k in done ==> HeaderOk(c, k, s.runs[k])) && PairsOk(s, AllPairs(s, done)))
    && (PairsOk(s, AllPairs(s, done)) ==> BookOk(s, AllPairs(s, done), receipts, raw))
    && (ok ==> ManifestsNamed(s, done, manifests))
  }

  lemma RunsTrackedStep(c: Contracts, s: Archive, done: set<Digest<RunReport>>, k: Digest<RunReport>, ok: bool, ok': bool,
                        receipts: map<Digest<Receipt>, Expected>, raw: set<Digest<Bytes>>, manifests: set<Digest<ManifestBody>>,
                        receipts': map<Digest<Receipt>, Expected>, raw': set<Digest<Bytes>>, manifest: Option<Digest<ManifestBody>>)
    requires RunsTracked(c, s, done, ok, receipts, raw, manifests) && k in s.runs
    requires var pairs := AllPairs(s, done);
             var pairs' := pairs + PairsOf(s, k, |READY_TICKERS|);
             && (PairsOk(s, pairs) ==> (ok' <==> HeaderOk(c, k, s.runs[k]) && PairsOk(s, pairs')))
             && (PairsOk(s, pairs) && PairsOk(s, pairs') ==> BookOk(s, pairs', receipts', raw'))
    requires ok' ==> if CountCaptured(s.runs[k].results) > 0
                     then manifest.Some? && s.runs[k].manifest == Some(CasRef(manifest.value, manifest.value))
                     else manifest.None?
    ensures RunsTracked(c, s, done + {k}, ok && ok', receipts', raw',
                        if manifest.Some? then manifests + {manifest.value} else manifests)
  {
    AllPairsStep(s, done, k);
    var pairs, pairs' := AllPairs(s, done), AllPairs(s, done + {k});
    if PairsOk(s, pairs') {
      FewerPairsOk(s, pairs, pairs');
    }
    if ok && ok' {
      ManifestsNamedStep(s, done, k, manifests, manifest);
    }
  }

  lemma ManifestsNamedStep(s: Archive, done: set<Digest<RunReport>>, k: Digest<RunReport>,
                           manifests: set<Digest<ManifestBody>>, manifest: Option<Digest<ManifestBody>>)
    requires ManifestsNamed(s, done, manifests) && k in s.runs
    requires if CountCaptured(s.runs[k].results) > 0
             then manifest.Some? && s.runs[k].manifest == Some(CasRef(manifest.value, manifest.value))
             else manifest.None?
    ensures ManifestsNamed(s, done + {k}, if manifest.Some? then manifests + {manifest.value} else manifests)
  {
    var manifests' := if manifest.Some? then manifests + {manifest.value} else manifests;
    forall m
      ensures m in manifests' <==>
        exists j :: j in done + {k} && CountCaptured(s.runs[j].results) > 0 && s.runs[j].manifest == Some(CasRef(m, m))
    {
      if m in manifests {
        var j :| j in done && CountCaptured(s.runs[j].results) > 0 && s.runs[j].manifest == Some(CasRef(m, m));
        assert j in done + {k};
      } else if m in manifests' {
        assert k in done + {k};
      }
    }
  }

  /** The references collected from a clean set of reports. */
  ghost predicate ReceiptsBook(s: Archive, receipts: map<Digest<Receipt>, Expected>) {
    && (forall d :: d in receipts ==> exists k, t :: Reports(s, k, t, d))
    && (forall k, t, d :: Reports(s, k, t, d) ==> d in receipts && receipts[d] == ExpectedOf(t, s.runs[k].results[t]))
  }

  ghost predicate RawBook(s: Archive, raw: set<Digest<Bytes>>) {
    forall d :: d in raw <==> RunNamesRaw(s, d)
  }

  ghost predicate ManifestsBook(s: Archive, manifests: set<Digest<ManifestBody>>) {
    forall m :: m in manifests <==> NamesManifest(s, m)
  }

  lemma PairsToResults(s: Archive)
    requires PairsOk(s, AllPairs(s, s.runs.Keys))
    ensures forall k, t :: k in s.runs && t in s.runs[k].results ==> ResultOk(s, s.runs[k].results[t])
    ensures NoConflict(s)
  {
    var all := AllPairs(s, s.runs.Keys);
    forall k, t | k in s.runs && t in s.runs[k].results ensures ResultOk(s, s.runs[k].results[t]) {
      assert (k, t) in all;
    }
    forall k, t, k', t', d | Reports(s, k, t, d) && Reports(s, k', t', d)
      ensures ExpectedOf(t, s.runs[k].results[t]) == ExpectedOf(t', s.runs[k'].results[t'])
    {
      assert (k, t) in all && (k', t') in all;
      assert ReportsAt(s, (k, t), d) && ReportsAt(s, (k', t'), d);
    }
  }

  lemma ResultsToPairs(s: Archive)
    requires forall k, t :: k in s.runs && t in s.runs[k].results ==> ResultOk(s, s.runs[k].results[t])
    requires NoConflict(s)
    ensures PairsOk(s, AllPairs(s, s.runs.Keys))
  {
    var all := AllPairs(s, s.runs.Keys);
    forall p, q, d | p in all && q in all && ReportsAt(s, p, d) && ReportsAt(s, q, d)
      ensures ExpectedOf(p.1, ResultAt(s, p)) == ExpectedOf(q.1, ResultAt(s, q))
    {
      assert Reports(s, p.0, p.1, d) && Reports(s, q.0, q.1, d);
    }
  }

  lemma PairsBook(s: Archive, receipts: map<Digest<Receipt>, Expected>, raw: set<Digest<Bytes>>)
    requires BookOk(s, AllPairs(s, s.runs.Keys), receipts, raw)
    ensures ReceiptsBook(s, receipts) && RawBook(s, raw)
  {
    var all := AllPairs(s, s.runs.Keys);
    forall d | d in receipts ensures exists k, t :: Reports(s, k, t, d) {
      var p :| p in all && ReportsAt(s, p, d);
      assert Reports(s, p.0, p.1, d);
    }
    forall k, t, d | Reports(s, k, t, d) ensures d in receipts && receipts[d] == ExpectedOf(t, s.runs[k].results[t]) {
      assert (k, t) in all && ReportsAt(s, (k, t), d);
    }
    forall d ensures d in raw <==> RunNamesRaw(s, d) {
      if d in raw {
        var p :| p in all && ResultNamesRaw(ResultAt(s, p), d);
        assert p.0 in s.runs && p.1 in s.runs[p.0].results;
      }
      if RunNamesRaw(s, d) {
        var k, t :| k in s.runs && t in s.runs[k].results && ResultNamesRaw(s.runs[k].results[t], d);
        assert (k, t) in all && ResultNamesRaw(ResultAt(s, (k, t)), d);
      }
    }
  }

  /** After the last report, the tracked conditions are the specification of the pass. */
  lemma AllRunsTracked(c: Contracts, s: Archive, ok: bool, receipts: map<Digest<Receipt>, Expected>,
                       raw: set<Digest<Bytes>>, manifests: set<Digest<ManifestBody>>)
    requires RunsTracked(c, s, s.runs.Keys, ok, receipts, raw, manifests)
    ensures ok <==> RunsClean(c, s)
    ensures ok ==> ReceiptsBook(s, receipts) && RawBook(s, raw) && ManifestsBook(s, manifests)
  {
    if ok {
      PairsToResults(s);
      PairsBook(s, receipts, raw);
    } else if RunsClean(c, s) {
      ResultsToPairs(s);
    }
  }

  ghost predicate SomeComplete(s: Archive, done: set<Digest<RunReport>>) {
    exists k :: k in done && k in s.runs && s.runs[k].state == CompleteShadowCapture
  }

  method AuditNextRun(c: Contracts, s: Archive, k: Digest<RunReport>, ghost done: set<Digest<RunReport>>,
                      errors: set<AuditError>, receipts: map<Digest<Receipt>, Expected>, raw: set<Digest<Bytes>>,
                      manifests: set<Digest<ManifestBody>>, complete: bool)
    returns (errors': set<AuditError>, receipts': map<Digest<Receipt>, Expected>, raw': set<Digest<Bytes>>,
             manifests': set<Digest<ManifestBody>>, complete': bool)
    requires k in s.runs && RunsTracked(c, s, done, errors == {}, receipts, raw, manifests)
    requires errors == {} ==> (complete <==> SomeComplete(s, done))
    ensures RunsTracked(c, s, done + {k}, errors' == {}, receipts', raw', manifests')
    ensures errors' == {} ==> (complete' <==> SomeComplete(s, done + {k}))
  {
    var more, manifest, full;
    more, receipts', raw', manifest, full := AuditRun(c, s, k, receipts, raw, AllPairs(s, done));
    RunsTrackedStep(c, s, done, k, errors == {}, more == {}, receipts, raw, manifests, receipts', raw', manifest);
    errors' := errors + more;
    manifests' := if manifest.Some? then manifests + {manifest.value} else manifests;
    complete' := complete || full;
    if errors' == {} {
      SomeCompleteStep(s, done, k);
    }
  }

  lemma SomeCompleteStep(s: Archive, done: set<Digest<RunReport>>, k: Digest<RunReport>)
    requires k in s.runs
    ensures SomeComplete(s, done + {k}) <==> SomeComplete(s, done) || s.runs[k].state == CompleteShadowCapture
  {
    if SomeComplete(s, done) {
      var j :| j in done && j in s.runs && s.runs[j].state == CompleteShadowCapture;
      assert j in done + {k};
    }
    assert k in done + {k};
  }

  lemma NoRunsTracked(c: Contracts, s: Archive)
    ensures RunsTracked(c, s, {}, true, map[], {}, {})
  {
    assert AllPairs(s, {}) == {};
  }

  /** First pass of the auditor. */
  method AuditRuns(c: Contracts, s: Archive)
    returns (errors: set<AuditError>, receipts: map<Digest<Receipt>, Expected>, raw: set<Digest<Bytes>>,
             manifests: set<Digest<ManifestBody>>, complete: bool)
    ensures errors == {} <==> RunsClean(c, s)
    ensures errors == {} ==> ReceiptsBook(s, receipts) && RawBook(s, raw) && ManifestsBook(s, manifests)
    ensures errors == {} ==> (complete <==> SomeComplete(s, s.runs.Keys))
  {
    errors, receipts, raw, manifests, complete := {}, map[], {}, {}, false;
    var todo := s.runs.Keys;
    ghost var done: set<Digest<RunReport>> := {};
    NoRunsTracked(c, s);
    while todo != {}
      invariant todo <= s.runs.Keys && done == s.runs.Keys - todo
      invariant RunsTracked(c, s, done, errors == {}, receipts, raw, manifests)
      invariant errors == {} ==> (complete <==> SomeComplete(s, done))
      decreases |todo|
    {
      var k :| k in todo;
      errors, receipts, raw, manifests, complete := AuditNextRun(c, s, k, done, errors, receipts, raw, manifests, complete);
      todo := todo - {k};
      done := done + {k};
    }
    assert done == s.runs.Keys;
    AllRunsTracked(c, s, errors == {}, receipts, raw, manifests);
  }
}
