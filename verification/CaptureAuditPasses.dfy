/** Passes two to five of the auditor, over receipts, manifests, identity records and raw files,
    and the whole audit. */
module CaptureAuditPasses {
  import opened Common
  import opened CaptureModel
  import opened CaptureAudit
  import opened CaptureAuditor

  // ---------------------------------------------------------------- pass 2: receipts

  function KeyOf(a: Artifact): IdentityFields {
    IdentityFields(a.url, a.sha)
  }

  /** `receipt_artifacts` answers whether an artifact is the one its receipt recorded. */
  ghost predicate ArtifactsBook(s: Archive, artifacts: map<IdentityFields, Artifact>) {
    forall a :: (KeyOf(a) in artifacts && artifacts[KeyOf(a)] == a) <==> HasReceipt(s, a)
  }

  ghost predicate Replayed(c: Contracts, s: Archive, done: set<Digest<Receipt>>) {
    forall d :: d in done ==> d in s.receipts && ReplayReceipt(c, s, d).Ok?
  }

  /** Receipts that replay and name the same bytes under the same request hold the same artifact. */
  lemma ReplayedAgree(c: Contracts, s: Archive, d: Digest<Receipt>, e: Digest<Receipt>)
    requires d in s.receipts && e in s.receipts && ReplayReceipt(c, s, d).Ok? && ReplayReceipt(c, s, e).Ok?
    requires KeyOf(s.receipts[d].artifact) == KeyOf(s.receipts[e].artifact)
    ensures s.receipts[d].artifact == s.receipts[e].artifact
  {
    ReplayedIdentity(c, s, d);
    ReplayedIdentity(c, s, e);
  }

  lemma ReplayedIdentity(c: Contracts, s: Archive, d: Digest<Receipt>)
    requires d in s.receipts && ReplayReceipt(c, s, d).Ok?
    ensures var a := s.receipts[d].artifact;
            Sha256(KeyOf(a)) in s.identities && s.identities[Sha256(KeyOf(a))].artifact == a
  {
    var r := s.receipts[d];
    assert ReadReceipt(s, d).Ok?;
    assert LoadExistingIdentity(s, r.snapshot.body.url, r.artifact.sha) == Ok(Some(r.artifact));
  }

  /** The dictionary built from the receipts in `done`. */
  ghost predicate ArtifactsFrom(s: Archive, done: set<Digest<Receipt>>, artifacts: map<IdentityFields, Artifact>) {
    && (forall d :: d in done ==> d in s.receipts && KeyOf(s.receipts[d].artifact) in artifacts
                                  && artifacts[KeyOf(s.receipts[d].artifact)] == s.receipts[d].artifact)
    && (forall k :: k in artifacts ==> exists d :: d in done && d in s.receipts && s.receipts[d].artifact == artifacts[k]
                                                   && KeyOf(artifacts[k]) == k)
  }

  lemma ArtifactsStep(c: Contracts, s: Archive, done: set<Digest<Receipt>>, d: Digest<Receipt>, artifacts: map<IdentityFields, Artifact>)
    requires Replayed(c, s, done) && ArtifactsFrom(s, done, artifacts) && d in s.receipts && ReplayReceipt(c, s, d).Ok?
    ensures ArtifactsFrom(s, done + {d}, artifacts[KeyOf(s.receipts[d].artifact) := s.receipts[d].artifact])
  {
    hide ReplayReceipt;
    var a := s.receipts[d].artifact;
    var artifacts' := artifacts[KeyOf(a) := a];
    forall e | e in done && KeyOf(s.receipts[e].artifact) == KeyOf(a) ensures s.receipts[e].artifact == a {
      ReplayedAgree(c, s, d, e);
    }
    forall k | k in artifacts'
      ensures exists e :: e in done + {d} && e in s.receipts && s.receipts[e].artifact == artifacts'[k] && KeyOf(artifacts'[k]) == k
    {
      if k == KeyOf(a) {
        assert d in done + {d};
      } else {
        var e :| e in done && e in s.receipts && s.receipts[e].artifact == artifacts[k] && KeyOf(artifacts[k]) == k;
        assert e in done + {d};
      }
    }
  }

  lemma ArtifactsComplete(s: Archive, artifacts: map<IdentityFields, Artifact>)
    requires ArtifactsFrom(s, s.receipts.Keys, artifacts)
    ensures ArtifactsBook(s, artifacts)
  {
    forall a ensures (KeyOf(a) in artifacts && artifacts[KeyOf(a)] == a) <==> HasReceipt(s, a) {
      if HasReceipt(s, a) {
        var d :| d in s.receipts && s.receipts[d].artifact == a;
        assert d in s.receipts.Keys;
      }
    }
  }

  /** The ways `replay_capture_receipt` ends: an exception of the parser is of another class than its own. */
  datatype Replay = Restored(snapshot: Snapshot) | Failed(why: ErrorCode) | Escaped(why: ErrorCode)

  /** `replay_capture_receipt`. */
  method ReplayCaptureReceipt(c: Contracts, s: Archive, d: Digest<Receipt>) returns (r: Replay)
    ensures r.Escaped? <==> ReplayRaises(c, s, d)
    ensures r.Restored? <==> ReplayReceipt(c, s, d).Ok?
    ensures match r
            case Restored(snapshot) => ReplayReceipt(c, s, d) == Ok(snapshot)
            case Failed(why) => ReplayReceipt(c, s, d) == Err(why)
            case Escaped(why) => ReplayReceipt(c, s, d) == Err(why)
  {
    var read := ReadReceipt(s, d);
    if read.Err? {
      return Failed(read.error);
    }
    var receipt := read.value;
    if receipt.hashes != c.hashes {
      return Failed(ReceiptParentHashMismatch);
    }
    if receipt.artifact.firstSeen < 0 {
      return Failed(FirstSeenInvalid);
    }
    var parsed := ParseSnapshot(c, receipt.ticker, s.raw[receipt.artifact.path], receipt.snapshot.body.url,
                                receipt.artifact.contentType, receipt.artifact.firstSeen);
    if parsed.Err? {
      return Escaped(parsed.error);
    }
    r := if parsed.value != receipt.snapshot then Failed(ReplaySnapshotMismatch) else Restored(parsed.value);
  }

  /** One receipt: its errors, or the parser's exception, which escapes. */
  method AuditReceipt(c: Contracts, s: Archive, d: Digest<Receipt>, receipts: map<Digest<Receipt>, Expected>)
    returns (r: Result<set<AuditError>, ErrorCode>)
    requires d in s.receipts
    ensures r.Err? <==> ReplayRaises(c, s, d)
    ensures r.Ok? && ReceiptsBook(s, receipts) ==> (r.value == {} <==> ReceiptClean(c, s, d))
    ensures r.Ok? && r.value == {} ==> ReplayReceipt(c, s, d).Ok?
  {
    var errors, receipt := {}, s.receipts[d];
    if d != Sha256(receipt) {
      errors := errors + {ReceiptInvalid(d)};
    }
    if d !in receipts {
      errors := errors + {ReceiptInvalid(d)};
    } else if receipts[d] != Expected(receipt.ticker, Some(receipt.artifact), Some(receipt.snapshot)) {
      errors := errors + {ReceiptInvalid(d)};
    }
    var replayed := ReplayCaptureReceipt(c, s, d);
    match replayed {
      case Escaped(e) => return Err(e);
      case Failed(_) => errors := errors + {ReceiptInvalid(d)};
      case Restored(_) =>
        if !ArtifactReferenceOk(s, receipt.artifact) {
          errors := errors + {ReceiptInvalid(d)};
        }
    }
    r := Ok(errors);
  }

  ghost predicate ReceiptsCleanIn(c: Contracts, s: Archive, done: set<Digest<Receipt>>) {
    forall d :: d in done ==> d in s.receipts && ReceiptClean(c, s, d)
  }

  function RawPaths(s: Archive, done: set<Digest<Receipt>>): set<Digest<Bytes>>
    requires done <= s.receipts.Keys
  {
    set d | d in done :: s.receipts[d].artifact.path
  }

  function IdentityPaths(s: Archive, done: set<Digest<Receipt>>): set<Digest<IdentityFields>>
    requires done <= s.receipts.Keys
  {
    set d | d in done :: IdentityKey(s.receipts[d].snapshot.body.url, s.receipts[d].artifact.sha)
  }

  /** No error so far exactly when the receipts in `done` are acceptable. */
  ghost predicate VerdictTracked(c: Contracts, s: Archive, receipts: map<Digest<Receipt>, Expected>, done: set<Digest<Receipt>>, ok: bool) {
    ReceiptsBook(s, receipts) ==> (ok <==> ReceiptsCleanIn(c, s, done))
  }

  /** The references recorded from the receipts in `done`. */
  ghost predicate BooksTracked(c: Contracts, s: Archive, done: set<Digest<Receipt>>, raw: set<Digest<Bytes>>,
                               identities: set<Digest<IdentityFields>>, artifacts: map<IdentityFields, Artifact>)
  {
    && done <= s.receipts.Keys && Replayed(c, s, done) && ArtifactsFrom(s, done, artifacts)
    && raw == RawPaths(s, done) && identities == IdentityPaths(s, done)
  }

  lemma VerdictStep(c: Contracts, s: Archive, receipts: map<Digest<Receipt>, Expected>, done: set<Digest<Receipt>>,
                    d: Digest<Receipt>, ok: bool, ok': bool)
    requires VerdictTracked(c, s, receipts, done, ok) && d in s.receipts
    requires ReceiptsBook(s, receipts) ==> (ok' <==> ReceiptClean(c, s, d))
    ensures VerdictTracked(c, s, receipts, done + {d}, ok && ok')
  {
    assert d in done + {d};
    if ReceiptsBook(s, receipts) && ok && ok' {
      assert ReceiptsCleanIn(c, s, done + {d});
    }
  }

  lemma BooksStep(c: Contracts, s: Archive, done: set<Digest<Receipt>>, d: Digest<Receipt>, raw: set<Digest<Bytes>>,
                  identities: set<Digest<IdentityFields>>, artifacts: map<IdentityFields, Artifact>)
    requires BooksTracked(c, s, done, raw, identities, artifacts) && d in s.receipts && ReplayReceipt(c, s, d).Ok?
    ensures var r := s.receipts[d];
            BooksTracked(c, s, done + {d}, raw + {r.artifact.path},
                         identities + {IdentityKey(r.snapshot.body.url, r.artifact.sha)},
                         artifacts[KeyOf(r.artifact) := r.artifact])
  {
    ArtifactsStep(c, s, done, d, artifacts);
    PathsStep(s, done, d);
    ReplayedStep(c, s, done, d);
  }

  lemma PathsStep(s: Archive, done: set<Digest<Receipt>>, d: Digest<Receipt>)
    requires done <= s.receipts.Keys && d in s.receipts
    ensures var r := s.receipts[d];
            && RawPaths(s, done + {d}) == RawPaths(s, done) + {r.artifact.path}
            && IdentityPaths(s, done + {d}) == IdentityPaths(s, done) + {IdentityKey(r.snapshot.body.url, r.artifact.sha)}
  {
  }

  lemma ReplayedStep(c: Contracts, s: Archive, done: set<Digest<Receipt>>, d: Digest<Receipt>)
    requires Replayed(c, s, done) && d in s.receipts && ReplayReceipt(c, s, d).Ok?
    ensures Replayed(c, s, done + {d})
  {
  }

  lemma NothingTracked(c: Contracts, s: Archive, receipts: map<Digest<Receipt>, Expected>)
    ensures VerdictTracked(c, s, receipts, {}, true) && BooksTracked(c, s, {}, {}, {}, map[])
  {
  }

  /** What the receipt pass leaves for the later ones. */
  datatype ReceiptBooks = ReceiptBooks(errors: set<AuditError>, raw: set<Digest<Bytes>>, identities: set<Digest<IdentityFields>>,
                                       artifacts: map<IdentityFields, Artifact>)

  /** Second pass: every receipt is referenced as it was written, and replays; an exception of the parser
      ends the audit. */
  method AuditReceipts(c: Contracts, s: Archive, receipts: map<Digest<Receipt>, Expected>) returns (r: Result<ReceiptBooks, ErrorCode>)
    ensures r.Err? <==> AuditRaises(c, s)
    ensures r.Ok? ==> VerdictTracked(c, s, receipts, s.receipts.Keys, r.value.errors == {})
    ensures r.Ok? && r.value.errors == {} ==>
              BooksTracked(c, s, s.receipts.Keys, r.value.raw, r.value.identities, r.value.artifacts)
  {
    hide VerdictTracked, BooksTracked, ReplayRaises, ReplayReceipt, ReceiptClean, ReceiptsBook;
    var errors: set<AuditError>, raw: set<Digest<Bytes>>, identities: set<Digest<IdentityFields>> := {}, {}, {};
    var artifacts: map<IdentityFields, Artifact> := map[];
    NothingTracked(c, s, receipts);
    var todo := s.receipts.Keys;
    ghost var done: set<Digest<Receipt>> := {};
    while todo != {}
      invariant todo <= s.receipts.Keys && done == s.receipts.Keys - todo
      invariant VerdictTracked(c, s, receipts, done, errors == {})
      invariant errors == {} ==> BooksTracked(c, s, done, raw, identities, artifacts)
      invariant forall e :: e in done ==> !ReplayRaises(c, s, e)
      decreases |todo|
    {
      var d :| d in todo;
      var audited := AuditReceipt(c, s, d, receipts);
      if audited.Err? {
        return Err(audited.error);
      }
      var more := audited.value;
      VerdictStep(c, s, receipts, done, d, errors == {}, more == {});
      if ReplayReceipt(c, s, d).Ok? {
        if errors == {} {
          BooksStep(c, s, done, d, raw, identities, artifacts);
        }
        var receipt := s.receipts[d];
        raw := raw + {receipt.artifact.path};
        artifacts := artifacts[KeyOf(receipt.artifact) := receipt.artifact];
        identities := identities + {IdentityKey(receipt.snapshot.body.url, receipt.artifact.sha)};
      }
      errors := errors + more;
      todo := todo - {d};
      done := done + {d};
    }
    assert done == s.receipts.Keys;
    r := Ok(ReceiptBooks(errors, raw, identities, artifacts));
  }

  lemma ReceiptPass(c: Contracts, s: Archive, receipts: map<Digest<Receipt>, Expected>, ok: bool)
    requires VerdictTracked(c, s, receipts, s.receipts.Keys, ok)
    ensures ReceiptsBook(s, receipts) ==> (ok <==> ReceiptsClean(c, s))
  {
    assert ReceiptsCleanIn(c, s, s.receipts.Keys) <==> ReceiptsClean(c, s);
  }

  // ---------------------------------------------------------------- pass 3: manifests

  /** `validate_dataset_manifest`, shared by the writer and the auditor. */
  method ValidateDatasetManifest(s: Archive, m: Manifest) returns (errors: set<AuditError>)
    ensures errors == {} <==> ManifestValid(s, m)
  {
    errors := {};
    var rows := m.body.artifacts;
    if m.sha != Sha256(m.body) {
      errors := errors + {ManifestFileInvalid(m.sha)};
    }
    var present := false;
    for i := 0 to |rows|
      invariant errors == {} <==> m.sha == Sha256(m.body) && forall j :: 0 <= j < i ==> ManifestArtifactValid(s, rows[j])
      invariant errors == {} ==>
                  (present <==> exists j :: 0 <= j < i && rows[j].replayEligible && rows[j].evidenceClass != SyntheticFixture)
    {
      if !ManifestArtifactValid(s, rows[i]) {
        errors := errors + {ManifestRowInvalid(rows[i])};
      } else if rows[i].replayEligible && rows[i].evidenceClass != SyntheticFixture {
        present := true;
      }
    }
    if !present {
      errors := errors + {ManifestHasNoEligibleRow};
    }
  }

  ghost predicate RowsClean(s: Archive, rows: seq<Artifact>) {
    forall i :: 0 <= i < |rows| ==> ArtifactReferenceOk(s, rows[i]) && HasReceipt(s, rows[i])
  }

  /** The manifest rows: valid raw references that match a receipt. */
  method AuditRows(s: Archive, rows: seq<Artifact>, artifacts: map<IdentityFields, Artifact>)
    returns (errors: set<AuditError>, raw: set<Digest<Bytes>>)
    ensures ArtifactsBook(s, artifacts) ==> (errors == {} <==> RowsClean(s, rows))
    ensures errors == {} ==> raw == set i | 0 <= i < |rows| :: rows[i].path
  {
    errors, raw := {}, {};
    for i := 0 to |rows|
      invariant ArtifactsBook(s, artifacts) ==> (errors == {} <==> RowsClean(s, rows[..i]))
      invariant errors == {} ==> raw == set j | 0 <= j < i :: rows[j].path
    {
      var a := rows[i];
      assert rows[..i + 1] == rows[..i] + [a];
      if !ArtifactReferenceOk(s, a) {
        errors := errors + {ManifestRowInvalid(a)};
      }
      if KeyOf(a) !in artifacts || artifacts[KeyOf(a)] != a {
        errors := errors + {ManifestRowInvalid(a)};
      }
      raw := raw + {a.path};
    }
    assert rows[..|rows|] == rows;
  }

  method AuditManifest(c: Contracts, s: Archive, m: Digest<ManifestBody>, manifests: set<Digest<ManifestBody>>,
                       artifacts: map<IdentityFields, Artifact>)
    returns (errors: set<AuditError>, raw: set<Digest<Bytes>>)
    requires m in s.manifests
    ensures ManifestsBook(s, manifests) && ArtifactsBook(s, artifacts) ==> (errors == {} <==> ManifestClean(c, s, m))
    ensures errors == {} ==> raw == RowPaths(s, {m})
  {
    var man := s.manifests[m];
    var more := ValidateDatasetManifest(s, man);
    errors, raw := AuditRows(s, man.body.artifacts, artifacts);
    errors := errors + more;
    if !man.sha.Sha256? || m != man.sha || m !in manifests {
      errors := errors + {ManifestFileInvalid(m)};
    }
    if man.body.registry != c.registryHash || man.body.authority != c.authorityHash
       || man.body.acquisition != c.hashes.acquisition || man.body.source != c.hashes.source
    {
      errors := errors + {ManifestFileInvalid(m)};
    }
    assert RowPaths(s, {m}) == set i | 0 <= i < |man.body.artifacts| :: man.body.artifacts[i].path;
  }

  function RowPaths(s: Archive, done: set<Digest<ManifestBody>>): set<Digest<Bytes>>
    requires done <= s.manifests.Keys
  {
    set m, i | m in done && 0 <= i < |s.manifests[m].body.artifacts| :: s.manifests[m].body.artifacts[i].path
  }

  /** Third pass. */
  method AuditManifests(c: Contracts, s: Archive, manifests: set<Digest<ManifestBody>>, artifacts: map<IdentityFields, Artifact>)
    returns (errors: set<AuditError>, raw: set<Digest<Bytes>>)
    ensures ManifestsBook(s, manifests) && ArtifactsBook(s, artifacts) ==> (errors == {} <==> ManifestsClean(c, s))
    ensures errors == {} ==> raw == RowPaths(s, s.manifests.Keys)
  {
    errors, raw := {}, {};
    var todo := s.manifests.Keys;
    ghost var done: set<Digest<ManifestBody>> := {};
    while todo != {}
      invariant todo <= s.manifests.Keys && done == s.manifests.Keys - todo
      invariant ManifestsBook(s, manifests) && ArtifactsBook(s, artifacts) ==>
                  (errors == {} <==> forall m :: m in done ==> ManifestClean(c, s, m))
      invariant errors == {} ==> raw == RowPaths(s, done)
      decreases |todo|
    {
      var m :| m in todo;
      var more, paths := AuditManifest(c, s, m, manifests, artifacts);
      errors, raw := errors + more, raw + paths;
      assert RowPaths(s, done + {m}) == RowPaths(s, done) + RowPaths(s, {m});
      todo := todo - {m};
      done := done + {m};
    }
    assert done == s.manifests.Keys;
  }

  // ---------------------------------------------------------------- passes 4 and 5

  function IdentityRaws(s: Archive, done: set<Digest<IdentityFields>>): set<Digest<Bytes>>
    requires done <= s.identities.Keys
  {
    set k | k in done :: s.identities[k].artifact.path
  }

  method AuditIdentity(s: Archive, k: Digest<IdentityFields>, identities: set<Digest<IdentityFields>>,
                       artifacts: map<IdentityFields, Artifact>)
    returns (errors: set<AuditError>)
    requires k in s.identities
    ensures identities == IdentityPaths(s, s.receipts.Keys) && ArtifactsBook(s, artifacts) ==>
              (errors == {} <==> IdentityClean(s, k))
  {
    errors := {};
    var a := s.identities[k].artifact;
    if s.identities[k].recordSha != Sha256(a) || k != IdentityKey(a.url, a.sha) {
      errors := errors + {IdentityInvalid(k)};
    }
    if k !in identities || !ArtifactReferenceOk(s, a) {
      errors := errors + {IdentityInvalid(k)};
    }
    if KeyOf(a) !in artifacts || artifacts[KeyOf(a)] != a {
      errors := errors + {IdentityInvalid(k)};
    }
  }

  /** Fourth pass. */
  method AuditIdentities(s: Archive, identities: set<Digest<IdentityFields>>, artifacts: map<IdentityFields, Artifact>)
    returns (errors: set<AuditError>, raw: set<Digest<Bytes>>)
    ensures identities == IdentityPaths(s, s.receipts.Keys) && ArtifactsBook(s, artifacts) ==>
              (errors == {} <==> IdentitiesClean(s))
    ensures raw == IdentityRaws(s, s.identities.Keys)
  {
    errors, raw := {}, {};
    var todo := s.identities.Keys;
    ghost var done: set<Digest<IdentityFields>> := {};
    while todo != {}
      invariant todo <= s.identities.Keys && done == s.identities.Keys - todo
      invariant identities == IdentityPaths(s, s.receipts.Keys) && ArtifactsBook(s, artifacts) ==>
                  (errors == {} <==> forall k :: k in done ==> IdentityClean(s, k))
      invariant raw == IdentityRaws(s, done)
      decreases |todo|
    {
      var k :| k in todo;
      var more := AuditIdentity(s, k, identities, artifacts);
      errors, raw := errors + more, raw + {s.identities[k].artifact.path};
      assert IdentityRaws(s, done + {k}) == IdentityRaws(s, done) + {s.identities[k].artifact.path};
      todo := todo - {k};
      done := done + {k};
    }
    assert done == s.identities.Keys;
  }

  /** Fifth pass. */
  method AuditRaws(s: Archive, raw: set<Digest<Bytes>>) returns (errors: set<AuditError>)
    ensures (forall d :: d in raw <==> RawNamed(s, d)) ==> (errors == {} <==> RawsClean(s))
  {
    errors := {};
    var todo := s.raw.Keys;
    ghost var done: set<Digest<Bytes>> := {};
    while todo != {}
      invariant todo <= s.raw.Keys && done == s.raw.Keys - todo
      invariant (forall d :: d in raw <==> RawNamed(s, d)) ==> (errors == {} <==> forall d :: d in done ==> RawClean(s, d))
      decreases |todo|
    {
      var d :| d in todo;
      if !d.Sha256? || Sha256(s.raw[d]) != d || d !in raw {
        errors := errors + {RawArtifactInvalid(d)};
      }
      todo := todo - {d};
      done := done + {d};
    }
    assert done == s.raw.Keys;
  }

  // ---------------------------------------------------------------- the whole audit

  datatype AuditState = Blocked | EmptyArchive | ShadowCaptureAuditPass | IntegrityPassPartialCapture | IntegrityPassNoCapture

  lemma RawBooks(s: Archive, runRaw: set<Digest<Bytes>>)
    requires RawBook(s, runRaw)
    ensures forall d :: d in runRaw + RawPaths(s, s.receipts.Keys) + RowPaths(s, s.manifests.Keys)
                             + IdentityRaws(s, s.identities.Keys)
                        <==> RawNamed(s, d)
  {
    forall d ensures d in RawPaths(s, s.receipts.Keys) <==> exists e :: e in s.receipts && s.receipts[e].artifact.path == d {}
    forall d ensures d in IdentityRaws(s, s.identities.Keys) <==> exists k :: k in s.identities && s.identities[k].artifact.path == d {}
    forall d ensures d in RowPaths(s, s.manifests.Keys) <==>
      exists m, i :: m in s.manifests && 0 <= i < |s.manifests[m].body.artifacts| && s.manifests[m].body.artifacts[i].path == d {}
  }

  /** `errors` and `state` of the report. */
  datatype AuditReport = AuditReport(errors: set<AuditError>, state: AuditState)

  /** The verdict on an archive without errors. */
  ghost function CleanState(s: Archive): AuditState {
    if s.runs == map[] then EmptyArchive
    else if SomeComplete(s, s.runs.Keys) then ShadowCaptureAuditPass
    else if s.receipts != map[] then IntegrityPassPartialCapture
    else IntegrityPassNoCapture
  }

  /** `audit_capture_archive` raises exactly when an intact receipt no longer parses. Otherwise it records no
      error exactly when the archive is clean, and its verdict is then decided by the run reports and
      receipts present. */
  method AuditArchive(c: Contracts, s: Archive) returns (r: Result<AuditReport, ErrorCode>)
    ensures r.Err? <==> AuditRaises(c, s)
    ensures Clean(c, s) ==> r.Ok?
    ensures r.Ok? ==> (r.value.errors == {} <==> Clean(c, s))
    ensures r.Ok? ==> r.value.state == if Clean(c, s) then CleanState(s) else Blocked
  {
    hide RunsClean, ReceiptsClean, ManifestsClean, IdentitiesClean, RawsClean, RawNamed, SomeComplete, AuditRaises;
    hide VerdictTracked, ArtifactsFrom, Replayed, RawPaths, IdentityPaths, RowPaths, IdentityRaws;
    hide ReceiptsBook, RawBook, ManifestsBook, ArtifactsBook;
    if Clean(c, s) {
      CleanDoesNotRaise(c, s);
    }
    var runErrors, receipts, runRaw, manifests, complete := AuditRuns(c, s);
    var pass := AuditReceipts(c, s, receipts);
    if pass.Err? {
      return Err(pass.error);
    }
    var books := pass.value;
    ReceiptPass(c, s, receipts, books.errors == {});
    if books.errors == {} {
      ArtifactsComplete(s, books.artifacts);
    }
    var manifestErrors, rowRaw := AuditManifests(c, s, manifests, books.artifacts);
    var identityErrors, identityRaw := AuditIdentities(s, books.identities, books.artifacts);
    var rawErrors := AuditRaws(s, runRaw + books.raw + rowRaw + identityRaw);
    var errors := runErrors + books.errors + manifestErrors + identityErrors + rawErrors;
    if runErrors == {} && books.errors == {} && manifestErrors == {} {
      RawBooks(s, runRaw);
    }
    var state;
    if errors != {} {
      state := Blocked;
    } else if s.runs == map[] {
      state := EmptyArchive;
    } else if complete {
      state := ShadowCaptureAuditPass;
    } else if s.receipts != map[] {
      state := IntegrityPassPartialCapture;
    } else {
      state := IntegrityPassNoCapture;
    }
    r := Ok(AuditReport(errors, state));
  }
}
