/** Same-session revisions. With retrieval clocks that increase per ticker, the receipts of each
    (ticker, session) form one chain, and archived bytes are accepted again exactly when they
    are its newest link. */
module CaptureRevisions {
  import opened Common
  import opened CaptureModel
  import opened CaptureInvariant
  import opened CaptureReachable

  ghost predicate Concerns(s: Archive, d: Digest<Receipt>, t: Ticker, on: int) {
    d in s.receipts && s.receipts[d].ticker == t && s.receipts[d].observedOn == on
  }

  ghost function ArtifactAt(s: Archive, d: Digest<Receipt>): Artifact
    requires d in s.receipts
  {
    s.receipts[d].artifact
  }

  /** `chain` lists every receipt of (t, on), oldest first, each naming its predecessor's bytes. */
  ghost predicate IsChain(s: Archive, t: Ticker, on: int, chain: seq<Digest<Receipt>>) {
    && (forall i :: 0 <= i < |chain| ==> Concerns(s, chain[i], t, on))
    && (forall d :: Concerns(s, d, t, on) ==> d in chain)
    && (forall i, j :: 0 <= i < j < |chain| ==> ArtifactAt(s, chain[i]).firstSeen < ArtifactAt(s, chain[j]).firstSeen)
    && (forall i :: 0 <= i < |chain| ==> NamesPredecessor(s, chain, i))
  }

  ghost predicate NamesPredecessor(s: Archive, chain: seq<Digest<Receipt>>, i: int)
    requires 0 <= i < |chain| && chain[i] in s.receipts && (i > 0 ==> chain[i - 1] in s.receipts)
  {
    ArtifactAt(s, chain[i]).revisionOf == if i == 0 then None else Some(ArtifactAt(s, chain[i - 1]).sha)
  }

  ghost predicate Chained(s: Archive) {
    forall t, on :: HasChain(s, t, on)
  }

  ghost predicate HasChain(s: Archive, t: Ticker, on: int) {
    exists chain :: IsChain(s, t, on, chain)
  }

  /** Every receipt of ticker `t` was retrieved before `clock`. */
  ghost predicate RetrievedBefore(s: Archive, t: Ticker, clock: int) {
    forall d :: d in s.receipts && s.receipts[d].ticker == t ==> s.receipts[d].artifact.retrievedAt < clock
  }

  // ---------------------------------------------------------------- receipts are determined by their bytes

  /** Two held receipts of one ticker over the same bytes are one receipt. */
  lemma SameBytesSameReceipt(c: Contracts, s: Archive, d: Digest<Receipt>, e: Digest<Receipt>)
    requires d in s.receipts && e in s.receipts && ReceiptHeld(c, s, d) && ReceiptHeld(c, s, e)
    requires s.receipts[d].ticker == s.receipts[e].ticker && ArtifactAt(s, d).sha == ArtifactAt(s, e).sha
    ensures d == e
  {
  }

  /** A promoted response whose identity was already archived repeats the stored receipt. */
  lemma KnownBytesKnownReceipt(c: Contracts, s: Archive, s': Archive, t: Ticker, v: Validated, firstSeen: int,
                               snap: Snapshot, res: TickerResult)
    requires c.Valid() && Sound(c, s) && Promoted(c, s, s', t, v, firstSeen, snap, res)
    requires Sha256(v.body) in s.raw && s.raw[Sha256(v.body)] == v.body
    requires ParseSnapshot(c, t, v.body, c.url(t), v.contentType, firstSeen) == Ok(snap)
    requires IdentityKey(c.url(t), Sha256(v.body)) in s.identities
    ensures s'.receipts == s.receipts
  {
    hide ParseSnapshot, RawAddressed;
    var key := IdentityKey(c.url(t), Sha256(v.body));
    var a := res.artifact.value;
    assert s.identities[key].artifact == a;
    assert IdentityHeld(s, key);
    var e :| e in s.receipts && s.receipts[e].artifact == a;
    assert ReceiptHeld(c, s, e);
    assert s.receipts[e].ticker == t;
    assert s.receipts[e] == MakeReceipt(c, t, a, snap);
  }

  lemma NewBytesNoReceipt(c: Contracts, s: Archive, t: Ticker, sha: Digest<Bytes>, d: Digest<Receipt>)
    requires Sound(c, s) && IdentityKey(c.url(t), sha) !in s.identities && d in s.receipts && s.receipts[d].ticker == t
    ensures s.receipts[d].artifact.sha != sha
  {
    assert ReceiptHeld(c, s, d);
  }

  // ---------------------------------------------------------------- the newest link

  /** The candidate `_find_prior_revision` picks for bytes outside the chain is its last link. */
  lemma PriorIsLast(c: Contracts, s: Archive, t: Ticker, on: int, sha: Digest<Bytes>, chain: seq<Digest<Receipt>>, p: Option<Digest<Bytes>>)
    requires IsChain(s, t, on, chain) && IsPrior(c, s, t, on, sha, p)
    requires forall i :: 0 <= i < |chain| ==> ArtifactAt(s, chain[i]).sha != sha
    ensures p == if chain == [] then None else Some(ArtifactAt(s, chain[|chain| - 1]).sha)
  {
    PriorAmong(c, s, t, on, sha, chain, |chain|, p);
  }

  /** If the first `n` links are the candidates, the pick is link `n - 1`. */
  lemma PriorAmong(c: Contracts, s: Archive, t: Ticker, on: int, sha: Digest<Bytes>, chain: seq<Digest<Receipt>>, n: nat, p: Option<Digest<Bytes>>)
    requires IsChain(s, t, on, chain) && IsPrior(c, s, t, on, sha, p) && n <= |chain|
    requires forall i :: 0 <= i < |chain| ==> (ArtifactAt(s, chain[i]).sha != sha <==> i < n)
    ensures p == if n == 0 then None else Some(ArtifactAt(s, chain[n - 1]).sha)
  {
    if n > 0 {
      var last := chain[n - 1];
      assert Concerns(s, last, t, on) && PriorCandidate(s.receipts[last], t, on, sha);
      var d :| NewestCandidate(c, s, t, on, sha, d) && s.receipts[d].artifact.sha == p.value;
      assert Concerns(s, d, t, on);
      var i :| 0 <= i < |chain| && chain[i] == d;
      assert OlderOrSame(c, s.receipts[last].artifact, s.receipts[d].artifact);
      assert i < n;
    } else if p.Some? {
      var d :| NewestCandidate(c, s, t, on, sha, d) && s.receipts[d].artifact.sha == p.value;
      assert Concerns(s, d, t, on);
    }
  }

  /** The links of a chain are unaffected by a new receipt. */
  lemma LinksKept(s: Archive, s': Archive, t: Ticker, on: int, chain: seq<Digest<Receipt>>, d: Digest<Receipt>)
    requires IsChain(s, t, on, chain) && d !in s.receipts && d in s'.receipts
    requires s'.receipts == s.receipts[d := s'.receipts[d]]
    ensures forall i :: 0 <= i < |chain| ==>
              chain[i] != d && Concerns(s', chain[i], t, on) && ArtifactAt(s', chain[i]) == ArtifactAt(s, chain[i])
    ensures forall e :: Concerns(s', e, t, on) && e != d ==> e in chain
  {
    forall i | 0 <= i < |chain|
      ensures chain[i] != d && Concerns(s', chain[i], t, on) && ArtifactAt(s', chain[i]) == ArtifactAt(s, chain[i])
    {
      assert Concerns(s, chain[i], t, on);
    }
    forall e | Concerns(s', e, t, on) && e != d ensures e in chain {
      assert Concerns(s, e, t, on);
    }
  }

  /** Archiving new bytes appends one link. */
  lemma ChainGrows(s: Archive, s': Archive, t: Ticker, on: int, chain: seq<Digest<Receipt>>, d: Digest<Receipt>, clock: int)
    requires IsChain(s, t, on, chain) && d !in s.receipts
    requires Concerns(s', d, t, on) && s'.receipts == s.receipts[d := s'.receipts[d]]
    requires forall i :: 0 <= i < |chain| ==> ArtifactAt(s, chain[i]).firstSeen < clock
    requires ArtifactAt(s', d).firstSeen == clock
    requires ArtifactAt(s', d).revisionOf == if chain == [] then None else Some(ArtifactAt(s, chain[|chain| - 1]).sha)
    ensures IsChain(s', t, on, chain + [d])
  {
    LinksKept(s, s', t, on, chain, d);
    var chain' := chain + [d];
    forall i | 0 <= i < |chain'|
      ensures Concerns(s', chain'[i], t, on)
      ensures NamesPredecessor(s', chain', i)
    {
      if i < |chain| {
        assert chain'[i] == chain[i];
        assert NamesPredecessor(s, chain, i);
      }
    }
  }

  lemma OtherChainsStay(s: Archive, s': Archive, d: Digest<Receipt>, t: Ticker, on: int, chain: seq<Digest<Receipt>>)
    requires IsChain(s, t, on, chain) && d !in s.receipts && d in s'.receipts
    requires s'.receipts == s.receipts[d := s'.receipts[d]] && !Concerns(s', d, t, on)
    ensures IsChain(s', t, on, chain)
  {
    LinksKept(s, s', t, on, chain, d);
    forall i | 0 <= i < |chain|
      ensures NamesPredecessor(s', chain, i)
    {
      assert NamesPredecessor(s, chain, i);
    }
  }

  lemma SameReceiptsSameChains(s: Archive, s': Archive)
    requires Chained(s) && s'.receipts == s.receipts
    ensures Chained(s')
  {
    forall t, on ensures HasChain(s', t, on) {
      assert HasChain(s, t, on);
      var chain :| IsChain(s, t, on, chain);
      forall d | Concerns(s', d, t, on) ensures d in chain {
        assert Concerns(s, d, t, on);
      }
      forall i | 0 <= i < |chain|
        ensures Concerns(s', chain[i], t, on)
        ensures NamesPredecessor(s', chain, i)
      {
        assert Concerns(s, chain[i], t, on);
        assert NamesPredecessor(s, chain, i);
      }
      assert IsChain(s', t, on, chain);
    }
  }

  // ---------------------------------------------------------------- one capture

  /** Promoting a response keeps every chain, given a retrieval clock later than the ticker's receipts. */
  lemma PromoteKeepsChains(c: Contracts, s: Archive, s': Archive, t: Ticker, v: Validated, snap: Snapshot, res: TickerResult)
    requires c.Valid() && Sound(c, s) && Chained(s) && RetrievedBefore(s, t, v.retrievedAt)
    requires Promoted(c, s, s', t, v, FirstSeenFor(c, s, t, v), snap, res)
    requires IsPrior(c, s, t, snap.body.observedOn, Sha256(v.body), res.artifact.value.revisionOf)
    requires Sha256(v.body) in s.raw && s.raw[Sha256(v.body)] == v.body
    requires ParseSnapshot(c, t, v.body, c.url(t), v.contentType, FirstSeenFor(c, s, t, v)) == Ok(snap)
    ensures Chained(s')
  {
    hide ParseSnapshot, Sound, IsPrior;
    var d := Sha256(MakeReceipt(c, t, res.artifact.value, snap));
    if IdentityKey(c.url(t), Sha256(v.body)) in s.identities {
      KnownBytesKnownReceipt(c, s, s', t, v, FirstSeenFor(c, s, t, v), snap, res);
      SameReceiptsSameChains(s, s');
    } else if d in s.receipts {
      SameReceiptsSameChains(s, s');
    } else {
      forall u, on ensures HasChain(s', u, on) {
        assert HasChain(s, u, on);
        var chain :| IsChain(s, u, on, chain);
        if Concerns(s', d, u, on) {
          LinksOlder(c, s, t, on, v, chain);
          PriorIsLast(c, s, t, on, Sha256(v.body), chain, res.artifact.value.revisionOf);
          ChainGrows(s, s', t, on, chain, d, v.retrievedAt);
        } else {
          OtherChainsStay(s, s', d, u, on, chain);
        }
      }
    }
  }

  lemma LinksOlder(c: Contracts, s: Archive, t: Ticker, on: int, v: Validated, chain: seq<Digest<Receipt>>)
    requires Sound(c, s) && IsChain(s, t, on, chain) && RetrievedBefore(s, t, v.retrievedAt)
    requires IdentityKey(c.url(t), Sha256(v.body)) !in s.identities
    ensures forall i :: 0 <= i < |chain| ==>
              ArtifactAt(s, chain[i]).sha != Sha256(v.body) && ArtifactAt(s, chain[i]).firstSeen < v.retrievedAt
  {
    forall i | 0 <= i < |chain|
      ensures ArtifactAt(s, chain[i]).sha != Sha256(v.body) && ArtifactAt(s, chain[i]).firstSeen < v.retrievedAt
    {
      assert Concerns(s, chain[i], t, on);
      assert ReceiptHeld(c, s, chain[i]);
      NewBytesNoReceipt(c, s, t, Sha256(v.body), chain[i]);
    }
  }

  /** Receipts of the other tickers, and the retrieval bound of the captured one, after a capture. */
  ghost predicate NewReceiptsFrom(s: Archive, s': Archive, t: Ticker, clock: int) {
    && (forall d :: d in s.receipts ==> d in s'.receipts && s'.receipts[d] == s.receipts[d])
    && (forall d :: d in s'.receipts && d !in s.receipts ==>
          s'.receipts[d].ticker == t && s'.receipts[d].artifact.retrievedAt == clock)
  }

  lemma OneReceiptMore(s: Archive, s': Archive, d: Digest<Receipt>, r: Receipt)
    requires s'.receipts == s.receipts[d := r] && (d in s.receipts ==> s'.receipts == s.receipts)
    ensures NewReceiptsFrom(s, s', r.ticker, r.artifact.retrievedAt)
  {
  }

  lemma PromoteReceipts(c: Contracts, s: Archive, s': Archive, t: Ticker, v: Validated, firstSeen: int, snap: Snapshot,
                        res: TickerResult)
    requires c.Valid() && Sound(c, s) && Promoted(c, s, s', t, v, firstSeen, snap, res)
    requires Sha256(v.body) in s.raw && s.raw[Sha256(v.body)] == v.body
    requires ParseSnapshot(c, t, v.body, c.url(t), v.contentType, firstSeen) == Ok(snap)
    ensures NewReceiptsFrom(s, s', t, v.retrievedAt)
  {
    if IdentityKey(c.url(t), Sha256(v.body)) in s.identities {
      KnownBytesKnownReceipt(c, s, s', t, v, firstSeen, snap, res);
    } else {
      var r := MakeReceipt(c, t, res.artifact.value, snap);
      OneReceiptMore(s, s', Sha256(r), r);
    }
  }

  /** One iteration of the ticker loop keeps every chain and adds receipts of its own ticker only. */
  lemma TickerChains(c: Contracts, s: Archive, session: int, t: Ticker, v: Validated)
    requires c.Valid() && Sound(c, s) && Chained(s) && RetrievedBefore(s, t, v.retrievedAt)
    ensures CaptureValidated(c, s, session, t, v).Ok?
    ensures Chained(CaptureValidated(c, s, session, t, v).value.0)
    ensures NewReceiptsFrom(s, CaptureValidated(c, s, session, t, v).value.0, t, v.retrievedAt)
  {
    hide Promoted, Promote, CaptureStaged, CaptureValidated, ParseSnapshot, Chained, Sound, IsPrior;
    var s1 := Staged(s, v.body);
    ResponseStaged(c, s, session, t, v);
    SameReceiptsSameChains(s, s1);
    StagedCapture(c, s1, session, t, v);
    var (s', r) := CaptureStaged(c, s1, session, t, v);
    if r.state == Captured {
      PromoteKeepsChains(c, s1, s', t, v, r.snapshot.value, r);
      PromoteReceipts(c, s1, s', t, v, FirstSeenFor(c, s1, t, v), r.snapshot.value, r);
    }
  }

  // ---------------------------------------------------------------- whole runs

  /** Each ticker's response is retrieved later than all receipts of that ticker in `s`. */
  ghost predicate ClocksAhead(s: Archive, input: CycleInput, n: nat) {
    forall t :: TickerIndex(t) >= n && input.FetchOf(t).Response? ==> RetrievedBefore(s, t, input.FetchOf(t).retrievedAt)
  }

  /** Every receipt of `s'` is in `s` or carries its ticker's retrieval clock of this cycle. */
  ghost predicate NewReceiptsOf(s: Archive, s': Archive, input: CycleInput, n: nat) {
    forall d :: d in s'.receipts && d !in s.receipts ==>
      var r := s'.receipts[d];
      TickerIndex(r.ticker) < n && input.FetchOf(r.ticker).Response?
      && r.artifact.retrievedAt == input.FetchOf(r.ticker).retrievedAt
  }

  lemma ClocksAheadStep(s: Archive, s': Archive, input: CycleInput, n: nat)
    requires n < |READY_TICKERS| && ClocksAhead(s, input, n)
    requires forall d :: d in s'.receipts ==>
               (d in s.receipts && s'.receipts[d] == s.receipts[d]) || s'.receipts[d].ticker == READY_TICKERS[n]
    ensures ClocksAhead(s', input, n + 1)
  {
    ReadyOrder(n);
  }

  lemma ReceiptsOfStep(s0: Archive, s: Archive, s': Archive, input: CycleInput, n: nat)
    requires n < |READY_TICKERS| && NewReceiptsOf(s0, s, input, n)
    requires var t := READY_TICKERS[n];
             s'.receipts == s.receipts
             || (input.FetchOf(t).Response? && NewReceiptsFrom(s, s', t, input.FetchOf(t).retrievedAt))
    ensures NewReceiptsOf(s0, s', input, n + 1)
  {
    ReadyOrder(n);
  }

  lemma ResponseValidated(c: Contracts, t: Ticker, runAt: int, f: Fetch)
    requires ValidatedResponse(c, t, runAt, f).Ok?
    ensures f.Response? && f.body != [] && ValidatedResponse(c, t, runAt, f).value == Validated(f.contentType, f.body, f.retrievedAt)
  {
  }

  lemma NextTickerChains(c: Contracts, s: Archive, runAt: int, session: int, t: Ticker, f: Fetch)
    requires c.Valid() && Sound(c, s) && Chained(s) && (f.Response? ==> RetrievedBefore(s, t, f.retrievedAt))
    ensures var r := CaptureTicker(c, s, runAt, session, t, f);
            && r.Ok? && Chained(r.value.0)
            && (r.value.0 == s || (f.Response? && NewReceiptsFrom(s, r.value.0, t, f.retrievedAt)))
  {
    var r := CaptureTicker(c, s, runAt, session, t, f);
    var validated := ValidatedResponse(c, t, runAt, f);
    if validated.Ok? {
      ResponseValidated(c, t, runAt, f);
      TickerChains(c, s, session, t, validated.value);
      assert r == CaptureValidated(c, s, session, t, validated.value);
    } else {
      assert r.Ok? && r.value.0 == s;
    }
  }

  lemma NextChains(c: Contracts, s0: Archive, s: Archive, input: CycleInput, session: int, n: nat)
    requires c.Valid() && Sound(c, s) && Chained(s) && n < |READY_TICKERS|
    requires ClocksAhead(s, input, n) && NewReceiptsOf(s0, s, input, n)
    ensures var t := READY_TICKERS[n];
            var r := CaptureTicker(c, s, input.runAt, session, t, input.FetchOf(t));
            r.Ok? && Chained(r.value.0) && ClocksAhead(r.value.0, input, n + 1) && NewReceiptsOf(s0, r.value.0, input, n + 1)
  {
    hide CaptureTicker, Sound, Chained;
    ReadyOrder(n);
    var t := READY_TICKERS[n];
    NextTickerChains(c, s, input.runAt, session, t, input.FetchOf(t));
    var s' := CaptureTicker(c, s, input.runAt, session, t, input.FetchOf(t)).value.0;
    ClocksAheadStep(s, s', input, n);
    ReceiptsOfStep(s0, s, s', input, n);
  }

  lemma {:induction false} TickersChains(c: Contracts, s: Archive, input: CycleInput, session: int, n: nat)
    requires c.Valid() && Held(c, s, map[]) && Chained(s) && ClocksAhead(s, input, 0) && n <= |READY_TICKERS|
    ensures CaptureFirst(c, s, input, session, n).Ok?
    ensures var s' := CaptureFirst(c, s, input, session, n).value.s;
            Chained(s') && ClocksAhead(s', input, n) && NewReceiptsOf(s, s', input, n)
  {
    hide CaptureFirst, Held, Chained, ClocksAhead;
    CaptureNone(c, s, input, session);
    if n > 0 {
      TickersChains(c, s, input, session, n - 1);
      ChainsStep(c, s, input, session, n);
    }
  }

  lemma ChainsStep(c: Contracts, s: Archive, input: CycleInput, session: int, n: nat)
    requires c.Valid() && Held(c, s, map[]) && 0 < n <= |READY_TICKERS| && CaptureFirst(c, s, input, session, n - 1).Ok?
    requires var before := CaptureFirst(c, s, input, session, n - 1).value.s;
             Chained(before) && ClocksAhead(before, input, n - 1) && NewReceiptsOf(s, before, input, n - 1)
    ensures CaptureFirst(c, s, input, session, n).Ok?
    ensures var s' := CaptureFirst(c, s, input, session, n).value.s;
            Chained(s') && ClocksAhead(s', input, n) && NewReceiptsOf(s, s', input, n)
  {
    hide CaptureFirst, CaptureTicker, Chained, ClocksAhead, NewReceiptsOf, Held, Sound;
    LoopSound(c, s, input, session, n - 1);
    NextChains(c, s, CaptureFirst(c, s, input, session, n - 1).value.s, input, session, n - 1);
    CaptureNext(c, s, input, session, n);
  }

  lemma CycleChains(c: Contracts, s: Archive, input: CycleInput)
    requires c.Valid() && Held(c, s, map[]) && Chained(s) && ClocksAhead(s, input, 0) && Cycle(c, s, input).Ok?
    ensures Chained(Cycle(c, s, input).value.0)
    ensures NewReceiptsOf(s, Cycle(c, s, input).value.0, input, |READY_TICKERS|)
  {
    var s' := Cycle(c, s, input).value.0;
    if c.decide(input.runAt).state == CaptureDue {
      var session := c.decide(input.runAt).expectedSession;
      TickersChains(c, s, input, session, |READY_TICKERS|);
      CycleReceipts(c, s, input);
      SameReceiptsSameChains(CaptureFirst(c, s, input, session, |READY_TICKERS|).value.s, s');
    } else {
      IdleReceipts(c, s, input);
      SameReceiptsSameChains(s, s');
    }
  }

  lemma IdleReceipts(c: Contracts, s: Archive, input: CycleInput)
    requires Cycle(c, s, input).Ok? && c.decide(input.runAt).state != CaptureDue
    ensures Cycle(c, s, input).value.0.receipts == s.receipts
  {
  }

  /** After the ticker loop a cycle writes no receipt. */
  lemma CycleReceipts(c: Contracts, s: Archive, input: CycleInput)
    requires Cycle(c, s, input).Ok? && c.decide(input.runAt).state == CaptureDue
    ensures var p := CaptureFirst(c, s, input, c.decide(input.runAt).expectedSession, |READY_TICKERS|);
            p.Ok? && Cycle(c, s, input).value.0.receipts == p.value.s.receipts
  {
    var p := CaptureFirst(c, s, input, c.decide(input.runAt).expectedSession, |READY_TICKERS|).value;
    PublishReceipts(c, p.s, p.artifacts, input.runAt);
  }

  lemma PublishReceipts(c: Contracts, s: Archive, artifacts: seq<Artifact>, runAt: int)
    ensures PublishManifest(c, s, artifacts, runAt).Ok? ==>
              PublishManifest(c, s, artifacts, runAt).value.0.receipts == s.receipts
  {
  }

  /** Retrieval clocks strictly increase per ticker along the run. */
  ghost predicate ClocksIncrease(inputs: seq<CycleInput>) {
    forall i, j, t :: 0 <= i < j < |inputs| && inputs[i].FetchOf(t).Response? && inputs[j].FetchOf(t).Response? ==>
      inputs[i].FetchOf(t).retrievedAt < inputs[j].FetchOf(t).retrievedAt
  }

  /** Every receipt carries the retrieval clock of some cycle of the run. */
  ghost predicate RetrievedDuring(s: Archive, inputs: seq<CycleInput>) {
    forall d :: d in s.receipts ==> FromCycle(s.receipts[d], inputs)
  }

  ghost predicate FromCycle(r: Receipt, inputs: seq<CycleInput>) {
    exists i :: 0 <= i < |inputs| && inputs[i].FetchOf(r.ticker).Response?
                && r.artifact.retrievedAt == inputs[i].FetchOf(r.ticker).retrievedAt
  }

  lemma RunAhead(s: Archive, inputs: seq<CycleInput>, input: CycleInput)
    requires ClocksIncrease(inputs + [input]) && RetrievedDuring(s, inputs)
    ensures ClocksAhead(s, input, 0)
  {
    var all := inputs + [input];
    forall t, d | input.FetchOf(t).Response? && d in s.receipts && s.receipts[d].ticker == t
      ensures s.receipts[d].artifact.retrievedAt < input.FetchOf(t).retrievedAt
    {
      assert FromCycle(s.receipts[d], inputs);
      var i :| 0 <= i < |inputs| && inputs[i].FetchOf(t).Response?
               && s.receipts[d].artifact.retrievedAt == inputs[i].FetchOf(t).retrievedAt;
      assert all[i] == inputs[i] && all[|inputs|] == input;
    }
  }

  lemma FromCycleGrows(r: Receipt, inputs: seq<CycleInput>, input: CycleInput)
    requires FromCycle(r, inputs) || (input.FetchOf(r.ticker).Response? && r.artifact.retrievedAt == input.FetchOf(r.ticker).retrievedAt)
    ensures FromCycle(r, inputs + [input])
  {
    var all := inputs + [input];
    assert all[|inputs|] == input;
    if FromCycle(r, inputs) {
      var i :| 0 <= i < |inputs| && inputs[i].FetchOf(r.ticker).Response?
               && r.artifact.retrievedAt == inputs[i].FetchOf(r.ticker).retrievedAt;
      assert all[i] == inputs[i];
    }
  }

  /** Over every run with increasing retrieval clocks, the revisions of each (ticker, session) form
      one linear chain. */
  lemma {:induction false} RevisionsFormChains(c: Contracts, inputs: seq<CycleInput>)
    requires c.Valid() && ClocksIncrease(inputs)
    ensures Chained(RunCycles(c, EMPTY_ARCHIVE, inputs)) && RetrievedDuring(RunCycles(c, EMPTY_ARCHIVE, inputs), inputs)
  {
    if inputs == [] {
      forall t, on ensures HasChain(EMPTY_ARCHIVE, t, on) {
        assert IsChain(EMPTY_ARCHIVE, t, on, []);
      }
    } else {
      var init, last := inputs[..|inputs| - 1], inputs[|inputs| - 1];
      assert inputs == init + [last];
      RevisionsFormChains(c, init);
      ReachableHeld(c, init);
      var s := RunCycles(c, EMPTY_ARCHIVE, init);
      var s' := RunCycles(c, EMPTY_ARCHIVE, inputs);
      if 0 <= last.runAt {
        RunAhead(s, init, last);
        CycleKeeps(c, s, last);
        CycleChains(c, s, last);
      }
      forall d | d in s'.receipts ensures FromCycle(s'.receipts[d], inputs) {
        if d in s.receipts { assert s'.receipts[d] == s.receipts[d]; }
        FromCycleGrows(s'.receipts[d], init, last);
      }
    }
  }

  // ---------------------------------------------------------------- re-fetching archived bytes

  ghost predicate DistinctLinks(s: Archive, chain: seq<Digest<Receipt>>) {
    && (forall i :: 0 <= i < |chain| ==> chain[i] in s.receipts)
    && (forall i, j :: 0 <= i < j < |chain| ==> ArtifactAt(s, chain[i]).sha != ArtifactAt(s, chain[j]).sha)
  }

  /** Links of one chain hold different bytes. */
  lemma LinksDiffer(c: Contracts, s: Archive, t: Ticker, on: int, chain: seq<Digest<Receipt>>)
    requires ReceiptsHeld(c, s) && IsChain(s, t, on, chain)
    ensures DistinctLinks(s, chain)
  {
    forall i | 0 <= i < |chain| ensures chain[i] in s.receipts && ReceiptHeld(c, s, chain[i]) && s.receipts[chain[i]].ticker == t {
      assert Concerns(s, chain[i], t, on);
    }
    forall i, j | 0 <= i < j < |chain| ensures ArtifactAt(s, chain[i]).sha != ArtifactAt(s, chain[j]).sha {
      if ArtifactAt(s, chain[i]).sha == ArtifactAt(s, chain[j]).sha {
        SameBytesSameReceipt(c, s, chain[i], chain[j]);
        assert false;
      }
    }
  }

  /** The revision looked up for the bytes of link `i` is the stored one exactly for the last link. */
  lemma PriorMatchesLast(c: Contracts, s: Archive, t: Ticker, on: int, chain: seq<Digest<Receipt>>, i: int, p: Option<Digest<Bytes>>)
    requires IsChain(s, t, on, chain) && DistinctLinks(s, chain) && 0 <= i < |chain|
    requires IsPrior(c, s, t, on, ArtifactAt(s, chain[i]).sha, p)
    ensures p == ArtifactAt(s, chain[i]).revisionOf <==> i == |chain| - 1
  {
    assert NamesPredecessor(s, chain, i);
    if i == |chain| - 1 {
      PriorAmong(c, s, t, on, ArtifactAt(s, chain[i]).sha, chain, i, p);
    } else {
      PriorIsNewest(c, s, t, on, chain, i, p);
      var newest := ArtifactAt(s, chain[|chain| - 1]).sha;
      assert i > 0 ==> ArtifactAt(s, chain[i - 1]).sha != newest;
    }
  }

  lemma PriorIsNewest(c: Contracts, s: Archive, t: Ticker, on: int, chain: seq<Digest<Receipt>>, i: int, p: Option<Digest<Bytes>>)
    requires IsChain(s, t, on, chain) && DistinctLinks(s, chain) && 0 <= i < |chain| - 1
    requires IsPrior(c, s, t, on, ArtifactAt(s, chain[i]).sha, p)
    ensures p == Some(ArtifactAt(s, chain[|chain| - 1]).sha)
  {
    var sha, last := ArtifactAt(s, chain[i]).sha, chain[|chain| - 1];
    assert Concerns(s, last, t, on) && PriorCandidate(s.receipts[last], t, on, sha);
    var d :| NewestCandidate(c, s, t, on, sha, d) && s.receipts[d].artifact.sha == p.value;
    assert Concerns(s, d, t, on);
    var j :| 0 <= j < |chain| && chain[j] == d;
    assert OlderOrSame(c, s.receipts[last].artifact, s.receipts[d].artifact);
    assert j == |chain| - 1;
  }

  /** A response that repeats the bytes of a stored receipt binds to it when it looks up the same revision. */
  lemma RefetchBinds(c: Contracts, s: Archive, t: Ticker, v: Validated, d: Digest<Receipt>)
    requires d in s.receipts && ReceiptHeld(c, s, d) && s.receipts[d].ticker == t
    requires Repeats(v, ArtifactAt(s, d)) && v.body != []
    ensures ArchiveArtifact(s, v.body, AcquisitionMetadata(s.receipts[d].snapshot, v, ArtifactAt(s, d).revisionOf)) == (s, Ok(ArtifactAt(s, d)))
  {
    var r := s.receipts[d];
    ParseFacts(c, t, s.raw[r.artifact.sha], c.url(t), r.artifact.contentType, r.artifact.firstSeen);
    var m := AcquisitionMetadata(r.snapshot, v, r.artifact.revisionOf);
    assert ArtifactArgumentError(v.body, m) == NoError;
    assert s.raw[Sha256(v.body)] == v.body;
    var a := m.(sha := Sha256(v.body), size := |v.body|, path := Sha256(v.body));
    assert ArchiveArtifact(s, v.body, m) == BindFirstSeen(s, a);
  }

  /** The same bytes under the same content type, retrieved no earlier. */
  ghost predicate Repeats(v: Validated, a: Artifact) {
    Sha256(v.body) == a.sha && v.contentType == a.contentType && a.retrievedAt <= v.retrievedAt
  }

  lemma RefetchStages(s: Archive, body: Bytes)
    requires Sha256(body) in s.raw && s.raw[Sha256(body)] == body
    ensures s == Staged(s, body)
  {
    assert s.raw[Sha256(body) := body] == s.raw;
  }

  lemma StoredUnderKey(c: Contracts, s: Archive, t: Ticker, d: Digest<Receipt>)
    requires Sound(c, s) && d in s.receipts && s.receipts[d].ticker == t
    ensures var a := ArtifactAt(s, d);
            && IdentityKey(c.url(t), a.sha) in s.identities && s.identities[IdentityKey(c.url(t), a.sha)].artifact == a
            && a.sha in s.raw && Sha256(s.raw[a.sha]) == a.sha
            && ParseSnapshot(c, t, s.raw[a.sha], c.url(t), a.contentType, a.firstSeen) == Ok(s.receipts[d].snapshot)
            && s.receipts[d].snapshot.body.observedOn == s.receipts[d].observedOn
  {
    assert ReceiptHeld(c, s, d);
  }

  /** Parsing archived bytes again yields the stored snapshot. */
  lemma RefetchParses(c: Contracts, s: Archive, t: Ticker, v: Validated, d: Digest<Receipt>)
    requires Sound(c, s) && d in s.receipts && s.receipts[d].ticker == t && Repeats(v, ArtifactAt(s, d))
    ensures Snapshotted(c, s, t, v) == Ok(s.receipts[d].snapshot)
    ensures s.receipts[d].snapshot.body.observedOn == s.receipts[d].observedOn
  {
    StoredUnderKey(c, s, t, d);
    SoundIdentity(c, s, c.url(t), Sha256(v.body));
  }

  lemma RefetchPromotes(c: Contracts, s: Archive, t: Ticker, v: Validated, d: Digest<Receipt>)
    requires d in s.receipts && ReceiptHeld(c, s, d) && s.receipts[d].ticker == t && ReceiptsAddressed(s)
    requires Repeats(v, ArtifactAt(s, d)) && v.body != []
    requires FindPriorRevision(c, s, t, s.receipts[d].snapshot.body.observedOn, Sha256(v.body)) == Ok(ArtifactAt(s, d).revisionOf)
    ensures Promote(c, s, t, v, s.receipts[d].snapshot).1.Ok?
    ensures Promote(c, s, t, v, s.receipts[d].snapshot).1.value.state == Captured
  {
    RefetchBinds(c, s, t, v, d);
    WriteReceiptOutcome(s, MakeReceipt(c, t, ArtifactAt(s, d), s.receipts[d].snapshot));
  }

  lemma SoundAddressed(c: Contracts, s: Archive)
    requires Sound(c, s)
    ensures ReceiptsAddressed(s)
  {
    forall e | e in s.receipts ensures e == Sha256(s.receipts[e]) {
      assert ReceiptHeld(c, s, e);
    }
  }

  lemma StoredAccepted(c: Contracts, s: Archive, t: Ticker, v: Validated, d: Digest<Receipt>)
    requires c.Valid() && Sound(c, s) && d in s.receipts && s.receipts[d].ticker == t && Repeats(v, ArtifactAt(s, d)) && v.body != []
    requires FindPriorRevision(c, s, t, s.receipts[d].observedOn, Sha256(v.body)) == Ok(ArtifactAt(s, d).revisionOf)
    ensures CaptureStaged(c, s, s.receipts[d].observedOn, t, v).1.state == Captured
  {
    assert ReceiptHeld(c, s, d);
    hide Sound, ReceiptHeld, ReceiptsAddressed, Repeats, Promote, Snapshotted;
    SoundAddressed(c, s);
    RefetchParses(c, s, t, v, d);
    RefetchPromotes(c, s, t, v, d);
  }

  lemma FoundPrior(c: Contracts, s: Archive, t: Ticker, on: int, sha: Digest<Bytes>, p: Option<Digest<Bytes>>)
    requires c.Valid() && Sound(c, s)
    requires forall q :: IsPrior(c, s, t, on, sha, q) ==> q == p
    ensures FindPriorRevision(c, s, t, on, sha) == Ok(p)
  {
    hide Sound, IsPrior;
    SoundReceipts(c, s, t, on, sha);
  }

  /** The newest link's bytes are captured again. */
  lemma NewestAccepted(c: Contracts, s: Archive, session: int, t: Ticker, v: Validated, chain: seq<Digest<Receipt>>, d: Digest<Receipt>)
    requires c.Valid() && Sound(c, s) && IsChain(s, t, session, chain) && DistinctLinks(s, chain) && chain != [] && v.body != []
    requires d == chain[|chain| - 1] && Concerns(s, d, t, session) && Repeats(v, ArtifactAt(s, d))
    ensures CaptureStaged(c, s, session, t, v).1.state == Captured
  {
    hide IsChain, Sound, DistinctLinks, IsPrior, CaptureStaged, NamesPredecessor;
    forall q | IsPrior(c, s, t, session, Sha256(v.body), q) ensures q == ArtifactAt(s, d).revisionOf {
      PriorMatchesLast(c, s, t, session, chain, |chain| - 1, q);
    }
    FoundPrior(c, s, t, session, Sha256(v.body), ArtifactAt(s, d).revisionOf);
    StoredAccepted(c, s, t, v, d);
  }

  /** Bytes captured again belong to the newest link, with its content type and no earlier clock. */
  lemma AcceptedIsNewest(c: Contracts, s: Archive, session: int, t: Ticker, v: Validated, chain: seq<Digest<Receipt>>, i: int)
    requires c.Valid() && Sound(c, s) && IsChain(s, t, session, chain) && DistinctLinks(s, chain) && 0 <= i < |chain|
    requires Sha256(v.body) == ArtifactAt(s, chain[i]).sha && s.raw[Sha256(v.body)] == v.body
    requires CaptureStaged(c, s, session, t, v).1.state == Captured
    ensures i == |chain| - 1 && Repeats(v, ArtifactAt(s, chain[i]))
  {
    assert Concerns(s, chain[i], t, session);
    StoredUnderKey(c, s, t, chain[i]);
    StagedCapture(c, s, session, t, v);
    var r := CaptureStaged(c, s, session, t, v).1;
    assert r.artifact.value == ArtifactAt(s, chain[i]);
    PriorMatchesLast(c, s, t, session, chain, i, r.artifact.value.revisionOf);
  }

  /** Re-fetching the bytes of link `i` of a chain is accepted exactly for the last link. */
  lemma RefetchLink(c: Contracts, s: Archive, session: int, t: Ticker, v: Validated, chain: seq<Digest<Receipt>>, i: int)
    requires c.Valid() && Sound(c, s) && IsChain(s, t, session, chain) && 0 <= i < |chain| && chain[i] in s.receipts && v.body != []
    requires Sha256(v.body) == ArtifactAt(s, chain[i]).sha
    ensures var r := CaptureValidated(c, s, session, t, v);
            r.Ok? && (r.value.1.state == Captured <==> i == |chain| - 1 && Repeats(v, ArtifactAt(s, chain[i])))
  {
    assert Concerns(s, chain[i], t, session);
    StoredUnderKey(c, s, t, chain[i]);
    ResponseStaged(c, s, session, t, v);
    RefetchStages(s, v.body);
    LinksDiffer(c, s, t, session, chain);
    if CaptureStaged(c, s, session, t, v).1.state == Captured {
      AcceptedIsNewest(c, s, session, t, v, chain, i);
    } else if i == |chain| - 1 && Repeats(v, ArtifactAt(s, chain[i])) {
      NewestAccepted(c, s, session, t, v, chain, chain[i]);
    }
  }

  // ---------------------------------------------------------------- the report of a re-fetching cycle

  /** A receipt cited by held results belongs to the citing ticker and is stored. */
  lemma CitedReceipt(c: Contracts, s: Archive, results: map<Ticker, TickerResult>, d: Digest<Receipt>) returns (t: Ticker)
    requires ResultsHeld(c, s, results) && Cites(results, d)
    ensures t in results && d in s.receipts && s.receipts[d].ticker == t
  {
    t :| t in results && results[t].receipt == Some(CasRef(d, d));
    assert ResultHeld(c, s, t, results[t]);
  }

  /** A receipt written in the middle of a cycle belongs to a ticker already processed. */
  lemma NewReceiptProcessed(c: Contracts, s: Archive, p: Progress, d: Digest<Receipt>)
    requires Held(c, s, map[]) && Held(c, p.s, p.results) && p.s.runs == s.runs && d in p.s.receipts && d !in s.receipts
    ensures p.s.receipts[d].ticker in p.results
  {
    hide ResultsHeld, Sound, RawsCited, ManifestsHeld;
    assert ReceiptCited(p.s, p.results, d);
    if Cites(p.results, d) {
      var t := CitedReceipt(c, p.s, p.results, d);
    } else {
      var k :| k in s.runs && Cites(s.runs[k].results, d);
      assert RunHeld(c, s, k);
      var t := CitedReceipt(c, s, s.runs[k].results, d);
    }
  }

  lemma ChainCarried(s: Archive, s': Archive, t: Ticker, on: int, chain: seq<Digest<Receipt>>)
    requires IsChain(s, t, on, chain) && Grows(s.receipts, s'.receipts)
    requires forall d :: d in s'.receipts && d !in s.receipts ==> s'.receipts[d].ticker != t
    ensures IsChain(s', t, on, chain)
  {
    forall i | 0 <= i < |chain|
      ensures Concerns(s', chain[i], t, on) && ArtifactAt(s', chain[i]) == ArtifactAt(s, chain[i])
    {
      assert Concerns(s, chain[i], t, on);
    }
    forall i | 0 <= i < |chain| ensures NamesPredecessor(s', chain, i) {
      assert NamesPredecessor(s, chain, i);
    }
    forall d | Concerns(s', d, t, on) ensures d in chain {
      assert Concerns(s, d, t, on);
    }
  }

  /** When the loop reaches ticker `t`, the chains of `t` are still those the cycle started with. */
  lemma ChainAtTurn(c: Contracts, s: Archive, input: CycleInput, t: Ticker, on: int, session: int, chain: seq<Digest<Receipt>>)
    requires c.Valid() && Held(c, s, map[]) && IsChain(s, t, on, chain)
    ensures var p := CaptureFirst(c, s, input, session, TickerIndex(t));
            p.Ok? && Sound(c, p.value.s) && Grows(s.receipts, p.value.s.receipts) && IsChain(p.value.s, t, on, chain)
  {
    TickersKeep(c, s, input, session, TickerIndex(t));
    LoopKeepsRuns(c, s, input, session, TickerIndex(t));
    var p := CaptureFirst(c, s, input, session, TickerIndex(t)).value;
    forall d | d in p.s.receipts && d !in s.receipts ensures p.s.receipts[d].ticker != t {
      NewReceiptProcessed(c, s, p, d);
    }
    ChainCarried(s, p.s, t, on, chain);
  }

  lemma LastTurn(c: Contracts, s: Archive, input: CycleInput, session: int, n: nat)
    requires 0 < n <= |READY_TICKERS| && CaptureFirst(c, s, input, session, n).Ok?
    ensures CaptureFirst(c, s, input, session, n - 1).Ok?
    ensures var before, t := CaptureFirst(c, s, input, session, n - 1).value, READY_TICKERS[n - 1];
            var turn := CaptureTicker(c, before.s, input.runAt, session, t, input.FetchOf(t));
            turn.Ok? && CaptureFirst(c, s, input, session, n).value.results == before.results[t := turn.value.1]
  {
    hide CaptureTicker;
  }

  /** The report holds, for each ticker, the result of its turn. */
  lemma {:induction false} ResultOfTurn(c: Contracts, s: Archive, input: CycleInput, session: int, t: Ticker, n: nat)
    requires TickerIndex(t) < n <= |READY_TICKERS| && CaptureFirst(c, s, input, session, n).Ok?
    ensures var before := CaptureFirst(c, s, input, session, TickerIndex(t));
            && before.Ok? && t in CaptureFirst(c, s, input, session, n).value.results
            && var turn := CaptureTicker(c, before.value.s, input.runAt, session, t, input.FetchOf(t));
               turn.Ok? && CaptureFirst(c, s, input, session, n).value.results[t] == turn.value.1
  {
    hide CaptureFirst, CaptureTicker;
    LastTurn(c, s, input, session, n);
    ReadyOrder(n - 1);
    if TickerIndex(t) < n - 1 {
      ResultOfTurn(c, s, input, session, t, n - 1);
    }
  }

  lemma ReportedTurn(c: Contracts, s: Archive, input: CycleInput, t: Ticker)
    requires Cycle(c, s, input).Ok? && c.decide(input.runAt).state == CaptureDue
    ensures var session := c.decide(input.runAt).expectedSession;
            var before := CaptureFirst(c, s, input, session, TickerIndex(t));
            && before.Ok? && t in Cycle(c, s, input).value.1.results
            && var turn := CaptureTicker(c, before.value.s, input.runAt, session, t, input.FetchOf(t));
               turn.Ok? && Cycle(c, s, input).value.1.results[t] == turn.value.1
  {
    ResultOfTurn(c, s, input, c.decide(input.runAt).expectedSession, t, |READY_TICKERS|);
  }

  lemma RefetchReported(c: Contracts, s: Archive, input: CycleInput, t: Ticker, v: Validated, chain: seq<Digest<Receipt>>, i: int)
    requires c.Valid() && Held(c, s, map[]) && 0 <= input.runAt && c.decide(input.runAt).state == CaptureDue
    requires ValidatedResponse(c, t, input.runAt, input.FetchOf(t)) == Ok(v) && v.body != []
    requires 0 <= i < |chain| && chain[i] in s.receipts && IsChain(s, t, c.decide(input.runAt).expectedSession, chain)
    requires Sha256(v.body) == ArtifactAt(s, chain[i]).sha
    ensures Cycle(c, s, input).Ok? && t in Cycle(c, s, input).value.1.results
    ensures Cycle(c, s, input).value.1.results[t].state == Captured <==> i == |chain| - 1 && Repeats(v, ArtifactAt(s, chain[i]))
  {
    hide Cycle, CaptureFirst, CaptureValidated, ValidatedResponse, Held, Sound, IsChain, Repeats;
    var session := c.decide(input.runAt).expectedSession;
    CycleKeeps(c, s, input);
    ReportedTurn(c, s, input, t);
    ChainAtTurn(c, s, input, t, session, session, chain);
    var turn := CaptureFirst(c, s, input, session, TickerIndex(t)).value.s;
    assert ArtifactAt(turn, chain[i]) == ArtifactAt(s, chain[i]);
    RefetchLink(c, turn, session, t, v, chain, i);
  }

  /** In a capture-due cycle on any reachable archive, whatever its other tickers fetch, a validated response
      whose bytes are archived for this ticker and session is reported captured exactly when they are the newest
      link of the chain, under the stored content type and with a retrieval clock that does not go back. */
  lemma RefetchAcceptedIffNewest(c: Contracts, inputs: seq<CycleInput>, input: CycleInput, t: Ticker, v: Validated,
                                 chain: seq<Digest<Receipt>>, i: int)
    requires c.Valid() && 0 <= input.runAt && c.decide(input.runAt).state == CaptureDue
    requires ValidatedResponse(c, t, input.runAt, input.FetchOf(t)) == Ok(v)
    requires var s := RunCycles(c, EMPTY_ARCHIVE, inputs);
             && 0 <= i < |chain| && chain[i] in s.receipts && IsChain(s, t, c.decide(input.runAt).expectedSession, chain)
             && Sha256(v.body) == ArtifactAt(s, chain[i]).sha
    ensures var s := RunCycles(c, EMPTY_ARCHIVE, inputs);
            && Cycle(c, s, input).Ok? && t in Cycle(c, s, input).value.1.results
            && (Cycle(c, s, input).value.1.results[t].state == Captured
                <==> i == |chain| - 1 && Repeats(v, ArtifactAt(s, chain[i])))
  {
    hide Cycle, RunCycles, ValidatedResponse, Held, IsChain, Repeats;
    ResponseValidated(c, t, input.runAt, input.FetchOf(t));
    ReachableHeld(c, inputs);
    RefetchReported(c, RunCycles(c, EMPTY_ARCHIVE, inputs), input, t, v, chain, i);
  }
}
