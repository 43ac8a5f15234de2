/**
 The writer-owned upgrade check: what a legacy session has provably consumed.

 Digests are injective, so a digest is represented by what it digests. A receipt or result that is not valid JSON of the expected
 shape is absent.
 */
module Reconstruct {
  import opened Wrappers

  /** A Record of the Stream; its position is its place, counted from 1. */
  datatype Record = Record(id: string, redirect: bool, targets: seq<string>)

  datatype Mapping = Mapping(peer: string, generation: nat, external: string, open: bool, vendor: Option<string>, truncated: Option<bool>,
                             binding: string, fingerprint: string)

  datatype Delivery = Delivery(record: string, position: nat, terminal: bool, external: Option<string>, claim: nat, execution: Option<string>,
                               digest: Option<string>, result: Option<string>, receipts: seq<Option<Detail>>)

  datatype Bound = Bound(vendor: string, watermark: nat, binding: string, fingerprint: string, generation: nat, claim: nat,
                         execution: Option<string>)

  datatype Mode = FreshMode | ResumedMode

  datatype Detail = Detail(digest: Option<string>, bound: Option<Bound>, mode: Option<Mode>, truncated: Option<bool>, injected: seq<string>)

  predicate Foreign(m: Mapping, r: Record) {
    r.redirect && r.targets != [] && m.peer !in r.targets
  }

  /** The ids of the Records strictly between two positions, in order; a resumed turn leaves out redirects for others. */
  function Expected(m: Mapping, log: seq<Record>, whole: bool, after: nat, before: nat): seq<string>
    decreases before
  {
    if before <= after + 1 || before < 2 then []
    else
      Expected(m, log, whole, after, before - 1)
      + (if before - 1 <= |log| && (whole || !Foreign(m, log[before - 2])) then [log[before - 2].id] else [])
  }

  /** What the session's last turn before the i-th consumed up to. */
  function Watermark(ds: seq<Delivery>, i: nat): nat
    requires i <= |ds|
  {
    if i == 0 then 0 else ds[i - 1].position
  }

  /** The binding a terminal turn of this session must have recorded. */
  function Binding(m: Mapping, d: Delivery): Bound
    requires m.vendor.Some?
  {
    Bound(m.vendor.value, d.position, m.binding, m.fingerprint, m.generation, d.claim, d.execution)
  }

  /** What makes a link of the chain good: it ended under the right names, and its context is what the log has between the two turns. */
  predicate TurnProven(m: Mapping, log: seq<Record>, index: nat, after: nat, d: Delivery)
    requires m.vendor.Some?
  {
    && d.terminal && d.external == Some(m.external) && d.position > after
    && |d.receipts| == 1 && d.receipts[0].Some? && d.result.Some?
    && d.receipts[0].value.digest == d.digest && d.digest == d.result
    && d.receipts[0].value.bound == Some(Binding(m, d))
    && d.receipts[0].value.mode == Some(if index == 0 then FreshMode else ResumedMode)
    && d.receipts[0].value.truncated == Some(false)
    && 1 <= d.position <= |log| && log[d.position - 1].id == d.record
    && d.receipts[0].value.injected == Expected(m, log, index == 0, after, d.position)
  }

  predicate ProvenAt(m: Mapping, log: seq<Record>, ds: seq<Delivery>, i: nat)
    requires m.vendor.Some? && i < |ds|
  {
    TurnProven(m, log, i, Watermark(ds, i), ds[i])
  }

  predicate Chain(m: Mapping, log: seq<Record>, ds: seq<Delivery>, n: nat)
    requires m.vendor.Some? && n <= |ds|
  {
    forall i :: 0 <= i < n ==> ProvenAt(m, log, ds, i)
  }

  method InjectedIds(m: Mapping, log: seq<Record>, whole: bool, after: nat, before: nat) returns (ids: seq<string>)
    requires after < before
    ensures ids == Expected(m, log, whole, after, before)
  {
    ids := [];
    var k := after + 1;
    while k < before
      invariant after < k <= before && ids == Expected(m, log, whole, after, k)
    {
      if k <= |log| && (whole || !Foreign(m, log[k - 1])) { ids := ids + [log[k - 1].id]; }
      k := k + 1;
    }
  }

  /** Every link of the chain is good, each against the end of the one before. */
  method ReconstructConsumedPrompt(m: Mapping, log: seq<Record>, ds: seq<Delivery>) returns (w: Option<nat>)
    ensures w.Some? <==> m.open && m.vendor.Some? && m.truncated == Some(false) && ds != [] && Chain(m, log, ds, |ds|)
    ensures w.Some? ==> w.value == ds[|ds| - 1].position
  {
    if !m.open || m.vendor.None? || m.truncated != Some(false) { return None; }
    var watermark, index := 0, 0;
    while index < |ds|
      invariant index <= |ds| && watermark == Watermark(ds, index) && Chain(m, log, ds, index)
    {
      hide TurnProven;
      var d := ds[index];
      var proven := CheckTurn(m, log, index, watermark, d);
      assert proven == ProvenAt(m, log, ds, index);
      if !proven { return None; }
      watermark, index := d.position, index + 1;
    }
    if ds != [] { LastIsPositive(m, log, ds); }
    return if watermark == 0 then None else Some(watermark);
  }

  lemma LastIsPositive(m: Mapping, log: seq<Record>, ds: seq<Delivery>)
    requires m.vendor.Some? && ds != [] && Chain(m, log, ds, |ds|)
    ensures ds[|ds| - 1].position > 0
  {
    assert ProvenAt(m, log, ds, |ds| - 1);
  }

  method CheckTurn(m: Mapping, log: seq<Record>, index: nat, watermark: nat, d: Delivery) returns (proven: bool)
    requires m.vendor.Some?
    ensures proven == TurnProven(m, log, index, watermark, d)
  {
    if !d.terminal || d.external != Some(m.external) || d.position <= watermark { return false; }
    if |d.receipts| != 1 || d.receipts[0].None? || d.result.None? { return false; }
    var detail := d.receipts[0].value;
    if detail.digest != d.digest || d.result != d.digest { return false; }
    if detail.bound.None? { return false; }
    var b := detail.bound.value;
    if b.vendor != m.vendor.value || b.watermark != d.position || b.binding != m.binding || b.fingerprint != m.fingerprint
       || b.generation != m.generation || b.claim != d.claim || b.execution != d.execution { return false; }
    if detail.mode != Some(if index == 0 then FreshMode else ResumedMode) || detail.truncated != Some(false) { return false; }
    if d.position > |log| || log[d.position - 1].id != d.record { return false; }
    var expected := InjectedIds(m, log, index == 0, watermark, d.position);
    return detail.injected == expected;
  }

  // ---------------------------------------------------------------- soundness

  /** The ledger proves that the session consumed the Record at `k`: a turn delivered it, or injected it before the Record it
      delivered, or may leave it out because it redirects other peers. */
  predicate ConsumedBy(m: Mapping, log: seq<Record>, ds: seq<Delivery>, i: nat, k: nat) {
    && i < |ds| && 1 <= k <= |log| && |ds[i].receipts| == 1 && ds[i].receipts[0].Some?
    && (|| (ds[i].position == k && ds[i].record == log[k - 1].id)
        || (Watermark(ds, i) < k < ds[i].position
            && (log[k - 1].id in ds[i].receipts[0].value.injected || (i > 0 && Foreign(m, log[k - 1])))))
  }

  lemma {:induction false} ExpectedHas(m: Mapping, log: seq<Record>, whole: bool, after: nat, before: nat, k: nat)
    requires after < k < before <= |log| + 1
    ensures log[k - 1].id in Expected(m, log, whole, after, before) || (!whole && Foreign(m, log[k - 1]))
    decreases before
  {
    if k < before - 1 { ExpectedHas(m, log, whole, after, before - 1, k); }
  }

  /** Soundness: when the check returns w, the session consumed every Record at positions 1..w - one fresh turn, then resumed ones,
      all terminal, all of this one vendor session - except redirects for other peers after the first turn. */
  lemma {:induction false} ReconstructedIsConsumed(m: Mapping, log: seq<Record>, ds: seq<Delivery>, n: nat, k: nat)
    requires m.vendor.Some? && n <= |ds| && Chain(m, log, ds, n) && 1 <= k <= Watermark(ds, n)
    ensures exists i: nat :: i < n && ConsumedBy(m, log, ds, i, k)
    decreases n
  {
    hide ConsumedBy, TurnProven;
    assert ProvenAt(m, log, ds, n - 1);
    if k <= Watermark(ds, n - 1) {
      ReconstructedIsConsumed(m, log, ds, n - 1, k);
    } else {
      TurnConsumes(m, log, ds, n - 1, k);
    }
  }

  lemma TurnConsumes(m: Mapping, log: seq<Record>, ds: seq<Delivery>, i: nat, k: nat)
    requires m.vendor.Some? && i < |ds| && ProvenAt(m, log, ds, i) && Watermark(ds, i) < k <= ds[i].position
    ensures ConsumedBy(m, log, ds, i, k)
  {
    hide Foreign, Expected;
    if k < ds[i].position { ExpectedHas(m, log, i == 0, Watermark(ds, i), ds[i].position, k); }
  }

  /** Every turn of the chain ran in the mapping's own session, was bound to its vendor session, and moved strictly forward. */
  lemma {:induction false} ReconstructedIsOneSession(m: Mapping, log: seq<Record>, ds: seq<Delivery>, i: nat, j: nat)
    requires m.vendor.Some? && j < |ds| && Chain(m, log, ds, |ds|) && i < j
    ensures ds[i].position < ds[j].position
    ensures ds[i].external == ds[j].external == Some(m.external)
    ensures VendorOf(ds[i]) == VendorOf(ds[j]) == m.vendor
    decreases j
  {
    hide TurnProven, VendorOf;
    assert ProvenAt(m, log, ds, i) && ProvenAt(m, log, ds, j);
    TurnIdentity(m, log, i, Watermark(ds, i), ds[i]);
    TurnIdentity(m, log, j, Watermark(ds, j), ds[j]);
    if i < j - 1 { ReconstructedIsOneSession(m, log, ds, i, j - 1); }
  }

  function VendorOf(d: Delivery): Option<string> {
    if |d.receipts| == 1 && d.receipts[0].Some? && d.receipts[0].value.bound.Some? then Some(d.receipts[0].value.bound.value.vendor) else None
  }

  lemma TurnIdentity(m: Mapping, log: seq<Record>, index: nat, after: nat, d: Delivery)
    requires m.vendor.Some? && TurnProven(m, log, index, after, d)
    ensures d.position > after && d.external == Some(m.external) && VendorOf(d) == m.vendor
  {
    hide Expected;
  }
}
