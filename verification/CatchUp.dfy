/**
 Bounded catch-up projection.

 A fresh session receives a bounded part of the Stream: the pinned Records that fit, newest first, and then the
 longest newest run of the others that fits what is left. `Projected` says so declaratively; `ProjectCatchUp` is the
 streaming algorithm over a window that only ever holds a fitting suffix, and `BuildCatchUp` reads the Stream in pages.
 */
module CatchUp {
  import opened Wrappers

  newtype byte = x: int | 0 <= x < 256

  /** A Record as the projection sees it: its position, its canonical JSON, the injected token estimate (never negative)
      and whether the pin predicate holds of it. */
  datatype Item = Item(position: nat, json: seq<byte>, tokens: nat, pin: bool)

  datatype Budget = Budget(maxRecords: Option<nat>, maxBytes: Option<nat>, maxTokens: Option<nat>)

  datatype Projection = Projection(
    records: seq<Item>,
    truncated: bool,
    omittedCount: nat,
    omittedThrough: Option<nat>,
    first: Option<nat>,
    last: Option<nat>,
    candidates: nat,
    usedBytes: nat,
    usedTokens: nat,
    after: nat,
    before: Option<nat>,
    budget: Budget,
    pinnedCount: nat)

  datatype Error = NotIncreasing | BadPage

  const COMMA: byte := 44

  // ---------------------------------------------------------------- sizes

  function SumBytes(s: seq<Item>): nat {
    if s == [] then 0 else SumBytes(s[..|s| - 1]) + |s[|s| - 1].json|
  }

  /** Item bytes plus one separator between neighbours. */
  function Bytes(s: seq<Item>): nat {
    SumBytes(s) + (if s == [] then 0 else |s| - 1)
  }

  function Tokens(s: seq<Item>): nat {
    if s == [] then 0 else Tokens(s[..|s| - 1]) + s[|s| - 1].tokens
  }

  function Payload(s: seq<Item>): seq<byte> {
    if s == [] then []
    else if |s| == 1 then s[0].json
    else Payload(s[..|s| - 1]) + [COMMA] + s[|s| - 1].json
  }

  predicate Within(limit: Option<nat>, n: nat) {
    limit.Some? ==> n <= limit.value
  }

  /** All three budgets at once. */
  predicate Fits(s: seq<Item>, b: Budget) {
    Within(b.maxRecords, |s|) && Within(b.maxBytes, Bytes(s)) && Within(b.maxTokens, Tokens(s))
  }

  lemma {:induction false} SizesOfConcat(a: seq<Item>, b: seq<Item>)
    ensures SumBytes(a + b) == SumBytes(a) + SumBytes(b)
    ensures Tokens(a + b) == Tokens(a) + Tokens(b)
    decreases |b|
  {
    if b == [] {
      assert a + b == a;
    } else {
      SizesOfConcat(a, b[..|b| - 1]);
      assert (a + b)[..|a + b| - 1] == a + b[..|b| - 1];
    }
  }

  /** `used_bytes` is the length of the joined payload. */
  lemma {:induction false} PayloadLength(s: seq<Item>)
    ensures |Payload(s)| == Bytes(s)
    decreases |s|
  {
    if |s| == 1 {
      assert s[..0] == [] && SumBytes(s[..0]) == 0;
    } else if |s| > 1 {
      var t := s[..|s| - 1];
      PayloadLength(t);
      assert Bytes(s) == Bytes(t) + 1 + |s[|s| - 1].json|;
    }
  }

  /** Leaving items out anywhere never makes a fitting sequence stop fitting. */
  lemma FitsMiddleDropped(a: seq<Item>, dropped: seq<Item>, c: seq<Item>, b: Budget)
    requires Fits(a + dropped + c, b)
    ensures Fits(a + c, b)
  {
    SizesOfConcat(a + dropped, c);
    SizesOfConcat(a, dropped);
    SizesOfConcat(a, c);
  }

  // ---------------------------------------------------------------- specification

  predicate Increasing(s: seq<Item>) {
    forall i, j :: 0 <= i < j < |s| ==> s[i].position < s[j].position
  }

  predicate Candidate(r: Item, after: nat, before: Option<nat>, pins: bool) {
    (before.Some? ==> r.position < before.value) && (r.position > after || (pins && r.pin))
  }

  function Candidates(s: seq<Item>, after: nat, before: Option<nat>, pins: bool): seq<Item> {
    if s == [] then []
    else
      Candidates(s[..|s| - 1], after, before, pins)
      + (if Candidate(s[|s| - 1], after, before, pins) then [s[|s| - 1]] else [])
  }

  /** The pinned items of `s`, or the others. */
  function Split(s: seq<Item>, pins: bool, pinned: bool): seq<Item> {
    if s == [] then []
    else
      Split(s[..|s| - 1], pins, pinned)
      + (if (pins && s[|s| - 1].pin) == pinned then [s[|s| - 1]] else [])
  }

  /** The suffix of `s` from `k` fits the budget together with `base`. */
  predicate FitsFrom(base: seq<Item>, s: seq<Item>, b: Budget, k: nat) {
    k <= |s| && Fits(base + s[k..], b)
  }

  /** The longest suffix that fits starts at `k`. */
  ghost predicate IsStart(base: seq<Item>, s: seq<Item>, b: Budget, k: nat) {
    FitsFrom(base, s, b, k) && forall j: nat :: j < k ==> !FitsFrom(base, s, b, j)
  }

  function FitStart(base: seq<Item>, s: seq<Item>, b: Budget): (k: nat)
    ensures k <= |s|
  {
    FitStartFrom(base, s, b, |s|)
  }

  function FitStartFrom(base: seq<Item>, s: seq<Item>, b: Budget, k: nat): (r: nat)
    requires k <= |s|
    ensures r <= k
  {
    if k > 0 && FitsFrom(base, s, b, k - 1) then FitStartFrom(base, s, b, k - 1) else k
  }

  /** The suffix found fits, and no longer one does. */
  lemma FitStartIs(base: seq<Item>, s: seq<Item>, b: Budget)
    requires Fits(base, b)
    ensures IsStart(base, s, b, FitStart(base, s, b))
  {
    assert base + s[|s|..] == base;
    FitStartFromIs(base, s, b, |s|);
  }

  lemma {:induction false} FitStartFromIs(base: seq<Item>, s: seq<Item>, b: Budget, k: nat)
    requires FitsFrom(base, s, b, k)
    ensures IsStart(base, s, b, FitStartFrom(base, s, b, k))
  {
    hide FitsFrom, Fits;
    FitsFromBound(base, s, b, k);
    if k > 0 {
      if FitsFrom(base, s, b, k - 1) {
        FitStartFromIs(base, s, b, k - 1);
      } else {
        LongerDoesNotFit(base, s, b, k - 1);
      }
    }
  }

  lemma FitsFromBound(base: seq<Item>, s: seq<Item>, b: Budget, k: nat)
    ensures FitsFrom(base, s, b, k) ==> k <= |s|
  {
  }

  lemma LongerDoesNotFit(base: seq<Item>, s: seq<Item>, b: Budget, k: nat)
    requires k <= |s| && !FitsFrom(base, s, b, k)
    ensures forall j: nat :: j <= k ==> !FitsFrom(base, s, b, j)
  {
    forall j: nat | j <= k
      ensures !FitsFrom(base, s, b, j)
    {
      assert base + s[j..] == base + s[j..k] + s[k..];
      if Fits(base + s[j..], b) {
        FitsMiddleDropped(base, s[j..k], s[k..], b);
      }
    }
  }

  /** The items of `s` that are in `kept`, in the order of `s`. */
  function Keep(s: seq<Item>, kept: seq<Item>): seq<Item> {
    if s == [] then []
    else Keep(s[..|s| - 1], kept) + (if s[|s| - 1] in kept then [s[|s| - 1]] else [])
  }

  function MaxPosition(s: seq<Item>): Option<nat> {
    if s == [] then None
    else
      match MaxPosition(s[..|s| - 1])
      case None => Some(s[|s| - 1].position)
      case Some(m) => Some(if m < s[|s| - 1].position then s[|s| - 1].position else m)
  }

  /** Pins reserved first, newest first; then the newest run of the others; the result in position order. */
  function Chosen(cands: seq<Item>, b: Budget, pins: bool): (r: (seq<Item>, seq<Item>)) {
    var pinned, rest := Split(cands, pins, true), Split(cands, pins, false);
    var kept := pinned[FitStart([], pinned, b)..];
    assert [] + kept == kept;
    (kept, rest[FitStart(kept, rest, b)..])
  }

  function Projected(s: seq<Item>, b: Budget, after: nat, before: Option<nat>, pins: bool): (p: Projection)
    ensures p.candidates == |p.records| + p.omittedCount
  {
    var cands := Candidates(s, after, before, pins);
    var (kept, run) := Chosen(cands, b, pins);
    var records := Keep(cands, kept + run);
    assert |records| <= |cands| by { KeepLength(cands, kept + run); }
    var omitted := |cands| - |records|;
    Projection(records, omitted > 0, omitted,
               if omitted > 0 then MaxPosition(Dropped(cands, kept + run)) else None,
               if records == [] then None else Some(records[0].position),
               if records == [] then None else Some(records[|records| - 1].position),
               |cands|, Bytes(records), Tokens(records), after, before, b, |kept|)
  }

  function Dropped(s: seq<Item>, kept: seq<Item>): seq<Item> {
    if s == [] then []
    else Dropped(s[..|s| - 1], kept) + (if s[|s| - 1] !in kept then [s[|s| - 1]] else [])
  }

  lemma {:induction false} KeepLength(s: seq<Item>, kept: seq<Item>)
    ensures |Keep(s, kept)| + |Dropped(s, kept)| == |s|
    decreases |s|
  {
    if s != [] { KeepLength(s[..|s| - 1], kept); }
  }

  // ---------------------------------------------------------------- facts about the specification

  lemma IncreasingAppend(s: seq<Item>, x: Item)
    requires Increasing(s) && forall y :: y in s ==> y.position < x.position
    ensures Increasing(s + [x])
  {
    forall i | 0 <= i < |s| ensures s[i].position < x.position {
      assert s[i] in s;
    }
  }

  lemma IncreasingPrefix(s: seq<Item>)
    requires Increasing(s) && s != []
    ensures Increasing(s[..|s| - 1]) && s == s[..|s| - 1] + [s[|s| - 1]]
    ensures forall y :: y in s[..|s| - 1] ==> y in s && y.position < s[|s| - 1].position
  {
  }

  lemma {:induction false} CandidatesIncreasing(s: seq<Item>, after: nat, before: Option<nat>, pins: bool)
    requires Increasing(s)
    ensures var c := Candidates(s, after, before, pins);
            Increasing(c) && forall x :: x in c <==> x in s && Candidate(x, after, before, pins)
    decreases |s|
  {
    if s != [] {
      IncreasingPrefix(s);
      CandidatesIncreasing(s[..|s| - 1], after, before, pins);
      if Candidate(s[|s| - 1], after, before, pins) {
        IncreasingAppend(Candidates(s[..|s| - 1], after, before, pins), s[|s| - 1]);
      }
    }
  }

  lemma {:induction false} SplitIncreasing(s: seq<Item>, pins: bool, pinned: bool)
    requires Increasing(s)
    ensures var c := Split(s, pins, pinned);
            Increasing(c) && forall x :: x in c <==> x in s && (pins && x.pin) == pinned
    decreases |s|
  {
    if s != [] {
      IncreasingPrefix(s);
      SplitIncreasing(s[..|s| - 1], pins, pinned);
      IncreasingAppend(Split(s[..|s| - 1], pins, pinned), s[|s| - 1]);
    }
  }

  lemma {:induction false} KeepIncreasing(s: seq<Item>, kept: seq<Item>)
    requires Increasing(s)
    ensures Increasing(Keep(s, kept)) && forall x :: x in Keep(s, kept) <==> x in s && x in kept
    ensures forall x :: x in Dropped(s, kept) <==> x in s && x !in kept
    decreases |s|
  {
    if s != [] {
      IncreasingPrefix(s);
      KeepIncreasing(s[..|s| - 1], kept);
      IncreasingAppend(Keep(s[..|s| - 1], kept), s[|s| - 1]);
    }
  }

  ghost predicate SameElements(a: seq<Item>, b: seq<Item>) {
    forall x :: x in a <==> x in b
  }

  lemma NoElements(a: seq<Item>, b: seq<Item>)
    requires SameElements(a, b)
    ensures a == [] ==> b == []
  {
    if b != [] { assert b[0] in b; }
  }

  lemma {:induction false} IncreasingUnique(a: seq<Item>, b: seq<Item>)
    requires Increasing(a) && Increasing(b) && SameElements(a, b)
    ensures a == b
    decreases |a|
  {
    NoElements(a, b);
    NoElements(b, a);
    if a != [] {
      var n := |b| - 1;
      assert a[|a| - 1] in a && a[|a| - 1] in b;
      assert b[n] in b && b[n] in a;
      IncreasingPrefix(a);
      IncreasingPrefix(b);
      LastIsLargest(a, b[n]);
      LastIsLargest(b, a[|a| - 1]);
      SamePosition(a, b[n], a[|a| - 1]);
      SameInit(a, b, a[..|a| - 1], b[..n]);
      IncreasingUnique(a[..|a| - 1], b[..n]);
    }
  }

  lemma SameInit(a: seq<Item>, b: seq<Item>, a': seq<Item>, b': seq<Item>)
    requires a != [] && b != [] && a[|a| - 1] == b[|b| - 1] && SameElements(a, b)
    requires a == a' + [a[|a| - 1]] && b == b' + [b[|b| - 1]]
    requires a[|a| - 1] !in a' && b[|b| - 1] !in b'
    ensures SameElements(a', b')
  {
    forall x ensures x in a' <==> x in b' {
      assert x in a <==> x in a' || x == a[|a| - 1];
      assert x in b <==> x in b' || x == b[|b| - 1];
    }
  }

  lemma LastIsLargest(s: seq<Item>, x: Item)
    requires Increasing(s) && x in s
    ensures x.position <= s[|s| - 1].position
  {
  }

  /** The largest position, whatever the order of the items. */
  lemma {:induction false} MaxPositionIs(s: seq<Item>)
    ensures s == [] <==> MaxPosition(s).None?
    ensures MaxPosition(s).Some? ==> exists x :: x in s && x.position == MaxPosition(s).value
    ensures forall x :: x in s ==> x.position <= MaxPosition(s).value
    decreases |s|
  {
    if s != [] {
      var t := s[..|s| - 1];
      MaxPositionIs(t);
      assert s == t + [s[|s| - 1]];
      if MaxPosition(t).Some? && MaxPosition(t).value >= s[|s| - 1].position {
        var x :| x in t && x.position == MaxPosition(t).value;
        assert x in s;
      } else {
        assert s[|s| - 1] in s;
      }
    }
  }

  lemma MaxPositionSame(a: seq<Item>, b: seq<Item>)
    requires SameElements(a, b)
    ensures MaxPosition(a) == MaxPosition(b)
  {
    MaxPositionIs(a);
    MaxPositionIs(b);
    assert a != [] ==> a[0] in b;
    assert b != [] ==> b[0] in a;
  }

  function Raise(o: Option<nat>, p: nat): Option<nat> {
    if o.None? || o.value < p then Some(p) else o
  }

  lemma MaxPositionAppend(s: seq<Item>, x: Item)
    ensures MaxPosition(s + [x]) == Raise(MaxPosition(s), x.position)
  {
    assert (s + [x])[..|s|] == s;
  }

  function Insert(x: Item, s: seq<Item>): seq<Item> {
    if s == [] || x.position <= s[0].position then [x] + s else [s[0]] + Insert(x, s[1..])
  }

  /** The source's library sort by position. */
  function SortByPosition(s: seq<Item>): seq<Item> {
    if s == [] then [] else Insert(s[0], SortByPosition(s[1..]))
  }

  lemma {:induction false} InsertSorts(x: Item, s: seq<Item>)
    requires Increasing(s) && forall y :: y in s ==> y.position != x.position
    ensures Increasing(Insert(x, s)) && forall y :: y in Insert(x, s) <==> y == x || y in s
    decreases |s|
  {
    if s != [] && x.position > s[0].position {
      assert s == [s[0]] + s[1..];
      InsertSorts(x, s[1..]);
      assert forall y :: y in Insert(x, s[1..]) ==> s[0].position < y.position;
    }
  }

  predicate DistinctPositions(s: seq<Item>) {
    forall i, j :: 0 <= i < j < |s| ==> s[i].position != s[j].position
  }

  lemma {:induction false} SortSorts(s: seq<Item>)
    requires DistinctPositions(s)
    ensures Increasing(SortByPosition(s)) && forall y :: y in SortByPosition(s) <==> y in s
    decreases |s|
  {
    if s != [] {
      assert s == [s[0]] + s[1..];
      assert DistinctPositions(s[1..]);
      SortSorts(s[1..]);
      InsertSorts(s[0], SortByPosition(s[1..]));
    }
  }

  // ---------------------------------------------------------------- the streaming algorithm

  /** The window holds the longest fitting suffix of what was seen. */
  ghost predicate HoldsSuffix(rest: seq<Item>, k: nat, window: seq<Item>, b: Budget) {
    && k <= |rest| && window == rest[k..]
    && forall j: nat :: j < k ==> !FitsFrom([], rest, b, j)
  }

  lemma HoldsMeans(rest: seq<Item>, k: nat, window: seq<Item>, b: Budget)
    requires HoldsSuffix(rest, k, window, b)
    ensures k <= |rest| && window == rest[k..]
  {
  }

  /** The oldest of a window that does not fit can go: no suffix that still holds it fits. */
  lemma SuffixOfDrop(rest: seq<Item>, k: nat, window: seq<Item>, b: Budget)
    requires HoldsSuffix(rest, k, window, b) && window != [] && !Fits(window, b)
    ensures HoldsSuffix(rest, k + 1, window[1..], b) && rest[..k + 1] == rest[..k] + [window[0]]
  {
    assert [] + rest[k..] == window;
    hide Fits;
  }

  lemma SuffixOfAppend(rest: seq<Item>, k: nat, window: seq<Item>, b: Budget, x: Item)
    requires HoldsSuffix(rest, k, window, b)
    ensures HoldsSuffix(rest + [x], k, window + [x], b)
    ensures Bytes(window + [x]) == Bytes(window) + |x.json| + (if window != [] then 1 else 0)
    ensures Tokens(window + [x]) == Tokens(window) + x.tokens
    ensures (rest + [x])[..k] == rest[..k]
  {
    SizesOfConcat(window, [x]);
    assert [x][..0] == [];
    forall j: nat | j < k ensures !FitsFrom([], rest + [x], b, j) {
      assert [] + (rest + [x])[j..] == ([] + rest[j..]) + [x] + [] && ([] + rest[j..]) + [] == [] + rest[j..];
      assert !FitsFrom([], rest, b, j);
      if Fits([] + (rest + [x])[j..], b) { FitsMiddleDropped([] + rest[j..], [x], [], b); }
    }
  }

  lemma SizesOfTail(s: seq<Item>)
    requires s != []
    ensures Bytes(s) == Bytes(s[1..]) + |s[0].json| + (if s[1..] != [] then 1 else 0)
    ensures Tokens(s) == Tokens(s[1..]) + s[0].tokens
  {
    SizesOfConcat([s[0]], s[1..]);
    assert [s[0]][..0] == [] && s == [s[0]] + s[1..];
  }

  /** Shortens the window from the front, if need be to nothing, and keeps its totals. */
  method DropOldest(window0: seq<Item>, nbytes0: nat, ntokens0: nat, through0: Option<nat>, b: Budget,
                    ghost rest: seq<Item>, ghost k0: nat)
    returns (window: seq<Item>, nbytes: nat, ntokens: nat, through: Option<nat>, ghost k: nat)
    requires HoldsSuffix(rest, k0, window0, b)
    requires nbytes0 == Bytes(window0) && ntokens0 == Tokens(window0) && through0 == MaxPosition(rest[..k0])
    ensures k <= |rest| && HoldsSuffix(rest, k, window, b) && Fits(window, b)
    ensures nbytes == Bytes(window) && ntokens == Tokens(window) && through == MaxPosition(rest[..k])
  {
    window, nbytes, ntokens, through, k := window0, nbytes0, ntokens0, through0, k0;
    assert Fits([], b) && k <= |rest|;
    hide *;
    while window != [] && (   (b.maxRecords.Some? && |window| > b.maxRecords.value)
                           || (b.maxBytes.Some? && nbytes > b.maxBytes.value)
                           || (b.maxTokens.Some? && ntokens > b.maxTokens.value))
      invariant k <= |rest| && HoldsSuffix(rest, k, window, b)
      invariant nbytes == Bytes(window) && ntokens == Tokens(window) && through == MaxPosition(rest[..k])
      decreases |window|
    {
      var oldest := window[0];
      FitsMeans(window, b);
      SuffixOfDrop(rest, k, window, b);
      SizesOfTail(window);
      MaxPositionAppend(rest[..k], oldest);
      window := window[1..];
      nbytes := nbytes - |oldest.json| - (if window != [] then 1 else 0);
      ntokens := ntokens - oldest.tokens;
      through := Raise(through, oldest.position);
      k := k + 1;
    }
    FitsMeans(window, b);
  }

  ghost predicate Adjacent(s: seq<Item>, n: nat)
    requires n <= |s|
  {
    forall j :: 0 < j < n ==> s[j - 1].position < s[j].position
  }

  lemma {:induction false} AdjacentIncreasing(s: seq<Item>, n: nat, i: nat, j: nat)
    requires i < j < n <= |s| && Adjacent(s, n)
    ensures s[i].position < s[j].position
    decreases j
  {
    if i < j - 1 { AdjacentIncreasing(s, n, i, j - 1); }
  }

  lemma IncreasingIsAdjacent(s: seq<Item>)
    requires Adjacent(s, |s|)
    ensures Increasing(s)
  {
    forall i, j | 0 <= i < j < |s| ensures s[i].position < s[j].position {
      AdjacentIncreasing(s, |s|, i, j);
    }
  }

  /** What the pass has established after the first `i` Records. */
  ghost predicate Scanned(cands: seq<Item>, b: Budget, pins: bool, candidates: nat, pinned: seq<Item>, window: seq<Item>,
                          through: Option<nat>, k: nat)
  {
    var rest := Split(cands, pins, false);
    && candidates == |cands| && pinned == Split(cands, pins, true)
    && HoldsSuffix(rest, k, window, b) && Fits(window, b) && through == MaxPosition(rest[..k])
  }

  lemma SplitAppend(cands: seq<Item>, x: Item, pins: bool, pinned: bool)
    ensures Split(cands + [x], pins, pinned) == Split(cands, pins, pinned) + (if (pins && x.pin) == pinned then [x] else [])
  {
    assert (cands + [x])[..|cands|] == cands;
  }

  lemma CandidatesAppend(s: seq<Item>, i: nat, after: nat, before: Option<nat>, pins: bool)
    requires i < |s|
    ensures Candidates(s[..i + 1], after, before, pins)
            == if (before.None? || s[i].position < before.value) && (s[i].position > after || (pins && s[i].pin))
               then Candidates(s[..i], after, before, pins) + [s[i]] else Candidates(s[..i], after, before, pins)
  {
    assert s[..i + 1][..i] == s[..i];
  }

  lemma ScannedPin(cands: seq<Item>, x: Item, b: Budget, candidates: nat, pinned: seq<Item>, window: seq<Item>,
                   through: Option<nat>, k: nat)
    requires Scanned(cands, b, true, candidates, pinned, window, through, k) && x.pin
    ensures Scanned(cands + [x], b, true, candidates + 1, pinned + [x], window, through, k)
  {
    SplitAppend(cands, x, true, true);
    SplitAppend(cands, x, true, false);
    assert Split(cands, true, false) + [] == Split(cands, true, false);
  }

  lemma ScannedOther(cands: seq<Item>, x: Item, b: Budget, pins: bool, candidates: nat, pinned: seq<Item>, window: seq<Item>,
                     through: Option<nat>, k: nat)
    requires Scanned(cands, b, pins, candidates, pinned, window, through, k) && !(pins && x.pin)
    ensures candidates == |cands| && pinned == Split(cands, pins, true) && k <= |Split(cands, pins, false)|
    ensures HoldsSuffix(Split(cands, pins, false) + [x], k, window + [x], b)
    ensures through == MaxPosition((Split(cands, pins, false) + [x])[..k])
    ensures Bytes(window + [x]) == Bytes(window) + |x.json| + (if window != [] then 1 else 0)
    ensures Tokens(window + [x]) == Tokens(window) + x.tokens
  {
    SuffixOfAppend(Split(cands, pins, false), k, window, b, x);
  }

  lemma ScannedSlide(cands: seq<Item>, x: Item, b: Budget, pins: bool, candidates: nat, pinned: seq<Item>, window: seq<Item>,
                     through: Option<nat>, k: nat)
    requires !(pins && x.pin) && candidates == |cands| && pinned == Split(cands, pins, true)
    requires k <= |Split(cands, pins, false) + [x]|
    requires HoldsSuffix(Split(cands, pins, false) + [x], k, window, b) && Fits(window, b)
    requires through == MaxPosition((Split(cands, pins, false) + [x])[..k])
    ensures Scanned(cands + [x], b, pins, candidates + 1, pinned, window, through, k)
  {
    SplitAppend(cands, x, pins, true);
    SplitAppend(cands, x, pins, false);
  }

  lemma ScannedNothing(b: Budget, pins: bool)
    ensures Scanned([], b, pins, 0, [], [], None, 0)
  {
  }

  /** One pass over the Records: collect the pins, slide the window. */
  method Scan(records: seq<Item>, b: Budget, after: nat, before: Option<nat>, pins: bool)
    returns (ok: bool, candidates: nat, pinned: seq<Item>, window: seq<Item>, through: Option<nat>, ghost k: nat)
    ensures ok ==> Adjacent(records, |records|)
    ensures !ok ==> exists j :: 0 < j < |records| && records[j - 1].position >= records[j].position
    ensures ok ==> Scanned(Candidates(records, after, before, pins), b, pins, candidates, pinned, window, through, k)
  {
    ok, candidates, pinned, window, through, k := true, 0, [], [], None, 0;
    var nbytes, ntokens := 0, 0;
    ghost var cands: seq<Item> := [];
    assert nbytes == Bytes(window) && ntokens == Tokens(window) && cands == Candidates(records[..0], after, before, pins);
    ScannedNothing(b, pins);
    assert Adjacent(records, 0);
    hide *;
    for i := 0 to |records|
      invariant ok && Adjacent(records, i)
      invariant cands == Candidates(records[..i], after, before, pins)
      invariant Scanned(cands, b, pins, candidates, pinned, window, through, k)
      invariant nbytes == Bytes(window) && ntokens == Tokens(window)
    {
      var x := records[i];
      if i > 0 && x.position <= records[i - 1].position {
        ok := false;
        return;
      }
      AdjacentStep(records, i);
      CandidatesAppend(records, i, after, before, pins);
      if before.Some? && x.position >= before.value { continue; }
      var isPin := pins && x.pin;
      if x.position <= after && !isPin { continue; }
      if isPin {
        ScannedPin(cands, x, b, candidates, pinned, window, through, k);
        candidates, pinned, cands := candidates + 1, pinned + [x], cands + [x];
        continue;
      }
      ScannedOther(cands, x, b, pins, candidates, pinned, window, through, k);
      window := window + [x];
      nbytes := nbytes + |x.json| + (if |window| > 1 then 1 else 0);
      ntokens := ntokens + x.tokens;
      window, nbytes, ntokens, through, k := DropOldest(window, nbytes, ntokens, through, b, Split(cands, pins, false) + [x], k);
      ScannedSlide(cands, x, b, pins, candidates, pinned, window, through, k);
      candidates, cands := candidates + 1, cands + [x];
    }
    assert records[..|records|] == records;
  }

  lemma AdjacentStep(s: seq<Item>, i: nat)
    requires i < |s| && Adjacent(s, i) && (i > 0 ==> s[i - 1].position < s[i].position)
    ensures Adjacent(s, i + 1)
  {
  }

  /** The greedy pass over `s` from its newest end, on top of what `base` already uses; it stops at the first refusal. */
  method TakeNewest(base: seq<Item>, s: seq<Item>, b: Budget) returns (k: nat, left: seq<Item>)
    requires Fits(base, b)
    ensures k == FitStart(base, s, b) && left == s[..k] && Fits(base + s[k..], b)
  {
    hide *;
    var n, cb, ct := |base|, Bytes(base), Tokens(base);
    k, left := |s|, [];
    var i := |s|;
    ghost var taken := base;
    assert base + s[k..] == base;
    while i > 0
      invariant 0 <= i <= k <= |s| && left == s[i..k] && taken == base + s[k..]
      invariant n == |taken| && cb == Bytes(taken) && ct == Tokens(taken) && Fits(taken, b)
      invariant left != [] ==> !FitsFrom(base, s, b, k - 1)
    {
      i := i - 1;
      var x := s[i];
      var nb, nt := cb + |x.json| + (if n > 0 then 1 else 0), ct + x.tokens;
      if left == [] { TryTake(base, s, b, i); }
      if left != [] || (b.maxRecords.Some? && n + 1 > b.maxRecords.value)
         || (b.maxBytes.Some? && nb > b.maxBytes.value) || (b.maxTokens.Some? && nt > b.maxTokens.value) {
        left := [x] + left;
      } else {
        taken := base + s[i..];
        k, n, cb, ct := i, n + 1, nb, nt;
      }
    }
    IsFitStart(base, s, b, k);
  }

  /** One more item fits exactly when none of the three counters it would reach is over. */
  lemma TryTake(base: seq<Item>, s: seq<Item>, b: Budget, i: nat)
    requires i < |s|
    ensures var t, t' := base + s[i + 1..], base + s[i..];
            && |t'| == |t| + 1
            && Bytes(t') == Bytes(t) + |s[i].json| + (if |t| > 0 then 1 else 0) && Tokens(t') == Tokens(t) + s[i].tokens
            && FitsFrom(base, s, b, i) == Fits(t', b)
            && (Fits(t', b) <==> !((b.maxRecords.Some? && |t'| > b.maxRecords.value)
                                   || (b.maxBytes.Some? && Bytes(t') > b.maxBytes.value)
                                   || (b.maxTokens.Some? && Tokens(t') > b.maxTokens.value)))
  {
    SizesOfTake(base, s, i);
    FitsMeans(base + s[i..], b);
    FitsFromMeans(base, s, b, i);
    hide *;
  }

  lemma IsFitStart(base: seq<Item>, s: seq<Item>, b: Budget, k: nat)
    requires k <= |s| && Fits(base, b) && Fits(base + s[k..], b) && (k > 0 ==> !FitsFrom(base, s, b, k - 1))
    ensures k == FitStart(base, s, b)
  {
    FitStartIs(base, s, b);
    if k > 0 { LongerDoesNotFit(base, s, b, k - 1); }
    FitsFromMeans(base, s, b, k);
    hide FitStart, FitsFrom, Fits;
  }

  lemma FitsFromMeans(base: seq<Item>, s: seq<Item>, b: Budget, k: nat)
    requires k <= |s|
    ensures FitsFrom(base, s, b, k) == Fits(base + s[k..], b)
  {
  }

  lemma FitsMeans(s: seq<Item>, b: Budget)
    ensures Fits(s, b) <==>
            !((b.maxRecords.Some? && |s| > b.maxRecords.value) || (b.maxBytes.Some? && Bytes(s) > b.maxBytes.value)
              || (b.maxTokens.Some? && Tokens(s) > b.maxTokens.value))
  {
  }

  lemma SizesOfTake(base: seq<Item>, s: seq<Item>, i: nat)
    requires i < |s|
    ensures Bytes(base + s[i..]) == Bytes(base + s[i + 1..]) + |s[i].json| + (if base + s[i + 1..] != [] then 1 else 0)
    ensures Tokens(base + s[i..]) == Tokens(base + s[i + 1..]) + s[i].tokens
  {
    SizesOfConcat([s[i]], s[i + 1..]);
    assert [s[i]][..0] == [] && s[i..] == [s[i]] + s[i + 1..];
    SizesOfConcat(base, s[i + 1..]);
    SizesOfConcat(base, s[i..]);
  }

  method ProjectCatchUp(records: seq<Item>, b: Budget, after: nat, before: Option<nat>, pins: bool)
    returns (r: Result<Projection, Error>)
    ensures r == if Increasing(records) then Ok(Projected(records, b, after, before, pins)) else Err(NotIncreasing)
  {
    var ok, candidates, pinned, window, through, k := Scan(records, b, after, before, pins);
    if !ok { return Err(NotIncreasing); }
    IncreasingIsAdjacent(records);
    ghost var cands := Candidates(records, after, before, pins);
    ghost var rest := Split(cands, pins, false);
    assert Fits([], b);
    hide Scanned, Split, Candidates, Fits, Bytes, Tokens, MaxPosition, Keep, Dropped, SortByPosition, HoldsSuffix, Increasing, Projected;
    ScannedMeans(cands, b, pins, candidates, pinned, window, through, k);
    // Reserve the pins, newest first, then fill with the newest of the rest.
    var kp, left := TakeNewest([], pinned, b);
    assert [] + pinned[kp..] == pinned[kp..];
    var kw, wleft := TakeNewest(pinned[kp..], window, b);
    through := RaiseAll(through, left + wleft, rest[..k]);
    var chosen := pinned[kp..] + window[kw..];
    var recs := SortByPosition(chosen);
    Assembled(records, b, after, before, pins, k, window, kp, kw);
    var n := candidates - |recs|;
    return Ok(Projection(recs, n > 0, n, if n > 0 then through else None,
                         if recs == [] then None else Some(recs[0].position),
                         if recs == [] then None else Some(recs[|recs| - 1].position),
                         candidates, Bytes(recs), Tokens(recs), after, before, b, |pinned| - kp));
  }

  lemma ScannedMeans(cands: seq<Item>, b: Budget, pins: bool, candidates: nat, pinned: seq<Item>, window: seq<Item>,
                     through: Option<nat>, k: nat)
    requires Scanned(cands, b, pins, candidates, pinned, window, through, k)
    ensures candidates == |cands| && pinned == Split(cands, pins, true)
    ensures HoldsSuffix(Split(cands, pins, false), k, window, b) && k <= |Split(cands, pins, false)|
    ensures through == MaxPosition(Split(cands, pins, false)[..k])
  {
  }

  /** The two greedy passes over the pins and over the window give the specified projection. */
  lemma Assembled(records: seq<Item>, b: Budget, after: nat, before: Option<nat>, pins: bool,
                  k: nat, window: seq<Item>, kp: nat, kw: nat)
    requires Increasing(records) && Fits([], b)
    requires var cands := Candidates(records, after, before, pins);
             var pinned := Split(cands, pins, true);
             && HoldsSuffix(Split(cands, pins, false), k, window, b)
             && kp == FitStart([], pinned, b) && Fits(pinned[kp..], b) && kw == FitStart(pinned[kp..], window, b)
    ensures var cands := Candidates(records, after, before, pins);
            var pinned, rest := Split(cands, pins, true), Split(cands, pins, false);
            var recs := SortByPosition(pinned[kp..] + window[kw..]);
            var n := |cands| - |recs|;
            && n >= 0
            && Projected(records, b, after, before, pins)
               == Projection(recs, n > 0, n, if n > 0 then MaxPosition(rest[..k] + (pinned[..kp] + window[..kw])) else None,
                             if recs == [] then None else Some(recs[0].position),
                             if recs == [] then None else Some(recs[|recs| - 1].position),
                             |cands|, Bytes(recs), Tokens(recs), after, before, b, |pinned| - kp)
  {
    hide Candidates, Split, Fits, Bytes, Tokens, MaxPosition, Keep, Dropped, SortByPosition, HoldsSuffix, Increasing, Chosen, FitStart;
    var cands := Candidates(records, after, before, pins);
    CandidatesIncreasing(records, after, before, pins);
    AssembledParts(cands, b, pins, k, window, kp, kw);
    KeepLength(cands, Split(cands, pins, true)[kp..] + window[kw..]);
  }

  lemma AssembledParts(cands: seq<Item>, b: Budget, pins: bool, k: nat, window: seq<Item>, kp: nat, kw: nat)
    requires Increasing(cands) && Fits([], b)
    requires HoldsSuffix(Split(cands, pins, false), k, window, b)
    requires var pinned := Split(cands, pins, true);
             kp == FitStart([], pinned, b) && Fits(pinned[kp..], b) && kw == FitStart(pinned[kp..], window, b)
    ensures var pinned, rest := Split(cands, pins, true), Split(cands, pins, false);
            var chosen := pinned[kp..] + window[kw..];
            && k <= |rest|
            && Chosen(cands, b, pins) == (pinned[kp..], window[kw..])
            && SortByPosition(chosen) == Keep(cands, chosen)
            && MaxPosition(rest[..k] + (pinned[..kp] + window[..kw])) == MaxPosition(Dropped(cands, chosen))
  {
    hide *;
    var pinned, rest := Split(cands, pins, true), Split(cands, pins, false);
    HoldsMeans(rest, k, window, b);
    var kept, run, seen := pinned[kp..], window[kw..], rest[..k] + (pinned[..kp] + window[..kw]);
    WindowSuffices(kept, rest, k, window, kw, b);
    SeenElements(rest, k, pinned[..kp], window[..kw], k + kw, seen);
    ChosenAndDropped(cands, pins, pinned, rest, kp, k + kw, kept + run, seen);
    ChosenIs(cands, b, pins, kp, k + kw);
  }

  ghost predicate Unite(u: seq<Item>, a: seq<Item>, b: seq<Item>) {
    forall x :: x in u <==> x in a || x in b
  }

  lemma SeenElements(rest: seq<Item>, k: nat, left: seq<Item>, wleft: seq<Item>, kr: nat, seen: seq<Item>)
    requires k <= kr <= |rest| && wleft == rest[k..kr] && seen == rest[..k] + (left + wleft)
    ensures Unite(seen, left, rest[..kr])
  {
    assert rest[..kr] == rest[..k] + wleft;
    forall x ensures x in seen <==> x in left || x in rest[..kr] {
      assert x in rest[..kr] <==> x in rest[..k] || x in wleft;
    }
  }

  lemma ChosenIs(cands: seq<Item>, b: Budget, pins: bool, kp: nat, kr: nat)
    requires kp == FitStart([], Split(cands, pins, true), b) && Fits(Split(cands, pins, true)[kp..], b)
    requires kr == FitStart(Split(cands, pins, true)[kp..], Split(cands, pins, false), b)
    ensures Chosen(cands, b, pins) == (Split(cands, pins, true)[kp..], Split(cands, pins, false)[kr..])
  {
  }

  method RaiseAll(through0: Option<nat>, omitted: seq<Item>, ghost seen: seq<Item>) returns (through: Option<nat>)
    requires through0 == MaxPosition(seen)
    ensures through == MaxPosition(seen + omitted)
  {
    through := through0;
    assert seen + omitted[..0] == seen;
    for i := 0 to |omitted|
      invariant through == MaxPosition(seen + omitted[..i])
    {
      MaxPositionAppend(seen + omitted[..i], omitted[i]);
      assert seen + omitted[..i + 1] == seen + omitted[..i] + [omitted[i]];
      through := Raise(through, omitted[i].position);
    }
    assert omitted[..|omitted|] == omitted;
  }

  /** A suffix that fits on top of the pins fits alone, so looking only into the window loses nothing. */
  lemma WindowSuffices(kept: seq<Item>, rest: seq<Item>, k: nat, window: seq<Item>, kw: nat, b: Budget)
    requires Fits(kept, b) && HoldsSuffix(rest, k, window, b) && kw == FitStart(kept, window, b)
    ensures k + kw == FitStart(kept, rest, b) && window[kw..] == rest[k + kw..] && rest[k..k + kw] == window[..kw]
  {
    SliceOfSlice(rest, k, window, kw);
    hide *;
    FitStartIs(kept, window, b);
    FitStartIs(kept, rest, b);
    var f := FitStart(kept, rest, b);
    WindowFits(kept, rest, k, window, b, f);
    WindowFits(kept, rest, k, window, b, k + kw);
    StartsAgree(kept, rest, k, window, b, f, kw);
  }

  lemma SliceOfSlice(rest: seq<Item>, k: nat, window: seq<Item>, kw: nat)
    requires k <= |rest| && window == rest[k..] && kw <= |window|
    ensures window[kw..] == rest[k + kw..] && rest[k..k + kw] == window[..kw]
  {
  }

  lemma StartsAgree(kept: seq<Item>, rest: seq<Item>, k: nat, window: seq<Item>, b: Budget, f: nat, kw: nat)
    requires IsStart(kept, rest, b, f) && IsStart(kept, window, b, kw) && FitsFrom(kept, rest, b, k + kw)
    requires f >= k && FitsFrom(kept, window, b, f - k)
    ensures f == k + kw
  {
    hide FitsFrom;
  }

  lemma WindowFits(kept: seq<Item>, rest: seq<Item>, k: nat, window: seq<Item>, b: Budget, j: nat)
    requires HoldsSuffix(rest, k, window, b) && j <= |rest|
    ensures j >= k ==> FitsFrom(kept, rest, b, j) == FitsFrom(kept, window, b, j - k)
    ensures j < k ==> !FitsFrom(kept, rest, b, j)
  {
    if j >= k {
      assert rest[j..] == window[j - k..];
    } else {
      assert kept + rest[j..] == [] + kept + rest[j..];
      if Fits(kept + rest[j..], b) { FitsMiddleDropped([], kept, rest[j..], b); }
      assert !FitsFrom([], rest, b, j);
    }
  }

  lemma ChosenAndDropped(cands: seq<Item>, pins: bool, pinned: seq<Item>, rest: seq<Item>, kp: nat, kr: nat,
                         chosen: seq<Item>, seen: seq<Item>)
    requires Increasing(cands) && pinned == Split(cands, pins, true) && rest == Split(cands, pins, false)
    requires kp <= |pinned| && kr <= |rest|
    requires chosen == pinned[kp..] + rest[kr..] && Unite(seen, pinned[..kp], rest[..kr])
    ensures SortByPosition(chosen) == Keep(cands, chosen)
    ensures MaxPosition(seen) == MaxPosition(Dropped(cands, chosen))
  {
    SplitIncreasing(cands, pins, true);
    SplitIncreasing(cands, pins, false);
    KeepIncreasing(cands, chosen);
    IncreasingParts(pinned, kp);
    IncreasingParts(rest, kr);
    hide Increasing, Split, Keep, Dropped, MaxPosition, SortByPosition;
    assert Unite(chosen, pinned[kp..], rest[kr..]);
    forall i, j | 0 <= i < j < |chosen| ensures chosen[i].position != chosen[j].position {
      assert chosen[i] in chosen && chosen[j] in chosen;
      ChosenDistinct(pinned[kp..], rest[kr..], cands, pins, i, j);
    }
    SortSorts(chosen);
    assert SameElements(SortByPosition(chosen), Keep(cands, chosen));
    IncreasingUnique(SortByPosition(chosen), Keep(cands, chosen));
    assert SameElements(seen, Dropped(cands, chosen));
    MaxPositionSame(seen, Dropped(cands, chosen));
  }

  lemma ChosenDistinct(kept: seq<Item>, run: seq<Item>, cands: seq<Item>, pins: bool, i: nat, j: nat)
    requires Increasing(cands) && Increasing(kept) && Increasing(run) && i < j < |kept + run|
    requires forall x :: x in kept ==> x in cands && (pins && x.pin)
    requires forall x :: x in run ==> x in cands && !(pins && x.pin)
    ensures (kept + run)[i].position != (kept + run)[j].position
  {
    if i < |kept| <= j {
      assert kept[i] in kept && run[j - |kept|] in run;
      SamePosition(cands, kept[i], run[j - |kept|]);
    }
  }

  lemma IncreasingParts(s: seq<Item>, k: nat)
    requires Increasing(s) && k <= |s|
    ensures Increasing(s[..k]) && Increasing(s[k..])
    ensures forall x :: x in s <==> x in s[..k] || x in s[k..]
    ensures forall x :: x in s[..k] ==> x !in s[k..]
  {
    assert s == s[..k] + s[k..];
  }

  lemma SamePosition(s: seq<Item>, x: Item, y: Item)
    requires Increasing(s) && x in s && y in s
    ensures x.position == y.position ==> x == y
  {
  }

  // ---------------------------------------------------------------- what the projection means

  /** The pins kept are the longest newest suffix of the pins that fits alone; the run is the longest suffix of the other
      candidates that fits together with them. */
  lemma PinsThenRest(c: seq<Item>, b: Budget, pins: bool)
    ensures var (kept, run) := Chosen(c, b, pins);
            && |kept| <= |Split(c, pins, true)| && kept == Split(c, pins, true)[|Split(c, pins, true)| - |kept|..]
            && |run| <= |Split(c, pins, false)| && run == Split(c, pins, false)[|Split(c, pins, false)| - |run|..]
            && IsStart([], Split(c, pins, true), b, |Split(c, pins, true)| - |kept|)
            && IsStart(kept, Split(c, pins, false), b, |Split(c, pins, false)| - |run|)
  {
    hide *;
    NothingFits(b);
    ChosenParts(c, b, pins);
    var (kept, run) := Chosen(c, b, pins);
    var pinned, rest := Split(c, pins, true), Split(c, pins, false);
    FitStartIs([], pinned, b);
    KeptFits(pinned, kept, b);
    FitStartIs(kept, rest, b);
    DropLength(pinned, kept, FitStart([], pinned, b));
    DropLength(rest, run, FitStart(kept, rest, b));
  }

  lemma NothingFits(b: Budget)
    ensures Fits([], b)
  {
  }

  lemma DropLength(s: seq<Item>, t: seq<Item>, k: nat)
    requires k <= |s| && t == s[k..]
    ensures |t| <= |s| && |s| - |t| == k && t == s[|s| - |t|..]
  {
  }

  lemma KeptFits(pinned: seq<Item>, kept: seq<Item>, b: Budget)
    requires IsStart([], pinned, b, FitStart([], pinned, b)) && kept == pinned[FitStart([], pinned, b)..]
    ensures Fits(kept, b)
  {
    assert [] + kept == kept;
  }

  lemma ChosenParts(c: seq<Item>, b: Budget, pins: bool)
    ensures var (kept, run) := Chosen(c, b, pins);
            && kept == Split(c, pins, true)[FitStart([], Split(c, pins, true), b)..]
            && run == Split(c, pins, false)[FitStart(kept, Split(c, pins, false), b)..]
  {
  }

  lemma ProjectedParts(s: seq<Item>, b: Budget, after: nat, before: Option<nat>, pins: bool)
    ensures var p, c := Projected(s, b, after, before, pins), Candidates(s, after, before, pins);
            var (kept, run) := Chosen(c, b, pins);
            && p.records == Keep(c, kept + run) && p.pinnedCount == |kept| && p.usedBytes == Bytes(p.records)
            && p.candidates == |c| && p.truncated == (p.omittedCount > 0)
            && p.omittedThrough == (if p.omittedCount > 0 then MaxPosition(Dropped(c, kept + run)) else None)
  {
  }

  /** The output holds exactly the kept pins and the run, in position order; every candidate is included or omitted;
      `used_bytes` is the payload's length and `omitted_through_position` the largest omitted position. */
  lemma OutputIsChosen(s: seq<Item>, b: Budget, after: nat, before: Option<nat>, pins: bool)
    requires Increasing(s)
    ensures var p, c := Projected(s, b, after, before, pins), Candidates(s, after, before, pins);
            var (kept, run) := Chosen(c, b, pins);
            && Increasing(p.records) && Unite(p.records, kept, run) && (forall x :: x in p.records ==> x in c)
            && p.pinnedCount == |kept| && p.usedBytes == |Payload(p.records)|
            && p.candidates == |c| == |p.records| + p.omittedCount
            && (p.truncated <==> p.omittedThrough.Some?)
            && (p.truncated ==>
                  && (exists x :: x in c && x !in p.records && x.position == p.omittedThrough.value)
                  && (forall x :: x in c && x !in p.records ==> x.position <= p.omittedThrough.value))
            && (!p.truncated ==> forall x :: x in c ==> x in p.records)
  {
    hide *;
    var p, c := Projected(s, b, after, before, pins), Candidates(s, after, before, pins);
    var (kept, run) := Chosen(c, b, pins);
    ProjectedParts(s, b, after, before, pins);
    CandidatesIncreasing(s, after, before, pins);
    ChosenWithin(c, b, pins);
    KeepIncreasing(c, kept + run);
    KeepLength(c, kept + run);
    PayloadLength(p.records);
    var gone := Dropped(c, kept + run);
    MaxPositionIs(gone);
    InConcat(kept, run, p.records, c, gone);
  }

  lemma InConcat(kept: seq<Item>, run: seq<Item>, records: seq<Item>, c: seq<Item>, gone: seq<Item>)
    requires forall x :: x in kept || x in run ==> x in c
    requires forall x :: x in records <==> x in c && x in kept + run
    requires forall x :: x in gone <==> x in c && x !in kept + run
    ensures Unite(records, kept, run) && (forall x :: x in records ==> x in c)
    ensures forall x :: x in gone <==> x in c && x !in records
  {
    assert forall x :: x in kept + run <==> x in kept || x in run;
  }

  lemma ChosenWithin(c: seq<Item>, b: Budget, pins: bool)
    requires Increasing(c)
    ensures var (kept, run) := Chosen(c, b, pins); forall x :: x in kept || x in run ==> x in c
  {
    ChosenParts(c, b, pins);
    SplitIncreasing(c, pins, true);
    SplitIncreasing(c, pins, false);
    hide *;
  }

  /** Without pins: the longest contiguous ordered suffix of the candidate window that fits all three budgets, even when
      the newest item alone does not (the result is then empty). */
  lemma LongestFittingSuffix(s: seq<Item>, b: Budget, after: nat, before: Option<nat>)
    requires Increasing(s)
    ensures var p, c := Projected(s, b, after, before, false), Candidates(s, after, before, false);
            && p.omittedCount <= |c| && p.records == c[p.omittedCount..] && Fits(p.records, b)
            && forall j: nat :: j < p.omittedCount ==> !FitsFrom([], c, b, j)
  {
    hide *;
    var p, c := Projected(s, b, after, before, false), Candidates(s, after, before, false);
    var (kept, run) := Chosen(c, b, false);
    OutputIsChosen(s, b, after, before, false);
    CandidatesIncreasing(s, after, before, false);
    PinsThenRest(c, b, false);
    SplitWithoutPins(c);
    OnlyRun(c, p.records, kept, run);
    NoneLonger(c, b, |c| - |run|);
    FitsAlone(c, b, |c| - |run|);
  }

  lemma OnlyRun(c: seq<Item>, records: seq<Item>, kept: seq<Item>, run: seq<Item>)
    requires Increasing(c) && Increasing(records) && kept == [] && |run| <= |c| && run == c[|c| - |run|..]
    requires Unite(records, kept, run)
    ensures records == run
  {
    IncreasingParts(c, |c| - |run|);
    hide Increasing;
    assert SameElements(records, run);
    IncreasingUnique(records, run);
  }

  lemma NoneLonger(c: seq<Item>, b: Budget, k: nat)
    requires IsStart([], c, b, k)
    ensures FitsFrom([], c, b, k) && forall j: nat :: j < k ==> !FitsFrom([], c, b, j)
  {
    hide FitsFrom;
  }

  lemma FitsAlone(c: seq<Item>, b: Budget, k: nat)
    requires FitsFrom([], c, b, k)
    ensures Fits(c[k..], b)
  {
    assert [] + c[k..] == c[k..];
  }

  lemma {:induction false} SplitWithoutPins(c: seq<Item>)
    ensures Split(c, false, false) == c && Split(c, false, true) == []
    decreases |c|
  {
    if c != [] {
      SplitWithoutPins(c[..|c| - 1]);
      assert c == c[..|c| - 1] + [c[|c| - 1]];
    }
  }

  /** Nothing was omitted: the projection is the candidate window itself. */
  lemma UntruncatedIsAll(s: seq<Item>, b: Budget, after: nat, before: Option<nat>, pins: bool)
    requires Increasing(s)
    ensures !Projected(s, b, after, before, pins).truncated
            ==> Projected(s, b, after, before, pins).records == Candidates(s, after, before, pins)
  {
    OutputIsChosen(s, b, after, before, pins);
    var p, c := Projected(s, b, after, before, pins), Candidates(s, after, before, pins);
    CandidatesIncreasing(s, after, before, pins);
    hide *;
    if !p.truncated {
      SameElementsFrom(p.records, c);
      IncreasingUnique(p.records, c);
    }
  }

  lemma SameElementsFrom(a: seq<Item>, b: seq<Item>)
    requires (forall x :: x in a ==> x in b) && (forall x :: x in b ==> x in a)
    ensures SameElements(a, b)
  {
  }

  // ---------------------------------------------------------------- reading the Stream in pages

  /** The index of the first Record past the cursor. */
  function FirstAfter(log: seq<Item>, cursor: nat): (i: nat)
    ensures i <= |log|
    ensures forall j :: 0 <= j < i ==> log[j].position <= cursor
    ensures i < |log| ==> log[i].position > cursor
  {
    if log == [] || log[0].position > cursor then 0 else 1 + FirstAfter(log[1..], cursor)
  }

  /** The store's page read: exclusive of the cursor, at most `limit` Records. */
  function ReadPage(log: seq<Item>, cursor: nat, limit: nat): seq<Item> {
    var i := FirstAfter(log, cursor);
    if |log| - i <= limit then log[i..] else log[i..i + limit]
  }

  /** The page generator: everything past the cursor and before the bound, whatever the page size. */
  method Pages(log: seq<Item>, start: nat, before: Option<nat>, page: nat) returns (yielded: seq<Item>, ghost i: nat)
    requires Increasing(log) && page > 0
    ensures FirstAfter(log, start) <= i <= |log| && yielded == log[FirstAfter(log, start)..i]
    ensures i == |log| || (before.Some? && log[i].position >= before.value)
  {
    hide *;
    var cursor := start;
    yielded, i := [], FirstAfter(log, start);
    while true
      invariant FirstAfter(log, start) <= i <= |log| && yielded == log[FirstAfter(log, start)..i]
      invariant FirstAfter(log, cursor) == i
      decreases |log| - i
    {
      var batch := ReadPage(log, cursor, page);
      PageIs(log, cursor, page);
      if batch == [] { return; }
      var taken, stopped := Yield(batch, before);
      PageTaken(log, FirstAfter(log, start), i, batch, taken);
      yielded, i := yielded + batch[..taken], i + taken;
      if stopped { return; }
      cursor := batch[|batch| - 1].position;
      AfterIs(log, cursor, i);
    }
  }

  lemma PageIs(log: seq<Item>, cursor: nat, page: nat)
    requires page > 0
    ensures var i, batch := FirstAfter(log, cursor), ReadPage(log, cursor, page);
            && i + |batch| <= |log| && batch == log[i..i + |batch|] && (batch == [] <==> i == |log|)
  {
  }

  lemma PageTaken(log: seq<Item>, i0: nat, i: nat, batch: seq<Item>, taken: nat)
    requires i0 <= i && i + |batch| <= |log| && batch == log[i..i + |batch|] && taken <= |batch|
    ensures log[i0..i] + batch[..taken] == log[i0..i + taken]
    ensures taken > 0 ==> batch[taken - 1] == log[i + taken - 1]
    ensures taken < |batch| ==> batch[taken] == log[i + taken]
  {
  }

  /** Yield a page until a Record at or past the bound. */
  method Yield(batch: seq<Item>, before: Option<nat>) returns (taken: nat, stopped: bool)
    ensures taken <= |batch| && (stopped <==> taken < |batch|)
    ensures stopped ==> before.Some? && batch[taken].position >= before.value
  {
    taken, stopped := 0, false;
    while taken < |batch|
      invariant taken <= |batch| && !stopped
    {
      if before.Some? && batch[taken].position >= before.value {
        stopped := true;
        return;
      }
      taken := taken + 1;
    }
  }

  /** The same projection for every page size. */
  method BuildCatchUp(log: seq<Item>, b: Budget, after: nat, before: Option<nat>, page: int, pins: bool)
    returns (r: Result<Projection, Error>)
    requires Increasing(log) && forall i :: 0 <= i < |log| ==> log[i].position >= 1
    ensures r == if page <= 0 then Err(BadPage) else Ok(Projected(log, b, after, before, pins))
  {
    if page <= 0 { return Err(BadPage); }
    var yielded, i := Pages(log, if pins then 0 else after, before, page);
    ghost var i0 := FirstAfter(log, if pins then 0 else after);
    PartSuffices(log, after, before, pins, i0, i);
    IncreasingMiddle(log, i0, i);
    SameCandidates(log[i0..i], log, b, after, before, pins);
    hide *;
    r := ProjectCatchUp(yielded, b, after, before, pins);
  }

  lemma SameCandidates(s: seq<Item>, t: seq<Item>, b: Budget, after: nat, before: Option<nat>, pins: bool)
    requires Candidates(s, after, before, pins) == Candidates(t, after, before, pins)
    ensures Projected(s, b, after, before, pins) == Projected(t, b, after, before, pins)
  {
    hide Candidates, Chosen, Keep, Dropped, Bytes, Tokens, MaxPosition;
  }

  lemma AfterIs(log: seq<Item>, cursor: nat, i: nat)
    requires Increasing(log) && 0 < i <= |log| && log[i - 1].position == cursor
    ensures FirstAfter(log, cursor) == i
  {
    var f := FirstAfter(log, cursor);
    assert i < |log| ==> log[i].position > cursor;
  }

  lemma IncreasingMiddle(s: seq<Item>, i: nat, j: nat)
    requires Increasing(s) && i <= j <= |s|
    ensures Increasing(s[i..j])
  {
  }

  /** Records outside the part read are no candidates. */
  lemma PartSuffices(log: seq<Item>, after: nat, before: Option<nat>, pins: bool, i0: nat, i: nat)
    requires Increasing(log) && (forall k :: 0 <= k < |log| ==> log[k].position >= 1)
    requires i0 == FirstAfter(log, if pins then 0 else after) && i0 <= i <= |log|
    requires i == |log| || (before.Some? && log[i].position >= before.value)
    ensures Candidates(log[i0..i], after, before, pins) == Candidates(log, after, before, pins)
  {
    forall k | i <= k < |log| ensures !Candidate(log[k], after, before, pins) {
      assert log[i].position <= log[k].position;
    }
    NoCandidates(log, 0, i0, after, before, pins);
    NoCandidates(log, i, |log|, after, before, pins);
    Reassemble(log, i0, i);
    hide *;
    CandidatesConcat(log[0..i0] + log[i0..i], log[i..|log|], after, before, pins);
    CandidatesConcat(log[0..i0], log[i0..i], after, before, pins);
    assert [] + Candidates(log[i0..i], after, before, pins) + [] == Candidates(log[i0..i], after, before, pins);
  }

  lemma Reassemble(s: seq<Item>, i: nat, j: nat)
    requires i <= j <= |s|
    ensures s == (s[0..i] + s[i..j]) + s[j..|s|]
  {
  }

  lemma {:induction false} NoCandidates(s: seq<Item>, lo: nat, hi: nat, after: nat, before: Option<nat>, pins: bool)
    requires lo <= hi <= |s| && forall k :: lo <= k < hi ==> !Candidate(s[k], after, before, pins)
    ensures Candidates(s[lo..hi], after, before, pins) == []
    decreases hi
  {
    if lo < hi {
      NoCandidates(s, lo, hi - 1, after, before, pins);
      assert s[lo..hi] == s[lo..hi - 1] + [s[hi - 1]];
      CandidatesSnoc(s[lo..hi - 1], s[hi - 1], after, before, pins);
    }
  }

  lemma {:induction false} CandidatesConcat(a: seq<Item>, z: seq<Item>, after: nat, before: Option<nat>, pins: bool)
    ensures Candidates(a + z, after, before, pins) == Candidates(a, after, before, pins) + Candidates(z, after, before, pins)
    decreases |z|
  {
    if z == [] {
      assert a + z == a;
    } else {
      var n := |z| - 1;
      CandidatesConcat(a, z[..n], after, before, pins);
      assert z == z[..n] + [z[n]] && a + z == (a + z[..n]) + [z[n]];
      CandidatesSnoc(a + z[..n], z[n], after, before, pins);
      CandidatesSnoc(z[..n], z[n], after, before, pins);
      hide *;
    }
  }

  lemma CandidatesSnoc(s: seq<Item>, x: Item, after: nat, before: Option<nat>, pins: bool)
    ensures Candidates(s + [x], after, before, pins)
            == Candidates(s, after, before, pins) + (if Candidate(x, after, before, pins) then [x] else [])
  {
    assert (s + [x])[..|s|] == s;
  }

  /** Records appended later, at or past the delivered position, never change a projection bounded by that position. */
  lemma LaterAppendsInvisible(s: seq<Item>, later: seq<Item>, b: Budget, after: nat, bound: nat, pins: bool)
    requires forall k :: 0 <= k < |later| ==> later[k].position >= bound
    ensures Projected(s + later, b, after, Some(bound), pins) == Projected(s, b, after, Some(bound), pins)
  {
    NoCandidates(later, 0, |later|, after, Some(bound), pins);
    assert later[0..|later|] == later;
    CandidatesConcat(s, later, after, Some(bound), pins);
    assert Candidates(s, after, Some(bound), pins) + [] == Candidates(s, after, Some(bound), pins);
  }
}
