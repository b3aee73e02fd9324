/** The chain linker: `link_up` of MakeBuffer/linkup.py, which the two
  * `StimList` classes carry line for line as `link_up_chains`.
  *
  * A pair `[cue, target]` says "position `target` must show what position
  * `cue` showed". The linker sorts the caller's list of pairs in place,
  * repeatedly pops the smallest remaining pair as the seed of a chain, grows
  * the chain by sweeping the remaining pairs for one whose cue is the chain's
  * current last element (sweeping again while a sweep consumed something), and
  * emits the chain. The caller's list is empty at the end.
  */
module LinkUp {

  datatype Pair = Pair(cue: int, target: int)

  /** Python orders two-element lists lexicographically. */
  predicate Le(p: Pair, q: Pair) {
    p.cue < q.cue || (p.cue == q.cue && p.target <= q.target)
  }

  predicate Sorted(s: seq<Pair>) {
    forall i, j :: 0 <= i < j < |s| ==> Le(s[i], s[j])
  }

  /** Cues strictly ascending: what the stimulus pipeline hands the linker. */
  predicate StrictlyAscendingCues(s: seq<Pair>) {
    forall i, j :: 0 <= i < j < |s| ==> s[i].cue < s[j].cue
  }

  /** Every pair joins a position to the one `n` places later. */
  predicate Lagged(s: seq<Pair>, n: int) {
    forall p :: p in s ==> p.target == p.cue + n
  }

  // ---------------------------------------------------------------------
  // `list.sort()`: Python's sort, specified by its result

  function Insert(p: Pair, s: seq<Pair>): (r: seq<Pair>)
    requires Sorted(s)
    ensures Sorted(r)
    ensures multiset(r) == multiset(s) + multiset{p}
  {
    if s == [] || Le(p, s[0]) then [p] + s
    else
      var tail := Insert(p, s[1..]);
      assert s == [s[0]] + s[1..];
      InsertAfterHead(p, s, tail);
      [s[0]] + tail
  }

  lemma InsertAfterHead(p: Pair, s: seq<Pair>, tail: seq<Pair>)
    requires Sorted(s) && s != [] && !Le(p, s[0])
    requires Sorted(tail) && multiset(tail) == multiset(s[1..]) + multiset{p}
    ensures Sorted([s[0]] + tail)
  {
    var r := [s[0]] + tail;
    forall j | 0 < j < |r| ensures Le(s[0], r[j]) {
      assert r[j] == tail[j - 1];
      assert tail[j - 1] in multiset(tail);
      if r[j] != p {
        assert r[j] in multiset(s[1..]);
        var k :| 0 <= k < |s[1..]| && s[1..][k] == r[j];
        assert s[k + 1] == r[j];
      }
    }
    forall i, j | 0 <= i < j < |r| ensures Le(r[i], r[j]) {
      if i > 0 {
        assert r[i] == tail[i - 1] && r[j] == tail[j - 1];
      }
    }
  }

  /** The sorted permutation of `s` (unique, since `Le` is a total order). */
  function SortPairs(s: seq<Pair>): (r: seq<Pair>)
    ensures Sorted(r)
    ensures multiset(r) == multiset(s)
  {
    if s == [] then []
    else
      assert s == [s[0]] + s[1..];
      Insert(s[0], SortPairs(s[1..]))
  }

  // ---------------------------------------------------------------------
  // `list.index(x)` and `list.pop(k)`

  function IndexOf(s: seq<Pair>, x: Pair): (k: nat)
    requires x in s
    ensures k < |s| && s[k] == x && x !in s[..k]
  {
    if s[0] == x then 0 else 1 + IndexOf(s[1..], x)
  }

  /** `s.pop(s.index(x))`: drops the first occurrence of `x`. */
  function RemoveFirst(s: seq<Pair>, x: Pair): (r: seq<Pair>)
    requires x in s
    ensures |r| == |s| - 1
  {
    var k := IndexOf(s, x);
    s[..k] + s[k + 1..]
  }

  lemma RemoveFirstCount(s: seq<Pair>, x: Pair)
    requires x in s
    ensures multiset(RemoveFirst(s, x)) == multiset(s) - multiset{x}
  {
    var k := IndexOf(s, x);
    assert s == s[..k] + [x] + s[k + 1..];
  }

  /** `for pair in popped: s.pop(s.index(pair))`. Every popped pair is in the
    * list whenever the linker pops (`SweepTakesFromList`), so the branch that
    * skips a missing pair, where Python would raise, is never taken there. */
  function RemoveEach(s: seq<Pair>, popped: seq<Pair>): (r: seq<Pair>)
    ensures |r| <= |s|
    ensures popped != [] && popped[0] in s ==> |r| < |s|
    decreases |popped|
  {
    if popped == [] then s
    else if popped[0] in s then RemoveEach(RemoveFirst(s, popped[0]), popped[1..])
    else RemoveEach(s, popped[1..])
  }

  /** Popping a sub-multiset removes exactly those pairs. */
  lemma {:induction false} RemoveEachCount(s: seq<Pair>, popped: seq<Pair>)
    requires multiset(popped) <= multiset(s)
    ensures |RemoveEach(s, popped)| == |s| - |popped|
    ensures multiset(RemoveEach(s, popped)) == multiset(s) - multiset(popped)
    decreases |popped|
  {
    if popped != [] {
      RemoveEachStep(s, popped);
      RemoveEachCount(RemoveFirst(s, popped[0]), popped[1..]);
    }
  }

  lemma RemoveEachStep(s: seq<Pair>, popped: seq<Pair>)
    requires popped != [] && multiset(popped) <= multiset(s)
    ensures popped[0] in s
    ensures multiset(popped[1..]) <= multiset(RemoveFirst(s, popped[0]))
    ensures RemoveEach(s, popped) == RemoveEach(RemoveFirst(s, popped[0]), popped[1..])
    ensures |RemoveFirst(s, popped[0])| == |s| - 1
    ensures multiset(s) - multiset(popped) == multiset(RemoveFirst(s, popped[0])) - multiset(popped[1..])
  {
    var x, later := popped[0], popped[1..];
    assert popped == [x] + later;
    assert x in multiset(s);
    RemoveFirstCount(s, x);
    MinusTwice(multiset(s), multiset{x}, multiset(later));
  }

  lemma MinusTwice(m: multiset<Pair>, a: multiset<Pair>, b: multiset<Pair>)
    ensures m - a - b == m - (a + b)
  {
  }

  // ---------------------------------------------------------------------
  // The linker as functions: one sweep, the `check_again` loop, the outer loop

  function Last(c: seq<int>): int
    requires |c| > 0
  {
    c[|c| - 1]
  }

  /** One `for entry in list_of_pairs` sweep: the grown chain and the pairs
    * consumed (`entries_to_pop`), in list order. */
  function Sweep(chain: seq<int>, rest: seq<Pair>): (r: (seq<int>, seq<Pair>))
    requires |chain| > 0
    ensures |r.0| > 0
    ensures r.1 != [] ==> r.1[0] in rest
    decreases |rest|
  {
    if rest == [] then (chain, [])
    else
      assert rest == [rest[0]] + rest[1..];
      if rest[0].cue == Last(chain) then
        var (c, popped) := Sweep(chain + [rest[0].target], rest[1..]);
        (c, [rest[0]] + popped)
      else
        Sweep(chain, rest[1..])
  }

  /** The `while check_again` loop: sweep until a sweep consumes nothing.
    * Returns the finished chain and the pairs left in the list. */
  function Grow(chain: seq<int>, rest: seq<Pair>): (r: (seq<int>, seq<Pair>))
    requires |chain| > 0
    ensures |r.0| > 0
    ensures |r.1| <= |rest|
    decreases |rest|
  {
    var (c, popped) := Sweep(chain, rest);
    if popped == [] then (chain, rest)
    else Grow(c, RemoveEach(rest, popped))
  }

  /** The outer loop on an already sorted list: seed, grow, emit, repeat. */
  function Chains(s: seq<Pair>): seq<seq<int>>
    decreases |s|
  {
    if s == [] then []
    else
      var (c, rest) := Grow([s[0].cue, s[0].target], s[1..]);
      [c] + Chains(rest)
  }

  /** The links of a chain: consecutive elements as pairs. */
  function Edges(c: seq<int>): seq<Pair> {
    if |c| == 0 then [] else seq(|c| - 1, k requires 0 <= k < |c| - 1 => Pair(c[k], c[k + 1]))
  }

  function AllEdges(cs: seq<seq<int>>): seq<Pair> {
    if cs == [] then [] else Edges(cs[0]) + AllEdges(cs[1..])
  }

  /** The sum over chains of `len(chain) - 1`. */
  function LinkCount(cs: seq<seq<int>>): int {
    if cs == [] then 0 else |cs[0]| - 1 + LinkCount(cs[1..])
  }

  // ---------------------------------------------------------------------
  // The imperative linker

  /** The caller's list of pairs, which `link_up` sorts and empties in place. */
  class PairList {
    var items: seq<Pair>

    constructor (items: seq<Pair>)
      ensures this.items == items
    {
      this.items := items;
    }
  }

  method LinkUp(list: PairList) returns (chains: seq<seq<int>>)
    modifies list
    ensures list.items == []
    ensures chains == Chains(SortPairs(old(list.items)))
  {
    chains := [];
    list.items := SortPairs(list.items);
    ghost var sorted := list.items;
    while |list.items| > 0
      invariant chains + Chains(list.items) == Chains(sorted)
      decreases |list.items|
    {
      ghost var before := list.items;
      var working := [list.items[0].cue, list.items[0].target];
      list.items := list.items[1..];
      ghost var goal := Grow(working, list.items);
      assert Chains(before) == [goal.0] + Chains(goal.1);
      var checkAgain := true;
      while checkAgain
        invariant |working| > 0
        invariant Grow(working, list.items) == goal
        invariant !checkAgain ==> Sweep(working, list.items).1 == []
        decreases |list.items|, checkAgain
      {
        ghost var start := working;
        var entriesToPop;
        working, entriesToPop := SweepOnce(working, list.items);
        checkAgain := |entriesToPop| > 0;
        GrowUnfold(start, list.items);
        if checkAgain {
          SweepTakesFromList(start, list.items);
          PopEach(list, entriesToPop);
        } else {
          SweepUnchanged(start, list.items);
        }
      }
      chains := chains + [working];
    }
  }

  /** One `for entry in list_of_pairs` sweep over the list as it stands. */
  method SweepOnce(chain: seq<int>, items: seq<Pair>) returns (grown: seq<int>, entriesToPop: seq<Pair>)
    requires |chain| > 0
    ensures (grown, entriesToPop) == Sweep(chain, items)
  {
    grown, entriesToPop := chain, [];
    assert items[0..] == items;
    ghost var whole := Sweep(chain, items);
    assert whole == (whole.0, whole.1);
    assert entriesToPop + whole.1 == whole.1;
    for k := 0 to |items|
      invariant |grown| > 0
      invariant Sweep(chain, items) == (Sweep(grown, items[k..]).0, entriesToPop + Sweep(grown, items[k..]).1)
    {
      var entry := items[k];
      assert items[k..][1..] == items[k + 1..];
      SweepCons(grown, items[k..]);
      if entry.cue == grown[|grown| - 1] {
        ghost var after := Sweep(grown + [entry.target], items[k + 1..]);
        assert entriesToPop + ([entry] + after.1) == (entriesToPop + [entry]) + after.1;
        grown := grown + [entry.target];
        entriesToPop := entriesToPop + [entry];
      }
    }
    assert items[|items|..] == [];
    assert Sweep(grown, []) == (grown, []);
    assert entriesToPop + [] == entriesToPop;
  }

  /** `for pair in entries_to_pop: list.pop(list.index(pair))`. */
  method PopEach(list: PairList, entriesToPop: seq<Pair>)
    requires multiset(entriesToPop) <= multiset(list.items)
    modifies list
    ensures list.items == RemoveEach(old(list.items), entriesToPop)
  {
    ghost var whole := list.items;
    for t := 0 to |entriesToPop|
      invariant multiset(entriesToPop[t..]) <= multiset(list.items)
      invariant RemoveEach(whole, entriesToPop) == RemoveEach(list.items, entriesToPop[t..])
    {
      RemoveEachStep(list.items, entriesToPop[t..]);
      var at := IndexOf(list.items, entriesToPop[t]);
      list.items := list.items[..at] + list.items[at + 1..];
      assert entriesToPop[t..][1..] == entriesToPop[t + 1..];
    }
    assert entriesToPop[|entriesToPop|..] == [];
  }

  // ---------------------------------------------------------------------
  // What a sweep and a grow keep

  lemma SweepCons(chain: seq<int>, rest: seq<Pair>)
    requires |chain| > 0 && rest != []
    ensures Sweep(chain, rest) ==
      if rest[0].cue == Last(chain) then
        (Sweep(chain + [rest[0].target], rest[1..]).0, [rest[0]] + Sweep(chain + [rest[0].target], rest[1..]).1)
      else Sweep(chain, rest[1..])
  {
  }

  lemma GrowUnfold(chain: seq<int>, rest: seq<Pair>)
    requires |chain| > 0
    ensures Grow(chain, rest) ==
      if Sweep(chain, rest).1 == [] then (chain, rest)
      else Grow(Sweep(chain, rest).0, RemoveEach(rest, Sweep(chain, rest).1))
  {
  }

  lemma EdgesSnoc(c: seq<int>, x: int)
    requires |c| > 0
    ensures Edges(c + [x]) == Edges(c) + [Pair(Last(c), x)]
  {
    var lhs, rhs := Edges(c + [x]), Edges(c) + [Pair(Last(c), x)];
    assert |lhs| == |rhs|;
    forall k | 0 <= k < |lhs| ensures lhs[k] == rhs[k] {
    }
  }

  /** A sweep that consumes nothing leaves the chain as it was. */
  lemma {:induction false} SweepUnchanged(chain: seq<int>, rest: seq<Pair>)
    requires |chain| > 0
    ensures Sweep(chain, rest).1 == [] ==> Sweep(chain, rest).0 == chain
    decreases |rest|
  {
    if rest != [] && rest[0].cue != Last(chain) {
      SweepUnchanged(chain, rest[1..]);
    }
  }

  /** A sweep consumes pairs of the list, each at most as often as it occurs. */
  lemma {:induction false} SweepTakesFromList(chain: seq<int>, rest: seq<Pair>)
    requires |chain| > 0
    ensures multiset(Sweep(chain, rest).1) <= multiset(rest)
    decreases |rest|
  {
    if rest != [] {
      assert rest == [rest[0]] + rest[1..];
      if rest[0].cue == Last(chain) {
        SweepTakesFromList(chain + [rest[0].target], rest[1..]);
      } else {
        SweepTakesFromList(chain, rest[1..]);
      }
    }
  }

  /** A sweep only appends to the chain. */
  lemma {:induction false} SweepPrefix(chain: seq<int>, rest: seq<Pair>)
    requires |chain| > 0
    ensures chain <= Sweep(chain, rest).0
    decreases |rest|
  {
    if rest == [] {
    } else if rest[0].cue == Last(chain) {
      var grown := chain + [rest[0].target];
      SweepPrefix(grown, rest[1..]);
      assert chain <= grown;
    } else {
      SweepPrefix(chain, rest[1..]);
    }
  }

  /** A sweep extends the chain by exactly the pairs it consumes. */
  lemma {:induction false} SweepEdges(chain: seq<int>, rest: seq<Pair>)
    requires |chain| > 0
    ensures multiset(Edges(Sweep(chain, rest).0)) == multiset(Edges(chain)) + multiset(Sweep(chain, rest).1)
    decreases |rest|
  {
    if rest == [] {
    } else if rest[0].cue == Last(chain) {
      var grown := chain + [rest[0].target];
      SweepEdges(grown, rest[1..]);
      EdgesSnoc(chain, rest[0].target);
    } else {
      SweepEdges(chain, rest[1..]);
    }
  }

  /** A sweep that consumes nothing found no pair starting at the chain's
    * last element. */
  lemma {:induction false} SweepStops(chain: seq<int>, rest: seq<Pair>)
    requires |chain| > 0
    ensures Sweep(chain, rest).1 == [] ==> forall p :: p in rest ==> p.cue != Last(chain)
    decreases |rest|
  {
    if rest != [] && rest[0].cue != Last(chain) {
      SweepStops(chain, rest[1..]);
      assert forall p :: p in rest ==> p == rest[0] || p in rest[1..];
    }
  }

  lemma SortedRemoveFirst(s: seq<Pair>, x: Pair)
    requires x in s && Sorted(s)
    ensures Sorted(RemoveFirst(s, x))
  {
    var k := IndexOf(s, x);
    var r := s[..k] + s[k + 1..];
    forall i, j | 0 <= i < j < |r| ensures Le(r[i], r[j]) {
      var i' := if i < k then i else i + 1;
      var j' := if j < k then j else j + 1;
      assert r[i] == s[i'] && r[j] == s[j'];
    }
  }

  lemma {:induction false} SortedRemoveEach(s: seq<Pair>, popped: seq<Pair>)
    requires Sorted(s)
    ensures Sorted(RemoveEach(s, popped))
    decreases |popped|
  {
    if popped != [] {
      if popped[0] in s {
        SortedRemoveFirst(s, popped[0]);
        SortedRemoveEach(RemoveFirst(s, popped[0]), popped[1..]);
      } else {
        SortedRemoveEach(s, popped[1..]);
      }
    }
  }

  /** The `check_again` loop only appends to the chain. */
  lemma {:induction false} GrowPrefix(chain: seq<int>, rest: seq<Pair>)
    requires |chain| > 0
    ensures chain <= Grow(chain, rest).0
    decreases |rest|
  {
    var swept := Sweep(chain, rest);
    GrowUnfold(chain, rest);
    if swept.1 != [] {
      SweepPrefix(chain, rest);
      var remaining := RemoveEach(rest, swept.1);
      GrowPrefix(swept.0, remaining);
    }
  }

  /** The chain's new links are exactly the pairs taken out of the list. */
  lemma {:induction false} GrowEdges(chain: seq<int>, rest: seq<Pair>)
    requires |chain| > 0
    ensures multiset(Edges(Grow(chain, rest).0)) + multiset(Grow(chain, rest).1)
      == multiset(Edges(chain)) + multiset(rest)
    decreases |rest|
  {
    var swept := Sweep(chain, rest);
    GrowUnfold(chain, rest);
    if swept.1 != [] {
      SweepEdges(chain, rest);
      SweepTakesFromList(chain, rest);
      RemoveEachCount(rest, swept.1);
      GrowEdges(swept.0, RemoveEach(rest, swept.1));
    }
  }

  /** What is left is a sub-multiset of the list. */
  lemma {:induction false} GrowLeft(chain: seq<int>, rest: seq<Pair>)
    requires |chain| > 0
    ensures multiset(Grow(chain, rest).1) <= multiset(rest)
    decreases |rest|
  {
    var swept := Sweep(chain, rest);
    GrowUnfold(chain, rest);
    if swept.1 != [] {
      SweepTakesFromList(chain, rest);
      RemoveEachCount(rest, swept.1);
      GrowLeft(swept.0, RemoveEach(rest, swept.1));
    }
  }

  /** What is left of a sorted list is sorted. */
  lemma {:induction false} GrowLeftSorted(chain: seq<int>, rest: seq<Pair>)
    requires |chain| > 0 && Sorted(rest)
    ensures Sorted(Grow(chain, rest).1)
    decreases |rest|
  {
    var swept := Sweep(chain, rest);
    GrowUnfold(chain, rest);
    if swept.1 != [] {
      SortedRemoveEach(rest, swept.1);
      GrowLeftSorted(swept.0, RemoveEach(rest, swept.1));
    }
  }

  /** When the loop stops no pair left in the list starts at the chain's last
    * element. */
  lemma {:induction false} GrowStops(chain: seq<int>, rest: seq<Pair>)
    requires |chain| > 0
    ensures forall p :: p in Grow(chain, rest).1 ==> p.cue != Last(Grow(chain, rest).0)
    decreases |rest|
  {
    var swept := Sweep(chain, rest);
    GrowUnfold(chain, rest);
    if swept.1 == [] {
      SweepStops(chain, rest);
      SweepUnchanged(chain, rest);
    } else {
      GrowStops(swept.0, RemoveEach(rest, swept.1));
    }
  }

  // ---------------------------------------------------------------------
  // What the linker promises about its output

  lemma EdgesLength(c: seq<int>)
    ensures |c| > 0 ==> |Edges(c)| == |c| - 1
  {
  }

  lemma {:induction false} AllEdgesLength(cs: seq<seq<int>>)
    requires forall i :: 0 <= i < |cs| ==> |cs[i]| > 0
    ensures |AllEdges(cs)| == LinkCount(cs)
  {
    if cs != [] {
      AllEdgesLength(cs[1..]);
    }
  }

  lemma ChainsUnfold(s: seq<Pair>)
    requires s != []
    ensures var g := Grow([s[0].cue, s[0].target], s[1..]);
      Chains(s) == [g.0] + Chains(g.1) && |g.1| < |s|
  {
  }

  lemma AllEdgesCons(c: seq<int>, cs: seq<seq<int>>)
    ensures AllEdges([c] + cs) == Edges(c) + AllEdges(cs)
  {
    assert ([c] + cs)[1..] == cs;
  }

  /** The links of the emitted chains are the input pairs, as a multiset. */
  lemma {:induction false} ChainsCover(s: seq<Pair>)
    ensures multiset(AllEdges(Chains(s))) == multiset(s)
    decreases |s|
  {
    if s != [] {
      var seed := [s[0].cue, s[0].target];
      var g := Grow(seed, s[1..]);
      ChainsUnfold(s);
      ChainsCover(g.1);
      AllEdgesCons(g.0, Chains(g.1));
      GrowEdges(seed, s[1..]);
      SeedEdges(s);
      calc {
        multiset(AllEdges(Chains(s)));
        multiset(Edges(g.0)) + multiset(AllEdges(Chains(g.1)));
        multiset(Edges(g.0)) + multiset(g.1);
        multiset(Edges(seed)) + multiset(s[1..]);
      }
    }
  }

  /** A seed's one link is the pair it was made from. */
  lemma SeedEdges(s: seq<Pair>)
    requires s != []
    ensures multiset(Edges([s[0].cue, s[0].target])) + multiset(s[1..]) == multiset(s)
  {
    assert Edges([s[0].cue, s[0].target]) == [s[0]];
    assert s == [s[0]] + s[1..];
  }

  /** Every emitted chain holds at least its seed pair. */
  lemma {:induction false} ChainsLong(s: seq<Pair>)
    ensures forall i :: 0 <= i < |Chains(s)| ==> |Chains(s)[i]| >= 2
    decreases |s|
  {
    if s != [] {
      var seed := [s[0].cue, s[0].target];
      var g := Grow(seed, s[1..]);
      ChainsUnfold(s);
      GrowPrefix(seed, s[1..]);
      ChainsLong(g.1);
      var cs := Chains(s);
      forall i | 0 <= i < |cs| ensures |cs[i]| >= 2 {
        if i > 0 {
          assert cs[i] == Chains(g.1)[i - 1];
        }
      }
    }
  }

  /** Every pair is used exactly once: the links of the emitted chains are the
    * input pairs, as a multiset, so the chains' `len - 1` add up to the number
    * of pairs; every chain holds at least one pair. */
  lemma ChainsUseEveryPairOnce(s: seq<Pair>)
    ensures multiset(AllEdges(Chains(s))) == multiset(s)
    ensures LinkCount(Chains(s)) == |s|
    ensures forall i :: 0 <= i < |Chains(s)| ==> |Chains(s)[i]| >= 2
  {
    ChainsCover(s);
    ChainsLong(s);
    AllEdgesLength(Chains(s));
    assert |multiset(AllEdges(Chains(s)))| == |multiset(s)|;
  }

  lemma {:induction false} EdgeInAllEdges(cs: seq<seq<int>>, j: nat, e: Pair)
    requires j < |cs| && e in Edges(cs[j])
    ensures e in AllEdges(cs)
  {
    if j > 0 {
      EdgeInAllEdges(cs[1..], j - 1, e);
    }
  }

  lemma EdgeAt(c: seq<int>, k: nat)
    requires k + 1 < |c|
    ensures Pair(c[k], c[k + 1]) in Edges(c)
  {
    assert Edges(c)[k] == Pair(c[k], c[k + 1]);
  }

  lemma FirstChain(s: seq<Pair>)
    requires s != []
    ensures |Chains(s)| > 0 && Chains(s)[0] == Grow([s[0].cue, s[0].target], s[1..]).0
  {
    ChainsUnfold(s);
  }

  /** The first chain starts with the smallest pair. */
  lemma FirstChainSeed(s: seq<Pair>)
    requires s != []
    ensures |Chains(s)| > 0 && |Chains(s)[0]| >= 2
    ensures Chains(s)[0][0] == s[0].cue && Chains(s)[0][1] == s[0].target
  {
    var seed := [s[0].cue, s[0].target];
    ChainsUnfold(s);
    GrowPrefix(seed, s[1..]);
    assert Chains(s)[0][..2] == seed;
  }

  /** The chains after the first are those of what the first one left. */
  lemma LaterChain(s: seq<Pair>, i: nat)
    requires s != [] && 0 < i < |Chains(s)|
    ensures i - 1 < |Chains(Grow([s[0].cue, s[0].target], s[1..]).1)|
    ensures Chains(s)[i] == Chains(Grow([s[0].cue, s[0].target], s[1..]).1)[i - 1]
  {
    ChainsUnfold(s);
  }

  lemma InTail(s: seq<Pair>, t: seq<Pair>, p: Pair)
    requires s != [] && multiset(t) <= multiset(s[1..]) && p in t
    ensures p in s[1..] && p in s
  {
    assert p in multiset(t);
    assert p in multiset(s[1..]);
    var k :| 0 <= k < |s[1..]| && s[1..][k] == p;
    assert s[k + 1] == p;
  }

  /** An edge of a later chain is a pair still in the list after the first
    * chain was grown. */
  lemma EdgeOfLaterChain(s: seq<Pair>, j: nat, e: Pair)
    requires s != [] && 0 < j < |Chains(s)| && e in Edges(Chains(s)[j])
    ensures e in Grow([s[0].cue, s[0].target], s[1..]).1
  {
    var left := Grow([s[0].cue, s[0].target], s[1..]).1;
    LaterChain(s, j);
    var later := Chains(left)[j - 1];
    assert Chains(s)[j] == later;
    EdgeInAllEdges(Chains(left), j - 1, e);
    ChainsCover(left);
    SameMembers(AllEdges(Chains(left)), left, e);
  }

  lemma SameMembers(a: seq<Pair>, b: seq<Pair>, x: Pair)
    requires multiset(a) == multiset(b) && x in a
    ensures x in b
  {
    assert x in multiset(a);
  }

  /** Chains are seeded with the smallest pair still in the list, so a
    * chain's seed is one of the input pairs and is no larger than any link of
    * a chain emitted after it. */
  lemma {:induction false} SeedIsPair(s: seq<Pair>, i: nat)
    requires i < |Chains(s)|
    ensures |Chains(s)[i]| >= 2 && Pair(Chains(s)[i][0], Chains(s)[i][1]) in s
    decreases |s|
  {
    if i == 0 {
      FirstChainSeed(s);
    } else {
      var g := Grow([s[0].cue, s[0].target], s[1..]);
      LaterChain(s, i);
      SeedIsPair(g.1, i - 1);
      GrowLeft([s[0].cue, s[0].target], s[1..]);
      InTail(s, g.1, Pair(Chains(s)[i][0], Chains(s)[i][1]));
    }
  }

  lemma {:induction false} SeedBelowLaterLinks(s: seq<Pair>, i: nat, j: nat, e: Pair)
    requires Sorted(s)
    requires i < j < |Chains(s)| && e in Edges(Chains(s)[j])
    ensures |Chains(s)[i]| >= 2 && Le(Pair(Chains(s)[i][0], Chains(s)[i][1]), e)
    decreases |s|
  {
    if i == 0 {
      FirstSeedBelowLaterLinks(s, j, e);
    } else {
      var seed := [s[0].cue, s[0].target];
      var left := Grow(seed, s[1..]).1;
      LaterChain(s, i);
      LaterChain(s, j);
      SortedTail(s);
      GrowLeftSorted(seed, s[1..]);
      SeedBelowLaterLinks(left, i - 1, j - 1, e);
    }
  }

  lemma FirstSeedBelowLaterLinks(s: seq<Pair>, j: nat, e: Pair)
    requires Sorted(s)
    requires 0 < j < |Chains(s)| && e in Edges(Chains(s)[j])
    ensures |Chains(s)[0]| >= 2 && Le(Pair(Chains(s)[0][0], Chains(s)[0][1]), e)
  {
    var seed := [s[0].cue, s[0].target];
    FirstChainSeed(s);
    EdgeOfLaterChain(s, j, e);
    GrowLeft(seed, s[1..]);
    InTail(s, Grow(seed, s[1..]).1, e);
    SortedHead(s, e);
  }

  lemma SortedTail(s: seq<Pair>)
    requires Sorted(s) && s != []
    ensures Sorted(s[1..])
  {
  }

  lemma SortedHead(s: seq<Pair>, e: Pair)
    requires Sorted(s) && e in s
    ensures Le(s[0], e)
  {
    var k :| 0 <= k < |s| && s[k] == e;
    if k > 0 {
      assert Le(s[0], s[k]);
    }
  }

  /** When a chain is emitted no pair left in the list starts at its last
    * element, so no later chain has a link starting there. */
  lemma {:induction false} ChainsAreMaximal(s: seq<Pair>, i: nat, j: nat, e: Pair)
    requires i < j < |Chains(s)| && e in Edges(Chains(s)[j])
    ensures |Chains(s)[i]| > 0 && e.cue != Last(Chains(s)[i])
    decreases |s|
  {
    var seed := [s[0].cue, s[0].target];
    var g := Grow(seed, s[1..]);
    if i == 0 {
      FirstChain(s);
      EdgeOfLaterChain(s, j, e);
      GrowStops(seed, s[1..]);
    } else {
      LaterChain(s, i);
      LaterChain(s, j);
      ChainsAreMaximal(g.1, i - 1, j - 1, e);
    }
  }

  // ---------------------------------------------------------------------
  // Pairs as the stimulus generator hands them over: one pair `[p - n, p]`
  // per labelled position `p`, in ascending `p`

  lemma {:induction false} SortKeepsSorted(s: seq<Pair>)
    requires Sorted(s)
    ensures SortPairs(s) == s
  {
    if s != [] {
      assert Sorted(s[1..]);
      SortKeepsSorted(s[1..]);
      assert s == [s[0]] + s[1..];
    }
  }

  lemma StrictCuesSorted(s: seq<Pair>)
    requires StrictlyAscendingCues(s)
    ensures Sorted(s)
  {
  }

  /** A pair that is the link of two different chains occurs twice among the
    * links. */
  lemma TwoCopies(cs: seq<seq<int>>, i: nat, j: nat, e: Pair)
    requires i < j < |cs| && e in Edges(cs[i]) && e in Edges(cs[j])
    ensures multiset(AllEdges(cs))[e] >= 2
  {
    var front, back := cs[..j], cs[j..];
    AllEdgesSplit(cs, j);
    EdgeInAllEdges(front, i, e);
    EdgeInAllEdges(back, 0, e);
    CopiesOfConcat(AllEdges(front), AllEdges(back), AllEdges(cs), e);
  }

  /** The links of a list of chains split where the list splits. */
  lemma AllEdgesSplit(cs: seq<seq<int>>, j: nat)
    requires j <= |cs|
    ensures AllEdges(cs) == AllEdges(cs[..j]) + AllEdges(cs[j..])
  {
    assert cs == cs[..j] + cs[j..];
    AllEdgesAppend(cs[..j], cs[j..]);
  }

  lemma {:induction false} AllEdgesAppend(a: seq<seq<int>>, b: seq<seq<int>>)
    ensures AllEdges(a + b) == AllEdges(a) + AllEdges(b)
  {
    if a == [] {
      assert a + b == b;
    } else {
      var ab := a + b;
      assert ab[0] == a[0] && ab[1..] == a[1..] + b;
      AllEdgesAppend(a[1..], b);
      var x, y, z := Edges(a[0]), AllEdges(a[1..]), AllEdges(b);
      assert AllEdges(ab) == x + (y + z);
      assert x + (y + z) == (x + y) + z;
    }
  }

  /** One copy in each part is two copies in the whole. */
  lemma CopiesOfConcat(head: seq<Pair>, tail: seq<Pair>, whole: seq<Pair>, e: Pair)
    requires whole == head + tail
    requires e in head && e in tail
    ensures multiset(whole)[e] >= 2
  {
    assert multiset(whole) == multiset(head) + multiset(tail);
  }

  /** With strictly ascending cues no pair occurs twice. */
  lemma {:induction false} AtMostOnce(s: seq<Pair>, e: Pair)
    requires StrictlyAscendingCues(s)
    ensures multiset(s)[e] <= 1
  {
    if s != [] {
      assert s == [s[0]] + s[1..];
      AtMostOnce(s[1..], e);
      if e == s[0] {
        forall k | 0 <= k < |s[1..]| ensures s[1..][k] != e {
          assert s[k + 1].cue > s[0].cue;
        }
      }
    }
  }

  /** Every link of an emitted chain is one of the input pairs. */
  lemma LinkIsInput(s: seq<Pair>, i: nat, e: Pair)
    requires i < |Chains(s)| && e in Edges(Chains(s)[i])
    ensures e in s
  {
    EdgeInAllEdges(Chains(s), i, e);
    ChainsCover(s);
    SameMembers(AllEdges(Chains(s)), s, e);
  }

  lemma LinkAt(s: seq<Pair>, i: nat, k: nat)
    requires i < |Chains(s)| && k + 1 < |Chains(s)[i]|
    ensures Pair(Chains(s)[i][k], Chains(s)[i][k + 1]) in s
  {
    EdgeAt(Chains(s)[i], k);
    LinkIsInput(s, i, Pair(Chains(s)[i][k], Chains(s)[i][k + 1]));
  }

  lemma {:induction false} FindInAllEdges(cs: seq<seq<int>>, e: Pair) returns (i: nat, k: nat)
    requires e in AllEdges(cs)
    ensures i < |cs| && k + 1 < |cs[i]| && cs[i][k] == e.cue && cs[i][k + 1] == e.target
  {
    assert cs != [];
    var head, tail := Edges(cs[0]), AllEdges(cs[1..]);
    assert AllEdges(cs) == head + tail;
    if e in head {
      i := 0;
      k := LinkIndex(cs[0], e);
    } else {
      assert e in tail;
      var i', k' := FindInAllEdges(cs[1..], e);
      i, k := i' + 1, k';
      assert cs[1..][i'] == cs[i];
    }
  }

  /** Where a link sits in its chain. */
  lemma LinkIndex(c: seq<int>, e: Pair) returns (k: nat)
    requires e in Edges(c)
    ensures k + 1 < |c| && c[k] == e.cue && c[k + 1] == e.target
  {
    var es := Edges(c);
    k :| 0 <= k < |es| && es[k] == e;
  }

  /** Every input pair is a link of some emitted chain. */
  lemma FindLink(s: seq<Pair>, p: Pair) returns (i: nat, k: nat)
    requires p in s
    ensures i < |Chains(s)| && k + 1 < |Chains(s)[i]|
    ensures Chains(s)[i][k] == p.cue && Chains(s)[i][k + 1] == p.target
  {
    ChainsCover(s);
    SameMembers(s, AllEdges(Chains(s)), p);
    i, k := FindInAllEdges(Chains(s), p);
  }

  /** Along a chain of lagged pairs each element is `n` more than the one
    * before it. */
  lemma ChainStep(s: seq<Pair>, n: int, i: nat, k: nat)
    requires Lagged(s, n)
    requires i < |Chains(s)| && k + 1 < |Chains(s)[i]|
    ensures Chains(s)[i][k + 1] == Chains(s)[i][k] + n
  {
    LinkAt(s, i, k);
  }

  lemma ChainArithmetic(s: seq<Pair>, n: int, i: nat, k: nat)
    requires Lagged(s, n)
    requires i < |Chains(s)| && k < |Chains(s)[i]|
    ensures Chains(s)[i][k] == Chains(s)[i][0] + k * n
  {
    var c := Chains(s)[i];
    forall t | 0 <= t < |c| - 1 ensures c[t + 1] == c[t] + n {
      ChainStep(s, n, i, t);
    }
    Progression(c, n, k);
  }

  /** A sequence that grows by `n` at each step is an arithmetic progression. */
  lemma {:induction false} Progression(c: seq<int>, n: int, k: nat)
    requires forall t :: 0 <= t < |c| - 1 ==> c[t + 1] == c[t] + n
    requires k < |c|
    ensures c[k] == c[0] + k * n
  {
    if k > 0 {
      Progression(c, n, k - 1);
    }
  }

  /** No link belongs to two chains when no pair is repeated. */
  lemma SharedLink(s: seq<Pair>, i: nat, j: nat, e: Pair)
    requires StrictlyAscendingCues(s)
    requires i < j < |Chains(s)| && e in Edges(Chains(s)[i])
    ensures e !in Edges(Chains(s)[j])
  {
    if e in Edges(Chains(s)[j]) {
      TwoCopies(Chains(s), i, j, e);
      ChainsCover(s);
      AtMostOnce(s, e);
      assert false;
    }
  }

  /** For the generator's pairs (lag `n >= 1`, one pair per target position)
    * no position belongs to two chains. */
  lemma ChainsDisjoint(s: seq<Pair>, n: int, i: nat, j: nat, x: int)
    requires n >= 1 && StrictlyAscendingCues(s) && Lagged(s, n)
    requires i < j < |Chains(s)| && x in Chains(s)[i]
    ensures x !in Chains(s)[j]
  {
    var k :| 0 <= k < |Chains(s)[i]| && Chains(s)[i][k] == x;
    forall m | 0 <= m < |Chains(s)[j]| ensures Chains(s)[j][m] != x {
      DistinctPositions(s, n, i, j, k, m);
    }
  }

  lemma DistinctPositions(s: seq<Pair>, n: int, i: nat, j: nat, k: nat, m: nat)
    requires n >= 1 && StrictlyAscendingCues(s) && Lagged(s, n)
    requires i < j < |Chains(s)| && k < |Chains(s)[i]| && m < |Chains(s)[j]|
    ensures Chains(s)[i][k] != Chains(s)[j][m]
  {
    var a, b := Chains(s)[i], Chains(s)[j];
    ChainsLong(s);
    assert |a| >= 2 && |b| >= 2;
    if k + 1 < |a| && m + 1 < |b| {
      NextLinksDiffer(s, n, i, j, k, m);
    } else if k > 0 && m > 0 {
      PreviousLinksDiffer(s, n, i, j, k, m);
    } else if k + 1 < |a| {
      FirstMeetsLast(s, n, i, j);
    } else {
      EdgeAt(b, 0);
      ChainsAreMaximal(s, i, j, Pair(b[0], b[1]));
    }
  }

  /** Two positions that both start a link are different: the links would
    * be the same pair. */
  lemma NextLinksDiffer(s: seq<Pair>, n: int, i: nat, j: nat, k: nat, m: nat)
    requires StrictlyAscendingCues(s) && Lagged(s, n)
    requires i < j < |Chains(s)| && k + 1 < |Chains(s)[i]| && m + 1 < |Chains(s)[j]|
    ensures Chains(s)[i][k] != Chains(s)[j][m]
  {
    var a, b := Chains(s)[i], Chains(s)[j];
    ChainStep(s, n, i, k);
    ChainStep(s, n, j, m);
    EdgeAt(a, k);
    EdgeAt(b, m);
    SharedLink(s, i, j, Pair(a[k], a[k + 1]));
  }

  /** Two positions that both end a link are different. */
  lemma PreviousLinksDiffer(s: seq<Pair>, n: int, i: nat, j: nat, k: nat, m: nat)
    requires StrictlyAscendingCues(s) && Lagged(s, n)
    requires i < j < |Chains(s)| && 0 < k < |Chains(s)[i]| && 0 < m < |Chains(s)[j]|
    ensures Chains(s)[i][k] != Chains(s)[j][m]
  {
    var a, b := Chains(s)[i], Chains(s)[j];
    ChainStep(s, n, i, k - 1);
    ChainStep(s, n, j, m - 1);
    EdgeAt(a, k - 1);
    EdgeAt(b, m - 1);
    SharedLink(s, i, j, Pair(a[k - 1], a[k]));
  }

  /** An earlier chain never starts where a later chain ends. */
  lemma FirstMeetsLast(s: seq<Pair>, n: int, i: nat, j: nat)
    requires n >= 1 && StrictlyAscendingCues(s) && Lagged(s, n)
    requires i < j < |Chains(s)|
    ensures |Chains(s)[i]| > 0 && |Chains(s)[j]| > 0 && Chains(s)[i][0] != Last(Chains(s)[j])
  {
    var a, b := Chains(s)[i], Chains(s)[j];
    ChainsLong(s);
    var x := a[0];
    if x == Last(b) {
      var m := |b| - 1;
      ChainStep(s, n, i, 0);
      ChainStep(s, n, j, m - 1);
      EdgeAt(b, m - 1);
      StrictCuesSorted(s);
      SeedBelowLaterLinks(s, i, j, Pair(x - n, x));
      assert false;
    }
  }
}
