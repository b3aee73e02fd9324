/** The values the stimulus generator works on, and what each of its stages
  * promises about them: the labelled positions, the pairs handed to the
  * linker, the chain values and the fill. The imperative generator itself is
  * the class `StimBuffer.StimList`.
  */
module StimValues {
  import opened LinkUp
  import opened Outcomes

  /** An entry of `placement`: the sentinel `-1` or the kind of target drawn
    * at that position (`'aural'`, `'visual'`, `'both'`). */
  datatype Mark = NoMark | Aural | Visual | Both

  /** The two stimulus buffers, `buffers['aural']` and `buffers['visual']`. */
  datatype Channel = AuralChannel | VisualChannel

  /** `{'aural': a, 'visual': v, 'both': b}`: how many targets of each kind. */
  datatype Targets = Targets(aural: int, visual: int, both: int)

  /** The value `make_index_list` puts in every buffer slot. */
  const Unset: int := -1

  predicate InChannel(m: Mark, c: Channel) {
    match c
    case AuralChannel => m == Aural || m == Both
    case VisualChannel => m == Visual || m == Both
  }

  function Max0(k: int): nat {
    if k < 0 then 0 else k
  }

  /** `[x] * k`. */
  function Repeat<T>(x: T, k: int): (r: seq<T>)
    ensures |r| == Max0(k)
    ensures forall i :: 0 <= i < |r| ==> r[i] == x
  {
    if k <= 0 then [] else Repeat(x, k - 1) + [x]
  }

  /** `list(range(lo, hi))`. */
  function Range(lo: int, hi: int): (r: seq<int>)
    ensures |r| == Max0(hi - lo)
    ensures forall i :: 0 <= i < |r| ==> r[i] == lo + i
    decreases hi - lo
  {
    if hi <= lo then [] else Range(lo, hi - 1) + [hi - 1]
  }

  /** `s[k:]` for `k >= 0`. */
  function SliceFrom<T>(s: seq<T>, k: nat): seq<T> {
    if k >= |s| then [] else s[k..]
  }

  predicate Ascending(s: seq<int>) {
    forall i, j :: 0 <= i < j < |s| ==> s[i] < s[j]
  }

  // ---------------------------------------------------------------------
  // `make_index_list`

  /** Where `make_index_list` stands after `i` rounds: each of the three
    * built lists has `i` more unset entries, and `0 .. i-1` were appended to
    * the eligible positions. */
  ghost predicate IndexProgress(a0: seq<int>, v0: seq<int>, p0: seq<Mark>, e0: seq<int>,
                                a: seq<int>, v: seq<int>, p: seq<Mark>, e: seq<int>, i: nat)
  {
    a == a0 + Repeat(Unset, i) && v == v0 + Repeat(Unset, i)
    && p == p0 + Repeat(NoMark, i) && e == e0 + Range(0, i)
  }

  /** Lists that grow together, with every eligible position inside them. */
  predicate InStep(a: seq<int>, v: seq<int>, p: seq<Mark>, e: seq<int>) {
    |a| == |p| && |v| == |p| && forall k :: 0 <= k < |e| ==> 0 <= e[k] < |p|
  }

  lemma IndexStep(a0: seq<int>, v0: seq<int>, p0: seq<Mark>, e0: seq<int>,
                  a: seq<int>, v: seq<int>, p: seq<Mark>, e: seq<int>, i: nat)
    requires IndexProgress(a0, v0, p0, e0, a, v, p, e, i) && InStep(a, v, p, e)
    ensures IndexProgress(a0, v0, p0, e0, a + [Unset], v + [Unset], p + [NoMark], e + [i], i + 1)
    ensures InStep(a + [Unset], v + [Unset], p + [NoMark], e + [i])
  {
    assert Repeat(Unset, i + 1) == Repeat(Unset, i) + [Unset];
    assert Repeat(NoMark, i + 1) == Repeat(NoMark, i) + [NoMark];
    assert Range(0, i + 1) == Range(0, i) + [i];
  }

  lemma SliceInStep(a: seq<int>, v: seq<int>, p: seq<Mark>, e: seq<int>, n: nat)
    requires InStep(a, v, p, e)
    ensures InStep(a, v, p, SliceFrom(e, n))
  {
    if n < |e| {
      forall k | 0 <= k < |e| - n ensures 0 <= e[n..][k] < |p| {
        assert e[n..][k] == e[n + k];
      }
    }
  }

  /** On a fresh object the eligible positions are exactly `n .. n+L-1`, in
    * ascending order. */
  lemma FreshIndexList(n: nat, length: int)
    ensures SliceFrom([] + Range(0, length + n), n) == Range(n, n + length)
    ensures Ascending(Range(n, n + length))
  {
    var all := [] + Range(0, length + n);
    if n < |all| {
      assert all[n..] == Range(n, n + length);
    }
  }

  // ---------------------------------------------------------------------
  // `place_targets`

  /** The kinds in the order `place_targets` draws them: the dictionary's
    * order, `targets[kind]` times each. */
  function Kinds(t: Targets): seq<Mark> {
    Repeat(Aural, t.aural) + Repeat(Visual, t.visual) + Repeat(Both, t.both)
  }

  /** `placement[drawn[k]] = kinds[k]` for each draw in turn. */
  function Label(p: seq<Mark>, drawn: seq<int>, kinds: seq<Mark>): (r: seq<Mark>)
    requires |drawn| == |kinds|
    requires forall k :: 0 <= k < |drawn| ==> 0 <= drawn[k] < |p|
    ensures |r| == |p|
  {
    if drawn == [] then p
    else Label(p, drawn[..|drawn| - 1], kinds[..|kinds| - 1])[drawn[|drawn| - 1] := kinds[|kinds| - 1]]
  }

  lemma {:induction false} LabelAppend(p: seq<Mark>, d1: seq<int>, k1: seq<Mark>, d2: seq<int>, k2: seq<Mark>)
    requires |d1| == |k1| && |d2| == |k2|
    requires forall k :: 0 <= k < |d1| ==> 0 <= d1[k] < |p|
    requires forall k :: 0 <= k < |d2| ==> 0 <= d2[k] < |p|
    ensures forall k :: 0 <= k < |d1 + d2| ==> 0 <= (d1 + d2)[k] < |p|
    ensures Label(Label(p, d1, k1), d2, k2) == Label(p, d1 + d2, k1 + k2)
    decreases |d2|
  {
    if d2 != [] {
      var m := |d2| - 1;
      assert (d1 + d2)[..|d1 + d2| - 1] == d1 + d2[..m];
      assert (k1 + k2)[..|k1 + k2| - 1] == k1 + k2[..m];
      LabelAppend(p, d1, k1, d2[..m], k2[..m]);
    } else {
      assert d1 + d2 == d1 && k1 + k2 == k1;
    }
  }

  /** A position that was never drawn keeps its entry. */
  lemma {:induction false} LabelUntouched(p: seq<Mark>, drawn: seq<int>, kinds: seq<Mark>, i: int)
    requires |drawn| == |kinds|
    requires forall k :: 0 <= k < |drawn| ==> 0 <= drawn[k] < |p|
    requires 0 <= i < |p| && forall k :: 0 <= k < |drawn| ==> drawn[k] != i
    ensures Label(p, drawn, kinds)[i] == p[i]
    decreases |drawn|
  {
    if drawn != [] {
      var m := |drawn| - 1;
      LabelUntouched(p, drawn[..m], kinds[..m], i);
    }
  }

  predicate NoDuplicates(s: seq<int>) {
    forall i, j :: 0 <= i < j < |s| ==> s[i] != s[j]
  }

  lemma UpdateCount<T>(s: seq<T>, i: int, v: T)
    requires 0 <= i < |s|
    ensures multiset(s[i := v]) == multiset(s) - multiset{s[i]} + multiset{v}
  {
    assert s == s[..i] + [s[i]] + s[i + 1..];
    assert s[i := v] == s[..i] + [v] + s[i + 1..];
  }

  /** Drawing distinct unlabelled positions adds exactly the drawn kinds. */
  lemma {:induction false} LabelCounts(p: seq<Mark>, drawn: seq<int>, kinds: seq<Mark>)
    requires |drawn| == |kinds|
    requires forall k :: 0 <= k < |drawn| ==> 0 <= drawn[k] < |p| && p[drawn[k]] == NoMark
    requires NoDuplicates(drawn)
    ensures forall m :: m != NoMark ==> multiset(Label(p, drawn, kinds))[m] == multiset(p)[m] + multiset(kinds)[m]
    decreases |drawn|
  {
    if drawn != [] {
      var m := |drawn| - 1;
      var before := Label(p, drawn[..m], kinds[..m]);
      LabelCounts(p, drawn[..m], kinds[..m]);
      LabelUntouched(p, drawn[..m], kinds[..m], drawn[m]);
      UpdateCount(before, drawn[m], kinds[m]);
      assert kinds == kinds[..m] + [kinds[m]];
    }
  }

  lemma KindCounts(t: Targets)
    ensures multiset(Kinds(t))[Aural] == Max0(t.aural)
    ensures multiset(Kinds(t))[Visual] == Max0(t.visual)
    ensures multiset(Kinds(t))[Both] == Max0(t.both)
  {
    var a, v, b := Repeat(Aural, t.aural), Repeat(Visual, t.visual), Repeat(Both, t.both);
    RepeatCount(Aural, t.aural);
    RepeatCount(Visual, t.visual);
    RepeatCount(Both, t.both);
    assert multiset(a + v) == multiset(a) + multiset(v);
    assert multiset(Kinds(t)) == multiset(a + v) + multiset(b);
  }

  lemma {:induction false} RepeatCount<T>(x: T, k: int)
    ensures multiset(Repeat(x, k)) == multiset{}[x := Max0(k)]
    decreases Max0(k)
  {
    if k > 0 {
      RepeatCount(x, k - 1);
      assert Repeat(x, k) == Repeat(x, k - 1) + [x];
    }
  }

  /** Where `place_targets` stands after drawing `drawn`, one position per
    * entry of `kinds`, starting from placement `p0` and eligible positions
    * `v0`. */
  ghost predicate DrawProgress(p0: seq<Mark>, v0: seq<int>, p: seq<Mark>, v: seq<int>, drawn: seq<int>, kinds: seq<Mark>)
  {
    |drawn| == |kinds| && |v| + |drawn| == |v0| && |p| == |p0|
    && (forall k :: 0 <= k < |drawn| ==> 0 <= drawn[k] < |p0|)
    && (forall k :: 0 <= k < |v| ==> 0 <= v[k] < |p0|)
    && multiset(drawn) + multiset(v) == multiset(v0)
    && p == Label(p0, drawn, kinds)
    && (Ascending(v0) ==> Ascending(v))
  }

  lemma DrawStart(p0: seq<Mark>, v0: seq<int>)
    requires forall k :: 0 <= k < |v0| ==> 0 <= v0[k] < |p0|
    ensures DrawProgress(p0, v0, p0, v0, [], [])
  {
  }

  /** Taking out the `k`-th eligible position and labelling it `mark` keeps
    * the draw's bookkeeping. */
  lemma DrawStep(p0: seq<Mark>, v0: seq<int>, p: seq<Mark>, v: seq<int>, drawn: seq<int>, kinds: seq<Mark>, mark: Mark, k: int)
    requires DrawProgress(p0, v0, p, v, drawn, kinds) && 0 <= k < |v|
    ensures 0 <= v[k] < |p|
    ensures DrawProgress(p0, v0, p[v[k] := mark], v[..k] + v[k + 1..], drawn + [v[k]], kinds + [mark])
  {
    var x, v', drawn', kinds' := v[k], v[..k] + v[k + 1..], drawn + [v[k]], kinds + [mark];
    TakeOutCount(v, k);
    assert multiset(drawn') + multiset(v') == multiset(v0);
    LabelSnoc(p0, drawn, kinds, x, mark);
    if Ascending(v0) {
      TakeOutAscending(v, k);
    }
  }

  lemma TakeOutCount(v: seq<int>, k: int)
    requires 0 <= k < |v|
    ensures multiset(v) == multiset(v[..k] + v[k + 1..]) + multiset{v[k]}
  {
    assert v == v[..k] + [v[k]] + v[k + 1..];
  }

  lemma TakeOutAscending(v: seq<int>, k: int)
    requires 0 <= k < |v| && Ascending(v)
    ensures Ascending(v[..k] + v[k + 1..])
  {
    var v' := v[..k] + v[k + 1..];
    forall a, b | 0 <= a < b < |v'| ensures v'[a] < v'[b] {
      if b < k {
      } else if a < k {
        assert v'[b] == v[b + 1];
      } else {
        assert v'[a] == v[a + 1] && v'[b] == v[b + 1];
      }
    }
  }

  lemma LabelSnoc(p0: seq<Mark>, drawn: seq<int>, kinds: seq<Mark>, x: int, mark: Mark)
    requires |drawn| == |kinds| && 0 <= x < |p0|
    requires forall k :: 0 <= k < |drawn| ==> 0 <= drawn[k] < |p0|
    ensures Label(p0, drawn + [x], kinds + [mark]) == Label(p0, drawn, kinds)[x := mark]
  {
    assert (drawn + [x])[..|drawn|] == drawn;
    assert (kinds + [mark])[..|kinds|] == kinds;
  }

  /** The kinds `place_targets` visits, in the dictionary's order. */
  const KindOrder: seq<Mark> := [Aural, Visual, Both]

  function Count(t: Targets, m: Mark): int {
    match m
    case Aural => t.aural
    case Visual => t.visual
    case Both => t.both
    case NoMark => 0
  }

  /** The draws of the first `m` kinds. */
  function KindsBefore(t: Targets, m: nat): seq<Mark>
    requires m <= |KindOrder|
  {
    if m == 0 then [] else KindsBefore(t, m - 1) + Repeat(KindOrder[m - 1], Count(t, KindOrder[m - 1]))
  }

  lemma KindsAll(t: Targets)
    ensures KindsBefore(t, 3) == Kinds(t)
    ensures |Kinds(t)| == Max0(t.aural) + Max0(t.visual) + Max0(t.both)
  {
    assert KindsBefore(t, 1) == Repeat(Aural, t.aural);
  }

  lemma RepeatMax0(m: Mark, k: int)
    ensures Repeat(m, Max0(k)) == Repeat(m, k)
  {
  }

  lemma RepeatSnoc(m: Mark, i: nat)
    ensures Repeat(m, i + 1) == Repeat(m, i) + [m]
  {
  }

  // ---------------------------------------------------------------------
  // `place_stims`: one pair `[i - n, i]` per labelled position of a channel

  function ChannelPairs(p: seq<Mark>, n: int, c: Channel): seq<Pair> {
    if p == [] then []
    else
      var i := |p| - 1;
      ChannelPairs(p[..i], n, c) + (if InChannel(p[i], c) then [Pair(i - n, i)] else [])
  }

  /** The pairs are lagged by `n`, in strictly ascending order, and there is
    * one for each position of the channel and no other. */
  lemma {:induction false} ChannelPairsFacts(p: seq<Mark>, n: int, c: Channel)
    ensures Lagged(ChannelPairs(p, n, c), n)
    ensures StrictlyAscendingCues(ChannelPairs(p, n, c))
    ensures forall q :: q in ChannelPairs(p, n, c) ==> 0 <= q.target < |p| && InChannel(p[q.target], c)
    ensures forall j :: 0 <= j < |p| && InChannel(p[j], c) ==> Pair(j - n, j) in ChannelPairs(p, n, c)
  {
    if p != [] {
      var i := |p| - 1;
      var front := ChannelPairs(p[..i], n, c);
      ChannelPairsFacts(p[..i], n, c);
      forall j | 0 <= j < |p| && InChannel(p[j], c) ensures Pair(j - n, j) in ChannelPairs(p, n, c) {
        if j < i {
          assert p[..i][j] == p[j];
        }
      }
    }
  }

  // ---------------------------------------------------------------------
  // `pair_cue_targets`: one value per chain

  /** Values drawn from `[0, pool)`, each different from the one before. */
  predicate ChainValues(values: seq<int>, count: int, pool: int) {
    |values| == count
    && (forall k :: 0 <= k < |values| ==> 0 <= values[k] < pool)
    && (forall k :: 0 < k < |values| ==> values[k] != values[k - 1])
  }

  /** A value from the pool that differs from the last one extends the
    * chain values. */
  lemma ChainValuesSnoc(values: seq<int>, pool: int, v: int)
    requires ChainValues(values, |values|, pool) && 0 <= v < pool
    requires values != [] ==> v != values[|values| - 1]
    ensures ChainValues(values + [v], |values| + 1, pool)
  {
    var w := values + [v];
    assert forall k :: 0 <= k < |values| ==> w[k] == values[k];
  }

  /** Every position of every chain is a cue or a target of one of the
    * pairs, so chains of in-range pairs stay in range. */
  lemma ChainsOfPairsInRange(pairs: seq<Pair>, size: int)
    requires forall q :: q in pairs ==> 0 <= q.cue < size && 0 <= q.target < size
    ensures ChainsInRange(Chains(pairs), size)
  {
    forall k, t | 0 <= k < |Chains(pairs)| && 0 <= t < |Chains(pairs)[k]|
      ensures 0 <= Chains(pairs)[k][t] < size
    {
      ChainsLong(pairs);
      if t + 1 < |Chains(pairs)[k]| {
        LinkAt(pairs, k, t);
      } else {
        LinkAt(pairs, k, t - 1);
      }
    }
  }

  predicate ChainsInRange(chains: seq<seq<int>>, size: int) {
    forall k, t :: 0 <= k < |chains| && 0 <= t < |chains[k]| ==> 0 <= chains[k][t] < size
  }

  /** `buf[index] = v` for each index of the chain in turn. */
  function WriteChain(buf: seq<int>, chain: seq<int>, v: int): (r: seq<int>)
    requires forall t :: 0 <= t < |chain| ==> 0 <= chain[t] < |buf|
    ensures |r| == |buf|
  {
    if chain == [] then buf
    else WriteChain(buf, chain[..|chain| - 1], v)[chain[|chain| - 1] := v]
  }

  /** Each chain's value written at each of its positions, chain by chain. */
  function WriteChains(buf: seq<int>, chains: seq<seq<int>>, values: seq<int>): (r: seq<int>)
    requires |values| == |chains| && ChainsInRange(chains, |buf|)
    ensures |r| == |buf|
  {
    if chains == [] then buf
    else
      var m := |chains| - 1;
      WriteChain(WriteChains(buf, chains[..m], values[..m]), chains[m], values[m])
  }

  lemma ChainsInRangePrefix(chains: seq<seq<int>>, size: int, k: int)
    requires ChainsInRange(chains, size) && 0 <= k <= |chains|
    ensures ChainsInRange(chains[..k], size)
  {
    forall j, t | 0 <= j < k && 0 <= t < |chains[..k][j]| ensures 0 <= chains[..k][j][t] < size {
      assert chains[..k][j] == chains[j];
    }
  }

  /** The buffer once the first `|values|` chains are written. */
  function WritePrefix(buf: seq<int>, chains: seq<seq<int>>, values: seq<int>): (r: seq<int>)
    requires |values| <= |chains| && ChainsInRange(chains, |buf|)
    ensures |r| == |buf|
  {
    ChainsInRangePrefix(chains, |buf|, |values|);
    WriteChains(buf, chains[..|values|], values)
  }

  lemma WritePrefixStep(buf: seq<int>, chains: seq<seq<int>>, values: seq<int>, v: int)
    requires |values| < |chains| && ChainsInRange(chains, |buf|)
    ensures forall t :: 0 <= t < |chains[|values|]| ==> 0 <= chains[|values|][t] < |buf|
    ensures WritePrefix(buf, chains, values + [v]) == WriteChain(WritePrefix(buf, chains, values), chains[|values|], v)
  {
    var k := |values|;
    ChainsInRangePrefix(chains, |buf|, k + 1);
    assert chains[..k + 1][..k] == chains[..k];
    assert (values + [v])[..k] == values;
  }

  lemma WritePrefixAll(buf: seq<int>, chains: seq<seq<int>>, values: seq<int>)
    requires |values| == |chains| && ChainsInRange(chains, |buf|)
    ensures WritePrefix(buf, chains, values) == WriteChains(buf, chains, values)
  {
    assert chains[..|values|] == chains;
  }

  lemma WriteChainStep(buf: seq<int>, chain: seq<int>, v: int, t: int)
    requires 0 <= t < |chain| && forall u :: 0 <= u < |chain| ==> 0 <= chain[u] < |buf|
    ensures WriteChain(buf, chain[..t + 1], v) == WriteChain(buf, chain[..t], v)[chain[t] := v]
  {
    assert chain[..t + 1][..t] == chain[..t];
  }

  lemma {:induction false} WriteChainAt(buf: seq<int>, chain: seq<int>, v: int, x: int)
    requires forall t :: 0 <= t < |chain| ==> 0 <= chain[t] < |buf|
    requires 0 <= x < |buf|
    ensures WriteChain(buf, chain, v)[x] == if x in chain then v else buf[x]
    decreases |chain|
  {
    if chain != [] {
      var m := |chain| - 1;
      WriteChainAt(buf, chain[..m], v, x);
      assert chain == chain[..m] + [chain[m]];
    }
  }

  /** Chain values are never the sentinel, so a slot unset after the writes
    * was unset before them. */
  lemma {:induction false} WrittenUnsetWasUnset(buf: seq<int>, chains: seq<seq<int>>, values: seq<int>, n: nat)
    requires |values| == |chains| && ChainsInRange(chains, |buf|)
    requires forall k :: 0 <= k < |values| ==> values[k] >= 0
    ensures forall x :: 0 <= x < |buf| && WriteChains(buf, chains, values)[x] == Unset ==> buf[x] == Unset
    ensures UnsetNeighboured(buf, n) ==> UnsetNeighboured(WriteChains(buf, chains, values), n)
    decreases |chains|
  {
    if chains != [] {
      var m := |chains| - 1;
      assert ChainsInRange(chains[..m], |buf|) by {
        forall k, t | 0 <= k < m && 0 <= t < |chains[..m][k]| ensures 0 <= chains[..m][k][t] < |buf| {
          assert chains[..m][k] == chains[k];
        }
      }
      WrittenUnsetWasUnset(buf, chains[..m], values[..m], n);
      forall x | 0 <= x < |buf| {
        WriteChainAt(WriteChains(buf, chains[..m], values[..m]), chains[m], values[m], x);
      }
    }
  }

  predicate PairwiseDisjoint(chains: seq<seq<int>>) {
    forall i, j, x :: 0 <= i < j < |chains| && x in chains[i] ==> x !in chains[j]
  }

  /** With disjoint chains, a position holds its chain's value, or what it
    * held before when it is on no chain. */
  lemma {:induction false} WriteChainsAt(buf: seq<int>, chains: seq<seq<int>>, values: seq<int>, x: int)
    requires |values| == |chains| && ChainsInRange(chains, |buf|)
    requires PairwiseDisjoint(chains)
    requires 0 <= x < |buf|
    ensures forall k :: 0 <= k < |chains| && x in chains[k] ==> WriteChains(buf, chains, values)[x] == values[k]
    ensures (forall k :: 0 <= k < |chains| ==> x !in chains[k]) ==> WriteChains(buf, chains, values)[x] == buf[x]
    decreases |chains|
  {
    if chains != [] {
      var m := |chains| - 1;
      assert ChainsInRange(chains[..m], |buf|) by {
        forall k, y | 0 <= k < m && y in chains[..m][k] ensures 0 <= y < |buf| {
          assert chains[..m][k] == chains[k];
        }
      }
      WriteChainsAt(buf, chains[..m], values[..m], x);
      WriteChainAt(WriteChains(buf, chains[..m], values[..m]), chains[m], values[m], x);
      forall k | 0 <= k < m && x in chains[k]
        ensures WriteChains(buf, chains, values)[x] == values[k]
      {
        assert chains[..m][k] == chains[k];
        assert x !in chains[m];
      }
      if forall k :: 0 <= k < |chains| ==> x !in chains[k] {
        forall k | 0 <= k < m ensures x !in chains[..m][k] {
          assert chains[..m][k] == chains[k];
        }
      }
    }
  }

  // ---------------------------------------------------------------------
  // `_fill_non_matches`

  /** The fill's acceptance test, its three clauses as written: the candidate
    * differs from both lag-n neighbours (both in range), or from the one
    * before (none after), or from the one after (none before). */
  predicate Accept(s: seq<int>, i: int, n: nat, v: int)
    requires 0 <= i < |s|
  {
    ((i - n >= 0 && s[i - n] != v) && (i + n < |s| && s[i + n] != v))
    || ((i - n >= 0 && s[i - n] != v) && i + n >= |s|)
    || ((i + n < |s| && s[i + n] != v) && i - n < 0)
  }

  /** The three clauses amount to: some neighbour is in range, and the
    * candidate differs from every neighbour that is. */
  lemma AcceptMeaning(s: seq<int>, i: int, n: nat, v: int)
    requires 0 <= i < |s|
    ensures Accept(s, i, n, v) <==>
      HasNeighbour(|s|, n, i)
      && (i - n >= 0 ==> s[i - n] != v)
      && (i + n < |s| ==> s[i + n] != v)
  {
  }

  /** A position with no neighbour in range accepts no candidate at all: the
    * fill never leaves it. */
  lemma NoNeighbourNoCandidate(s: seq<int>, i: int, n: nat)
    requires 0 <= i < |s| && !HasNeighbour(|s|, n, i)
    ensures forall v :: !Accept(s, i, n, v)
  {
  }

  /** With a pool of two and two different in-range neighbour values from
    * the pool, no candidate is accepted. */
  lemma PoolOfTwoStuck(s: seq<int>, i: int, n: nat)
    requires 0 <= i < |s| && i - n >= 0 && i + n < |s|
    requires s[i - n] != s[i + n] && 0 <= s[i - n] < 2 && 0 <= s[i + n] < 2
    ensures forall v :: 0 <= v < 2 ==> !Accept(s, i, n, v)
  {
  }

  /** With a pool of at least three a position with a neighbour in range
    * always has an acceptable candidate. */
  lemma {:induction false} PoolOfThreeSuffices(s: seq<int>, i: int, n: nat, pool: int) returns (v: int)
    requires 0 <= i < |s| && HasNeighbour(|s|, n, i) && pool >= 3
    ensures 0 <= v < pool && Accept(s, i, n, v)
  {
    var below := if i - n >= 0 then s[i - n] else -1;
    var above := if i + n < |s| then s[i + n] else -1;
    v := if below != 0 && above != 0 then 0 else if below != 1 && above != 1 then 1 else 2;
    AcceptMeaning(s, i, n, v);
  }

  /** What one buffer can hold after the fill, given what it held before:
    * set slots are kept; each unset slot holds a value from `[0, pool)` that
    * passed the acceptance test against the buffer as it stood when the slot
    * was reached (earlier slots filled, later ones as before). */
  ghost predicate FilledFrom(buf: seq<int>, r: seq<int>, n: nat, pool: int) {
    |r| == |buf| && forall i :: 0 <= i < |buf| ==> FilledAt(buf, r, n, pool, i)
  }

  ghost predicate FilledAt(buf: seq<int>, r: seq<int>, n: nat, pool: int, i: int)
    requires |r| == |buf| && 0 <= i < |buf|
  {
    if buf[i] == Unset then 0 <= r[i] < pool && Accept(r[..i] + buf[i..], i, n, r[i])
    else r[i] == buf[i]
  }

  /** Position `i` of a buffer of `size` slots has a lag-n neighbour. */
  predicate HasNeighbour(size: int, n: nat, i: int) {
    i - n >= 0 || i + n < size
  }

  /** Every unset slot of `buf` has a lag-n neighbour. */
  predicate UnsetNeighboured(buf: seq<int>, n: nat) {
    forall i :: 0 <= i < |buf| && buf[i] == Unset ==> HasNeighbour(|buf|, n, i)
  }

  /** Where the fill of one buffer stands once the slots before `i` are
    * done: `cur` is the buffer now, `start` what it held at the outset. */
  ghost predicate FillProgress(start: seq<int>, cur: seq<int>, n: nat, pool: int, i: int) {
    0 <= i <= |start| && |cur| == |start|
    && (forall k :: i <= k < |start| ==> cur[k] == start[k])
    && (forall k :: 0 <= k < i ==> FilledAt(start, cur, n, pool, k))
    && (pool <= 0 ==> forall k :: 0 <= k < i ==> start[k] != Unset)
  }

  lemma FillSkip(start: seq<int>, cur: seq<int>, n: nat, pool: int, i: int)
    requires FillProgress(start, cur, n, pool, i) && i < |start| && cur[i] != Unset
    ensures FillProgress(start, cur, n, pool, i + 1)
  {
    assert FilledAt(start, cur, n, pool, i);
  }

  /** Writing an accepted candidate into the slot at `i` keeps the fill's
    * bookkeeping. */
  lemma FillWrite(start: seq<int>, cur: seq<int>, n: nat, pool: int, i: int, v: int)
    requires FillProgress(start, cur, n, pool, i) && i < |start| && cur[i] == Unset
    requires 0 <= v < pool && Accept(cur, i, n, v)
    ensures FillProgress(start, cur[i := v], n, pool, i + 1)
  {
    var next := cur[i := v];
    assert cur == cur[..i] + start[i..];
    assert next[..i] == cur[..i];
    forall k | 0 <= k < i ensures FilledAt(start, next, n, pool, k) {
      assert FilledAt(start, cur, n, pool, k);
      assert next[..k] == cur[..k];
    }
    assert FilledAt(start, next, n, pool, i);
  }

  lemma FillDone(start: seq<int>, cur: seq<int>, n: nat, pool: int)
    requires FillProgress(start, cur, n, pool, |start|)
    ensures FilledFrom(start, cur, n, pool)
    ensures UnsetNeighboured(start, n)
    ensures pool <= 0 ==> Unset !in start
  {
    FilledNeighboured(start, cur, n, pool);
  }

  /** The fill leaves no sentinel behind and never introduces a lag-n repeat
    * next to a slot it filled. */
  lemma FillNoClash(buf: seq<int>, r: seq<int>, n: nat, pool: int, j: int)
    requires FilledFrom(buf, r, n, pool) && n >= 1
    requires n <= j < |buf| && (buf[j] == Unset || buf[j - n] == Unset)
    ensures r[j] != r[j - n]
  {
    assert FilledAt(buf, r, n, pool, j) && FilledAt(buf, r, n, pool, j - n);
    if buf[j] == Unset {
      var s := r[..j] + buf[j..];
      AcceptMeaning(s, j, n, r[j]);
      assert s[j - n] == r[j - n];
    } else {
      var i := j - n;
      var s := r[..i] + buf[i..];
      AcceptMeaning(s, i, n, r[i]);
      assert s[i + n] == buf[j];
    }
  }

  /** A completed fill passed every unset slot, so each had a neighbour. */
  lemma FilledNeighboured(buf: seq<int>, r: seq<int>, n: nat, pool: int)
    requires FilledFrom(buf, r, n, pool)
    ensures UnsetNeighboured(buf, n)
  {
    forall i | 0 <= i < |buf| && buf[i] == Unset ensures HasNeighbour(|buf|, n, i) {
      assert FilledAt(buf, r, n, pool, i);
      AcceptMeaning(r[..i] + buf[i..], i, n, r[i]);
    }
  }

  lemma FillNoSentinel(buf: seq<int>, r: seq<int>, n: nat, pool: int, i: int)
    requires FilledFrom(buf, r, n, pool)
    requires 0 <= i < |buf| && (buf[i] == Unset || 0 <= buf[i] < pool)
    ensures 0 <= r[i] < pool
  {
    assert FilledAt(buf, r, n, pool, i);
  }

  // ---------------------------------------------------------------------
  // What a channel holds after `place_stims`

  /** The buffer `r` is what `place_stims` can make of `start` for one
    * channel: the linker's chains of `pairs`, a value per chain written over
    * them, then the fill. */
  ghost predicate ChannelOutcome(start: seq<int>, pairs: seq<Pair>, n: nat, pool: int, r: seq<int>) {
    ChainsInRange(Chains(pairs), |start|)
    && exists values ::
         ChainValues(values, |Chains(pairs)|, pool)
         && FilledFrom(WriteChains(start, Chains(pairs), values), r, n, pool)
  }

  lemma OutcomeIntro(start: seq<int>, pairs: seq<Pair>, n: nat, pool: int, values: seq<int>, r: seq<int>)
    requires ChainsInRange(Chains(pairs), |start|)
    requires ChainValues(values, |Chains(pairs)|, pool)
    requires FilledFrom(WriteChains(start, Chains(pairs), values), r, n, pool)
    ensures ChannelOutcome(start, pairs, n, pool, r)
  {
  }

  // ---------------------------------------------------------------------
  // A finished `make_buffer`

  /** What a completed `make_buffer` on a fresh generator leaves: three lists
    * of one length, labels only from position `n` on, as many of each label
    * as `targets` asks for, and each buffer made by linking, chain values and
    * fill from an all-unset start. */
  ghost predicate Generated(n: nat, t: Targets, poolAural: int, poolVisual: int,
                            p: seq<Mark>, aural: seq<int>, visual: seq<int>)
  {
    |aural| == |p| && |visual| == |p| && TargetsPlaced(n, t, p)
    && ChannelOutcome(Repeat(Unset, |p|), ChannelPairs(p, n, AuralChannel), n, poolAural, aural)
    && ChannelOutcome(Repeat(Unset, |p|), ChannelPairs(p, n, VisualChannel), n, poolVisual, visual)
  }

  lemma GeneratedIntro(n: nat, t: Targets, poolAural: int, poolVisual: int,
                       p: seq<Mark>, aural: seq<int>, visual: seq<int>,
                       auralStart: seq<int>, visualStart: seq<int>, prefix: seq<Mark>)
    requires auralStart == Repeat(Unset, |p|) && visualStart == Repeat(Unset, |p|) && prefix == p
    requires |aural| == |p| && |visual| == |p| && TargetsPlaced(n, t, p)
    requires ChannelOutcome(auralStart, ChannelPairs(prefix, n, AuralChannel), n, poolAural, aural)
    requires ChannelOutcome(visualStart, ChannelPairs(prefix, n, VisualChannel), n, poolVisual, visual)
    ensures Generated(n, t, poolAural, poolVisual, p, aural, visual)
  {
  }

  /** Distinct draws from an ascending list of eligible positions. */
  lemma {:induction false} DrawnDistinct(drawn: seq<int>, rest: seq<int>, v0: seq<int>)
    requires Ascending(v0) && multiset(drawn) + multiset(rest) == multiset(v0)
    ensures NoDuplicates(drawn)
    ensures forall k :: 0 <= k < |drawn| ==> drawn[k] in v0
  {
    forall k | 0 <= k < |drawn| ensures drawn[k] in v0 {
      assert drawn[k] in multiset(drawn);
      assert drawn[k] in multiset(v0);
    }
    forall a, b | 0 <= a < b < |drawn| ensures drawn[a] != drawn[b] {
      if drawn[a] == drawn[b] {
        var x := drawn[a];
        assert multiset(drawn)[x] >= 2 by {
          var d' := drawn[..b] + drawn[b + 1..];
          assert drawn == drawn[..b] + [drawn[b]] + drawn[b + 1..];
          assert x in d' by { assert d'[a] == x; }
          assert multiset(drawn) == multiset(d') + multiset{x};
        }
        AscendingOnce(v0, x);
      }
    }
  }

  lemma AscendingOnce(v: seq<int>, x: int)
    requires Ascending(v)
    ensures multiset(v)[x] <= 1
  {
    if v != [] {
      assert v == [v[0]] + v[1..];
      assert Ascending(v[1..]);
      AscendingOnce(v[1..], x);
      if x == v[0] {
        assert x !in v[1..];
      }
    }
  }

  /** Labels only from position `n` on, as many of each kind as `t` asks. */
  ghost predicate TargetsPlaced(n: nat, t: Targets, p: seq<Mark>) {
    (forall i :: 0 <= i < |p| && p[i] != NoMark ==> n <= i)
    && multiset(p)[Aural] == Max0(t.aural)
    && multiset(p)[Visual] == Max0(t.visual)
    && multiset(p)[Both] == Max0(t.both)
  }

  /** After the draws on a fresh placement, labels sit only on eligible
    * positions (from `n` on) and each kind appears as often as asked. */
  lemma PlacedFacts(n: nat, length: int, t: Targets, p0: seq<Mark>, v0: seq<int>,
                    p: seq<Mark>, v: seq<int>, drawn: seq<int>)
    requires p0 == Repeat(NoMark, length + n) && v0 == Range(n, n + length)
    requires DrawProgress(p0, v0, p, v, drawn, Kinds(t))
    ensures TargetsPlaced(n, t, p)
  {
    FreshIndexList(n, length);
    DrawnDistinct(drawn, v, v0);
    DrawnEligible(n, length, p0, v0, drawn);
    PlacedCounts(t, p0, drawn, length + n);
    forall i | 0 <= i < |p| && p[i] != NoMark ensures n <= i {
      if forall k :: 0 <= k < |drawn| ==> drawn[k] != i {
        LabelUntouched(p0, drawn, Kinds(t), i);
      }
    }
  }

  lemma DrawnEligible(n: nat, length: int, p0: seq<Mark>, v0: seq<int>, drawn: seq<int>)
    requires p0 == Repeat(NoMark, length + n) && v0 == Range(n, n + length)
    requires forall k :: 0 <= k < |drawn| ==> drawn[k] in v0
    ensures forall k :: 0 <= k < |drawn| ==> n <= drawn[k] < |p0| && p0[drawn[k]] == NoMark
  {
    forall k | 0 <= k < |drawn| ensures n <= drawn[k] < |p0| && p0[drawn[k]] == NoMark {
      RangeMember(drawn[k], n, n + length);
    }
  }

  lemma RangeMember(x: int, lo: int, hi: int)
    requires x in Range(lo, hi)
    ensures lo <= x < hi
  {
    var r := Range(lo, hi);
    var j :| 0 <= j < |r| && r[j] == x;
  }

  lemma PlacedCounts(t: Targets, p0: seq<Mark>, drawn: seq<int>, size: int)
    requires p0 == Repeat(NoMark, size) && |drawn| == |Kinds(t)| && NoDuplicates(drawn)
    requires forall k :: 0 <= k < |drawn| ==> 0 <= drawn[k] < |p0| && p0[drawn[k]] == NoMark
    ensures multiset(Label(p0, drawn, Kinds(t)))[Aural] == Max0(t.aural)
    ensures multiset(Label(p0, drawn, Kinds(t)))[Visual] == Max0(t.visual)
    ensures multiset(Label(p0, drawn, Kinds(t)))[Both] == Max0(t.both)
  {
    LabelCounts(p0, drawn, Kinds(t));
    RepeatCount(NoMark, size);
    KindCounts(t);
  }

  /** With `n <= length`, every slot of a fresh buffer of `length + n` slots
    * has a lag-n neighbour. */
  lemma FreshNeighboured(n: nat, length: int)
    requires n <= length
    ensures UnsetNeighboured(Repeat(Unset, length + n), n)
  {
  }
}
