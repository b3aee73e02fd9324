/** What a finished buffer holds, position by position: where the values
  * repeat at lag `n`, and how many such repeats there are. For every lag a
  * labelled position repeats the value `n` places before it; with lag 1
  * (the standalone generator's default) a repeat happens nowhere else, so
  * the number of repeats per channel is exactly the number of targets the
  * channel was asked for.
  */
module ExactCount {
  import opened LinkUp
  import opened StimValues
  import opened Outcomes

  // ---------------------------------------------------------------------
  // The linker's chains under the generator's pairs

  /** The pairs of one channel as the linker gets them: lagged by `n`,
    * ascending, already sorted, and linked into chains sharing no position. */
  lemma GeneratorChains(p: seq<Mark>, n: nat, c: Channel)
    requires n >= 1
    ensures Lagged(ChannelPairs(p, n, c), n) && StrictlyAscendingCues(ChannelPairs(p, n, c))
    ensures Sorted(ChannelPairs(p, n, c))
    ensures PairwiseDisjoint(Chains(ChannelPairs(p, n, c)))
  {
    var s := ChannelPairs(p, n, c);
    ChannelPairsFacts(p, n, c);
    StrictCuesSorted(s);
    forall i, j, x | 0 <= i < j < |Chains(s)| && x in Chains(s)[i] ensures x !in Chains(s)[j] {
      ChainsDisjoint(s, n, i, j, x);
    }
  }

  /** Two different chains of the generator's pairs share no position,
    * whichever of the two comes first. */
  lemma Apart(s: seq<Pair>, n: nat, i: nat, j: nat, x: int)
    requires n >= 1 && StrictlyAscendingCues(s) && Lagged(s, n)
    requires i < |Chains(s)| && j < |Chains(s)| && i != j
    requires x in Chains(s)[i]
    ensures x !in Chains(s)[j]
  {
    if i < j {
      ChainsDisjoint(s, n, i, j, x);
    } else if x in Chains(s)[j] {
      ChainsDisjoint(s, n, j, i, x);
    }
  }

  /** With lag 1 each chain is a run of consecutive positions, and the chains
    * come in ascending order with no gap between two whose runs touch: a
    * position and the one after it lie either one step apart on the same
    * chain or at the end of one chain and the start of the next. */
  lemma AdjacentChains(s: seq<Pair>, ia: nat, ka: nat, ib: nat, kb: nat)
    requires StrictlyAscendingCues(s) && Lagged(s, 1)
    requires ia < |Chains(s)| && ka < |Chains(s)[ia]|
    requires ib < |Chains(s)| && kb < |Chains(s)[ib]|
    requires Chains(s)[ib][kb] == Chains(s)[ia][ka] + 1
    ensures ia == ib ==> kb == ka + 1
    ensures ia != ib ==> ib == ia + 1
  {
    var cs := Chains(s);
    var a, b := cs[ia], cs[ib];
    var x := a[ka];
    ChainArithmetic(s, 1, ia, ka);
    ChainArithmetic(s, 1, ib, kb);
    if ia != ib {
      ChainsLong(s);
      StrictCuesSorted(s);
      if kb > 0 {
        ChainArithmetic(s, 1, ib, kb - 1);
        Apart(s, 1, ia, ib, x);
        assert false;
      }
      if ka + 1 < |a| {
        ChainArithmetic(s, 1, ia, ka + 1);
        Apart(s, 1, ib, ia, x + 1);
        assert false;
      }
      if ib < ia {
        ChainArithmetic(s, 1, ia, ka - 1);
        EdgeAt(a, ka - 1);
        SeedBelowLaterLinks(s, ib, ia, Pair(a[ka - 1], x));
        assert false;
      }
      NoChainBetween(s, ia, ib, x);
    }
  }

  /** With lag 1, when one chain ends at `x` and a later one starts at
    * `x + 1`, no chain comes between them: its seed would lie between the
    * two seeds, hence on the run of the first chain. */
  lemma NoChainBetween(s: seq<Pair>, ia: nat, ib: nat, x: int)
    requires StrictlyAscendingCues(s) && Lagged(s, 1)
    requires ia < ib < |Chains(s)|
    requires x in Chains(s)[ia] && |Chains(s)[ib]| > 0 && Chains(s)[ib][0] == x + 1
    ensures ib == ia + 1
  {
    if ib == ia + 1 {
      return;
    }
    var q := ia + 1;
    var cs := Chains(s);
    var a, cq, b := cs[ia], cs[q], cs[ib];
    ChainsLong(s);
    StrictCuesSorted(s);
    var ka :| 0 <= ka < |a| && a[ka] == x;
    ChainArithmetic(s, 1, ia, ka);
    EdgeAt(b, 0);
    SeedBelowLaterLinks(s, q, ib, Pair(b[0], b[1]));
    if cq[0] == x + 1 {
      Apart(s, 1, q, ib, cq[0]);
      assert false;
    }
    EdgeAt(cq, 0);
    SeedBelowLaterLinks(s, ia, q, Pair(cq[0], cq[1]));
    if a[0] == cq[0] {
      Apart(s, 1, ia, q, a[0]);
      assert false;
    }
    var t := cq[0] - a[0];
    ChainArithmetic(s, 1, ia, t);
    Apart(s, 1, ia, q, a[t]);
    assert false;
  }

  // ---------------------------------------------------------------------
  // One channel's finished buffer

  /** Labels sit only on positions from `n` on. */
  predicate LabelsFrom(p: seq<Mark>, n: nat) {
    forall i :: 0 <= i < |p| && p[i] != NoMark ==> n <= i
  }

  /** The chain values and the write behind a channel outcome. */
  lemma OutcomeWitness(start: seq<int>, pairs: seq<Pair>, n: nat, pool: int, r: seq<int>)
    returns (values: seq<int>)
    requires ChannelOutcome(start, pairs, n, pool, r)
    ensures ChainsInRange(Chains(pairs), |start|)
    ensures ChainValues(values, |Chains(pairs)|, pool)
    ensures FilledFrom(WriteChains(start, Chains(pairs), values), r, n, pool)
  {
    values :| ChainValues(values, |Chains(pairs)|, pool)
              && FilledFrom(WriteChains(start, Chains(pairs), values), r, n, pool);
  }

  /** A position of an all-unset start holds a chain value after the write
    * exactly when it lies on a chain; otherwise it is still unset. */
  lemma WrittenOrUnset(size: nat, chains: seq<seq<int>>, values: seq<int>, pool: int, x: int)
    returns (k: int)
    requires ChainValues(values, |chains|, pool) && ChainsInRange(chains, size)
    requires PairwiseDisjoint(chains) && 0 <= x < size
    ensures var w := WriteChains(Repeat(Unset, size), chains, values);
      if k < 0 then w[x] == Unset && forall m :: 0 <= m < |chains| ==> x !in chains[m]
      else k < |chains| && x in chains[k] && w[x] == values[k] && 0 <= w[x] < pool
  {
    WriteChainsAt(Repeat(Unset, size), chains, values, x);
    if m :| 0 <= m < |chains| && x in chains[m] {
      k := m;
    } else {
      k := -1;
    }
  }

  /** Every slot of a finished channel buffer holds a value from the pool:
    * no sentinel is left. */
  lemma NoSentinelLeft(p: seq<Mark>, n: nat, c: Channel, pool: int, r: seq<int>, i: int)
    requires n >= 1
    requires ChannelOutcome(Repeat(Unset, |p|), ChannelPairs(p, n, c), n, pool, r)
    requires 0 <= i < |p|
    ensures 0 <= r[i] < pool
  {
    var chains := Chains(ChannelPairs(p, n, c));
    var values := OutcomeWitness(Repeat(Unset, |p|), ChannelPairs(p, n, c), n, pool, r);
    GeneratorChains(p, n, c);
    var k := WrittenOrUnset(|p|, chains, values, pool, i);
    FillNoSentinel(WriteChains(Repeat(Unset, |p|), chains, values), r, n, pool, i);
  }

  /** A position on a chain holds that chain's value once the chains are
    * written over an all-unset start. */
  lemma OnChainValue(p: seq<Mark>, n: nat, c: Channel, pool: int, values: seq<int>, i: nat, t: nat)
    requires n >= 1
    requires ChainsInRange(Chains(ChannelPairs(p, n, c)), |p|)
    requires ChainValues(values, |Chains(ChannelPairs(p, n, c))|, pool)
    requires i < |Chains(ChannelPairs(p, n, c))| && t < |Chains(ChannelPairs(p, n, c))[i]|
    ensures WriteChains(Repeat(Unset, |p|), Chains(ChannelPairs(p, n, c)), values)[Chains(ChannelPairs(p, n, c))[i][t]]
      == values[i]
  {
    var chains := Chains(ChannelPairs(p, n, c));
    GeneratorChains(p, n, c);
    assert chains[i][t] in chains[i];
    WriteChainsAt(Repeat(Unset, |p|), chains, values, chains[i][t]);
  }

  /** A position labelled for the channel holds the value shown `n` places
    * before it: both lie on the chain of its pair and carry its value. */
  lemma LabelledRepeats(p: seq<Mark>, n: nat, c: Channel, pool: int, r: seq<int>, j: int)
    requires LabelsFrom(p, n)
    requires ChannelOutcome(Repeat(Unset, |p|), ChannelPairs(p, n, c), n, pool, r)
    requires 0 <= j < |p| && InChannel(p[j], c)
    ensures n <= j && r[j] == r[j - n]
  {
    if n >= 1 {
      var s := ChannelPairs(p, n, c);
      var values := OutcomeWitness(Repeat(Unset, |p|), s, n, pool, r);
      LabelledPair(p, n, c, j);
      PairRepeats(p, n, c, pool, values, r, j);
    }
  }

  /** The fill keeps the value the chains wrote at both ends of a lagged
    * pair, so the outcome repeats there. */
  lemma PairRepeats(p: seq<Mark>, n: nat, c: Channel, pool: int, values: seq<int>, r: seq<int>, j: int)
    requires n >= 1
    requires ChainsInRange(Chains(ChannelPairs(p, n, c)), |p|)
    requires ChainValues(values, |Chains(ChannelPairs(p, n, c))|, pool)
    requires FilledFrom(WriteChains(Repeat(Unset, |p|), Chains(ChannelPairs(p, n, c)), values), r, n, pool)
    requires Pair(j - n, j) in ChannelPairs(p, n, c)
    ensures n <= j < |r| && r[j] == r[j - n]
  {
    var w := WriteChains(Repeat(Unset, |p|), Chains(ChannelPairs(p, n, c)), values);
    LinkedValues(p, n, c, pool, values, j);
    FillKeeps(w, r, n, pool, j);
    FillKeeps(w, r, n, pool, j - n);
  }

  /** The two ends of a lagged pair lie on one chain, so the chains write
    * the same value, a set one, at both. */
  lemma LinkedValues(p: seq<Mark>, n: nat, c: Channel, pool: int, values: seq<int>, j: int)
    requires n >= 1
    requires ChainsInRange(Chains(ChannelPairs(p, n, c)), |p|)
    requires ChainValues(values, |Chains(ChannelPairs(p, n, c))|, pool)
    requires Pair(j - n, j) in ChannelPairs(p, n, c)
    ensures var w := WriteChains(Repeat(Unset, |p|), Chains(ChannelPairs(p, n, c)), values);
      0 <= j - n && j < |w| && w[j] == w[j - n] && w[j] != Unset
  {
    var i, k := FindLink(ChannelPairs(p, n, c), Pair(j - n, j));
    OnChainValue(p, n, c, pool, values, i, k);
    OnChainValue(p, n, c, pool, values, i, k + 1);
  }

  lemma LabelledPair(p: seq<Mark>, n: nat, c: Channel, j: int)
    requires 0 <= j < |p| && InChannel(p[j], c)
    ensures Pair(j - n, j) in ChannelPairs(p, n, c)
  {
    ChannelPairsFacts(p, n, c);
  }

  /** The fill keeps every slot that was set. */
  lemma FillKeeps(buf: seq<int>, r: seq<int>, n: nat, pool: int, x: int)
    requires FilledFrom(buf, r, n, pool) && 0 <= x < |buf| && buf[x] != Unset
    ensures r[x] == buf[x]
  {
    assert FilledAt(buf, r, n, pool, x);
  }

  /** With lag 1, a position repeating the one before it is labelled for the
    * channel: the fill never repeats next to a slot it filled, a chain only
    * joins positions its pairs join, and two chains that touch are
    * consecutive and so carry different values. */
  lemma RepeatIsLabelled(p: seq<Mark>, c: Channel, pool: int, r: seq<int>, j: int)
    requires ChannelOutcome(Repeat(Unset, |p|), ChannelPairs(p, 1, c), 1, pool, r)
    requires 1 <= j < |p| && r[j] == r[j - 1]
    ensures InChannel(p[j], c)
  {
    var s := ChannelPairs(p, 1, c);
    var chains := Chains(s);
    var values := OutcomeWitness(Repeat(Unset, |p|), s, 1, pool, r);
    var w := WriteChains(Repeat(Unset, |p|), chains, values);
    ChannelPairsFacts(p, 1, c);
    GeneratorChains(p, 1, c);
    var ia := WrittenOrUnset(|p|, chains, values, pool, j - 1);
    var ib := WrittenOrUnset(|p|, chains, values, pool, j);
    if ia < 0 || ib < 0 {
      FillNoClash(w, r, 1, pool, j);
      assert false;
    }
    var ka :| 0 <= ka < |chains[ia]| && chains[ia][ka] == j - 1;
    var kb :| 0 <= kb < |chains[ib]| && chains[ib][kb] == j;
    AdjacentChains(s, ia, ka, ib, kb);
    assert FilledAt(w, r, 1, pool, j) && FilledAt(w, r, 1, pool, j - 1);
    if ia == ib {
      LinkAt(s, ia, ka);
    } else {
      assert false;
    }
  }

  // ---------------------------------------------------------------------
  // Counting repeats

  function Min(a: int, b: int): int {
    if a <= b then a else b
  }

  /** How many `i` in `[0, k)` have `i + n` in range and `b[i] == b[i + n]`:
    * the test's tally for one buffer. */
  function Repeats(b: seq<int>, n: nat, k: nat): nat {
    if k == 0 then 0
    else Repeats(b, n, k - 1) + (if k - 1 + n < |b| && b[k - 1] == b[k - 1 + n] then 1 else 0)
  }

  /** How many `i` in `[0, k)` repeat at lag `n` in both buffers at once. */
  function BothRepeat(a: seq<int>, v: seq<int>, n: nat, k: nat): nat {
    if k == 0 then 0
    else
      var i := k - 1;
      BothRepeat(a, v, n, i)
      + (if i + n < |a| && i + n < |v| && a[i] == a[i + n] && v[i] == v[i + n] then 1 else 0)
  }

  /** How many of the first `k` positions carry a label of channel `c`. */
  function Labelled(p: seq<Mark>, c: Channel, k: nat): nat
    requires k <= |p|
  {
    if k == 0 then 0 else Labelled(p, c, k - 1) + (if InChannel(p[k - 1], c) then 1 else 0)
  }

  /** How many of the first `k` positions are labelled for both channels. */
  function LabelledBoth(p: seq<Mark>, k: nat): nat
    requires k <= |p|
  {
    if k == 0 then 0 else LabelledBoth(p, k - 1) + (if p[k - 1] == Both then 1 else 0)
  }

  /** The label that belongs to channel `c` alone. */
  function Own(c: Channel): Mark {
    match c
    case AuralChannel => Aural
    case VisualChannel => Visual
  }

  /** The channel's labels are its own kind and `Both`. */
  lemma {:induction false} LabelledCount(p: seq<Mark>, c: Channel, k: nat)
    requires k <= |p|
    ensures Labelled(p, c, k) == multiset(p[..k])[Own(c)] + multiset(p[..k])[Both]
    ensures LabelledBoth(p, k) == multiset(p[..k])[Both]
  {
    if k > 0 {
      LabelledCount(p, c, k - 1);
      assert p[..k] == p[..k - 1] + [p[k - 1]];
    }
  }

  /** Nothing is labelled before position `n`. */
  lemma {:induction false} NoneLabelledBefore(p: seq<Mark>, n: nat, c: Channel, k: nat)
    requires LabelsFrom(p, n) && k <= |p| && k <= n
    ensures Labelled(p, c, k) == 0 && LabelledBoth(p, k) == 0
  {
    if k > 0 {
      NoneLabelledBefore(p, n, c, k - 1);
    }
  }

  /** When every labelled position repeats, the tally of one buffer is at
    * least the number of labels; when besides no other position repeats, it
    * is exactly that number. */
  lemma {:induction false} RepeatsVsLabels(b: seq<int>, p: seq<Mark>, n: nat, c: Channel, k: nat)
    requires |b| == |p| && LabelsFrom(p, n)
    requires forall j :: n <= j < |b| && InChannel(p[j], c) ==> b[j] == b[j - n]
    ensures Repeats(b, n, k) >= Labelled(p, c, Min(k + n, |p|))
    ensures (forall j :: n <= j < |b| && b[j] == b[j - n] ==> InChannel(p[j], c))
      ==> Repeats(b, n, k) == Labelled(p, c, Min(k + n, |p|))
  {
    if k == 0 {
      NoneLabelledBefore(p, n, c, Min(n, |p|));
    } else {
      RepeatsVsLabels(b, p, n, c, k - 1);
    }
  }

  /** The same for positions repeating in both buffers and labelled `Both`. */
  lemma {:induction false} BothRepeatVsLabels(a: seq<int>, v: seq<int>, p: seq<Mark>, n: nat, k: nat)
    requires |a| == |p| && |v| == |p| && LabelsFrom(p, n)
    requires forall j :: n <= j < |p| && p[j] == Both ==> a[j] == a[j - n] && v[j] == v[j - n]
    ensures BothRepeat(a, v, n, k) >= LabelledBoth(p, Min(k + n, |p|))
    ensures (forall j :: n <= j < |p| && a[j] == a[j - n] && v[j] == v[j - n] ==> p[j] == Both)
      ==> BothRepeat(a, v, n, k) == LabelledBoth(p, Min(k + n, |p|))
  {
    if k == 0 {
      NoneLabelledBefore(p, n, AuralChannel, Min(n, |p|));
    } else {
      BothRepeatVsLabels(a, v, p, n, k - 1);
    }
  }

  // ---------------------------------------------------------------------
  // The counts of a finished `make_buffer`

  /** No sentinel is left in either buffer: every slot holds a stimulus
    * number from its channel's pool. */
  lemma GeneratedInPool(n: nat, t: Targets, poolAural: int, poolVisual: int,
                        p: seq<Mark>, aural: seq<int>, visual: seq<int>, i: int)
    requires n >= 1 && Generated(n, t, poolAural, poolVisual, p, aural, visual)
    requires 0 <= i < |p|
    ensures 0 <= aural[i] < poolAural && 0 <= visual[i] < poolVisual
  {
    NoSentinelLeft(p, n, AuralChannel, poolAural, aural, i);
    NoSentinelLeft(p, n, VisualChannel, poolVisual, visual, i);
  }

  /** For every lag each buffer repeats at least as often as its channel has
    * targets, and the two together at least as often as there are `both`
    * targets. */
  lemma AtLeastTargets(n: nat, t: Targets, poolAural: int, poolVisual: int,
                       p: seq<Mark>, aural: seq<int>, visual: seq<int>)
    requires Generated(n, t, poolAural, poolVisual, p, aural, visual)
    ensures Repeats(aural, n, |aural|) >= Max0(t.aural) + Max0(t.both)
    ensures Repeats(visual, n, |visual|) >= Max0(t.visual) + Max0(t.both)
    ensures BothRepeat(aural, visual, n, |p|) >= Max0(t.both)
  {
    LabelledRepeatsAll(n, t, poolAural, poolVisual, p, aural, visual);
    ChannelCount(n, t, p, aural, AuralChannel);
    ChannelCount(n, t, p, visual, VisualChannel);
    BothCount(n, t, p, aural, visual);
  }

  /** With lag 1 the counts are exact: `aural + both` repeats in the aural
    * buffer, `visual + both` in the visual one, `both` in the two at once. */
  lemma ExactTargets(t: Targets, poolAural: int, poolVisual: int,
                     p: seq<Mark>, aural: seq<int>, visual: seq<int>)
    requires Generated(1, t, poolAural, poolVisual, p, aural, visual)
    ensures Repeats(aural, 1, |aural|) == Max0(t.aural) + Max0(t.both)
    ensures Repeats(visual, 1, |visual|) == Max0(t.visual) + Max0(t.both)
    ensures BothRepeat(aural, visual, 1, |p|) == Max0(t.both)
  {
    LabelledRepeatsAll(1, t, poolAural, poolVisual, p, aural, visual);
    RepeatsAllLabelled(t, poolAural, poolVisual, p, aural, visual);
    ChannelCount(1, t, p, aural, AuralChannel);
    ChannelCount(1, t, p, visual, VisualChannel);
    BothCount(1, t, p, aural, visual);
  }

  /** The targets asked for channel `c` alone. */
  function OwnTargets(t: Targets, c: Channel): int {
    match c
    case AuralChannel => t.aural
    case VisualChannel => t.visual
  }

  /** One buffer's tally from where it repeats: at least the channel's
    * targets when every label repeats, exactly them when nothing else does. */
  lemma ChannelCount(n: nat, t: Targets, p: seq<Mark>, b: seq<int>, c: Channel)
    requires TargetsPlaced(n, t, p) && |b| == |p|
    requires forall j :: n <= j < |p| && InChannel(p[j], c) ==> b[j] == b[j - n]
    ensures Repeats(b, n, |b|) >= Max0(OwnTargets(t, c)) + Max0(t.both)
    ensures (forall j :: n <= j < |p| && b[j] == b[j - n] ==> InChannel(p[j], c))
      ==> Repeats(b, n, |b|) == Max0(OwnTargets(t, c)) + Max0(t.both)
  {
    RepeatsVsLabels(b, p, n, c, |p|);
    TargetCounts(t, p);
  }

  /** The tally of positions repeating in both buffers, the same way. */
  lemma BothCount(n: nat, t: Targets, p: seq<Mark>, aural: seq<int>, visual: seq<int>)
    requires TargetsPlaced(n, t, p) && |aural| == |p| && |visual| == |p|
    requires forall j :: n <= j < |p| && InChannel(p[j], AuralChannel) ==> aural[j] == aural[j - n]
    requires forall j :: n <= j < |p| && InChannel(p[j], VisualChannel) ==> visual[j] == visual[j - n]
    ensures BothRepeat(aural, visual, n, |p|) >= Max0(t.both)
    ensures (forall j :: n <= j < |p| && aural[j] == aural[j - n] ==> InChannel(p[j], AuralChannel))
      && (forall j :: n <= j < |p| && visual[j] == visual[j - n] ==> InChannel(p[j], VisualChannel))
      ==> BothRepeat(aural, visual, n, |p|) == Max0(t.both)
  {
    forall j | n <= j < |p| && p[j] == Both ensures aural[j] == aural[j - n] && visual[j] == visual[j - n] {
      assert InChannel(p[j], AuralChannel) && InChannel(p[j], VisualChannel);
    }
    BothRepeatVsLabels(aural, visual, p, n, |p|);
    TargetCounts(t, p);
  }

  lemma LabelledRepeatsAll(n: nat, t: Targets, poolAural: int, poolVisual: int,
                           p: seq<Mark>, aural: seq<int>, visual: seq<int>)
    requires Generated(n, t, poolAural, poolVisual, p, aural, visual)
    ensures LabelsFrom(p, n) && |aural| == |p| && |visual| == |p|
    ensures forall j :: n <= j < |p| && InChannel(p[j], AuralChannel) ==> aural[j] == aural[j - n]
    ensures forall j :: n <= j < |p| && InChannel(p[j], VisualChannel) ==> visual[j] == visual[j - n]
  {
    forall j | n <= j < |p| && InChannel(p[j], AuralChannel) ensures aural[j] == aural[j - n] {
      LabelledRepeats(p, n, AuralChannel, poolAural, aural, j);
    }
    forall j | n <= j < |p| && InChannel(p[j], VisualChannel) ensures visual[j] == visual[j - n] {
      LabelledRepeats(p, n, VisualChannel, poolVisual, visual, j);
    }
  }

  lemma RepeatsAllLabelled(t: Targets, poolAural: int, poolVisual: int,
                           p: seq<Mark>, aural: seq<int>, visual: seq<int>)
    requires Generated(1, t, poolAural, poolVisual, p, aural, visual)
    ensures forall j :: 1 <= j < |p| && aural[j] == aural[j - 1] ==> InChannel(p[j], AuralChannel)
    ensures forall j :: 1 <= j < |p| && visual[j] == visual[j - 1] ==> InChannel(p[j], VisualChannel)
  {
    forall j | 1 <= j < |p| && aural[j] == aural[j - 1] ensures InChannel(p[j], AuralChannel) {
      RepeatIsLabelled(p, AuralChannel, poolAural, aural, j);
    }
    forall j | 1 <= j < |p| && visual[j] == visual[j - 1] ensures InChannel(p[j], VisualChannel) {
      RepeatIsLabelled(p, VisualChannel, poolVisual, visual, j);
    }
  }

  /** The labels of the whole placement, counted per channel. */
  lemma TargetCounts(t: Targets, p: seq<Mark>)
    requires TargetsPlaced(0, t, p)
    ensures Labelled(p, AuralChannel, |p|) == Max0(t.aural) + Max0(t.both)
    ensures Labelled(p, VisualChannel, |p|) == Max0(t.visual) + Max0(t.both)
    ensures LabelledBoth(p, |p|) == Max0(t.both)
  {
    assert p[..|p|] == p;
    LabelledCount(p, AuralChannel, |p|);
    LabelledCount(p, VisualChannel, |p|);
  }
}
