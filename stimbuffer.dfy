/** The stimulus generator `StimList`: builds, for one block, the target
  * placement and the two stimulus buffers (one number per slot, standing
  * for a sound and a picture). The class is written once for both copies
  * of the source: `MakeStimBuffer.py`, which takes its settings from the
  * main window, and the standalone `MakeBuffer/stims.py`, which starts from
  * fixed defaults. Random draws are nondeterministic choices; a rejection
  * loop that no draw can leave ends in `NeverReturns`.
  */
module StimBuffer {
  import opened LinkUp
  import opened StimValues
  import opened Outcomes

  class StimList {
    var n: nat
    var length: int
    var placement: seq<Mark>
    var validIndex: seq<int>
    var targets: Targets
    /** `buffers['aural']` and `buffers['visual']`. */
    var aural: seq<int>
    var visual: seq<int>
    /** `how_many_stims['aural']` and `how_many_stims['visual']`. */
    var poolAural: int
    var poolVisual: int

    /** The three built lists grow together, and every eligible position is
      * a position of them. */
    ghost predicate Valid()
      reads this
    {
      InStep(aural, visual, placement, validIndex)
    }

    /** Nothing built yet. */
    ghost predicate Fresh()
      reads this
    {
      placement == [] && validIndex == [] && aural == [] && visual == []
    }

    function Buffer(c: Channel): seq<int>
      reads this
    {
      match c
      case AuralChannel => aural
      case VisualChannel => visual
    }

    function Pool(c: Channel): int
      reads this
    {
      match c
      case AuralChannel => poolAural
      case VisualChannel => poolVisual
    }

    /** The standalone generator's starting state. */
    constructor Defaults()
      ensures Valid() && Fresh()
      ensures n == 1 && length == 20 && targets == Targets(4, 4, 2)
      ensures poolAural == 8 && poolVisual == 8
    {
      n := 1;
      length := 20;
      placement := [];
      validIndex := [];
      targets := Targets(4, 4, 2);
      aural := [];
      visual := [];
      poolAural := 8;
      poolVisual := 8;
    }

    /** The application's generator: its state is read from the session
      * settings (n, block length, number of distinct stimuli) and from the
      * window's target counts. */
    constructor FromSettings(n: nat, blockBeforeN: int, matchIn: Targets, numberOfTargets: int)
      ensures Valid() && Fresh()
      ensures this.n == n && length == blockBeforeN && targets == matchIn
      ensures poolAural == numberOfTargets && poolVisual == numberOfTargets
    {
      new;
      RefreshAttributes(n, blockBeforeN, matchIn, numberOfTargets);
    }

    method RefreshAttributes(n: nat, blockBeforeN: int, matchIn: Targets, numberOfTargets: int)
      modifies this
      ensures Valid() && Fresh()
      ensures this.n == n && length == blockBeforeN && targets == matchIn
      ensures poolAural == numberOfTargets && poolVisual == numberOfTargets
    {
      this.n := n;
      length := blockBeforeN;
      placement := [];
      validIndex := [];
      targets := matchIn;
      aural := [];
      visual := [];
      poolAural := numberOfTargets;
      poolVisual := numberOfTargets;
    }

    method SetN(newN: nat)
      modifies this`n
      ensures n == newN
    {
      n := newN;
    }

    method SetLength(newLength: int)
      modifies this`length
      ensures length == newLength
    {
      length := newLength;
    }

    method SetWorkingTotalStims(c: Channel, newValue: int)
      modifies this`poolAural, this`poolVisual
      ensures Pool(c) == newValue
      ensures Pool(Other(c)) == old(Pool(Other(c)))
    {
      if c == AuralChannel {
        poolAural := newValue;
      } else {
        poolVisual := newValue;
      }
    }

    /** Appends `n + length` unset slots to each list and makes every new
      * position past the first `n` eligible. */
    method MakeIndexList()
      requires Valid()
      modifies this`aural, this`visual, this`placement, this`validIndex
      ensures Valid()
      ensures n == old(n) && length == old(length) && targets == old(targets)
      ensures poolAural == old(poolAural) && poolVisual == old(poolVisual)
      ensures aural == old(aural) + Repeat(Unset, length + n)
      ensures visual == old(visual) + Repeat(Unset, length + n)
      ensures placement == old(placement) + Repeat(NoMark, length + n)
      ensures validIndex == SliceFrom(old(validIndex) + Range(0, length + n), n)
    {
      for i := 0 to Max0(length + n)
        invariant IndexProgress(old(aural), old(visual), old(placement), old(validIndex), aural, visual, placement, validIndex, i)
        invariant InStep(aural, visual, placement, validIndex)
      {
        IndexStep(old(aural), old(visual), old(placement), old(validIndex), aural, visual, placement, validIndex, i);
        aural := aural + [Unset];
        visual := visual + [Unset];
        placement := placement + [NoMark];
        validIndex := validIndex + [i];
      }
      SliceInStep(aural, visual, placement, validIndex, n);
      validIndex := SliceFrom(validIndex, n);
    }

    /** For each kind in turn (aural, visual, both), `targets[kind]` times:
      * an eligible position is taken out of `validIndex` at random and
      * labelled with the kind; an empty `validIndex` raises `ValueError`. */
    method PlaceTargets() returns (status: Status, ghost drawn: seq<int>)
      requires Valid()
      modifies this`placement, this`validIndex
      ensures Valid()
      ensures n == old(n) && length == old(length) && targets == old(targets)
      ensures poolAural == old(poolAural) && poolVisual == old(poolVisual)
      ensures status == Completed || status == RaisesValueError
      ensures status == RaisesValueError <==> |old(validIndex)| < |Kinds(targets)|
      ensures status == Completed ==>
        DrawProgress(old(placement), old(validIndex), placement, validIndex, drawn, Kinds(targets))
      ensures status == RaisesValueError ==> validIndex == []
      ensures Ascending(old(validIndex)) ==> Ascending(validIndex)
    {
      drawn := [];
      var t := targets;
      DrawStart(placement, validIndex);
      KindsAll(t);
      for m := 0 to |KindOrder|
        invariant DrawProgress(old(placement), old(validIndex), placement, validIndex, drawn, KindsBefore(t, m))
      {
        var placed;
        placed, drawn := PlaceKind(t, m, old(placement), old(validIndex), drawn);
        if !placed {
          status := RaisesValueError;
          return;
        }
      }
      status := Completed;
    }

    /** The draws for one kind: `targets[kind]` positions in turn. */
    method PlaceKind(t: Targets, m: nat, ghost p0: seq<Mark>, ghost v0: seq<int>, ghost drawn: seq<int>)
      returns (placed: bool, ghost drawn': seq<int>)
      requires m < |KindOrder|
      requires DrawProgress(p0, v0, placement, validIndex, drawn, KindsBefore(t, m))
      modifies this`placement, this`validIndex
      ensures placed ==> DrawProgress(p0, v0, placement, validIndex, drawn', KindsBefore(t, m + 1))
      ensures !placed ==> |v0| < |Kinds(t)| && validIndex == []
      ensures !placed ==> Valid() == old(Valid()) && (Ascending(v0) ==> Ascending(validIndex))
    {
      drawn' := drawn;
      var mark := KindOrder[m];
      KindsRound(t, m);
      for i := 0 to Max0(Count(t, mark))
        invariant DrawProgress(p0, v0, placement, validIndex, drawn', KindsBefore(t, m) + Repeat(mark, i))
      {
        if |validIndex| == 0 {
          DrawShort(t, m, i);
          return false, drawn';
        }
        ghost var kinds := KindsBefore(t, m) + Repeat(mark, i);
        drawn' := DrawPosition(mark, p0, v0, drawn', kinds);
        KindsSnoc(t, m, i);
      }
      placed := true;
    }

    /** One draw: `placement[valid_index.pop(randrange(0, len(valid_index)))] = mark`. */
    method DrawPosition(mark: Mark, ghost p0: seq<Mark>, ghost v0: seq<int>, ghost drawn: seq<int>, ghost kinds: seq<Mark>)
      returns (ghost drawn': seq<int>)
      requires DrawProgress(p0, v0, placement, validIndex, drawn, kinds) && |validIndex| > 0
      modifies this`placement, this`validIndex
      ensures DrawProgress(p0, v0, placement, validIndex, drawn', kinds + [mark])
    {
      var k :| 0 <= k < |validIndex|;
      DrawStep(p0, v0, placement, validIndex, drawn, kinds, mark, k);
      var placeHere := validIndex[k];
      validIndex := validIndex[..k] + validIndex[k + 1..];
      placement := placement[placeHere := mark];
      drawn' := drawn + [placeHere];
    }

    static lemma KindsRound(t: Targets, m: nat)
      requires m < |KindOrder|
      ensures KindsBefore(t, m) + Repeat(KindOrder[m], 0) == KindsBefore(t, m)
      ensures KindsBefore(t, m) + Repeat(KindOrder[m], Max0(Count(t, KindOrder[m]))) == KindsBefore(t, m + 1)
    {
      assert Repeat(KindOrder[m], 0) == [];
      RepeatMax0(KindOrder[m], Count(t, KindOrder[m]));
    }

    static lemma KindsSnoc(t: Targets, m: nat, i: nat)
      requires m < |KindOrder|
      ensures KindsBefore(t, m) + Repeat(KindOrder[m], i) + [KindOrder[m]] == KindsBefore(t, m) + Repeat(KindOrder[m], i + 1)
    {
      RepeatSnoc(KindOrder[m], i);
    }

    /** A draw still due means fewer draws were made than `Kinds` asks for. */
    static lemma DrawShort(t: Targets, m: nat, i: nat)
      requires m < |KindOrder| && i < Max0(Count(t, KindOrder[m]))
      ensures |KindsBefore(t, m) + Repeat(KindOrder[m], i)| < |Kinds(t)|
    {
      KindsAll(t);
    }

    /** The pair-collection loop of `place_stims`: for each of the first
      * `n + length` placement entries that carries a label, the pair
      * `[i - n, i]` goes to each channel the label names; an entry past the
      * end of `placement` raises `IndexError`. */
    method CollectPairs() returns (status: Status, auralPairs: seq<Pair>, visualPairs: seq<Pair>)
      requires forall i :: 0 <= i < |placement| && placement[i] != NoMark ==> n <= i
      ensures status == Completed || status == RaisesIndexError
      ensures status == RaisesIndexError <==> |placement| < n + length
      ensures status == Completed ==>
        auralPairs == ChannelPairs(placement[..Max0(n + length)], n, AuralChannel)
        && visualPairs == ChannelPairs(placement[..Max0(n + length)], n, VisualChannel)
      ensures status == Completed ==>
        Sorted(auralPairs) && ChainsInRange(Chains(auralPairs), |placement|)
        && Sorted(visualPairs) && ChainsInRange(Chains(visualPairs), |placement|)
    {
      status, auralPairs, visualPairs := ScanPairs();
      if status == Completed {
        PairsReady(placement, Max0(n + length), n, AuralChannel, auralPairs);
        PairsReady(placement, Max0(n + length), n, VisualChannel, visualPairs);
      }
    }

    /** The loop itself. */
    method ScanPairs() returns (status: Status, auralPairs: seq<Pair>, visualPairs: seq<Pair>)
      ensures status == Completed || status == RaisesIndexError
      ensures status == RaisesIndexError <==> |placement| < n + length
      ensures status == Completed ==>
        auralPairs == ChannelPairs(placement[..Max0(n + length)], n, AuralChannel)
        && visualPairs == ChannelPairs(placement[..Max0(n + length)], n, VisualChannel)
    {
      var nValue := n;
      var blockLengthTotal := nValue + length;
      visualPairs := [];
      auralPairs := [];
      for i := 0 to Max0(blockLengthTotal)
        invariant i <= |placement|
        invariant auralPairs == ChannelPairs(placement[..i], n, AuralChannel)
        invariant visualPairs == ChannelPairs(placement[..i], n, VisualChannel)
      {
        if i >= |placement| {
          status := RaisesIndexError;
          return;
        }
        var indexValue := placement[i];
        assert placement[..i + 1][..i] == placement[..i];
        if indexValue != NoMark {
          if indexValue == Aural || indexValue == Both {
            auralPairs := auralPairs + [Pair(i - nValue, i)];
          }
          if indexValue == Visual || indexValue == Both {
            visualPairs := visualPairs + [Pair(i - nValue, i)];
          }
        }
      }
      status := Completed;
    }

    /** Collects each channel's pairs, links them into chains, gives every
      * chain a value and fills the rest of both buffers. Positions below `n`
      * never hold a label. `auralStart` and `visualStart` name what the
      * buffers hold at the outset. */
    method PlaceStims(ghost auralStart: seq<int>, ghost visualStart: seq<int>) returns (status: Status)
      requires Valid() && aural == auralStart && visual == visualStart
      requires forall i :: 0 <= i < |placement| && placement[i] != NoMark ==> n <= i
      modifies this`aural, this`visual
      ensures Valid()
      ensures placement == old(placement) && n == old(n) && length == old(length) && targets == old(targets)
      ensures poolAural == old(poolAural) && poolVisual == old(poolVisual)
      ensures status == Completed || status == RaisesValueError || status == RaisesIndexError || status == NeverReturns
      ensures status == RaisesIndexError <==> |placement| < n + length
      ensures status == Completed ==> Placed(auralStart, visualStart)
      ensures n + length <= |placement| && poolAural >= 3 && poolVisual >= 3
        && UnsetNeighboured(auralStart, n) && UnsetNeighboured(visualStart, n)
        ==> status == Completed
    {
      var auralPairs, visualPairs;
      status, auralPairs, visualPairs := CollectPairs();
      if status != Completed {
        return;
      }
      status := ChainAndFill(auralPairs, visualPairs, auralStart, visualStart);
    }

    /** Each buffer is what linking, chain values and fill make of its start,
      * for the pairs of the first `n + length` placement entries. */
    ghost predicate Placed(auralStart: seq<int>, visualStart: seq<int>)
      reads this
    {
      n + length <= |placement|
      && ChannelOutcome(auralStart, ChannelPairs(placement[..Max0(n + length)], n, AuralChannel), n, poolAural, aural)
      && ChannelOutcome(visualStart, ChannelPairs(placement[..Max0(n + length)], n, VisualChannel), n, poolVisual, visual)
    }

    /** The rest of `place_stims` once the pairs are collected: chain values
      * for both channels, then the fill. */
    method ChainAndFill(auralPairs: seq<Pair>, visualPairs: seq<Pair>, ghost auralStart: seq<int>, ghost visualStart: seq<int>)
      returns (status: Status)
      requires Valid() && aural == auralStart && visual == visualStart
      requires Sorted(auralPairs) && ChainsInRange(Chains(auralPairs), |placement|)
      requires Sorted(visualPairs) && ChainsInRange(Chains(visualPairs), |placement|)
      modifies this`aural, this`visual
      ensures Valid()
      ensures status == Completed || status == RaisesValueError || status == NeverReturns
      ensures status == Completed ==>
        ChannelOutcome(auralStart, auralPairs, n, poolAural, aural)
        && ChannelOutcome(visualStart, visualPairs, n, poolVisual, visual)
      ensures placement == old(placement) && n == old(n) && length == old(length) && targets == old(targets)
      ensures poolAural == old(poolAural) && poolVisual == old(poolVisual)
      ensures poolAural >= 3 && poolVisual >= 3 && UnsetNeighboured(auralStart, n) && UnsetNeighboured(visualStart, n)
        ==> status == Completed
    {
      ghost var auralValues, visualValues;
      status, auralValues, visualValues := PairChannels(auralPairs, visualPairs);
      if status != Completed {
        return;
      }
      status := FillChains(auralPairs, visualPairs, auralStart, visualStart, auralValues, visualValues);
    }

    /** The fill, once every chain holds its value: `auralValues` and
      * `visualValues` are the values the chains were given. */
    method FillChains(auralPairs: seq<Pair>, visualPairs: seq<Pair>, ghost auralStart: seq<int>, ghost visualStart: seq<int>,
                      ghost auralValues: seq<int>, ghost visualValues: seq<int>)
      returns (status: Status)
      requires Valid()
      requires ChainsInRange(Chains(auralPairs), |auralStart|) && ChainsInRange(Chains(visualPairs), |visualStart|)
      requires ChainValues(auralValues, |Chains(auralPairs)|, poolAural)
      requires aural == WriteChains(auralStart, Chains(auralPairs), auralValues)
      requires ChainValues(visualValues, |Chains(visualPairs)|, poolVisual)
      requires visual == WriteChains(visualStart, Chains(visualPairs), visualValues)
      modifies this`aural, this`visual
      ensures Valid()
      ensures placement == old(placement) && n == old(n) && length == old(length) && targets == old(targets)
      ensures poolAural == old(poolAural) && poolVisual == old(poolVisual)
      ensures status == Completed || status == RaisesValueError || status == NeverReturns
      ensures status == Completed ==>
        ChannelOutcome(auralStart, auralPairs, n, poolAural, aural)
        && ChannelOutcome(visualStart, visualPairs, n, poolVisual, visual)
      ensures poolAural >= 3 && poolVisual >= 3 && UnsetNeighboured(old(aural), n) && UnsetNeighboured(old(visual), n)
        ==> status == Completed
    {
      status := FillNonMatches();
      if status == Completed {
        OutcomeIntro(auralStart, auralPairs, n, poolAural, auralValues, aural);
        OutcomeIntro(visualStart, visualPairs, n, poolVisual, visualValues, visual);
      }
    }

    /** The middle of `place_stims`: the aural chains get their values, then
      * the visual ones. */
    method PairChannels(auralPairs: seq<Pair>, visualPairs: seq<Pair>)
      returns (status: Status, ghost auralValues: seq<int>, ghost visualValues: seq<int>)
      requires Valid()
      requires Sorted(auralPairs) && ChainsInRange(Chains(auralPairs), |placement|)
      requires Sorted(visualPairs) && ChainsInRange(Chains(visualPairs), |placement|)
      modifies this`aural, this`visual
      ensures Valid()
      ensures status == Completed || status == RaisesValueError || status == NeverReturns
      ensures poolAural >= 3 && poolVisual >= 3 ==> status == Completed
      ensures placement == old(placement) && n == old(n) && length == old(length) && targets == old(targets)
      ensures poolAural == old(poolAural) && poolVisual == old(poolVisual)
      ensures status == Completed ==>
        ChainValues(auralValues, |Chains(auralPairs)|, poolAural)
        && aural == WriteChains(old(aural), Chains(auralPairs), auralValues)
        && ChainValues(visualValues, |Chains(visualPairs)|, poolVisual)
        && visual == WriteChains(old(visual), Chains(visualPairs), visualValues)
      ensures status == Completed && UnsetNeighboured(old(aural), n) && UnsetNeighboured(old(visual), n)
        ==> UnsetNeighboured(aural, n) && UnsetNeighboured(visual, n)
    {
      visualValues := [];
      status, auralValues := LinkAndPair(auralPairs, AuralChannel);
      if status != Completed {
        return;
      }
      status, visualValues := LinkAndPair(visualPairs, VisualChannel);
    }

    /** One channel's share of `place_stims`: link its pairs into chains and
      * give each chain a value. */
    method LinkAndPair(pairs: seq<Pair>, c: Channel) returns (status: Status, ghost values: seq<int>)
      requires Valid()
      requires Sorted(pairs) && ChainsInRange(Chains(pairs), |placement|)
      modifies this`aural, this`visual
      ensures Valid()
      ensures Buffer(Other(c)) == old(Buffer(Other(c)))
      ensures status == Completed || status == RaisesValueError || status == NeverReturns
      ensures Pool(c) >= 3 ==> status == Completed
      ensures status == Completed ==>
        ChainValues(values, |Chains(pairs)|, Pool(c))
        && Buffer(c) == WriteChains(old(Buffer(c)), Chains(pairs), values)
      ensures status == Completed && UnsetNeighboured(old(Buffer(c)), n) ==> UnsetNeighboured(Buffer(c), n)
    {
      SortKeepsSorted(pairs);
      var list := new PairList(pairs);
      var chains := LinkUp.LinkUp(list);
      status, values := PairCueTargets(chains, c);
      if status == Completed {
        WrittenUnsetWasUnset(old(Buffer(c)), chains, values, n);
      }
    }

    /** The channel pairs the loop collects are already sorted, and every
      * position they name is a position of the buffers. */
    static lemma PairsReady(p: seq<Mark>, m: int, n: nat, c: Channel, pairs: seq<Pair>)
      requires 0 <= m <= |p|
      requires forall i :: 0 <= i < |p| && p[i] != NoMark ==> n <= i
      requires pairs == ChannelPairs(p[..m], n, c)
      ensures Sorted(pairs) && ChainsInRange(Chains(pairs), |p|)
    {
      var prefix, size := p[..m], |p|;
      ChannelPairsFacts(prefix, n, c);
      StrictCuesSorted(pairs);
      forall q | q in pairs ensures 0 <= q.cue < size && 0 <= q.target < size {
        assert prefix[q.target] != NoMark;
      }
      ChainsOfPairsInRange(pairs, size);
    }

    /** `buffers[modality][index] = value`. */
    method SetSlot(c: Channel, index: int, value: int)
      requires 0 <= index < |Buffer(c)|
      modifies this`aural, this`visual
      ensures Buffer(c) == old(Buffer(c))[index := value]
      ensures Buffer(Other(c)) == old(Buffer(Other(c)))
    {
      if c == AuralChannel {
        aural := aural[index := value];
      } else {
        visual := visual[index := value];
      }
    }

    /** One value per chain, written at every position of the chain: the
      * first from `[0, pool)`, each next one redrawn until it differs from
      * the one before. */
    method PairCueTargets(chains: seq<seq<int>>, c: Channel) returns (status: Status, ghost values: seq<int>)
      requires Valid()
      requires ChainsInRange(chains, |placement|)
      modifies this`aural, this`visual
      ensures Valid()
      ensures Buffer(Other(c)) == old(Buffer(Other(c)))
      ensures status == Completed || status == RaisesValueError || status == NeverReturns
      ensures status == RaisesValueError <==> chains != [] && Pool(c) <= 0
      ensures status == NeverReturns <==> |chains| >= 2 && Pool(c) == 1
      ensures status == Completed ==>
        ChainValues(values, |chains|, Pool(c))
        && Buffer(c) == WriteChains(old(Buffer(c)), chains, values)
    {
      var lastStimUsed := -1;
      var stimNumber := -1;
      var pool := Pool(c);
      values := [];
      for k := 0 to |chains|
        invariant Valid() && Buffer(Other(c)) == old(Buffer(Other(c)))
        invariant ChainValues(values, k, pool)
        invariant k == 0 ==> lastStimUsed == -1
        invariant k > 0 ==> lastStimUsed == values[k - 1] && pool >= 1
        invariant Buffer(c) == WritePrefix(old(Buffer(c)), chains, values)
      {
        if pool <= 0 {
          status := RaisesValueError;
          return;
        }
        if pool == 1 && lastStimUsed == 0 {
          // the only stimulus is the one just used: every redraw repeats it
          status := NeverReturns;
          return;
        }
        ghost var other := if lastStimUsed == 0 then 1 else 0;
        assert 0 <= other < pool && other != lastStimUsed;
        stimNumber :| 0 <= stimNumber < pool && stimNumber != lastStimUsed;
        WriteNextChain(old(Buffer(c)), chains, k, values, stimNumber, c);
        ChainValuesSnoc(values, pool, stimNumber);
        lastStimUsed := stimNumber;
        values := values + [stimNumber];
      }
      WritePrefixAll(old(Buffer(c)), chains, values);
      status := Completed;
    }

    /** One round of the loop of `pair_cue_targets`: the next chain gets
      * its value in the channel's buffer. */
    method WriteNextChain(ghost start: seq<int>, chains: seq<seq<int>>, k: nat, ghost values: seq<int>, value: int, c: Channel)
      requires Valid()
      requires k == |values| < |chains| && ChainsInRange(chains, |start|)
      requires Buffer(c) == WritePrefix(start, chains, values)
      modifies this`aural, this`visual
      ensures Valid()
      ensures Buffer(Other(c)) == old(Buffer(Other(c)))
      ensures Buffer(c) == WritePrefix(start, chains, values + [value])
    {
      WritePrefixStep(start, chains, values, value);
      WriteChainInPlace(chains[k], c, value);
    }

    /** `buffers[modality][index] = value` for each index of one chain. */
    method WriteChainInPlace(chain: seq<int>, c: Channel, value: int)
      requires Valid()
      requires forall u :: 0 <= u < |chain| ==> 0 <= chain[u] < |Buffer(c)|
      modifies this`aural, this`visual
      ensures Valid()
      ensures Buffer(c) == WriteChain(old(Buffer(c)), chain, value)
      ensures Buffer(Other(c)) == old(Buffer(Other(c)))
    {
      for t := 0 to |chain|
        invariant Valid()
        invariant Buffer(Other(c)) == old(Buffer(Other(c)))
        invariant Buffer(c) == WriteChain(old(Buffer(c)), chain[..t], value)
      {
        WriteChainStep(old(Buffer(c)), chain, value, t);
        SetSlot(c, chain[t], value);
      }
      assert chain[..|chain|] == chain;
    }

    /** Every slot still unset in one buffer gets a value from `[0, pool)`,
      * redrawn until the acceptance test passes. */
    method FillChannel(c: Channel) returns (status: Status)
      requires Valid()
      modifies this`aural, this`visual
      ensures Valid()
      ensures Buffer(Other(c)) == old(Buffer(Other(c)))
      ensures status == Completed || status == RaisesValueError || status == NeverReturns
      ensures status == RaisesValueError <==> Pool(c) <= 0 && Unset in old(Buffer(c))
      ensures status == Completed ==> FilledFrom(old(Buffer(c)), Buffer(c), n, Pool(c))
      ensures Pool(c) > 0 && !UnsetNeighboured(old(Buffer(c)), n) ==> status == NeverReturns
      ensures Pool(c) >= 3 && UnsetNeighboured(old(Buffer(c)), n) ==> status == Completed
    {
      var blockN := n;
      var stimListLength := |visual|;
      for i := 0 to stimListLength
        invariant Valid() && Buffer(Other(c)) == old(Buffer(Other(c)))
        invariant FillProgress(old(Buffer(c)), Buffer(c), n, Pool(c), i)
      {
        var cur := Buffer(c);
        if cur[i] == Unset {
          if Pool(c) <= 0 {
            status := RaisesValueError;
            return;
          }
          assert Pool(c) >= 3 && UnsetNeighboured(old(Buffer(c)), n) ==>
            exists v :: 0 <= v < Pool(c) && Accept(cur, i, blockN, v)
          by {
            if Pool(c) >= 3 && UnsetNeighboured(old(Buffer(c)), n) {
              assert HasNeighbour(|cur|, blockN, i);
              var w := PoolOfThreeSuffices(cur, i, blockN, Pool(c));
            }
          }
          if !(exists v :: 0 <= v < Pool(c) && Accept(cur, i, blockN, v)) {
            status := NeverReturns;
            return;
          }
          var candidate :| 0 <= candidate < Pool(c) && Accept(cur, i, blockN, candidate);
          FillWrite(old(Buffer(c)), cur, n, Pool(c), i, candidate);
          SetSlot(c, i, candidate);
        } else {
          FillSkip(old(Buffer(c)), cur, n, Pool(c), i);
        }
      }
      FillDone(old(Buffer(c)), Buffer(c), n, Pool(c));
      status := Completed;
    }

    /** Fills the aural buffer, then the visual one. */
    method FillNonMatches() returns (status: Status)
      requires Valid()
      modifies this`aural, this`visual
      ensures Valid()
      ensures placement == old(placement) && n == old(n) && length == old(length) && targets == old(targets)
      ensures poolAural == old(poolAural) && poolVisual == old(poolVisual)
      ensures status == Completed || status == RaisesValueError || status == NeverReturns
      ensures status == Completed ==>
        FilledFrom(old(aural), aural, n, poolAural) && FilledFrom(old(visual), visual, n, poolVisual)
      ensures poolAural >= 3 && poolVisual >= 3 && UnsetNeighboured(old(aural), n) && UnsetNeighboured(old(visual), n)
        ==> status == Completed
    {
      status := FillChannel(AuralChannel);
      if status != Completed {
        return;
      }
      status := FillChannel(VisualChannel);
    }

    /** `make_buffer` of the standalone copy, on a generator with nothing
      * built yet: the index list, the targets, then the stimuli. */
    method MakeBuffer() returns (status: Status)
      requires Valid() && Fresh()
      modifies this`aural, this`visual, this`placement, this`validIndex
      ensures Valid()
      ensures n == old(n) && length == old(length) && targets == old(targets)
      ensures poolAural == old(poolAural) && poolVisual == old(poolVisual)
      ensures status == Completed || status == RaisesValueError || status == NeverReturns
      ensures Max0(length) < |Kinds(targets)| ==> status == RaisesValueError
      ensures status == Completed ==>
        |placement| == Max0(length + n) && Generated(n, targets, poolAural, poolVisual, placement, aural, visual)
      ensures |Kinds(targets)| <= length && n <= length && poolAural >= 3 && poolVisual >= 3
        ==> status == Completed
    {
      status := MakeTargets();
      if status != Completed {
        return;
      }
      if n <= length {
        FreshNeighboured(n, length);
      }
      ghost var auralStart, visualStart := aural, visual;
      status := PlaceStims(auralStart, visualStart);
      if status == Completed {
        GeneratedIntro(n, targets, poolAural, poolVisual, placement, aural, visual,
                       auralStart, visualStart, placement[..Max0(n + length)]);
      }
    }

    /** The first two stages of `make_buffer` on a fresh generator: the
      * index list, then the targets. */
    method MakeTargets() returns (status: Status)
      requires Valid() && Fresh()
      modifies this`aural, this`visual, this`placement, this`validIndex
      ensures Valid()
      ensures n == old(n) && length == old(length) && targets == old(targets)
      ensures poolAural == old(poolAural) && poolVisual == old(poolVisual)
      ensures status == Completed || status == RaisesValueError
      ensures status == RaisesValueError <==> Max0(length) < |Kinds(targets)|
      ensures aural == Repeat(Unset, length + n) && visual == Repeat(Unset, length + n)
      ensures |placement| == Max0(length + n)
      ensures status == Completed ==> TargetsPlaced(n, targets, placement)
    {
      MakeIndexList();
      FreshIndexList(n, length);
      ghost var p0, v0 := placement, validIndex;
      assert p0 == Repeat(NoMark, length + n);
      ghost var drawn;
      status, drawn := PlaceTargets();
      if status == Completed {
        PlacedFacts(n, length, targets, p0, v0, placement, validIndex, drawn);
      }
    }

    /** `make_buffer` of the application's copy: the state is first read
      * afresh from the settings. */
    method RefreshAndMakeBuffer(n: nat, blockBeforeN: int, matchIn: Targets, numberOfTargets: int)
      returns (status: Status)
      modifies this
      ensures Valid()
      ensures this.n == n && length == blockBeforeN && targets == matchIn
      ensures poolAural == numberOfTargets && poolVisual == numberOfTargets
      ensures status == Completed || status == RaisesValueError || status == NeverReturns
      ensures Max0(blockBeforeN) < |Kinds(matchIn)| ==> status == RaisesValueError
      ensures status == Completed ==>
        |placement| == Max0(blockBeforeN + n) && Generated(n, matchIn, numberOfTargets, numberOfTargets, placement, aural, visual)
      ensures |Kinds(matchIn)| <= blockBeforeN && n <= blockBeforeN && numberOfTargets >= 3
        ==> status == Completed
    {
      RefreshAttributes(n, blockBeforeN, matchIn, numberOfTargets);
      status := MakeBuffer();
    }
  }

  function Other(c: Channel): Channel {
    match c
    case AuralChannel => VisualChannel
    case VisualChannel => AuralChannel
  }
}
