/** The standalone generator's own test, `MakeBuffer/stimsTest.py`: it
  * builds buffers from the defaults many times and checks each time that
  * the lag-n repeats of each buffer, and of the two at once, number exactly
  * what the targets ask for. The helper reads the targets through a getter
  * that hands out the generator's own dictionary, so adding the `both`
  * count to each channel's count changes the generator's targets.
  */
module StimsTest {
  import opened StimValues
  import opened Outcomes
  import opened StimBuffer
  import opened ExactCount

  /** The tallying loop of `_helper_test_buffers`: for each `i` with
    * `i + n` inside the block, a visual repeat, an aural repeat, and an
    * aural repeat at a position that also repeated visually. */
  method CountMatches(aural: seq<int>, visual: seq<int>, n: nat, blockLength: int)
    returns (visualCount: nat, auralCount: nat, bothCount: nat)
    requires |aural| == blockLength && |visual| == blockLength
    ensures visualCount == Repeats(visual, n, blockLength)
    ensures auralCount == Repeats(aural, n, blockLength)
    ensures bothCount == BothRepeat(aural, visual, n, blockLength)
  {
    visualCount, auralCount, bothCount := 0, 0, 0;
    for i := 0 to blockLength
      invariant visualCount == Repeats(visual, n, i)
      invariant auralCount == Repeats(aural, n, i)
      invariant bothCount == BothRepeat(aural, visual, n, i)
    {
      var incrementBoth := 0;
      if i + n < blockLength {
        if visual[i] == visual[i + n] {
          visualCount := visualCount + 1;
          incrementBoth := incrementBoth + 1;
        }
        if aural[i] == aural[i + n] {
          auralCount := auralCount + 1;
          if incrementBoth == 1 {
            bothCount := bothCount + 1;
          }
        }
      }
    }
  }

  /** `_helper_test_buffers`: compares the visual tally with `visual + both`,
    * then the aural tally with `aural + both`, then the joint tally with
    * `both`, stopping at the first mismatch; each channel's target count
    * is raised by `both` just before its comparison. */
  method HelperTestBuffers(stimsTest: StimList) returns (ok: bool)
    requires |stimsTest.aural| == stimsTest.length + stimsTest.n
    requires |stimsTest.visual| == stimsTest.length + stimsTest.n
    modifies stimsTest`targets
    ensures var t, size := old(stimsTest.targets), stimsTest.length + stimsTest.n;
      var visualOk := Repeats(stimsTest.visual, stimsTest.n, size) == t.visual + t.both;
      var auralOk := Repeats(stimsTest.aural, stimsTest.n, size) == t.aural + t.both;
      && (ok <==> visualOk && auralOk && BothRepeat(stimsTest.aural, stimsTest.visual, stimsTest.n, size) == t.both)
      && stimsTest.targets == Targets(if visualOk then t.aural + t.both else t.aural, t.visual + t.both, t.both)
  {
    var blockN := stimsTest.n;
    var blockLength := stimsTest.length + blockN;
    var visualCount, auralCount, bothCount :=
      CountMatches(stimsTest.aural, stimsTest.visual, blockN, blockLength);
    var t := stimsTest.targets;
    stimsTest.targets := t.(visual := t.visual + t.both);
    if visualCount != stimsTest.targets.visual {
      return false;
    }
    t := stimsTest.targets;
    stimsTest.targets := t.(aural := t.aural + t.both);
    if auralCount != stimsTest.targets.aural {
      return false;
    }
    ok := bothCount == stimsTest.targets.both;
  }

  /** `test_buffers`: thirty thousand fresh generators with the defaults,
    * each built and checked. Every run passes: the defaults leave room for
    * all ten targets, pools of eight never stall the draws, and with lag 1
    * the repeats number exactly the targets. */
  method TestBuffers() returns (passed: bool)
    ensures passed
  {
    for i := 0 to 30000 {
      var ok := BuildAndCheck();
      if !ok {
        return false;
      }
    }
    return true;
  }

  /** One round of `test_buffers`: a fresh generator, `make_buffer`, and the
    * check, which passes. */
  method BuildAndCheck() returns (ok: bool)
    ensures ok
  {
    var stimsTest := BuildDefaults();
    ok := HelperTestBuffers(stimsTest);
  }

  /** A fresh generator with the defaults, after `make_buffer`. */
  method BuildDefaults() returns (stimsTest: StimList)
    ensures fresh(stimsTest)
    ensures stimsTest.n == 1 && stimsTest.length == 20 && stimsTest.targets == Targets(4, 4, 2)
    ensures |stimsTest.aural| == 21 && |stimsTest.visual| == 21
    ensures Repeats(stimsTest.aural, 1, 21) == 6 && Repeats(stimsTest.visual, 1, 21) == 6
    ensures BothRepeat(stimsTest.aural, stimsTest.visual, 1, 21) == 2
  {
    stimsTest := new StimList.Defaults();
    var status := stimsTest.MakeBuffer();
    DefaultsExact(stimsTest.n, stimsTest.length, stimsTest.targets, stimsTest.poolAural, stimsTest.poolVisual,
                  status, stimsTest.placement, stimsTest.aural, stimsTest.visual);
  }

  /** What `make_buffer` promises, on the defaults (lag 1, block length 20,
    * targets 4, 4 and 2, pools of eight): it completes, and the buffer
    * repeats six times in each channel and twice in both. */
  lemma DefaultsExact(n: nat, length: int, t: Targets, poolAural: int, poolVisual: int,
                      status: Status, p: seq<Mark>, aural: seq<int>, visual: seq<int>)
    requires n == 1 && length == 20 && t == Targets(4, 4, 2) && poolAural == 8 && poolVisual == 8
    requires status == Completed ==> |p| == Max0(length + n) && Generated(n, t, poolAural, poolVisual, p, aural, visual)
    requires |Kinds(t)| <= length && n <= length && poolAural >= 3 && poolVisual >= 3 ==> status == Completed
    ensures status == Completed && |aural| == 21 && |visual| == 21 && |p| == 21
    ensures Repeats(aural, 1, 21) == 6 && Repeats(visual, 1, 21) == 6
    ensures BothRepeat(aural, visual, 1, 21) == 2
  {
    KindCounts(t);
    ExactTargets(t, poolAural, poolVisual, p, aural, visual);
  }
}
