/** The `TaskWindow` of `TaskWindow.py`: the key-press record kept while a
  * block runs, the presentation counter, the countdown before the block,
  * and the scoring of a finished block. Pictures and sounds are replaced by
  * the ids they were made from: the generator maps each id to one object,
  * so two presented objects are equal exactly when their ids are.
  */
module Scoring {
  import opened Outcomes

  /** One value per modality: the visual one at index 0, the aural one at
    * index 1. */
  datatype PerModality<T> = PerModality(visual: T, aural: T) {
    function Get(m: int): T
      requires 0 <= m < 2
    {
      if m == 0 then visual else aural
    }

    function With(m: int, v: T): (r: PerModality<T>)
      requires 0 <= m < 2
      ensures r.Get(m) == v && r.Get(1 - m) == Get(1 - m)
    {
      if m == 0 then this.(visual := v) else this.(aural := v)
    }
  }

  /** Whether the visual and the aural key were pressed for one stimulus. */
  type Response = PerModality<bool>
  /** The picture and the sound of one stimulus. */
  type Stimulus = PerModality<int>
  /** The visual and the aural code of one stimulus. */
  type Score = PerModality<int>

  const TruePositive := 0
  const TrueNegative := 1
  const FalseNegative := 2
  const FalsePositive := 3

  const SubDictNames := ["visual", "aural"]
  const KeyCodeList := ["true positive", "true negative", "false negative", "false positive"]

  /** The score summary: for each modality name, a counter per key-code
    * name, both in insertion order. */
  type Summary = seq<(string, seq<(string, int)>)>

  /** Python's `s[i]`, where a negative index counts from the end. */
  function PyAt<T>(s: seq<T>, i: int): T
    requires -|s| <= i < |s|
  {
    if i < 0 then s[|s| + i] else s[i]
  }

  /** The name of a verdict: right or wrong, responded or not. */
  function Verdict(right: bool, responded: bool): string {
    (if right then "true" else "false") + (if responded then " positive" else " negative")
  }

  /** The rule of `_score_block` for one modality of one stimulus: a
    * response before the n-th stimulus, or to a stimulus unlike the one n
    * back, is a false positive; no response to a repeat is a false
    * negative; no response to a non-repeat a true negative; anything else a
    * true positive. `early` says fewer than n stimuli came before; `same`
    * compares with the stimulus n back under Python indexing and is not
    * looked at for an early response. A response is right when it answers a
    * repeat at or after the n-th stimulus; the absence of one is right when
    * the stimulus differs from the one n back, even before the n-th. */
  function Code(responded: bool, early: bool, same: bool): (code: int)
    ensures 0 <= code < 4
    ensures KeyCodeList[code] == Verdict(if responded then !early && same else !same, responded)
  {
    if responded && early then FalsePositive
    else if responded && !same then FalsePositive
    else if !responded && same then FalseNegative
    else if !responded && !same then TrueNegative
    else TruePositive
  }

  /** The rule the scoring docstring states: a response is right exactly
    * when the stimulus repeats the one n back, and before the n-th stimulus
    * nothing repeats. */
  function IntendedCode(responded: bool, early: bool, same: bool): (code: int)
    ensures 0 <= code < 4
    ensures KeyCodeList[code] == Verdict(responded == (!early && same), responded)
  {
    if responded then Code(responded, early, same)
    else if !early && same then FalseNegative
    else TrueNegative
  }

  /** The two rules differ only on an unanswered stimulus before the n-th
    * one that equals the stimulus found by counting back from the end. */
  lemma CodeAgreesExceptEarlySilence(responded: bool, early: bool, same: bool)
    ensures Code(responded, early, same) != IntendedCode(responded, early, same)
      <==> !responded && early && same
  {
  }

  /** Indexing in `_score_block` for stimulus `i`, modality `m` succeeds:
    * the response exists and, unless it is an early response, the stimulus
    * and the one `n` back exist under Python indexing. */
  ghost predicate Scorable(recorded: seq<Response>, presented: seq<Stimulus>, n: int, i: int, m: int)
    requires 0 <= i && 0 <= m < 2
  {
    i < |recorded|
    && ((recorded[i].Get(m) && i - n < 0) || (i < |presented| && -|presented| <= i - n < |presented|))
  }

  ghost predicate AllScorable(recorded: seq<Response>, presented: seq<Stimulus>, n: int, len: int) {
    forall i, m :: 0 <= i < len && 0 <= m < 2 ==> Scorable(recorded, presented, n, i, m)
  }

  function ScoreAt(recorded: seq<Response>, presented: seq<Stimulus>, n: int, i: int, m: int): int
    requires 0 <= i && 0 <= m < 2 && Scorable(recorded, presented, n, i, m)
  {
    if recorded[i].Get(m) && i - n < 0 then FalsePositive
    else Code(recorded[i].Get(m), i - n < 0, presented[i].Get(m) == PyAt(presented, i - n).Get(m))
  }

  /** The scores `_score_block` returns when no index fails. */
  ghost function Scores(recorded: seq<Response>, presented: seq<Stimulus>, n: int, len: nat): seq<Score>
    requires AllScorable(recorded, presented, n, len)
  {
    seq(len, i requires 0 <= i < len =>
      PerModality(ScoreAt(recorded, presented, n, i, 0), ScoreAt(recorded, presented, n, i, 1)))
  }

  ghost predicate ValidScores(scoring: seq<Score>) {
    forall i :: 0 <= i < |scoring| ==> 0 <= scoring[i].visual < 4 && 0 <= scoring[i].aural < 4
  }

  /** The block's scores: one entry per stimulus, each code one of the four,
    * and a response before the n-th stimulus always a false positive. */
  lemma ScoresShape(recorded: seq<Response>, presented: seq<Stimulus>, n: int, len: nat)
    requires AllScorable(recorded, presented, n, len)
    ensures |Scores(recorded, presented, n, len)| == len
    ensures ValidScores(Scores(recorded, presented, n, len))
    ensures forall i, m :: 0 <= i < len && i < |recorded| && i < n && 0 <= m < 2 && recorded[i].Get(m) ==>
      Scores(recorded, presented, n, len)[i].Get(m) == FalsePositive
  {
    var s := Scores(recorded, presented, n, len);
    forall i | 0 <= i < len ensures 0 <= s[i].visual < 4 && 0 <= s[i].aural < 4 {
      assert s[i] == PerModality(ScoreAt(recorded, presented, n, i, 0), ScoreAt(recorded, presented, n, i, 1));
    }
  }

  /** An unanswered stimulus before the n-th one is scored as a missed
    * match when it equals the stimulus at the same distance from the end:
    * with n = 1 and visual ids 5, 7, 5 nobody pressed anything, yet the
    * first stimulus is a false negative. */
  lemma EarlySilenceScoredAsMiss()
    ensures var recorded := [PerModality(false, false), PerModality(false, false), PerModality(false, false)];
      var presented := [PerModality(5, 1), PerModality(7, 2), PerModality(5, 3)];
      Scorable(recorded, presented, 1, 0, 0)
      && ScoreAt(recorded, presented, 1, 0, 0) == FalseNegative
      && IntendedCode(false, true, true) == TrueNegative
  {
  }

  /** Python's `for i in range(count)` bound. */
  function RangeBound(count: int): nat {
    if count < 0 then 0 else count
  }

  /** `_score_block`: every code starts at 0, then each stimulus and each
    * modality in turn is scored. An index outside the response record or
    * the presented stimuli raises `IndexError`. */
  method ScoreBlock(recorded: seq<Response>, presented: seq<Stimulus>, blockN: int, blockLength: int)
    returns (status: Status, scoring: seq<Score>)
    ensures status == Completed || status == RaisesIndexError
    ensures status == Completed <==> AllScorable(recorded, presented, blockN, RangeBound(blockLength))
    ensures status == Completed ==> scoring == Scores(recorded, presented, blockN, RangeBound(blockLength))
  {
    var bound := RangeBound(blockLength);
    scoring := [];
    for count := 0 to bound
      invariant |scoring| == count
      invariant forall i :: 0 <= i < count ==> scoring[i] == PerModality(0, 0)
    {
      scoring := scoring + [PerModality(0, 0)];
    }
    for index := 0 to bound
      invariant |scoring| == bound
      invariant forall i :: 0 <= i < index ==> RowScored(recorded, presented, blockN, i, scoring[i])
      invariant forall i :: index <= i < bound ==> scoring[i] == PerModality(0, 0)
    {
      // `scoring_list[index]`, updated in place
      var row := scoring[index];
      for m := 0 to 2
        invariant forall k :: 0 <= k < m ==> CodeScored(recorded, presented, blockN, index, k, row.Get(k))
        invariant forall k :: m <= k < 2 ==> row.Get(k) == 0
      {
        if index >= |recorded| {
          assert !Scorable(recorded, presented, blockN, index, m);
          return RaisesIndexError, scoring;
        }
        var responded := recorded[index].Get(m);
        if index - blockN < 0 && responded {
          row := row.With(m, FalsePositive);
        } else {
          if index >= |presented| || index - blockN < -|presented| || index - blockN >= |presented| {
            assert !Scorable(recorded, presented, blockN, index, m);
            return RaisesIndexError, scoring;
          }
          var same := presented[index].Get(m) == PyAt(presented, index - blockN).Get(m);
          if responded && !same {
            row := row.With(m, FalsePositive);
          } else if !responded && same {
            row := row.With(m, FalseNegative);
          } else if !responded && !same {
            row := row.With(m, TrueNegative);
          }
        }
      }
      assert CodeScored(recorded, presented, blockN, index, 0, row.Get(0));
      assert CodeScored(recorded, presented, blockN, index, 1, row.Get(1));
      assert row == PerModality(row.Get(0), row.Get(1));
      assert RowScored(recorded, presented, blockN, index, row);
      scoring := scoring[index := row];
    }
    status := Completed;
    forall i, m | 0 <= i < bound && 0 <= m < 2 ensures Scorable(recorded, presented, blockN, i, m) {
      assert RowScored(recorded, presented, blockN, i, scoring[i]);
    }
    var expected := Scores(recorded, presented, blockN, bound);
    forall i | 0 <= i < bound ensures scoring[i] == expected[i] {
      assert RowScored(recorded, presented, blockN, i, scoring[i]);
    }
  }

  /** `v` is the code `_score_block` gives stimulus `i` in modality `m`. */
  ghost predicate CodeScored(recorded: seq<Response>, presented: seq<Stimulus>, n: int, i: int, m: int, v: int)
    requires 0 <= i && 0 <= m < 2
  {
    Scorable(recorded, presented, n, i, m) && v == ScoreAt(recorded, presented, n, i, m)
  }

  ghost predicate RowScored(recorded: seq<Response>, presented: seq<Stimulus>, n: int, i: int, row: Score)
    requires 0 <= i
  {
    Scorable(recorded, presented, n, i, 0) && Scorable(recorded, presented, n, i, 1)
    && row == PerModality(ScoreAt(recorded, presented, n, i, 0), ScoreAt(recorded, presented, n, i, 1))
  }

  // ---------------------------------------------------------------------
  // The score summary

  /** How many entries carry `code` in modality `m`. */
  function Tally(scoring: seq<Score>, m: int, code: int): nat
    requires 0 <= m < 2
  {
    if scoring == [] then 0
    else Tally(scoring[..|scoring| - 1], m, code) + (if scoring[|scoring| - 1].Get(m) == code then 1 else 0)
  }

  /** One modality's counters, named by `key_code_list`. */
  function Tallies(scoring: seq<Score>, m: int): seq<(string, int)>
    requires 0 <= m < 2
  {
    seq(4, k requires 0 <= k < 4 => (KeyCodeList[k], Tally(scoring, m, k)))
  }

  /** The summary with the visual counters over one prefix of the scores and
    * the aural counters over another. */
  function Summarised(visualPart: seq<Score>, auralPart: seq<Score>): Summary {
    [(SubDictNames[0], Tallies(visualPart, 0)), (SubDictNames[1], Tallies(auralPart, 1))]
  }

  /** What `_score_summary` returns. */
  function SummaryOf(scoring: seq<Score>): Summary {
    Summarised(scoring, scoring)
  }

  /** Every scored entry is counted once per modality: the four counters of
    * a modality add up to the number of scored stimuli. */
  lemma {:induction false} TalliesAddUp(scoring: seq<Score>, m: int)
    requires 0 <= m < 2 && ValidScores(scoring)
    ensures Tally(scoring, m, TruePositive) + Tally(scoring, m, TrueNegative)
      + Tally(scoring, m, FalseNegative) + Tally(scoring, m, FalsePositive) == |scoring|
  {
    if scoring != [] {
      var front := scoring[..|scoring| - 1];
      assert ValidScores(front) by {
        forall i | 0 <= i < |front| ensures 0 <= front[i].visual < 4 && 0 <= front[i].aural < 4 {
          assert front[i] == scoring[i];
        }
      }
      TalliesAddUp(front, m);
    }
  }

  /** The counter of one more entry's code goes up by one. */
  lemma TalliesSnoc(scoring: seq<Score>, e: Score, m: int)
    requires 0 <= m < 2 && 0 <= e.Get(m) < 4
    ensures var row, c := Tallies(scoring, m), e.Get(m);
      Tallies(scoring + [e], m) == row[c := (row[c].0, row[c].1 + 1)]
  {
    assert (scoring + [e])[..|scoring|] == scoring;
  }

  /** `_score_summary`: the two modality entries, each with its four
    * counters at zero, then for each entry and each modality the counter
    * named by the entry's code goes up by one. Names in `sub_dict_names`
    * and `key_code_list` are distinct, so the counter named
    * `key_code_list[code]` under `sub_dict_names[m]` is the one at those
    * positions. */
  method ScoreSummary(scoring: seq<Score>) returns (summary: Summary)
    requires ValidScores(scoring)
    ensures summary == SummaryOf(scoring)
  {
    summary := [];
    for k := 0 to 2
      invariant summary == seq(k, j requires 0 <= j < k => (SubDictNames[j], []))
    {
      summary := summary + [(SubDictNames[k], [])];
    }
    for k := 0 to 2
      invariant |summary| == 2
      invariant forall j :: 0 <= j < 2 ==> summary[j] == (SubDictNames[j], if j < k then Zeros(4) else [])
    {
      assert Zeros(0) == [];
      for c := 0 to 4
        invariant |summary| == 2
        invariant forall j :: 0 <= j < 2 ==>
          summary[j] == (SubDictNames[j], if j < k then Zeros(4) else if j == k then Zeros(c) else [])
      {
        assert Zeros(c) + [(KeyCodeList[c], 0)] == Zeros(c + 1);
        summary := summary[k := (summary[k].0, summary[k].1 + [(KeyCodeList[c], 0)])];
      }
    }
    assert Zeros(4) == Tallies([], 0) == Tallies([], 1);
    assert scoring[..0] == [];
    for i := 0 to |scoring|
      invariant summary == Summarised(scoring[..i], scoring[..i])
    {
      var entry := scoring[i];
      assert scoring[..i + 1] == scoring[..i] + [entry];
      for m := 0 to 2
        invariant summary == Summarised(scoring[..if m > 0 then i + 1 else i], scoring[..if m > 1 then i + 1 else i])
      {
        var code := entry.Get(m);
        TalliesSnoc(scoring[..i], entry, m);
        var row := summary[m].1;
        summary := summary[m := (summary[m].0, row[code := (row[code].0, row[code].1 + 1)])];
      }
    }
    assert scoring[..|scoring|] == scoring;
  }

  /** The first `c` counters, all at zero. */
  function Zeros(c: int): seq<(string, int)>
    requires 0 <= c <= 4
  {
    seq(c, k requires 0 <= k < c => (KeyCodeList[k], 0))
  }

  // ---------------------------------------------------------------------
  // The window's state

  /** The results dictionary, filled in when the block ends. */
  datatype Results =
    | NoResults
    | Recorded(recorded: seq<Response>, presented: seq<Stimulus>)
    | Scored(recorded: seq<Response>, presented: seq<Stimulus>, scoring: seq<Score>, scoreSummary: Summary)

  class TaskWindow {
    var blockLength: int
    var blockN: int
    /** The index of the stimulus on screen; -1 before the first. */
    var stimRespIndex: int
    var keypresses: seq<Response>
    var stimBufferLocal: seq<Stimulus>
    var visualKey: int
    var auralKey: int
    var results: Results

    /** A window for one block: no stimulus shown yet, and one response
      * entry per stimulus with neither key pressed. */
    constructor (blockLength: int, blockN: int, stims: seq<Stimulus>, visualKey: int, auralKey: int)
      ensures this.blockLength == blockLength && this.blockN == blockN
      ensures stimBufferLocal == stims && this.visualKey == visualKey && this.auralKey == auralKey
      ensures stimRespIndex == -1 && results == NoResults
      ensures |keypresses| == RangeBound(blockLength)
      ensures forall i :: 0 <= i < |keypresses| ==> keypresses[i] == PerModality(false, false)
    {
      var entries := [];
      for i := 0 to RangeBound(blockLength)
        invariant |entries| == i
        invariant forall j :: 0 <= j < i ==> entries[j] == PerModality(false, false)
      {
        entries := entries + [PerModality(false, false)];
      }
      this.blockLength := blockLength;
      this.blockN := blockN;
      stimRespIndex := -1;
      keypresses := entries;
      stimBufferLocal := stims;
      this.visualKey := visualKey;
      this.auralKey := auralKey;
      results := NoResults;
    }

    /** `keyPressEvent`: the visual key marks a visual response and the
      * aural key an aural one for the stimulus on screen (the last entry
      * before the first stimulus); any other key does nothing. */
    method KeyPressEvent(key: int) returns (status: Status)
      modifies this`keypresses
      ensures status == Completed || status == RaisesIndexError
      ensures status == RaisesIndexError <==>
        (key == visualKey || key == auralKey) && !(-|old(keypresses)| <= stimRespIndex < |old(keypresses)|)
      ensures status == Completed && key == visualKey ==>
        keypresses == Press(old(keypresses), stimRespIndex, 0)
      ensures status == Completed && key != visualKey && key == auralKey ==>
        keypresses == Press(old(keypresses), stimRespIndex, 1)
      ensures (key != visualKey && key != auralKey) || status != Completed ==> keypresses == old(keypresses)
    {
      if key == visualKey || key == auralKey {
        if !(-|keypresses| <= stimRespIndex < |keypresses|) {
          return RaisesIndexError;
        }
        if key == visualKey {
          keypresses := Press(keypresses, stimRespIndex, 0);
          return Completed;
        }
        keypresses := Press(keypresses, stimRespIndex, 1);
      }
      status := Completed;
    }

    /** `present_all_stims`: the next stimulus goes on screen; once the
      * index reaches the block length the block ends instead. */
    method PresentAllStims() returns (status: Status)
      modifies this`stimRespIndex, this`results
      ensures stimRespIndex == old(stimRespIndex) + 1
      ensures stimRespIndex < blockLength ==> results == old(results)
      ensures stimRespIndex < blockLength ==>
        (status == RaisesIndexError <==> !(-|stimBufferLocal| <= stimRespIndex < |stimBufferLocal|))
      ensures stimRespIndex < blockLength ==> status == Completed || status == RaisesIndexError
      ensures stimRespIndex >= blockLength ==> EndedWith(status)
    {
      stimRespIndex := stimRespIndex + 1;
      if stimRespIndex >= blockLength {
        status := TaskEnd();
        return;
      }
      if !(-|stimBufferLocal| <= stimRespIndex < |stimBufferLocal|) {
        return RaisesIndexError;
      }
      // the picture and the sound at `stimRespIndex` are shown and played
      status := Completed;
    }

    /** What `task_end` leaves in the results. */
    ghost predicate EndedWith(status: Status)
      reads this
    {
      (status == Completed || status == RaisesIndexError)
      && (status == Completed <==> AllScorable(keypresses, stimBufferLocal, blockN, RangeBound(blockLength)))
      && (status == Completed ==>
            var scoring := Scores(keypresses, stimBufferLocal, blockN, RangeBound(blockLength));
            results == Scored(keypresses, stimBufferLocal, scoring, SummaryOf(scoring)))
      && (status == RaisesIndexError ==> results == Recorded(keypresses, stimBufferLocal))
    }

    /** `task_end`: the responses and the stimuli go into the results, then
      * the scores and their summary. */
    method TaskEnd() returns (status: Status)
      modifies this`results
      ensures EndedWith(status)
    {
      results := Recorded(keypresses, stimBufferLocal);
      var scoring;
      status, scoring := ScoreBlock(results.recorded, results.presented, blockN, blockLength);
      if status != Completed {
        return;
      }
      ScoresShape(keypresses, stimBufferLocal, blockN, RangeBound(blockLength));
      var summary := ScoreSummary(scoring);
      results := Scored(results.recorded, results.presented, scoring, summary);
    }
  }

  /** Marks a response in modality `m` for the entry at Python index `idx`. */
  function Press(keypresses: seq<Response>, idx: int, m: int): (r: seq<Response>)
    requires -|keypresses| <= idx < |keypresses| && 0 <= m < 2
    ensures |r| == |keypresses|
  {
    var i := if idx < 0 then |keypresses| + idx else idx;
    keypresses[i := keypresses[i].With(m, true)]
  }

  /** A press sets one mark of one entry and nothing else: every other entry
    * and the other modality are as they were, and no mark is ever cleared. */
  lemma PressSetsOneMark(keypresses: seq<Response>, idx: int, m: int)
    requires -|keypresses| <= idx < |keypresses| && 0 <= m < 2
    ensures PyAt(Press(keypresses, idx, m), idx).Get(m)
    ensures PyAt(Press(keypresses, idx, m), idx).Get(1 - m) == PyAt(keypresses, idx).Get(1 - m)
    ensures forall j :: 0 <= j < |keypresses| && j != (if idx < 0 then |keypresses| + idx else idx) ==>
      Press(keypresses, idx, m)[j] == keypresses[j]
  {
  }

  /** The countdown window shown before a block. */
  class CountDown {
    /** Seconds left. */
    var howLong: int
    /** Whether `count_done` was emitted and the timer stopped. */
    var done: bool

    constructor ()
      ensures howLong == 10 && !done
    {
      howLong := 10;
      done := false;
    }

    /** `test_if_end_of_countdown`. */
    method TestIfEndOfCountdown()
      modifies this`done
      ensures done == (old(done) || howLong < 0)
    {
      if howLong < 0 {
        done := true;
      }
    }

    /** `increment_time_left`: one tick of the one-second timer. */
    method IncrementTimeLeft()
      modifies this
      ensures howLong == old(howLong) - 1
      ensures done == (old(done) || howLong < 0)
    {
      howLong := howLong - 1;
      TestIfEndOfCountdown();
    }

    /** The timer firing until the countdown stops it: from a fresh
      * countdown that takes eleven ticks, the last one taking the count
      * below zero. */
    method Run() returns (ticks: nat)
      requires howLong == 10 && !done
      modifies this
      ensures done && howLong == -1 && ticks == 11
    {
      ticks := 0;
      while !done
        invariant howLong == 10 - ticks && howLong >= -1
        invariant done <==> howLong < 0
        decreases howLong + 1
      {
        IncrementTimeLeft();
        ticks := ticks + 1;
      }
    }
  }
}
