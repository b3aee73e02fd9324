# DualNBack core in Dafny

DualNBack is a dual n-back training program. Each block shows the player a
sequence of stimuli. Every stimulus has a picture and a sound. The player
presses one key when the picture equals the one shown n stimuli earlier,
and another key when the sound does. The program then scores the block
and raises or lowers n for the next block.

This project models the parts of the program that decide what is shown
and how it is judged:

- **The stimulus generator** `StimList` (module `StimBuffer`, class
  `StimList`). One class covers both copies of the source:
  `MakeStimBuffer.py`, which reads its settings from the main window, and
  `MakeBuffer/stims.py`, which starts from fixed defaults. A build runs in
  four steps:
  - it lays out the block;
  - it draws the target positions (aural, visual, both);
  - it collects the lag-n cue/target pairs of each channel;
  - it links the pairs into chains, gives every chain one stimulus id, and
    fills the remaining slots with ids that do not repeat at distance n.

  Module `StimValues` holds the value-level definitions these steps are
  proved against. Module `ExactCount` proves what the finished buffers
  contain. Module `StimsTest` models the generator's own test,
  `MakeBuffer/stimsTest.py`.
- **The chain linker** `link_up` (module `LinkUp`). It sorts the pairs,
  then repeatedly takes the smallest remaining pair and extends it with
  every pair whose cue is the chain's current end. The generator's
  `link_up_chains` is the same loop.
- **Block scoring** from `TaskWindow.py` (module `Scoring`): the key-press
  record, the presentation counter, the countdown, `_score_block` and
  `_score_summary`.
- **Settings** (module `Settings`): `SettingsObject`, the validating
  settings dictionary. The class is the same in `DualNBack.py` and
  `DualNBackRewrite.py`; the two copies differ only in a comment.
- **Main-window bookkeeping** from `DualNBack.py` (module `MainWindow`):
  - `_change_n`, the adaptive rule that moves n;
  - the list of named settings sets and the dictionary that holds them;
  - the logged-in toggle.

**How the Python is represented.**
- Python's exceptions become the `Status` values of module `Outcomes`:
  `RaisesValueError`, `RaisesIndexError`, `RaisesKeyError`,
  `RaisesTypeError`.
- A loop that can never exit becomes `NeverReturns`.
- `randrange` becomes a nondeterministic choice. A rejection loop is
  modelled by its outcome: an accepted value when one exists, otherwise
  `NeverReturns`.
- Indexing keeps Python's negative-index behaviour wherever the source can
  reach it (`PyAt`).
- A settings dictionary is an object (`Settings.SettingsSet`), as in
  Python: loading a named set shares the stored object with the working
  settings, so a later setter call changes the stored set as well.

## Model

| member | source | states |
|---|---|---|
| LinkUp.SortPairs | MakeBuffer/linkup.py:6-7 | `list.sort()` on pairs: the result is ordered by cue, then by target, and is a permutation of the input |
| LinkUp.SortKeepsSorted | MakeBuffer/linkup.py:6-7 | sorting an already ordered pair list returns it unchanged |
| LinkUp.PairList.constructor | MakeBuffer/linkup.py:1 | the caller's list object holds the given pairs |
| LinkUp.LinkUp | MakeBuffer/linkup.py:1-50 | `link_up` empties the caller's list and returns the chains of the sorted input |
| LinkUp.SweepOnce | MakeBuffer/linkup.py:25-38 | one pass of the inner `for`: every pair whose cue is the chain's current end, in list order, appends its target and is marked for popping |
| LinkUp.PopEach | MakeBuffer/linkup.py:40-45 | `pop(index(pair))` for each marked pair removes exactly one occurrence of each from the list |
| LinkUp.IndexOf | MakeBuffer/linkup.py:45 | `list.index` returns the first position holding the pair |
| LinkUp.RemoveFirstCount | MakeBuffer/linkup.py:45 | popping at `index(pair)` removes one copy of that pair and nothing else |
| LinkUp.RemoveEachCount | MakeBuffer/linkup.py:40-45 | popping the marked pairs shrinks the list by exactly their multiset |
| LinkUp.SweepTakesFromList | MakeBuffer/linkup.py:29-34 | every marked pair is taken from the list being scanned |
| LinkUp.SweepEdges | MakeBuffer/linkup.py:29-34 | each appended target adds exactly the marked pair as a new link of the chain |
| LinkUp.SweepStops | MakeBuffer/linkup.py:23-38 | a pass that marks nothing leaves no pair whose cue is the chain's end |
| LinkUp.GrowEdges | MakeBuffer/linkup.py:21-45 | the `check_again` loop conserves pairs: the chain's links plus the pairs left equal the links it started with plus the list |
| LinkUp.GrowStops | MakeBuffer/linkup.py:21-45 | when the `check_again` loop ends, no remaining pair continues the chain |
| LinkUp.ChainsCover | MakeBuffer/linkup.py:13-50 | the links of all chains are exactly the input pairs, as a multiset |
| LinkUp.ChainsUseEveryPairOnce | MakeBuffer/linkup.py:13-50 | every pair is used exactly once as a link, the number of links equals the number of pairs, and every chain has at least two entries |
| LinkUp.SeedIsPair | MakeBuffer/linkup.py:15 | each chain starts with one whole input pair |
| LinkUp.SeedBelowLaterLinks | MakeBuffer/linkup.py:13-19 | chains start from the smallest pair left: on sorted input, the starting pair of an earlier chain is at most every link of a later chain |
| LinkUp.ChainsAreMaximal | MakeBuffer/linkup.py:21-47 | a chain is closed only when nothing extends it: no link of a later chain starts at an earlier chain's end |
| LinkUp.LinkIsInput | MakeBuffer/linkup.py:29-34 | every link of every chain is an input pair |
| LinkUp.FindLink | MakeBuffer/linkup.py:13-50 | every input pair appears as two consecutive entries of some chain |
| LinkUp.AtMostOnce | MakeBuffer/linkup.py:9-11 | when all cues are distinct, each pair occurs at most once |
| LinkUp.SharedLink | MakeBuffer/linkup.py:9-11 | when all cues are distinct, two chains never share a link |
| LinkUp.ChainStep | MakeBuffer/stims.py:117-124 | on the generator's pairs `[i - n, i]`, consecutive chain entries are n apart |
| LinkUp.Progression | MakeBuffer/stims.py:117-124 | such a chain is the arithmetic progression first entry + k·n |
| LinkUp.ChainsDisjoint | MakeBuffer/linkup.py:9-11 | with distinct cues and lag n ≥ 1, no position lies in two chains, so chains never overwrite each other's slots |
| LinkUp.DistinctPositions | MakeBuffer/linkup.py:9-11 | the same fact stated entry by entry: entries of two different chains differ |
| LinkUp.FirstMeetsLast | MakeBuffer/linkup.py:9-11 | with distinct cues and lag n ≥ 1, a chain never starts where a later chain ends |
| StimValues.FreshIndexList | MakeBuffer/stims.py:74-87 | after `make_index_list` the eligible positions are exactly n … n + length − 1, in ascending order |
| StimValues.KindCounts | MakeBuffer/stims.py:93-95 | the kinds to place hold max(0, target count) of aural, of visual and of both |
| StimValues.DrawStep | MakeBuffer/stims.py:95-102 | one `pop(randrange(...))` removes one eligible position, labels it with the current kind, and keeps the eligible list ascending |
| StimValues.LabelCounts | MakeBuffer/stims.py:89-102 | labelling distinct unlabelled positions raises each kind's count by exactly the number of labels of that kind |
| StimValues.DrawnDistinct | MakeBuffer/stims.py:98-99 | positions drawn from an ascending list without replacement are distinct and were all eligible |
| StimValues.PlacedFacts | MakeBuffer/stims.py:89-102 | after all draws, the placement holds each kind's target count, all at positions ≥ n |
| StimValues.PlacedCounts | MakeBuffer/stims.py:89-102 | the placement's count of each kind equals that kind's target count |
| StimValues.ChannelPairsFacts | MakeBuffer/stims.py:111-124 | the pairs of a channel are `[j - n, j]` for exactly the positions j labelled in that channel (its own kind or both), with strictly ascending cues |
| StimValues.ChainValuesSnoc | MakeBuffer/stims.py:143-154 | a value drawn until it differs from the last one used extends a valid value list: in the pool, consecutive chains differ |
| StimValues.WriteChainAt | MakeBuffer/stims.py:150-152 | writing a chain sets exactly the chain's slots |
| StimValues.WriteChainsAt | MakeBuffer/stims.py:141-154 | with disjoint chains, every slot of chain k holds chain k's value and every other slot is unchanged |
| StimValues.WrittenUnsetWasUnset | MakeBuffer/stims.py:141-154 | writing chains never creates an unset slot and never takes away an unset slot's neighbour |
| StimValues.AcceptMeaning | MakeBuffer/stims.py:196-210 | the three-case test in `_fill_non_matches` accepts a candidate iff a slot n away exists and the candidate differs from every slot n away |
| StimValues.NoNeighbourNoCandidate | MakeBuffer/stims.py:196-214 | a slot with no slot n away on either side accepts no candidate, so the loop never ends |
| StimValues.PoolOfTwoStuck | MakeBuffer/stims.py:196-214 | with two stimuli and two different neighbours, no candidate is accepted |
| StimValues.PoolOfThreeSuffices | MakeBuffer/stims.py:196-214 | with three or more stimuli, a slot with a neighbour always accepts some candidate |
| StimValues.FillDone | MakeBuffer/stims.py:175-217 | a finished fill gives every unset slot an accepted value from the pool and keeps every other slot |
| StimValues.FillNoClash | MakeBuffer/stims.py:175-217 | a slot the fill wrote never equals the slot n before it |
| StimValues.FilledNeighboured | MakeBuffer/stims.py:175-217 | a fill can finish only when every unset slot has a slot n away |
| StimValues.FillNoSentinel | MakeBuffer/stims.py:175-217 | after a finished fill, every slot holds an id from the pool |
| StimValues.FreshNeighboured | MakeBuffer/stims.py:74-87 | when n ≤ block length, every slot of a fresh buffer has a slot n away |
| ExactCount.GeneratorChains | MakeBuffer/stims.py:111-128 | the generator's pairs for lag n ≥ 1 are lagged by n, have strictly ascending cues, are already sorted, and their chains are pairwise disjoint |
| ExactCount.Apart | MakeBuffer/stims.py:111-128 | two different chains of the generator's pairs share no position |
| ExactCount.AdjacentChains | MakeBuffer/stims.py:111-131 | with lag 1, a position one after a chain entry is the next entry of that chain or lies in the very next chain |
| ExactCount.NoChainBetween | MakeBuffer/stims.py:111-131 | with lag 1, a chain that starts right after an earlier chain's position is the next chain in order |
| ExactCount.LabelledRepeats | MakeBuffer/stims.py:104-154 | in a built buffer, every target slot of the channel repeats the value n slots back |
| ExactCount.NoSentinelLeft | MakeBuffer/stims.py:175-217 | every slot of a built buffer is a stimulus id from the channel's pool |
| ExactCount.RepeatIsLabelled | MakeBuffer/stims.py:135-217 | with lag 1, a repeat of the previous value happens only at a target slot of the channel |
| ExactCount.TargetCounts | MakeBuffer/stims.py:89-102 | the placement labels own + both positions per channel and `both` positions jointly |
| ExactCount.AtLeastTargets | MakeBuffer/stims.py:270-275 | for every n, each channel repeats at least its own plus the `both` target count, and both channels repeat together at least `both` times |
| ExactCount.ExactTargets | MakeBuffer/stimsTest.py:6-56 | for n = 1 the counts are exact: aural + both, visual + both, and both |
| ExactCount.GeneratedInPool | MakeBuffer/stims.py:270-275 | every slot of both built buffers is an id from that channel's pool |
| StimBuffer.StimList.Defaults | MakeBuffer/stims.py:5-15 | the standalone defaults: n = 1, length 20, targets 4/4/2, eight stimuli per channel, nothing built |
| StimBuffer.StimList.FromSettings | MakeStimBuffer.py:9-27 | a generator built from the main window's n, block length, targets and number of stimuli |
| StimBuffer.StimList.RefreshAttributes | MakeStimBuffer.py:29-44 | re-reads the settings and empties every built list |
| StimBuffer.StimList.SetN | MakeBuffer/stims.py:64-67 | sets n |
| StimBuffer.StimList.SetLength | MakeBuffer/stims.py:69-72 | sets the block length |
| StimBuffer.StimList.SetWorkingTotalStims | MakeBuffer/stims.py:58-62 | sets one channel's number of stimuli and leaves the other's |
| StimBuffer.StimList.MakeIndexList | MakeBuffer/stims.py:74-87 | appends length + n unset slots to both buffers and to the placement, and keeps the indexes from n on as eligible |
| StimBuffer.StimList.PlaceTargets | MakeBuffer/stims.py:89-102 | raises `ValueError` exactly when fewer positions are eligible than targets are asked for; otherwise the draws label the positions and keep the eligible list ascending |
| StimBuffer.StimList.PlaceKind | MakeBuffer/stims.py:93-102 | places all targets of one kind, or reports that the eligible list ran out |
| StimBuffer.StimList.DrawPosition | MakeBuffer/stims.py:95-102 | one draw keeps the drawing invariant |
| StimBuffer.StimList.ScanPairs | MakeBuffer/stims.py:107-124 | raises `IndexError` exactly when the placement is shorter than n + length; otherwise returns each channel's lag-n pairs |
| StimBuffer.StimList.CollectPairs | MakeBuffer/stims.py:107-124 | as `ScanPairs`, and the pair lists are sorted with chains inside the buffers |
| StimBuffer.StimList.PlaceStims | MakeBuffer/stims.py:104-133 | `IndexError` exactly when the placement is too short; on completion each buffer is its chains' values plus a fill; with pools of at least three and a neighbour for every unset slot it always completes |
| StimBuffer.StimList.ChainAndFill | MakeBuffer/stims.py:126-133 | links and pairs both channels, then fills; on completion each channel's outcome holds; with pools ≥ 3 and neighboured slots it completes |
| StimBuffer.StimList.FillChains | MakeBuffer/stims.py:133 | the fill after pairing; on completion each channel's outcome holds |
| StimBuffer.StimList.PairChannels | MakeBuffer/stims.py:129-131 | pairs aural, then visual; each buffer becomes its chains written with valid values; with pools ≥ 3 it completes |
| StimBuffer.StimList.LinkAndPair | MakeBuffer/stims.py:126-131 | links one channel's pairs and writes each chain one value; the other channel is untouched |
| StimBuffer.StimList.PairCueTargets | MakeBuffer/stims.py:135-154 | `ValueError` exactly when there are chains and the pool is empty; never returns exactly when there are two or more chains and only one stimulus; otherwise each chain gets one pool value, different from the previous chain's |
| StimBuffer.StimList.WriteNextChain | MakeBuffer/stims.py:150-154 | writes the next chain's value and records it |
| StimBuffer.StimList.WriteChainInPlace | MakeBuffer/stims.py:150-152 | the inner `for index in chain` writes the value at every chain slot |
| StimBuffer.StimList.SetSlot | MakeBuffer/stims.py:152 | one buffer slot is written and the other buffer is untouched |
| StimBuffer.StimList.FillChannel | MakeBuffer/stims.py:181-217 | `ValueError` exactly when the pool is empty and a slot is unset; never returns when some unset slot has no neighbour; otherwise fills as `FillDone`; with pool ≥ 3 and neighboured slots it completes |
| StimBuffer.StimList.FillNonMatches | MakeBuffer/stims.py:175-217 | fills aural, then visual; on completion both buffers are fills of their previous contents |
| StimBuffer.StimList.MakeBuffer | MakeBuffer/stims.py:270-275 | `ValueError` when the block is too short for the targets; on completion the placement and buffers are a generated block; with room for the targets, n ≤ length and pools ≥ 3 it always completes |
| StimBuffer.StimList.MakeTargets | MakeBuffer/stims.py:270-274 | `make_index_list` then `place_targets`: `ValueError` exactly when the block is too short; the buffers are all unset and the targets placed |
| StimBuffer.StimList.RefreshAndMakeBuffer | MakeStimBuffer.py:297-303 | refreshes from the settings, then builds, with the same outcome as `MakeBuffer` |
| StimsTest.CountMatches | MakeBuffer/stimsTest.py:10-37 | the tallies are the lag-n repeats of each buffer and the positions where both repeat |
| StimsTest.HelperTestBuffers | MakeBuffer/stimsTest.py:6-56 | passes iff each channel repeats own + both targets and both repeat `both` times; raises each channel's stored target by `both` as it goes |
| StimsTest.BuildDefaults | MakeBuffer/stimsTest.py:62-63 | a default generator after `make_buffer` has six repeats per channel and two joint ones |
| StimsTest.DefaultsExact | MakeBuffer/stimsTest.py:58-66 | on the defaults, `make_buffer` always completes and the buffers meet the test's counts |
| StimsTest.BuildAndCheck | MakeBuffer/stimsTest.py:62-66 | one round of the test passes |
| StimsTest.TestBuffers | MakeBuffer/stimsTest.py:58-66 | all thirty thousand rounds pass |
| Scoring.Code | TaskWindow.py:283-323 | the code `_score_block` gives one modality of one stimulus, stated as a verdict: a response is right iff the stimulus is not early and repeats the one n back; silence is right iff the stimulus differs from the one n back under Python indexing |
| Scoring.IntendedCode | TaskWindow.py:264-271 | the docstring's rule: a response is right iff the stimulus repeats, silence is right iff it does not, and nothing before the n-th stimulus repeats |
| Scoring.CodeAgreesExceptEarlySilence | TaskWindow.py:283-323 | the code and the docstring's rule differ exactly on an unanswered stimulus before the n-th that equals the stimulus counted back from the end |
| Scoring.EarlySilenceScoredAsMiss | TaskWindow.py:306-313 | with n = 1 and visual ids 5, 7, 5 and no presses, the first stimulus is scored a false negative, where the intended code is a true negative |
| Scoring.ScoresShape | TaskWindow.py:275-300 | one score per stimulus, every code in 0..3, and a response before the n-th stimulus is always a false positive |
| Scoring.ScoreBlock | TaskWindow.py:264-327 | raises `IndexError` exactly when some looked-up response or stimulus is missing; otherwise returns the per-stimulus codes of `Code` |
| Scoring.TalliesAddUp | TaskWindow.py:353-361 | in each modality the four counters sum to the number of scored stimuli |
| Scoring.TalliesSnoc | TaskWindow.py:353-361 | one more score raises exactly the counter named by its code |
| Scoring.ScoreSummary | TaskWindow.py:329-365 | the summary maps `visual` and `aural` to the four key-code counters, in insertion order, counting the scores |
| Scoring.TaskWindow.constructor | TaskWindow.py:91-142 | response index −1, no results, and one unpressed key record per stimulus of the block |
| Scoring.TaskWindow.KeyPressEvent | TaskWindow.py:165-188 | the visual key marks the visual response of the current stimulus, else the aural key marks the aural one; other keys change nothing; an index outside the record raises `IndexError` |
| Scoring.PressSetsOneMark | TaskWindow.py:178-188 | a press sets its modality's mark at the current stimulus and changes no other mark |
| Scoring.TaskWindow.PresentAllStims | TaskWindow.py:233-251 | advances the index; past the block it calls `task_end`, otherwise it looks up the next stimulus and raises `IndexError` when it is missing |
| Scoring.TaskWindow.TaskEnd | TaskWindow.py:382-400 | records the responses and the stimuli, scores the block and summarises the scores |
| Scoring.CountDown.constructor | TaskWindow.py:30 | the countdown starts at 10 seconds |
| Scoring.CountDown.TestIfEndOfCountdown | TaskWindow.py:53-61 | the countdown is done once the time left is below zero |
| Scoring.CountDown.IncrementTimeLeft | TaskWindow.py:63-70 | one tick takes a second off and tests for the end |
| Scoring.CountDown.Run | TaskWindow.py:47-70 | ticking from 10 ends after eleven ticks at −1 |
| Settings.Convert | DualNBack.py:136-172 | a tuple is kept iff it has three non-negative `int`s, other tuples raise `ValueError`; any other value is stored as `int(value)`, and a failing `int()` raises `TypeError` |
| Settings.ConvertAcceptsWhatItStored | DualNBack.py:136-172 | handing an accepted value back to a setter stores the same value |
| Settings.SettingsObject.constructor | DualNBack.py:38-46 | the dictionary starts empty |
| Settings.SettingsObject.SetSettingsBaseDict | DualNBack.py:48-55 | the caller's dictionary object itself becomes the working settings, unchecked and not copied |
| Settings.SettingsObject.GetSettingsBaseDict | DualNBack.py:178-181 | returns the working dictionary object itself, not a copy |
| Settings.SettingsObject.ChangeSpecificSetting | DualNBack.py:136-172 | stores the converted value under the key of the working dictionary object, or raises the conversion's error and changes nothing |
| Settings.SettingsObject.SetN | DualNBack.py:57-62 | `current_n` is set through the validating helper |
| Settings.SettingsObject.SetNumberTargets | DualNBack.py:64-70 | `number_of_targets` is set through the validating helper |
| Settings.SettingsObject.SetBlockBeforeN | DualNBack.py:72-79 | `session_length_before_n` is set through the validating helper |
| Settings.SettingsObject.SetTotalSessionBlocks | DualNBack.py:81-88 | `session_blocks` is set through the validating helper |
| Settings.SettingsObject.SetInterstimTime | DualNBack.py:90-96 | `interstim_time` is set through the validating helper |
| Settings.SettingsObject.SetStimExposureTime | DualNBack.py:98-104 | `stim_time` is set through the validating helper |
| Settings.SettingsObject.SetBgColour | DualNBack.py:106-112 | `background_colour` is set through the validating helper |
| Settings.SettingsObject.SetTgColour | DualNBack.py:114-120 | `target_colour` is set through the validating helper |
| Settings.SettingsObject.SetFxColour | DualNBack.py:122-128 | `fixator_colour` is set through the validating helper |
| Settings.SettingsObject.SetFxSize | DualNBack.py:130-134 | `fixator_size` is set through the validating helper |
| Settings.SettingsObject.Lookup | DualNBack.py:183-246 | a getter returns the stored value iff its key is present, and raises `KeyError` otherwise |
| Settings.TotalBlockLength | DualNBack.py:201-205 | `KeyError` iff n or the block length is missing; with both integers, their sum |
| Settings.TotalAfterSetters | DualNBack.py:57-79 | after setting n and the block length to integers, the total block length is their sum |
| MainWindow.NextN | DualNBack.py:889-901 | n goes up by one iff there were fewer than 3 mistakes, down by one iff n > 1 and there were more than 5, and otherwise stays; n ≥ 1 is kept |
| MainWindow.KeyCodeMistakes | DualNBack.py:884 | of the four key-code names, exactly the two false ones contain `false` |
| MainWindow.RowIncorrectOfTallies | DualNBack.py:880-886 | one modality's mistakes are its false negatives plus its false positives |
| MainWindow.IncorrectOfSummary | DualNBack.py:877-886 | the mistakes counted from a score summary are the false negatives and false positives of both modalities |
| MainWindow.DualNBackMainWindow.ChangeN | DualNBack.py:874-904 | `KeyError` iff n is missing, `TypeError` iff it is not an integer; otherwise n becomes `NextN` of the summary's mistakes in the working dictionary object, and a stored set that is that object holds the new n too; every other stored set is unchanged |
| MainWindow.StripStart | DualNBack.py:1705 | removes exactly the leading whitespace |
| MainWindow.StripEnd | DualNBack.py:1705 | removes exactly the trailing whitespace |
| MainWindow.Primed | DualNBack.py:1713 | each `-PRIME` adds six characters |
| MainWindow.PrimeUntilFree | DualNBack.py:1703-1713 | the name is the first primed form that is neither taken nor empty; every shorter form was taken or empty |
| MainWindow.IndexOf | DualNBack.py:1680-1681 | `list.index` returns the first position holding the name |
| MainWindow.RemoveFirstMembers | DualNBack.py:1783-1784 | removing a name from a duplicate-free list leaves exactly the other names, still without duplicates |
| MainWindow.DefaultFirst | DualNBack.py:1678-1683 | moving `default` to the front keeps the same names with the same multiplicities, and no duplicates when there were none |
| MainWindow.DualNBackMainWindow.constructor | DualNBack.py:343-375 | logged out, an empty list of names, an empty settings object, and `default` as the current set |
| MainWindow.DualNBackMainWindow.GetAllSessionSettings | DualNBack.py:1666-1685 | appends the loaded names; `ValueError` iff `default` is not among them; otherwise `default` moves to the front and the loaded dictionary is kept; a fresh list stays consistent with the dictionary |
| MainWindow.DualNBackMainWindow.AddSessionSettings | DualNBack.py:1694-1754 | saves a new dictionary object under the chosen name, or, for a new set, under the stripped typed name with the fewest `-PRIME` suffixes that make it neither listed nor empty, so the working settings are no longer stored under it; the name is appended only when new; list and dictionary stay consistent |
| MainWindow.DualNBackMainWindow.LoadSessionSettings | DualNBack.py:1756-1772 | the stored dictionary object itself becomes the working settings, so later setters write through to it; `KeyError` iff it does not exist |
| MainWindow.ReloadAfterChangeN | DualNBack.py:1770-1772 | after a load and a `_change_n`, loading the same name again brings back the new n |
| MainWindow.DualNBackMainWindow.DeleteSessionSettings | DualNBack.py:1774-1797 | an unknown name changes nothing; otherwise the name leaves the list; if the dictionary lacks it, `KeyError` with the current name and working settings unchanged; else it leaves the dictionary, the current set becomes `default`, and the status is `Completed` with `default` loaded, or `KeyError` with the working settings unchanged exactly when `default` is missing; consistency is kept |
| MainWindow.DualNBackMainWindow.LogInOutUpdate | DualNBack.py:1911-1924 | the logged-in flag flips, and the logout action and launch button follow it |

## Left out

- Qt is not modelled: widgets, signals (`settings_changed_signal`, `task_done`, `count_done`), timers, the log widget and the status bar. Their effects on the modelled state come in as parameters or are dropped.
- Pictures and sounds are not modelled. `_make_stimulus_objects` (MakeStimBuffer.py:62-91), `_place_stimulus_objects` and `get_buffers` (MakeStimBuffer.py:270-295) turn ids into objects; `TaskWindow` is modelled on the ids.
- File I/O is not modelled. `_save_session_settings` pickles to disk. The dictionary that `_get_all_session_settings` unpickles is a parameter.
- The user database, login dialogs and `run_session` are outside the modelled core.
- `_pair_cue_targets_helper` (MakeBuffer/stims.py:157-173) is never called, so it is not modelled.
- The `__main__` block of `MakeBuffer/linkup.py` (lines 57-61) runs one literal example. That example is not modelled.
- The value getters are modelled as one lookup (`Settings.SettingsObject.Lookup`) plus `Settings.TotalBlockLength`. `get_settings_base_dict` is `Settings.SettingsObject.GetSettingsBaseDict`: its docstring promises a copy, but the code returns the live dictionary, and the model follows the code. The setter's `new_size=0` default is the caller's business.
- `randrange` is not modelled as a distribution. Each draw is a nondeterministic choice, and no probability is stated.
- StimBuffer.StimList: n is a `nat`. A negative n would make Python slice and index from the end; that case is not modelled.
- StimBuffer.StimList.MakeBuffer requires a freshly built object. The standalone `make_buffer` does not reset the lists, so a second call on the same object appends a second block; that reuse is not modelled.
- StimBuffer.StimList.PlaceStims requires every label to sit at a position ≥ n, which `make_index_list` establishes. A placement relabelled by hand after a `set_n` is not modelled.
- ExactCount.AtLeastTargets: for n ≥ 2 only the lower bound is proved. `pair_cue_targets` only keeps consecutive chains apart, and two chains n slots apart that are not consecutive in chain order can receive the same value. The exact count is proved for n = 1 (`ExactCount.ExactTargets`), the lag the generator's own test uses.
- MainWindow.DualNBackMainWindow.LoadSessionSettings: the branch that first reads the name from the settings window's combo box is not modelled. The current set name is used as it stands.
- MainWindow.DualNBackMainWindow.AddSessionSettings: the source stores the settings window's widget objects themselves (spin boxes, line edits and colours, DualNBack.py:1721-1741), so the saved set holds Qt objects, not integers or tuples, and those objects are what `_save_session_settings` pickles. The model stores a dictionary of the values those widgets hold instead.
- MainWindow.DualNBackMainWindow.constructor: the source sets `all_session_settings` to `None` and then loads it from disk at once; the model starts from an empty dictionary.
- Scoring.CountDown.Run stands for the one-second timer calling `increment_time_left` until the countdown closes.
- Scoring.TaskWindow.TaskEnd: logging and the `task_done` signal are not modelled.

## Findings

| source | as written | input that shows it | evidently intended | confidence | as-written member | corrected member |
|---|---|---|---|---|---|---|
| TaskWindow.py:283-323 | an unanswered stimulus before the n-th one is compared with `presented[index - n]`, a negative index that counts from the end, and is scored a false negative when the two are equal | n = 1, visual ids 5, 7, 5, no key pressed: stimulus 0 equals stimulus −1 (the last), so it is scored 2 (false negative) | nothing before the n-th stimulus can repeat, so silence there is a true negative (code 1), as the docstring's rules say | not executed | Scoring.EarlySilenceScoredAsMiss | Scoring.IntendedCode |

`Scoring.ScoreBlock` follows the code as written, so that the scores it
returns are the ones the program logs. `Scoring.IntendedCode` states the
corrected rule. `Scoring.CodeAgreesExceptEarlySilence` proves that the two
rules differ on exactly this case.
