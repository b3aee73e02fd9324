/** The bookkeeping of `DualNBackMainWindow` in `DualNBack.py`: the rule
  * that moves n between blocks, the list of named settings sets next to the
  * dictionary that holds them, and the logged-in flag. Widgets, pickling
  * and the log window are left out; what they supply (the loaded
  * dictionary, the text typed into the dialog) comes in as parameters.
  */
module MainWindow {
  import opened Outcomes
  import opened Settings
  import opened Scoring

  /** `next_block_change_n`. */
  const MistakesLessThan := 3
  const IncreaseNBy := 1
  const MistakesGreaterThan := 5
  const DecreaseNBy := 1

  const Default := "default"
  const SaveUnderNewName := "Save under a new name"
  const PrimeSuffix := "-PRIME"

  // ---------------------------------------------------------------------
  // The adaptive n rule

  /** `t` occurs in `s` starting at position `i`. */
  predicate OccursAt(s: string, t: string, i: int)
    requires 0 <= i <= |s| - |t|
  {
    s[i..i + |t|] == t
  }

  /** Python's `t in s` on strings: `t` occurs in `s`. */
  predicate Contains(s: string, t: string) {
    exists i :: 0 <= i <= |s| - |t| && OccursAt(s, t, i)
  }

  /** A string without the letter `f` does not contain `"false"`. */
  lemma NoFalseWithoutF(s: string)
    requires 'f' !in s
    ensures !Contains(s, "false")
  {
    forall i | 0 <= i <= |s| - 5 ensures !OccursAt(s, "false", i) {
      assert s[i..i + 5][0] == s[i];
    }
  }

  /** A string that starts with the letters of `false` contains it. */
  lemma FalseFirst(s: string)
    requires |s| >= 5 && s[0] == 'f' && s[1] == 'a' && s[2] == 'l' && s[3] == 's' && s[4] == 'e'
    ensures Contains(s, "false")
  {
    assert OccursAt(s, "false", 0);
  }

  /** The count of one result when its name contains `"false"`, else 0. */
  function Mistakes(entry: (string, int)): int {
    if Contains(entry.0, "false") then entry.1 else 0
  }

  /** The counts of one modality under result names containing `"false"`. */
  function RowIncorrect(row: seq<(string, int)>): int {
    if row == [] then 0 else RowIncorrect(row[..|row| - 1]) + Mistakes(row[|row| - 1])
  }

  /** `incorrect` in `_change_n`: the counts under result names containing
    * `"false"`, over every modality. */
  function Incorrect(scoreData: Summary): int {
    if scoreData == [] then 0
    else Incorrect(scoreData[..|scoreData| - 1]) + RowIncorrect(scoreData[|scoreData| - 1].1)
  }

  /** The mistakes of a scored block are its false negatives and false
    * positives, in both modalities. */
  lemma IncorrectOfSummary(scoring: seq<Score>)
    ensures Incorrect(SummaryOf(scoring))
      == Tally(scoring, 0, FalseNegative) + Tally(scoring, 0, FalsePositive)
       + Tally(scoring, 1, FalseNegative) + Tally(scoring, 1, FalsePositive)
  {
    var summary := SummaryOf(scoring);
    assert summary[..1][..0] == [] && summary[..2][..1] == summary[..1] && summary[..2] == summary;
    assert Incorrect(summary[..1]) == RowIncorrect(Tallies(scoring, 0));
    assert Incorrect(summary) == Incorrect(summary[..1]) + RowIncorrect(Tallies(scoring, 1));
    RowIncorrectOfTallies(scoring, 0);
    RowIncorrectOfTallies(scoring, 1);
  }

  lemma RowIncorrectOfTallies(scoring: seq<Score>, m: int)
    requires 0 <= m < 2
    ensures RowIncorrect(Tallies(scoring, m)) == Tally(scoring, m, FalseNegative) + Tally(scoring, m, FalsePositive)
  {
    var row := Tallies(scoring, m);
    RowOfFour(row);
    KeyCodeMistakes();
  }

  /** Only the two key codes that start with `false` name mistakes. */
  lemma KeyCodeMistakes()
    ensures !Contains(KeyCodeList[TruePositive], "false") && !Contains(KeyCodeList[TrueNegative], "false")
    ensures Contains(KeyCodeList[FalseNegative], "false") && Contains(KeyCodeList[FalsePositive], "false")
  {
    NoFalseWithoutF(KeyCodeList[TruePositive]);
    NoFalseWithoutF(KeyCodeList[TrueNegative]);
    FalseFirst(KeyCodeList[FalseNegative]);
    FalseFirst(KeyCodeList[FalsePositive]);
  }

  lemma RowOfFour(row: seq<(string, int)>)
    requires |row| == 4
    ensures RowIncorrect(row) == Mistakes(row[0]) + Mistakes(row[1]) + Mistakes(row[2]) + Mistakes(row[3])
  {
    assert row[..1][..0] == [] && row[..2][..1] == row[..1] && row[..3][..2] == row[..2] && row[..4] == row;
    assert RowIncorrect(row[..1]) == Mistakes(row[0]);
    assert RowIncorrect(row[..2]) == RowIncorrect(row[..1]) + Mistakes(row[1]);
    assert RowIncorrect(row[..3]) == RowIncorrect(row[..2]) + Mistakes(row[2]);
  }

  /** The n of the next block: one more after fewer than three mistakes,
    * one less after more than five unless n is already 1 or less. */
  function NextN(presentN: int, incorrect: int): (r: int)
    ensures r == presentN + 1 <==> incorrect < MistakesLessThan
    ensures r == presentN - 1 <==> presentN > 1 && incorrect > MistakesGreaterThan
    ensures r == presentN || r == presentN + 1 || r == presentN - 1
    ensures presentN >= 1 ==> r >= 1
  {
    if incorrect < MistakesLessThan then presentN + IncreaseNBy
    else if presentN > 1 && incorrect > MistakesGreaterThan then presentN - DecreaseNBy
    else presentN
  }

  // ---------------------------------------------------------------------
  // Names of settings sets

  /** `str.isspace` for one character. */
  predicate IsSpace(c: char) {
    c == ' ' || ('\t' <= c <= '\r') || ('\U{1C}' <= c <= '\U{1F}') || c == '\U{85}' || c == '\U{A0}'
    || c == '\U{1680}' || ('\U{2000}' <= c <= '\U{200A}') || c == '\U{2028}' || c == '\U{2029}'
    || c == '\U{202F}' || c == '\U{205F}' || c == '\U{3000}'
  }

  /** `str.lstrip()`: the longest suffix that does not start with white
    * space, everything before it being white space. */
  function StripStart(s: string): (r: string)
    ensures |r| <= |s| && r == s[|s| - |r|..]
    ensures r == [] || !IsSpace(r[0])
    ensures forall k :: 0 <= k < |s| - |r| ==> IsSpace(s[k])
    decreases |s|
  {
    if |s| > 0 && IsSpace(s[0]) then StripStart(s[1..]) else s
  }

  /** `str.rstrip()`: the longest prefix that does not end with white
    * space, everything after it being white space. */
  function StripEnd(s: string): (r: string)
    ensures |r| <= |s| && r == s[..|r|]
    ensures r == [] || !IsSpace(r[|r| - 1])
    ensures forall k :: |r| <= k < |s| ==> IsSpace(s[k])
    decreases |s|
  {
    if |s| > 0 && IsSpace(s[|s| - 1]) then StripEnd(s[..|s| - 1]) else s
  }

  /** `str.strip()`. */
  function Strip(s: string): string {
    StripEnd(StripStart(s))
  }

  /** The name after `primes` rounds of appending `"-PRIME"`. */
  function Primed(base: string, primes: nat): (r: string)
    ensures |r| == |base| + 6 * primes
  {
    if primes == 0 then base else Primed(base, primes - 1) + PrimeSuffix
  }

  /** A name the dialog may not save a new set under. */
  predicate Taken(name: string, names: seq<string>) {
    name in names || name == ""
  }

  function MaxLen(names: seq<string>): (r: nat)
    ensures forall k :: 0 <= k < |names| ==> |names[k]| <= r
  {
    if names == [] then 0
    else var rest := MaxLen(names[1..]); if |names[0]| > rest then |names[0]| else rest
  }

  lemma NoLongerThanMax(names: seq<string>, name: string)
    requires name in names
    ensures |name| <= MaxLen(names)
  {
    var k :| 0 <= k < |names| && names[k] == name;
  }

  /** The name loop of `_add_session_settings` for a new set, after the
    * typed name is stripped: append `"-PRIME"` until the name is neither
    * empty nor already listed. The result is the first such candidate. */
  method PrimeUntilFree(base: string, names: seq<string>) returns (name: string, ghost primes: nat)
    ensures name == Primed(base, primes) && !Taken(name, names)
    ensures forall j :: 0 <= j < primes ==> Taken(Primed(base, j), names)
  {
    name := base;
    primes := 0;
    while name in names || name == ""
      invariant name == Primed(base, primes)
      invariant forall j :: 0 <= j < primes ==> Taken(Primed(base, j), names)
      decreases MaxLen(names) - |name|
    {
      if name in names {
        NoLongerThanMax(names, name);
      }
      name := name + PrimeSuffix;
      primes := primes + 1;
    }
  }

  predicate NoDuplicates(names: seq<string>) {
    forall i, j :: 0 <= i < j < |names| ==> names[i] != names[j]
  }

  /** Python's `names.index(x)`: the first position holding `x`. */
  function IndexOf(names: seq<string>, x: string): (k: nat)
    requires x in names
    ensures k < |names| && names[k] == x && x !in names[..k]
  {
    if names[0] == x then 0 else 1 + IndexOf(names[1..], x)
  }

  /** `names.pop(names.index(x))`. */
  function RemoveFirst(names: seq<string>, x: string): seq<string>
    requires x in names
  {
    var k := IndexOf(names, x);
    names[..k] + names[k + 1..]
  }

  lemma RemovedDistinct(names: seq<string>, k: nat, a: nat, b: nat)
    requires NoDuplicates(names) && k < |names| && a < b < |names| - 1
    ensures (names[..k] + names[k + 1..])[a] != (names[..k] + names[k + 1..])[b]
  {
    var r := names[..k] + names[k + 1..];
    var a', b' := if a < k then a else a + 1, if b < k then b else b + 1;
    assert r[a] == names[a'] && r[b] == names[b'];
  }

  /** Removing one name keeps the others, and keeps a list without repeats
    * free of them and of the removed name. */
  lemma RemoveFirstMembers(names: seq<string>, x: string)
    requires x in names && NoDuplicates(names)
    ensures NoDuplicates(RemoveFirst(names, x))
    ensures forall y :: y in RemoveFirst(names, x) <==> y in names && y != x
  {
    var k := IndexOf(names, x);
    var r := RemoveFirst(names, x);
    forall a, b | 0 <= a < b < |r| ensures r[a] != r[b] {
      RemovedDistinct(names, k, a, b);
    }
    forall y ensures y in r <==> y in names && y != x {
      if y in r {
        var t :| 0 <= t < |r| && r[t] == y;
        var t' := if t < k then t else t + 1;
        assert names[t'] == y;
      }
      if y in names && y != x {
        var t :| 0 <= t < |names| && names[t] == y;
        assert r[if t < k then t else t - 1] == y;
      }
    }
  }

  /** Moving `"default"` to the front keeps every name, and keeps a list
    * without repeats free of them. */
  lemma DefaultFirst(names: seq<string>)
    requires Default in names
    ensures multiset([Default] + RemoveFirst(names, Default)) == multiset(names)
    ensures forall x :: x in [Default] + RemoveFirst(names, Default) <==> x in names
    ensures NoDuplicates(names) ==> NoDuplicates([Default] + RemoveFirst(names, Default))
  {
    var k := IndexOf(names, Default);
    assert names == names[..k] + [Default] + names[k + 1..];
    var moved := [Default] + RemoveFirst(names, Default);
    assert multiset(moved) == multiset(names);
    forall x ensures x in moved <==> x in names {
      assert x in moved <==> x in multiset(moved);
      assert x in names <==> x in multiset(names);
    }
    if NoDuplicates(names) {
      RemoveFirstMembers(names, Default);
      ConsDistinct(Default, RemoveFirst(names, Default));
    }
  }

  /** A name put in front of a list without repeats that lacks it leaves a
    * list without repeats. */
  lemma ConsDistinct(x: string, r: seq<string>)
    requires NoDuplicates(r) && x !in r
    ensures NoDuplicates([x] + r)
  {
    var moved := [x] + r;
    forall i, j | 0 <= i < j < |moved| ensures moved[i] != moved[j] {
      assert moved[j] == r[j - 1];
      if 0 < i {
        assert moved[i] == r[i - 1];
      }
    }
  }

  // ---------------------------------------------------------------------
  // The window's state

  class DualNBackMainWindow {
    var sessionSettings: SettingsObject
    var sessionSettingsName: string
    var listOfSettingsNames: seq<string>
    var allSessionSettings: map<string, SettingsSet>
    var userLoggedIn: bool
    /** Whether the log-out action and the launch button are enabled. */
    var logoutEnabled: bool
    var launchEnabled: bool

    /** The list names exactly the stored sets, each once. */
    ghost predicate Consistent()
      reads this
    {
      NoDuplicates(listOfSettingsNames)
      && forall x :: x in listOfSettingsNames <==> x in allSessionSettings
    }

    /** The state `__init__` starts from, before the sets are loaded. */
    constructor ()
      ensures fresh(sessionSettings) && fresh(sessionSettings.sessionSettings)
      ensures sessionSettings.sessionSettings.entries == map[]
      ensures sessionSettingsName == Default && listOfSettingsNames == [] && allSessionSettings == map[]
      ensures !userLoggedIn
    {
      sessionSettings := new SettingsObject();
      sessionSettingsName := Default;
      listOfSettingsNames := [];
      allSessionSettings := map[];
      userLoggedIn := false;
    }

    /** `_change_n`: counts the mistakes in the block's score summary and
      * stores the next n; n must be present and an integer. The new n is
      * written into the working dictionary object, so a stored set that is
      * that object (the one last loaded) holds the new n as well, and the
      * next save persists it. */
    method ChangeN(scoreData: Summary) returns (status: Status)
      modifies sessionSettings.sessionSettings
      ensures status == Completed || status == RaisesKeyError || status == RaisesTypeError
      ensures status == RaisesKeyError <==> CurrentN !in old(sessionSettings.sessionSettings.entries)
      ensures status == RaisesTypeError <==>
        CurrentN in old(sessionSettings.sessionSettings.entries)
        && !old(sessionSettings.sessionSettings.entries)[CurrentN].Whole?
      ensures status == Completed ==>
        var d := old(sessionSettings.sessionSettings.entries);
        sessionSettings.sessionSettings.entries == d[CurrentN := Whole(NextN(d[CurrentN].n, Incorrect(scoreData)))]
      ensures status != Completed ==>
        sessionSettings.sessionSettings.entries == old(sessionSettings.sessionSettings.entries)
      ensures forall x :: x in allSessionSettings ==>
        allSessionSettings[x].entries == if allSessionSettings[x] == sessionSettings.sessionSettings
                                         then sessionSettings.sessionSettings.entries
                                         else old(allSessionSettings[x].entries)
    {
      var incorrect := 0;
      var presentN := sessionSettings.Lookup(CurrentN);
      if presentN.Failure? {
        return RaisesKeyError;
      }
      assert scoreData[..0] == [];
      for i := 0 to |scoreData|
        invariant incorrect == Incorrect(scoreData[..i])
      {
        var row := scoreData[i].1;
        assert scoreData[..i + 1][..i] == scoreData[..i];
        assert row[..0] == [];
        for j := 0 to |row|
          invariant incorrect == Incorrect(scoreData[..i]) + RowIncorrect(row[..j])
        {
          assert row[..j + 1][..j] == row[..j];
          if Contains(row[j].0, "false") {
            incorrect := incorrect + row[j].1;
          }
        }
        assert row[..|row|] == row;
      }
      assert scoreData[..|scoreData|] == scoreData;
      if !presentN.value.Whole? {
        // `present_n + 1` or `present_n > 1` on a tuple
        return RaisesTypeError;
      }
      var n := presentN.value.n;
      if incorrect < MistakesLessThan {
        status := sessionSettings.SetN(Scalar(Some(n + IncreaseNBy)));
      }
      if n > 1 && incorrect > MistakesGreaterThan {
        status := sessionSettings.SetN(Scalar(Some(n - DecreaseNBy)));
      }
      status := Completed;
    }

    /** `_get_all_session_settings`, given the names of the loaded
      * dictionary in its order: they are appended to the list, then
      * `"default"` is moved to the front, which raises `ValueError` when
      * there is none. */
    method GetAllSessionSettings(loadedNames: seq<string>, loaded: map<string, SettingsSet>) returns (status: Status)
      requires NoDuplicates(loadedNames) && forall x :: x in loadedNames <==> x in loaded
      modifies this`listOfSettingsNames, this`allSessionSettings
      ensures status == Completed || status == RaisesValueError
      ensures status == RaisesValueError <==> Default !in old(listOfSettingsNames) + loadedNames
      ensures status == Completed ==>
        listOfSettingsNames == [Default] + RemoveFirst(old(listOfSettingsNames) + loadedNames, Default)
        && allSessionSettings == loaded
      ensures status != Completed ==>
        listOfSettingsNames == old(listOfSettingsNames) + loadedNames && allSessionSettings == old(allSessionSettings)
      ensures old(listOfSettingsNames) == [] && status == Completed ==> Consistent()
    {
      for k := 0 to |loadedNames|
        invariant listOfSettingsNames == old(listOfSettingsNames) + loadedNames[..k]
        invariant allSessionSettings == old(allSessionSettings)
      {
        listOfSettingsNames := listOfSettingsNames + [loadedNames[k]];
      }
      assert loadedNames[..|loadedNames|] == loadedNames;
      if Default !in listOfSettingsNames {
        return RaisesValueError;
      }
      ghost var appended := listOfSettingsNames;
      var at := IndexOf(listOfSettingsNames, Default);
      var dflt := listOfSettingsNames[at];
      listOfSettingsNames := listOfSettingsNames[..at] + listOfSettingsNames[at + 1..];
      listOfSettingsNames := [dflt] + listOfSettingsNames;
      allSessionSettings := loaded;
      status := Completed;
      DefaultFirst(appended);
    }

    /** `_add_session_settings`: a new set is saved under a fresh name made
      * from the typed one, an existing set under its own name; either way
      * the name gets a new dictionary object, so the working settings are
      * no longer stored under it. The name is listed if it was not. */
    method AddSessionSettings(cmbNmSelected: string, nwStName: string, newSettings: SettingsDict)
      modifies this`listOfSettingsNames, this`allSessionSettings
      ensures |listOfSettingsNames| > 0
      ensures var name := if cmbNmSelected == SaveUnderNewName then listOfSettingsNames[|listOfSettingsNames| - 1]
                          else cmbNmSelected;
        && name in allSessionSettings && fresh(allSessionSettings[name])
        && allSessionSettings[name].entries == newSettings
        && allSessionSettings == old(allSessionSettings)[name := allSessionSettings[name]]
        && listOfSettingsNames == old(listOfSettingsNames) + (if name in old(listOfSettingsNames) then [] else [name])
      ensures cmbNmSelected == SaveUnderNewName ==>
        listOfSettingsNames[|listOfSettingsNames| - 1] !in old(listOfSettingsNames)
        && listOfSettingsNames[|listOfSettingsNames| - 1] != ""
      ensures cmbNmSelected == SaveUnderNewName ==>
        exists k: nat :: listOfSettingsNames[|listOfSettingsNames| - 1] == Primed(Strip(nwStName), k)
          && forall j :: 0 <= j < k ==> Taken(Primed(Strip(nwStName), j), old(listOfSettingsNames))
      ensures old(Consistent()) ==> Consistent()
    {
      var name;
      ghost var primes: nat := 0;
      if cmbNmSelected == SaveUnderNewName {
        name, primes := PrimeUntilFree(Strip(nwStName), listOfSettingsNames);
      } else {
        name := cmbNmSelected;
      }
      ghost var before := listOfSettingsNames;
      var stored := new SettingsSet(newSettings);
      allSessionSettings := allSessionSettings[name := stored];
      if name !in listOfSettingsNames {
        listOfSettingsNames := listOfSettingsNames + [name];
      }
      if NoDuplicates(before) {
        forall i, j | 0 <= i < j < |listOfSettingsNames| ensures listOfSettingsNames[i] != listOfSettingsNames[j] {
          if j == |before| {
            assert listOfSettingsNames[i] == before[i];
          }
        }
      }      if cmbNmSelected == SaveUnderNewName {
        assert listOfSettingsNames[|listOfSettingsNames| - 1] == Primed(Strip(nwStName), primes);
      }
    }

    /** `_load_session_settings` with the settings window hidden: the
      * dictionary object stored under `session_settings_name` itself, not a
      * copy, becomes the working settings. */
    method LoadSessionSettings() returns (status: Status)
      modifies sessionSettings
      ensures status == Completed || status == RaisesKeyError
      ensures status == RaisesKeyError <==> sessionSettingsName !in allSessionSettings
      ensures status == Completed ==> sessionSettings.sessionSettings == allSessionSettings[sessionSettingsName]
      ensures status != Completed ==> sessionSettings.sessionSettings == old(sessionSettings.sessionSettings)
    {
      if sessionSettingsName !in allSessionSettings {
        return RaisesKeyError;
      }
      sessionSettings.SetSettingsBaseDict(allSessionSettings[sessionSettingsName]);
      status := Completed;
    }

    /** `_delete_session_settings`: an unlisted name changes nothing;
      * otherwise the name leaves the list and its set the dictionary, and
      * `"default"` is loaded. */
    method DeleteSessionSettings(nameToPurge: string) returns (status: Status)
      modifies this`listOfSettingsNames, this`allSessionSettings, this`sessionSettingsName, sessionSettings
      ensures status == Completed || status == RaisesKeyError
      ensures nameToPurge !in old(listOfSettingsNames) ==>
        status == Completed && listOfSettingsNames == old(listOfSettingsNames)
        && allSessionSettings == old(allSessionSettings) && sessionSettingsName == old(sessionSettingsName)
        && sessionSettings.sessionSettings == old(sessionSettings.sessionSettings)
      ensures nameToPurge in old(listOfSettingsNames) ==>
        listOfSettingsNames == RemoveFirst(old(listOfSettingsNames), nameToPurge)
      ensures nameToPurge in old(listOfSettingsNames) && nameToPurge !in old(allSessionSettings) ==>
        status == RaisesKeyError && allSessionSettings == old(allSessionSettings)
        && sessionSettingsName == old(sessionSettingsName)
        && sessionSettings.sessionSettings == old(sessionSettings.sessionSettings)
      ensures nameToPurge in old(listOfSettingsNames) && nameToPurge in old(allSessionSettings) ==>
        allSessionSettings == old(allSessionSettings) - {nameToPurge} && sessionSettingsName == Default
        && (status == RaisesKeyError <==> Default !in allSessionSettings)
        && (status == Completed ==> sessionSettings.sessionSettings == allSessionSettings[Default])
      ensures status == RaisesKeyError ==> sessionSettings.sessionSettings == old(sessionSettings.sessionSettings)
      ensures old(Consistent()) ==> Consistent()
    {
      if nameToPurge !in listOfSettingsNames {
        return Completed;
      }
      ghost var before := listOfSettingsNames;
      var at := IndexOf(listOfSettingsNames, nameToPurge);
      listOfSettingsNames := listOfSettingsNames[..at] + listOfSettingsNames[at + 1..];
      if old(Consistent()) {
        RemoveFirstMembers(before, nameToPurge);
      }
      if nameToPurge !in allSessionSettings {
        return RaisesKeyError;
      }
      allSessionSettings := allSessionSettings - {nameToPurge};
      sessionSettingsName := Default;
      status := LoadSessionSettings();
    }

    /** `_log_in_out_update`: the logged-in flag flips, and the log-out
      * action and the launch button are enabled exactly when a user is now
      * logged in. */
    method LogInOutUpdate()
      modifies this`userLoggedIn, this`logoutEnabled, this`launchEnabled
      ensures userLoggedIn == !old(userLoggedIn)
      ensures logoutEnabled == userLoggedIn && launchEnabled == userLoggedIn
    {
      var setState := true;
      if userLoggedIn {
        setState := false;
      }
      logoutEnabled := setState;
      launchEnabled := setState;
      userLoggedIn := setState;
    }
  }

  /** Because loading shares the stored dictionary object, a `_change_n`
    * after a load writes the new n into that stored set: loading the same
    * name again brings the new n back, not the one saved before. */
  method ReloadAfterChangeN(w: DualNBackMainWindow, scoreData: Summary) returns (status: Status)
    requires w.sessionSettingsName in w.allSessionSettings
    requires CurrentN in w.allSessionSettings[w.sessionSettingsName].entries
    requires w.allSessionSettings[w.sessionSettingsName].entries[CurrentN].Whole?
    modifies w.sessionSettings, w.allSessionSettings[w.sessionSettingsName]
    ensures status == Completed && CurrentN in w.sessionSettings.sessionSettings.entries
    ensures w.sessionSettings.sessionSettings.entries[CurrentN]
      == Whole(NextN(old(w.allSessionSettings[w.sessionSettingsName].entries[CurrentN].n), Incorrect(scoreData)))
  {
    status := w.LoadSessionSettings();
    status := w.ChangeN(scoreData);
    status := w.LoadSessionSettings();
  }
}
