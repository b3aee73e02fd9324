/** `SettingsObject`, the holder of the working session settings. The class
  * is the same in `DualNBack.py` and `DualNBackRewrite.py`: a dictionary
  * from setting names to values, written through one validating helper and
  * read by plain lookups. Emitting `settings_changed_signal` is left out.
  */
module Settings {
  import opened Outcomes

  /** One element of a tuple handed to a setter: an `int`, or an object of
    * any other type (a `bool` counts as another type, since the check is
    * `type(coord) != int`). */
  datatype Item = IntItem(i: int) | OtherItem

  /** A value handed to a setter: a tuple, or any other object together
    * with what `int()` makes of it (`None` when `int()` fails). */
  datatype Value = TupleValue(items: seq<Item>) | Scalar(asInt: Option<int>)

  /** A stored setting: an integer, or a tuple of integers (a colour). */
  datatype Stored = Whole(n: int) | Tuple(items: seq<int>)

  type SettingsDict = map<string, Stored>

  const CurrentN := "current_n"
  const NumberOfTargets := "number_of_targets"
  const SessionLengthBeforeN := "session_length_before_n"
  const SessionBlocks := "session_blocks"
  const InterstimTime := "interstim_time"
  const StimTime := "stim_time"
  const BackgroundColour := "background_colour"
  const TargetColour := "target_colour"
  const FixatorColour := "fixator_colour"
  const FixatorSize := "fixator_size"

  /** A colour the helper accepts: three integers, none negative. */
  predicate ValidTuple(items: seq<Item>) {
    |items| == 3 && forall k :: 0 <= k < 3 ==> items[k].IntItem? && items[k].i >= 0
  }

  function Ints(items: seq<Item>): (r: seq<int>)
    requires forall k :: 0 <= k < |items| ==> items[k].IntItem?
    ensures |r| == |items| && forall k :: 0 <= k < |r| ==> r[k] == items[k].i
  {
    if items == [] then [] else [items[0].i] + Ints(items[1..])
  }

  /** What `_change_specific_setting` makes of a value: a tuple of three
    * non-negative integers is kept, any other tuple raises `ValueError`;
    * anything else is passed through `int()`, and a failure there raises
    * `TypeError`. */
  function Convert(value: Value): (r: Result<Stored>)
    ensures r.Failure? ==> r.error == RaisesValueError || r.error == RaisesTypeError
    ensures r == Failure(RaisesValueError) <==> value.TupleValue? && !ValidTuple(value.items)
    ensures r == Failure(RaisesTypeError) <==> value.Scalar? && value.asInt.None?
    ensures r.Success? && r.value.Tuple? ==>
      |r.value.items| == 3 && forall k :: 0 <= k < 3 ==> r.value.items[k] >= 0
  {
    match value
    case TupleValue(items) =>
      if ValidTuple(items) then Success(Tuple(Ints(items))) else Failure(RaisesValueError)
    case Scalar(asInt) =>
      if asInt.Some? then Success(Whole(asInt.value)) else Failure(RaisesTypeError)
  }

  /** The value a stored setting is when handed back to a setter. */
  function AsValue(s: Stored): Value {
    match s
    case Whole(n) => Scalar(Some(n))
    case Tuple(items) => TupleValue(seq(|items|, k requires 0 <= k < |items| => IntItem(items[k])))
  }

  /** Handing an accepted value back to a setter stores it unchanged. */
  lemma ConvertAcceptsWhatItStored(value: Value)
    requires Convert(value).Success?
    ensures Convert(AsValue(Convert(value).value)) == Convert(value)
  {
    if value.TupleValue? {
      var stored := Convert(value).value;
      var back := AsValue(stored).items;
      assert ValidTuple(back);
      assert Ints(back) == stored.items;
    }
  }

  /** A settings dictionary as the Python object it is. The working
    * settings and every stored set are such objects, and the working
    * settings can be the very object stored under a name, so that a write
    * through one is seen through the other. */
  class SettingsSet {
    var entries: SettingsDict

    constructor (entries: SettingsDict)
      ensures this.entries == entries
    {
      this.entries := entries;
    }
  }

  class SettingsObject {
    var sessionSettings: SettingsSet

    constructor ()
      ensures fresh(sessionSettings) && sessionSettings.entries == map[]
    {
      sessionSettings := new SettingsSet(map[]);
    }

    /** `set_settings_base_dict`: the caller's dictionary object itself
      * becomes the working settings, unchecked and not copied. */
    method SetSettingsBaseDict(settingDict: SettingsSet)
      modifies this
      ensures sessionSettings == settingDict
    {
      sessionSettings := settingDict;
    }

    /** `get_settings_base_dict`: the working dictionary object itself,
      * not a copy. */
    method GetSettingsBaseDict() returns (d: SettingsSet)
      ensures d == sessionSettings
    {
      d := sessionSettings;
    }

    /** `_change_specific_setting`: a tuple must have three elements, each
      * an `int` and not negative, else `ValueError`; any other value goes
      * through `int()`, whose failure raises `TypeError`. Only then is the
      * value stored under `description`. */
    method ChangeSpecificSetting(description: string, value: Value) returns (status: Status)
      modifies sessionSettings
      ensures Convert(value).Success? ==>
        status == Completed && sessionSettings.entries == old(sessionSettings.entries)[description := Convert(value).value]
      ensures Convert(value).Failure? ==>
        status == Convert(value).error && sessionSettings.entries == old(sessionSettings.entries)
    {
      var stored: Stored;
      if value.TupleValue? {
        var items := value.items;
        if |items| != 3 {
          return RaisesValueError;
        }
        for k := 0 to |items|
          invariant forall j :: 0 <= j < k ==> items[j].IntItem? && items[j].i >= 0
        {
          var coord := items[k];
          if !coord.IntItem? || coord.i < 0 {
            return RaisesValueError;
          }
        }
        stored := Tuple(Ints(items));
      } else {
        if value.asInt.None? {
          return RaisesTypeError;
        }
        stored := Whole(value.asInt.value);
      }
      sessionSettings.entries := sessionSettings.entries[description := stored];
      status := Completed;
    }

    method SetN(newN: Value) returns (status: Status)
      modifies sessionSettings
      ensures status == (if Convert(newN).Success? then Completed else Convert(newN).error)
      ensures sessionSettings.entries == Updated(old(sessionSettings.entries), CurrentN, newN)
    {
      status := ChangeSpecificSetting(CurrentN, newN);
    }

    method SetNumberTargets(newNumbTar: Value) returns (status: Status)
      modifies sessionSettings
      ensures status == (if Convert(newNumbTar).Success? then Completed else Convert(newNumbTar).error)
      ensures sessionSettings.entries == Updated(old(sessionSettings.entries), NumberOfTargets, newNumbTar)
    {
      status := ChangeSpecificSetting(NumberOfTargets, newNumbTar);
    }

    method SetBlockBeforeN(newBlockLength: Value) returns (status: Status)
      modifies sessionSettings
      ensures status == (if Convert(newBlockLength).Success? then Completed else Convert(newBlockLength).error)
      ensures sessionSettings.entries == Updated(old(sessionSettings.entries), SessionLengthBeforeN, newBlockLength)
    {
      status := ChangeSpecificSetting(SessionLengthBeforeN, newBlockLength);
    }

    method SetTotalSessionBlocks(newTotalBlocks: Value) returns (status: Status)
      modifies sessionSettings
      ensures status == (if Convert(newTotalBlocks).Success? then Completed else Convert(newTotalBlocks).error)
      ensures sessionSettings.entries == Updated(old(sessionSettings.entries), SessionBlocks, newTotalBlocks)
    {
      status := ChangeSpecificSetting(SessionBlocks, newTotalBlocks);
    }

    method SetInterstimTime(newInterstimTime: Value) returns (status: Status)
      modifies sessionSettings
      ensures status == (if Convert(newInterstimTime).Success? then Completed else Convert(newInterstimTime).error)
      ensures sessionSettings.entries == Updated(old(sessionSettings.entries), InterstimTime, newInterstimTime)
    {
      status := ChangeSpecificSetting(InterstimTime, newInterstimTime);
    }

    method SetStimExposureTime(newStimTime: Value) returns (status: Status)
      modifies sessionSettings
      ensures status == (if Convert(newStimTime).Success? then Completed else Convert(newStimTime).error)
      ensures sessionSettings.entries == Updated(old(sessionSettings.entries), StimTime, newStimTime)
    {
      status := ChangeSpecificSetting(StimTime, newStimTime);
    }

    method SetBgColour(newBgColour: Value) returns (status: Status)
      modifies sessionSettings
      ensures status == (if Convert(newBgColour).Success? then Completed else Convert(newBgColour).error)
      ensures sessionSettings.entries == Updated(old(sessionSettings.entries), BackgroundColour, newBgColour)
    {
      status := ChangeSpecificSetting(BackgroundColour, newBgColour);
    }

    method SetTgColour(newTgColour: Value) returns (status: Status)
      modifies sessionSettings
      ensures status == (if Convert(newTgColour).Success? then Completed else Convert(newTgColour).error)
      ensures sessionSettings.entries == Updated(old(sessionSettings.entries), TargetColour, newTgColour)
    {
      status := ChangeSpecificSetting(TargetColour, newTgColour);
    }

    method SetFxColour(newFxColour: Value) returns (status: Status)
      modifies sessionSettings
      ensures status == (if Convert(newFxColour).Success? then Completed else Convert(newFxColour).error)
      ensures sessionSettings.entries == Updated(old(sessionSettings.entries), FixatorColour, newFxColour)
    {
      status := ChangeSpecificSetting(FixatorColour, newFxColour);
    }

    /** `set_fx_size`, whose argument defaults to 0. */
    method SetFxSize(newSize: Value) returns (status: Status)
      modifies sessionSettings
      ensures status == (if Convert(newSize).Success? then Completed else Convert(newSize).error)
      ensures sessionSettings.entries == Updated(old(sessionSettings.entries), FixatorSize, newSize)
    {
      status := ChangeSpecificSetting(FixatorSize, newSize);
    }

    /** `session_settings[key]`; a missing key raises `KeyError`. Every
      * getter but the total block length is this lookup with its key. */
    function Lookup(key: string): (r: Result<Stored>)
      reads this, sessionSettings
      ensures r.Success? <==> key in sessionSettings.entries
      ensures r.Success? ==> r.value == sessionSettings.entries[key]
      ensures r.Failure? ==> r.error == RaisesKeyError
    {
      Get(sessionSettings.entries, key)
    }
  }

  /** The dictionary after a setter: the key holds the converted value when
    * conversion succeeds, and nothing changes otherwise. */
  function Updated(d: SettingsDict, key: string, value: Value): SettingsDict {
    if Convert(value).Success? then d[key := Convert(value).value] else d
  }

  function Get(d: SettingsDict, key: string): Result<Stored> {
    if key in d then Success(d[key]) else Failure(RaisesKeyError)
  }

  /** Python's `+` on two stored settings: integers add, tuples concatenate,
    * and an integer with a tuple raises `TypeError`. */
  function Plus(a: Stored, b: Stored): Result<Stored> {
    if a.Whole? && b.Whole? then Success(Whole(a.n + b.n))
    else if a.Tuple? && b.Tuple? then Success(Tuple(a.items + b.items))
    else Failure(RaisesTypeError)
  }

  /** `get_total_block_length` on the object's dictionary:
    * `get_n() + get_block_before_n()`, the lookups first, in that order,
    * then the sum. */
  function TotalBlockLength(d: SettingsDict): (r: Result<Stored>)
    ensures CurrentN !in d || SessionLengthBeforeN !in d <==> r == Failure(RaisesKeyError)
    ensures CurrentN in d && SessionLengthBeforeN in d && d[CurrentN].Whole? && d[SessionLengthBeforeN].Whole?
      ==> r == Success(Whole(d[CurrentN].n + d[SessionLengthBeforeN].n))
  {
    var n := Get(d, CurrentN);
    if n.Failure? then n
    else
      var before := Get(d, SessionLengthBeforeN);
      if before.Failure? then before
      else Plus(n.value, before.value)
  }

  /** Setting n and the block length before n to integers makes the total
    * block length their sum, whatever else the dictionary holds. */
  lemma TotalAfterSetters(d: SettingsDict, n: int, before: int)
    ensures TotalBlockLength(Updated(Updated(d, CurrentN, Scalar(Some(n))), SessionLengthBeforeN, Scalar(Some(before))))
      == Success(Whole(n + before))
  {
  }
}
