/** The battery light settings screen: three seek bars (LED intensity, on
    time, off time) bound to keys of the global settings store. */
module BatteryLight {
  import opened Int32
  import opened Intensity

  datatype Option<T> = None | Some(value: T)

  /** The global settings store, as far as this screen uses it. */
  type Store = map<string, int32>

  const KeyIntensity: string := "battery_light_intensity"
  const KeyOnTime: string := "battery_light_on_time"
  const KeyOffTime: string := "battery_light_off_time"

  /** Step sizes the screen gives its seek bars. */
  const IntensityStep: int32 := 1
  const TimeStep: int32 := 100

  /** What the screen sets on one seek bar: the value shown, its declared
      default, its step, and whether this screen listens to its changes. */
  datatype SeekBar = SeekBar(value: int32, defaultValue: int32, interval: int32, listening: bool)

  /** `Settings.Global.getInt(resolver, key, def)`: the stored value, or `def` when absent. */
  function ReadInt(store: Store, key: string, def: int32): (v: int32)
    ensures key in store ==> v == store[key]
    ensures key !in store ==> v == def
  {
    if key in store then store[key] else def
  }

  /** The intensity seek bar as set up on creation: it shows the level of the
      stored code (an absent key reads as `mI4`), default 4, step 1. */
  function IntensityControl(store: Store): (c: SeekBar)
    ensures IsLevel(c.value)
    ensures c.defaultValue == DefaultLevel && c.interval == IntensityStep && c.listening
    ensures KeyIntensity in store && store[KeyIntensity] in Sentinels ==>
              Sentinels[c.value - 1] == store[KeyIntensity]
    ensures KeyIntensity in store && store[KeyIntensity] !in Sentinels ==> c.value == DefaultLevel
    ensures KeyIntensity !in store ==> c.value == DefaultLevel
  {
    SeekBar(RawToLevel(ReadInt(store, KeyIntensity, I4)), DefaultLevel, IntensityStep, true)
  }

  /** An on-time or off-time seek bar as set up on creation: it shows the
      stored milliseconds unchanged, or the resource default `def` when the
      key is absent; its default is `def` and its step 100. */
  function TimeControl(store: Store, key: string, def: int32): (c: SeekBar)
    ensures key in store ==> c.value == store[key]
    ensures key !in store ==> c.value == def
    ensures c.defaultValue == def && c.interval == TimeStep && c.listening
  {
    SeekBar(ReadInt(store, key, def), def, TimeStep, true)
  }

  /** One call of the change listener: the key of the preference that changed
      and the new seek-bar value. */
  datatype Change = Change(key: string, value: int32)

  /** The value the listener stores under `c.key`, or None when it does not
      recognise the preference. The intensity preference is recognised only
      while its control is bound (`intensityBound`); it stores the code for
      the level. The time preferences store the value unchanged. */
  function Written(c: Change, intensityBound: bool): (w: Option<int32>)
    ensures w.Some? <==> (c.key == KeyIntensity && intensityBound) || c.key == KeyOnTime || c.key == KeyOffTime
    ensures w.Some? && c.key == KeyIntensity ==>
              w.value in Sentinels && RawToLevel(w.value) == Normalized(c.value)
    ensures w.Some? && c.key != KeyIntensity ==> w.value == c.value
  {
    WriteThenRead(c.value);
    if c.key == KeyIntensity && intensityBound then Some(LevelToRaw(c.value))
    else if c.key == KeyOnTime then Some(c.value)
    else if c.key == KeyOffTime then Some(c.value)
    else None
  }

  /** The store after one call of the listener: the changed preference's key
      holds the written value and nothing else changes. */
  function AfterChange(store: Store, intensityBound: bool, c: Change): (s: Store)
    ensures Written(c, intensityBound).None? ==> s == store
    ensures Written(c, intensityBound).Some? ==>
              s.Keys == store.Keys + {c.key} && s[c.key] == Written(c, intensityBound).value
    ensures forall k :: k in store && k != c.key ==> k in s && s[k] == store[k]
  {
    match Written(c, intensityBound)
    case Some(v) => store[c.key := v]
    case None => store
  }

  /** The store after a series of calls of the listener, in order. */
  function AfterChanges(store: Store, intensityBound: bool, cs: seq<Change>): Store
    decreases |cs|
  {
    if cs == [] then store
    else AfterChanges(AfterChange(store, intensityBound, cs[0]), intensityBound, cs[1..])
  }

  /** Running two series of changes one after the other is running their concatenation. */
  lemma {:induction false} AfterChangesAppend(store: Store, intensityBound: bool, xs: seq<Change>, ys: seq<Change>)
    ensures AfterChanges(store, intensityBound, xs + ys)
         == AfterChanges(AfterChanges(store, intensityBound, xs), intensityBound, ys)
    decreases |xs|
  {
    if xs != [] {
      assert (xs + ys)[0] == xs[0];
      assert (xs + ys)[1..] == xs[1..] + ys;
      AfterChangesAppend(AfterChange(store, intensityBound, xs[0]), intensityBound, xs[1..], ys);
    } else {
      assert xs + ys == ys;
    }
  }

  /** A key that no change names keeps its presence and value. */
  lemma {:induction false} UntouchedKeyKept(store: Store, intensityBound: bool, cs: seq<Change>, k: string)
    requires forall i :: 0 <= i < |cs| ==> cs[i].key != k
    ensures k in AfterChanges(store, intensityBound, cs) <==> k in store
    ensures k in store ==> AfterChanges(store, intensityBound, cs)[k] == store[k]
    decreases |cs|
  {
    if cs != [] {
      UntouchedKeyKept(AfterChange(store, intensityBound, cs[0]), intensityBound, cs[1..], k);
    }
  }

  /** The listener only ever adds the three battery light keys to the store. */
  lemma {:induction false} KeysStayWithinScreen(store: Store, intensityBound: bool, cs: seq<Change>)
    ensures AfterChanges(store, intensityBound, cs).Keys <= store.Keys + {KeyIntensity, KeyOnTime, KeyOffTime}
    decreases |cs|
  {
    if cs != [] {
      var s := AfterChange(store, intensityBound, cs[0]);
      KeysStayWithinScreen(s, intensityBound, cs[1..]);
    }
  }

  /** While the intensity control is unbound (multi-colour LED), no series of
      changes touches the stored intensity. */
  lemma {:induction false} UnboundIntensityNeverWritten(store: Store, cs: seq<Change>)
    ensures KeyIntensity in AfterChanges(store, false, cs) <==> KeyIntensity in store
    ensures KeyIntensity in store ==> AfterChanges(store, false, cs)[KeyIntensity] == store[KeyIntensity]
    decreases |cs|
  {
    if cs != [] {
      UnboundIntensityNeverWritten(AfterChange(store, false, cs[0]), cs[1..]);
    }
  }

  /** The last recognised change to a key decides what the key holds,
      whatever came before it. */
  lemma LastChangeWins(store: Store, intensityBound: bool, before: seq<Change>, c: Change, after: seq<Change>)
    requires Written(c, intensityBound).Some?
    requires forall i :: 0 <= i < |after| ==> after[i].key != c.key
    ensures c.key in AfterChanges(store, intensityBound, before + [c] + after)
    ensures AfterChanges(store, intensityBound, before + [c] + after)[c.key] == Written(c, intensityBound).value
  {
    var s0 := AfterChanges(store, intensityBound, before);
    AfterChangesAppend(store, intensityBound, before + [c], after);
    AfterChangesAppend(store, intensityBound, before, [c]);
    assert AfterChanges(s0, intensityBound, [c]) == AfterChange(s0, intensityBound, c);
    UntouchedKeyKept(AfterChange(s0, intensityBound, c), intensityBound, after, c.key);
  }

  /** Reopening the screen after a series of changes shows, on each control,
      what its last change set: the level (normalized) for intensity, the
      milliseconds for the times. */
  lemma ReopenShowsLastChange(store: Store, intensityBound: bool, before: seq<Change>, c: Change, after: seq<Change>, def: int32)
    requires Written(c, intensityBound).Some?
    requires forall i :: 0 <= i < |after| ==> after[i].key != c.key
    ensures c.key == KeyIntensity ==>
              IntensityControl(AfterChanges(store, intensityBound, before + [c] + after)).value == Normalized(c.value)
    ensures c.key != KeyIntensity ==>
              TimeControl(AfterChanges(store, intensityBound, before + [c] + after), c.key, def).value == c.value
  {
    LastChangeWins(store, intensityBound, before, c, after);
  }

  /** The settings screen: the store it writes, the platform resources it
      reads, and the seek bars it binds. */
  class BatteryLightSettings {
    /** `Settings.Global`. */
    var store: Store
    /** `config_multiColorBatteryLed`. */
    const multiColorLed: bool
    /** `config_notificationsBatteryLedOn` and `config_notificationsBatteryLedOff`. */
    const defaultLightOn: int32
    const defaultLightOff: int32

    /** Whether creation has run (the context is set). */
    var created: bool
    /** Whether the intensity preference is still on the screen. */
    var intensityOnScreen: bool
    /** `mLightIntensity`, `mLightOnTime`, `mLightOffTime`; None stands for null. */
    var lightIntensity: Option<SeekBar>
    var lightOnTime: Option<SeekBar>
    var lightOffTime: Option<SeekBar>

    /** The intensity control is bound exactly when the LED is not multi-colour,
        and every bound control carries the default and step creation gave it. */
    ghost predicate Valid()
      reads this
    {
      (lightIntensity.Some? ==> !multiColorLed) &&
      (created ==>
        lightOnTime.Some? && lightOffTime.Some? &&
        (lightIntensity.Some? <==> !multiColorLed) &&
        (intensityOnScreen <==> !multiColorLed)) &&
      (!created ==> intensityOnScreen && lightIntensity.None? && lightOnTime.None? && lightOffTime.None?) &&
      (lightIntensity.Some? ==>
        lightIntensity.value.defaultValue == DefaultLevel && lightIntensity.value.interval == IntensityStep) &&
      (lightOnTime.Some? ==>
        lightOnTime.value.defaultValue == defaultLightOn && lightOnTime.value.interval == TimeStep) &&
      (lightOffTime.Some? ==>
        lightOffTime.value.defaultValue == defaultLightOff && lightOffTime.value.interval == TimeStep)
    }

    /** The fragment before creation: nothing bound, every preference on screen. */
    constructor (store: Store, multiColorLed: bool, defaultLightOn: int32, defaultLightOff: int32)
      ensures Valid() && !created
      ensures this.store == store && this.multiColorLed == multiColorLed
      ensures this.defaultLightOn == defaultLightOn && this.defaultLightOff == defaultLightOff
    {
      this.store := store;
      this.multiColorLed := multiColorLed;
      this.defaultLightOn := defaultLightOn;
      this.defaultLightOff := defaultLightOff;
      created := false;
      intensityOnScreen := true;
      lightIntensity := None;
      lightOnTime := None;
      lightOffTime := None;
    }

    /** `onCreate`: binds the intensity control when the LED is not
        multi-colour (removing it from the screen otherwise) and both time
        controls, each showing the stored value converted for display. The
        store is only read. */
    method Init()
      requires Valid()
      modifies this
      ensures Valid() && created
      ensures store == old(store)
      ensures lightIntensity == if multiColorLed then None else Some(IntensityControl(store))
      ensures intensityOnScreen == !multiColorLed
      ensures lightOnTime == Some(TimeControl(store, KeyOnTime, defaultLightOn))
      ensures lightOffTime == Some(TimeControl(store, KeyOffTime, defaultLightOff))
    {
      created := true;
      if !multiColorLed {
        var lightIntensityRaw := ReadInt(store, KeyIntensity, I4);
        var level := RawToLevel(lightIntensityRaw);
        lightIntensity := Some(SeekBar(level, DefaultLevel, IntensityStep, true));
      } else {
        intensityOnScreen := false;
      }
      var lightOn := ReadInt(store, KeyOnTime, defaultLightOn);
      lightOnTime := Some(SeekBar(lightOn, defaultLightOn, TimeStep, true));
      var lightOff := ReadInt(store, KeyOffTime, defaultLightOff);
      lightOffTime := Some(SeekBar(lightOff, defaultLightOff, TimeStep, true));
    }

    /** `onPreferenceChange`: for a bound control, stores the new value under
        its key (converted to a code for intensity) and reports true; for
        anything else stores nothing and reports false. */
    method OnChange(key: string, newValue: int32) returns (handled: bool)
      requires Valid() && created
      modifies this`store
      ensures Valid()
      ensures handled == Written(Change(key, newValue), !multiColorLed).Some?
      ensures store == AfterChange(old(store), !multiColorLed, Change(key, newValue))
      ensures key == KeyIntensity && multiColorLed ==> !handled && store == old(store)
    {
      if key == KeyIntensity && lightIntensity.Some? {
        var val := LevelToRaw(newValue);
        store := store[KeyIntensity := val];
        return true;
      } else if key == KeyOnTime && lightOnTime.Some? {
        store := store[KeyOnTime := newValue];
        return true;
      } else if key == KeyOffTime && lightOffTime.Some? {
        store := store[KeyOffTime := newValue];
        return true;
      }
      return false;
    }
  }
}
