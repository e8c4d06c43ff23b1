# Battery light settings, modelled in Dafny

A model of the battery light settings screen of the Android Settings app
(`BatteryLightSettings`). The screen binds three seek bars to keys of the
global settings store: the LED intensity (`battery_light_intensity`), the
on time (`battery_light_on_time`) and the off time
(`battery_light_off_time`). Intensity is stored as one of four ARGB codes
(`mI1`..`mI4` = `0xFF0F0F0F`, `0xFF5F5F5F`, `0xFFAFAFAF`, `0xFFFFFFFF`)
and shown as a level 1..4; the times are stored and shown unchanged.

- `int32.dfy` (module `Int32`): Java's `int` as a newtype, and the
  two's-complement reading of the hexadecimal codes (as `int`s they are
  negative; `mI4` is -1).
- `intensity.dfy` (module `Intensity`): the two lookup chains, code to
  level (`RawToLevel`) and level to code (`LevelToRaw`), each specified
  against the table `Sentinels` with its fallback, and their round trips.
- `battery_light.dfy` (module `BatteryLight`): the store as a
  `map<string, int32>`, what creation puts on each seek bar, what one call
  of the change listener writes (`Written`, `AfterChange`), lemmas about
  series of such calls, and the class `BatteryLightSettings` whose `Init`
  is `onCreate` and whose `OnChange` is `onPreferenceChange`.

The capability flag `config_multiColorBatteryLed` is followed as the code
has it: the intensity control is bound when the flag is **false** and
removed from the screen when it is **true**, in which case
`mLightIntensity` stays null and nothing ever writes the intensity key.
Some descriptions of this screen state the opposite polarity; the model
follows the code.

## Model

| member | source | states |
|---|---|---|
| Int32.FromUnsigned | src/com/android/settings/notification/BatteryLightSettings.java:56-59 | a hexadecimal `int` literal denotes the signed value with the same 32 bits, negative exactly when the top bit is set |
| Intensity.SentinelValues | src/com/android/settings/notification/BatteryLightSettings.java:56-59 | the four codes as signed `int`s (`mI4` is -1) are pairwise distinct, one per level |
| Intensity.RawToLevel | src/com/android/settings/notification/BatteryLightSettings.java:85-95 | a stored code shows its table level (`mI1`..`mI4` show 1..4); any other stored value shows the default level 4; the result is always a level 1..4 |
| Intensity.LevelToRaw | src/com/android/settings/notification/BatteryLightSettings.java:128-138 | a level 1..4 stores its code from the table; any other value stores `mI4`; the result is always one of the four codes |
| Intensity.LevelRoundTrip | src/com/android/settings/notification/BatteryLightSettings.java:85-138 | writing a level 1..4 and reading it back shows the same level |
| Intensity.RawRoundTrip | src/com/android/settings/notification/BatteryLightSettings.java:85-138 | reading one of the four codes and writing the shown level back stores the same code |
| Intensity.WriteThenRead | src/com/android/settings/notification/BatteryLightSettings.java:85-138 | any written value reads back as itself when it is a level 1..4 and as 4 otherwise |
| Intensity.ReadThenWrite | src/com/android/settings/notification/BatteryLightSettings.java:85-138 | any stored value, read and written back, becomes itself when it is a code and `mI4` otherwise |
| Intensity.RawToLevelPreimage | src/com/android/settings/notification/BatteryLightSettings.java:85-95 | a stored value shows level n exactly when it is the n-th code, or n is 4 and the value is not a code |
| BatteryLight.ReadInt | src/com/android/settings/notification/BatteryLightSettings.java:105 | reading a key with a default gives the stored value when present and the default when absent |
| BatteryLight.IntensityControl | src/com/android/settings/notification/BatteryLightSettings.java:80-97 | on creation the intensity seek bar shows the table level of a stored code, 4 for any other stored value and 4 for an absent key (read as `mI4`); default 4, step 1, listened to |
| BatteryLight.TimeControl | src/com/android/settings/notification/BatteryLightSettings.java:102-119 | on creation an on/off-time seek bar shows the stored value unchanged, or the resource default when the key is absent; default is the resource default, step 100, listened to |
| BatteryLight.Written | src/com/android/settings/notification/BatteryLightSettings.java:124-157 | the listener writes exactly for the bound intensity control and the two time controls; intensity stores a code that reads back as the normalized level; times store the new value verbatim |
| BatteryLight.AfterChange | src/com/android/settings/notification/BatteryLightSettings.java:124-157 | one listener call writes only the changed control's key; every other entry is kept, and an unrecognised preference leaves the store as it was |
| BatteryLight.AfterChangesAppend | src/com/android/settings/notification/BatteryLightSettings.java:124-157 | running two series of listener calls in turn equals running their concatenation |
| BatteryLight.UntouchedKeyKept | src/com/android/settings/notification/BatteryLightSettings.java:124-157 | any series of listener calls leaves a key that none of them names exactly as it was |
| BatteryLight.KeysStayWithinScreen | src/com/android/settings/notification/BatteryLightSettings.java:139-151 | any series of listener calls adds no store key other than the three battery light keys |
| BatteryLight.UnboundIntensityNeverWritten | src/com/android/settings/notification/BatteryLightSettings.java:77-101 | while the intensity control is unbound (multi-colour LED), no series of listener calls changes the stored intensity |
| BatteryLight.LastChangeWins | src/com/android/settings/notification/BatteryLightSettings.java:124-157 | after a series of calls, a key holds the value written by the last recognised change to it |
| BatteryLight.ReopenShowsLastChange | src/com/android/settings/notification/BatteryLightSettings.java:71-157 | creating the screen again after a series of changes shows the last value set on each control: the normalized level for intensity, the same milliseconds for the times |
| BatteryLight.BatteryLightSettings.constructor | src/com/android/settings/notification/BatteryLightSettings.java:46-54 | before creation no control is bound and the intensity preference is on the screen |
| BatteryLight.BatteryLightSettings.Init | src/com/android/settings/notification/BatteryLightSettings.java:71-121 | creation leaves the store unchanged, binds intensity (as `IntensityControl`) only when the LED is not multi-colour and removes it from the screen otherwise, and binds both time controls (as `TimeControl`); the binding invariant holds afterwards |
| BatteryLight.BatteryLightSettings.OnChange | src/com/android/settings/notification/BatteryLightSettings.java:124-157 | a change returns true exactly for a bound control and updates the store as `AfterChange`; with a multi-colour LED a change to the intensity key returns false and writes nothing |

## Left out

- The Android framework: the fragment lifecycle, `findPreference` and `removePreference`, `ContentResolver` and `Resources`. The store is a map field, the flag and the two time defaults are constructor parameters, and a preference is identified by its key (the code compares references, and `findPreference` returns the one preference with that key).
- `CustomSeekBarPreference` itself: each seek bar is a value recording what the screen sets on it (value, default, step, listener). Its own update of the shown value after the listener returns true is not part of this screen's code and is not modelled.
- The seek-bar ranges: they are declared in the layout `battery_light_settings.xml`, which is not part of this model, so no range is assumed for new values.
- The `(Integer) newValue` cast: the new value is an `int32` directly.
- `Settings.Global.getInt` stores strings and falls back to the default on an unparsable one; the model stores `int32`s, so only the absent-key fallback exists.
- A missing preference in the layout (`findPreference` returning null, which would throw): the model assumes the layout holds all three seek bars.
- The metrics category, log tag, layout id getters and the search index provider: constant returns and framework hooks.
- The commented-out LED preview and the temporary fields: dead code.
