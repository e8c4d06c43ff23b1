/** The translation between the LED intensity that the battery light settings
    store (one of four ARGB codes) and the level 1..4 that the seek bar shows. */
module Intensity {
  import opened Int32

  /** The four stored codes, `mI1` to `mI4`, as Java reads them (all negative). */
  const I1: int32 := FromUnsigned(0xFF0F0F0F)
  const I2: int32 := FromUnsigned(0xFF5F5F5F)
  const I3: int32 := FromUnsigned(0xFFAFAFAF)
  const I4: int32 := FromUnsigned(0xFFFFFFFF)

  /** The table the two conversions implement: level `n` stands for `Sentinels[n - 1]`. */
  const Sentinels: seq<int32> := [I1, I2, I3, I4]

  const MinLevel: int32 := 1
  const MaxLevel: int32 := 4
  /** `defaultLightIntensity`: the level of the brightest code, used for anything unrecognised. */
  const DefaultLevel: int32 := 4

  predicate IsLevel(n: int32) {
    MinLevel <= n <= MaxLevel
  }

  /** The codes, as signed values; in particular `mI4` is -1. */
  lemma SentinelValues()
    ensures I1 == -0x00F0_F0F1 && I2 == -0x00A0_A0A1 && I3 == -0x0050_5051 && I4 == -1
    ensures |Sentinels| == MaxLevel as int
    ensures forall i, j :: 0 <= i < j < |Sentinels| ==> Sentinels[i] != Sentinels[j]
  {
  }

  /** The level shown for a stored intensity: a code shows its level in the
      table, every other value shows the default level 4. */
  function RawToLevel(raw: int32): (level: int32)
    ensures IsLevel(level)
    ensures raw in Sentinels ==> Sentinels[level - 1] == raw
    ensures raw !in Sentinels ==> level == DefaultLevel
  {
    if raw == I1 then 1
    else if raw == I2 then 2
    else if raw == I3 then 3
    else if raw == I4 then 4
    else DefaultLevel
  }

  /** The code stored for a level chosen on the seek bar: a level 1..4 stores
      its code in the table, every other value stores the brightest code `mI4`. */
  function LevelToRaw(level: int32): (raw: int32)
    ensures raw in Sentinels
    ensures IsLevel(level) ==> raw == Sentinels[level - 1]
    ensures !IsLevel(level) ==> raw == I4
  {
    if level == 1 then I1
    else if level == 2 then I2
    else if level == 3 then I3
    else if level == 4 then I4
    else I4
  }

  /** What a level reads back as once written: itself for 1..4, else 4. */
  function Normalized(level: int32): (n: int32)
    ensures IsLevel(n)
    ensures IsLevel(level) ==> n == level
  {
    if IsLevel(level) then level else DefaultLevel
  }

  /** Writing a level and reading it back shows the same level. */
  lemma LevelRoundTrip(level: int32)
    requires IsLevel(level)
    ensures RawToLevel(LevelToRaw(level)) == level
  {
  }

  /** Reading a code and writing the level back stores the same code. */
  lemma RawRoundTrip(raw: int32)
    requires raw in Sentinels
    ensures LevelToRaw(RawToLevel(raw)) == raw
  {
  }

  /** Any value written reads back as its normalized level. */
  lemma WriteThenRead(level: int32)
    ensures RawToLevel(LevelToRaw(level)) == Normalized(level)
  {
  }

  /** Any stored value, read and written back, becomes a code: itself if it
      was one, `mI4` otherwise. */
  lemma ReadThenWrite(raw: int32)
    ensures LevelToRaw(RawToLevel(raw)) == if raw in Sentinels then raw else I4
  {
  }

  /** Exactly which stored values show a given level. */
  lemma RawToLevelPreimage(raw: int32, level: int32)
    requires IsLevel(level)
    ensures RawToLevel(raw) == level <==>
              raw == Sentinels[level - 1] || (level == DefaultLevel && raw !in Sentinels)
  {
  }
}
