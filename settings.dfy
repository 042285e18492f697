/** The difficulty table and the persistent game settings: a key-value
    preference store with typed entries, default values, clamped volume
    setters and an index-to-difficulty lookup that falls back to Normal. */
module Settings {
  import opened Numbers

  /** The three difficulty levels, in declaration (ordinal) order. */
  datatype Difficulty = Easy | Normal | Hard

  function Ordinal(d: Difficulty): (i: nat)
    ensures i < 3
  {
    match d
    case Easy => 0
    case Normal => 1
    case Hard => 2
  }

  /** Difficulty.values()[i] when the index is in range, Normal otherwise. */
  function FromOrdinal(i: int): (d: Difficulty)
    ensures 0 <= i < 3 ==> Ordinal(d) == i
    ensures !(0 <= i < 3) ==> d == Normal
  {
    if i == 0 then Easy
    else if i == 1 then Normal
    else if i == 2 then Hard
    else Normal
  }

  /** The name Difficulty.toString gives each level. */
  function DisplayName(d: Difficulty): string
  {
    match d
    case Easy => "Easy"
    case Normal => "Normal"
    case Hard => "Hard"
  }

  /** Factor applied to every movement speed of a run. */
  function SpeedMultiplier(d: Difficulty): (m: real)
    ensures m > 0.0
  {
    match d
    case Easy => 0.8
    case Normal => 1.0
    case Hard => 1.3
  }

  /** The obstacle spawn interval of a run is 1 / this rate. */
  function ObstacleSpawnRate(d: Difficulty): (r: real)
    ensures r > 0.0
  {
    match d
    case Easy => 1.5
    case Normal => 1.0
    case Hard => 0.7
  }

  /** Harder levels move faster and, because the interval is the reciprocal of
      the rate, spawn obstacles LESS often: Easy every 2/3 s, Normal every 1 s,
      Hard every 10/7 s. */
  lemma DifficultyOrdering(a: Difficulty, b: Difficulty)
    requires Ordinal(a) < Ordinal(b)
    ensures SpeedMultiplier(a) < SpeedMultiplier(b)
    ensures 1.0 / ObstacleSpawnRate(a) < 1.0 / ObstacleSpawnRate(b)
  {
  }

  /** Each difficulty survives the trip through its stored index. */
  lemma OrdinalRoundTrip(d: Difficulty)
    ensures FromOrdinal(Ordinal(d)) == d
  {
  }

  // ---------------------------------------------------------------------------
  // The preference store

  /** A stored preference value; the store keeps each key with one type. */
  datatype Pref = FloatPref(f: real) | IntPref(i: int) | BoolPref(b: bool)

  type Store = map<string, Pref>

  const SoundVolumeKey: string := "sound_volume"
  const MusicVolumeKey: string := "music_volume"
  const DifficultyKey: string := "difficulty"
  const FullscreenKey: string := "fullscreen"
  const ShowFpsKey: string := "show_fps"

  const SettingKeys: set<string> := {SoundVolumeKey, MusicVolumeKey, DifficultyKey, FullscreenKey, ShowFpsKey}

  const DefaultSoundVolume: real := 0.7
  const DefaultMusicVolume: real := 0.5
  const DefaultDifficulty: int := 1
  const DefaultFullscreen: bool := false
  const DefaultShowFps: bool := false

  /** The store's float lookup: the stored float, or the caller's default when
      the key is absent or holds another type. */
  function GetFloat(s: Store, key: string, default: real): (v: real)
    ensures key !in s ==> v == default
    ensures key in s && s[key].FloatPref? ==> v == s[key].f
  {
    if key in s && s[key].FloatPref? then s[key].f else default
  }

  function GetInteger(s: Store, key: string, default: int): (v: int)
    ensures key !in s ==> v == default
    ensures key in s && s[key].IntPref? ==> v == s[key].i
  {
    if key in s && s[key].IntPref? then s[key].i else default
  }

  function GetBoolean(s: Store, key: string, default: bool): (v: bool)
    ensures key !in s ==> v == default
    ensures key in s && s[key].BoolPref? ==> v == s[key].b
  {
    if key in s && s[key].BoolPref? then s[key].b else default
  }

  /** The difficulty a store selects: the stored index (default 1) looked up
      with the Normal fallback. */
  function DifficultyIn(s: Store): Difficulty
  {
    FromOrdinal(GetInteger(s, DifficultyKey, DefaultDifficulty))
  }

  /** Storing a difficulty's ordinal and reading the difficulty back gives it. */
  lemma {:induction false} DifficultyStoreRoundTrip(s: Store, d: Difficulty)
    ensures DifficultyIn(s[DifficultyKey := IntPref(Ordinal(d))]) == d
  {
    OrdinalRoundTrip(d);
  }

  /** A store that has never held a difficulty selects Normal; so does one whose
      stored index is out of range. */
  lemma DifficultyFallback(s: Store)
    requires DifficultyKey !in s || (s[DifficultyKey].IntPref? && !(0 <= s[DifficultyKey].i < 3))
    ensures DifficultyIn(s) == Normal
  {
  }

  /** The settings object: a preference store changed in place by its setters. */
  class GameSettings {
    var prefs: Store

    /** Opens an existing store; fills in the defaults only when the sound volume
        has never been stored. */
    constructor (stored: Store)
      ensures SoundVolumeKey in stored ==> prefs == stored
      ensures SoundVolumeKey !in stored ==>
        && prefs.Keys == stored.Keys + SettingKeys
        && (forall k :: k in stored && k !in SettingKeys ==> prefs[k] == stored[k])
        && SoundVolume() == DefaultSoundVolume && MusicVolume() == DefaultMusicVolume
        && CurrentDifficulty() == Normal && !IsFullscreen() && !IsShowFps()
    {
      prefs := stored;
      new;
      if SoundVolumeKey !in prefs {
        ResetToDefaults();
      }
    }

    /** Writes exactly the five setting keys with their defaults. */
    method ResetToDefaults()
      modifies this
      ensures prefs.Keys == old(prefs).Keys + SettingKeys
      ensures forall k :: k in old(prefs) && k !in SettingKeys ==> prefs[k] == old(prefs)[k]
      ensures prefs[SoundVolumeKey] == FloatPref(DefaultSoundVolume)
      ensures prefs[MusicVolumeKey] == FloatPref(DefaultMusicVolume)
      ensures prefs[DifficultyKey] == IntPref(DefaultDifficulty)
      ensures prefs[FullscreenKey] == BoolPref(DefaultFullscreen)
      ensures prefs[ShowFpsKey] == BoolPref(DefaultShowFps)
      ensures SoundVolume() == DefaultSoundVolume && MusicVolume() == DefaultMusicVolume
      ensures CurrentDifficulty() == Normal && !IsFullscreen() && !IsShowFps()
    {
      prefs := prefs[SoundVolumeKey := FloatPref(DefaultSoundVolume)];
      prefs := prefs[MusicVolumeKey := FloatPref(DefaultMusicVolume)];
      prefs := prefs[DifficultyKey := IntPref(DefaultDifficulty)];
      prefs := prefs[FullscreenKey := BoolPref(DefaultFullscreen)];
      prefs := prefs[ShowFpsKey := BoolPref(DefaultShowFps)];
    }

    function SoundVolume(): (v: real)
      reads this
      ensures SoundVolumeKey !in prefs ==> v == DefaultSoundVolume
      ensures SoundVolumeKey in prefs && prefs[SoundVolumeKey].FloatPref? ==> v == prefs[SoundVolumeKey].f
    {
      GetFloat(prefs, SoundVolumeKey, DefaultSoundVolume)
    }

    /** Stores the volume clamped to [0, 1]; no other key changes. */
    method SetSoundVolume(volume: real)
      modifies this
      ensures prefs == old(prefs)[SoundVolumeKey := FloatPref(Clamp(volume, 0.0, 1.0))]
      ensures 0.0 <= SoundVolume() <= 1.0
      ensures 0.0 <= volume <= 1.0 ==> SoundVolume() == volume
    {
      prefs := prefs[SoundVolumeKey := FloatPref(Max(0.0, Min(1.0, volume)))];
    }

    function MusicVolume(): (v: real)
      reads this
      ensures MusicVolumeKey !in prefs ==> v == DefaultMusicVolume
      ensures MusicVolumeKey in prefs && prefs[MusicVolumeKey].FloatPref? ==> v == prefs[MusicVolumeKey].f
    {
      GetFloat(prefs, MusicVolumeKey, DefaultMusicVolume)
    }

    /** Stores the volume clamped to [0, 1]; no other key changes. */
    method SetMusicVolume(volume: real)
      modifies this
      ensures prefs == old(prefs)[MusicVolumeKey := FloatPref(Clamp(volume, 0.0, 1.0))]
      ensures 0.0 <= MusicVolume() <= 1.0
      ensures 0.0 <= volume <= 1.0 ==> MusicVolume() == volume
    {
      prefs := prefs[MusicVolumeKey := FloatPref(Max(0.0, Min(1.0, volume)))];
    }

    function CurrentDifficulty(): (d: Difficulty)
      reads this
      ensures DifficultyKey !in prefs ==> d == Normal
      ensures DifficultyKey in prefs && prefs[DifficultyKey].IntPref? && 0 <= prefs[DifficultyKey].i < 3 ==>
        Ordinal(d) == prefs[DifficultyKey].i
      ensures DifficultyKey in prefs && prefs[DifficultyKey].IntPref? && !(0 <= prefs[DifficultyKey].i < 3) ==>
        d == Normal
    {
      DifficultyIn(prefs)
    }

    /** Stores the difficulty's ordinal, so that it reads back unchanged. */
    method SetDifficulty(d: Difficulty)
      modifies this
      ensures prefs == old(prefs)[DifficultyKey := IntPref(Ordinal(d))]
      ensures CurrentDifficulty() == d
    {
      prefs := prefs[DifficultyKey := IntPref(Ordinal(d))];
      DifficultyStoreRoundTrip(old(prefs), d);
    }

    function IsFullscreen(): (v: bool)
      reads this
      ensures FullscreenKey !in prefs ==> v == DefaultFullscreen
      ensures FullscreenKey in prefs && prefs[FullscreenKey].BoolPref? ==> v == prefs[FullscreenKey].b
    {
      GetBoolean(prefs, FullscreenKey, DefaultFullscreen)
    }

    method SetFullscreen(fullscreen: bool)
      modifies this
      ensures prefs == old(prefs)[FullscreenKey := BoolPref(fullscreen)]
      ensures IsFullscreen() == fullscreen
    {
      prefs := prefs[FullscreenKey := BoolPref(fullscreen)];
    }

    function IsShowFps(): (v: bool)
      reads this
      ensures ShowFpsKey !in prefs ==> v == DefaultShowFps
      ensures ShowFpsKey in prefs && prefs[ShowFpsKey].BoolPref? ==> v == prefs[ShowFpsKey].b
    {
      GetBoolean(prefs, ShowFpsKey, DefaultShowFps)
    }

    method SetShowFps(showFps: bool)
      modifies this
      ensures prefs == old(prefs)[ShowFpsKey := BoolPref(showFps)]
      ensures IsShowFps() == showFps
    {
      prefs := prefs[ShowFpsKey := BoolPref(showFps)];
    }
  }
}
