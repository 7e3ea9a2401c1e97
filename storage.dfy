/**
 * The settings file (source/storage/storage.c): three lines
 * `wifi=b`, `music=b`, `soundfx=b` read into the user settings of the game
 * context, written back from them, and reset to all-on.
 */
module Storage {
  import opened TextFile
  import opened FixedMath

  /** fgets buffer size used when reading the settings file. */
  const SETTINGS_LINE_BUFFER: nat := 32

  const WIFI_KEY: string := "wifi="
  const MUSIC_KEY: string := "music="
  const SOUNDFX_KEY: string := "soundfx="

  datatype Settings = Settings(wifi: bool, music: bool, soundFx: bool)

  const ALL_ON: Settings := Settings(true, true, true)

  predicate StartsWith(line: string, key: string)
  {
    |key| <= |line| && line[..|key|] == key
  }

  /** The flag a matching line sets: the character after the key is '1' (the terminator counts as not '1'). */
  predicate FlagOf(line: string, keyLength: nat)
  {
    keyLength < |line| && line[keyLength] == '1'
  }

  /** The value of one flag after reading lines: the last line starting with key decides, 1 when there is none. */
  function LastFlag(lines: seq<string>, key: string): (b: bool)
    ensures (forall k | 0 <= k < |lines| :: !StartsWith(lines[k], key)) ==> b
    decreases |lines|
  {
    if lines == [] then true
    else
      var l := lines[|lines| - 1];
      if StartsWith(l, key) then FlagOf(l, |key|) else LastFlag(lines[..|lines| - 1], key)
  }

  /** What a load of these lines puts in the context. */
  function SettingsFrom(lines: seq<string>): Settings
  {
    Settings(LastFlag(lines, WIFI_KEY), LastFlag(lines, MUSIC_KEY), LastFlag(lines, SOUNDFX_KEY))
  }

  /** One more line read: a recognised key sets its own flag and no other. */
  lemma SettingsFromStep(lines: seq<string>, i: int)
    requires 0 <= i < |lines|
    ensures var l, before := lines[i], SettingsFrom(lines[..i]);
      SettingsFrom(lines[..i + 1]) ==
        if StartsWith(l, WIFI_KEY) then before.(wifi := FlagOf(l, |WIFI_KEY|))
        else if StartsWith(l, MUSIC_KEY) then before.(music := FlagOf(l, |MUSIC_KEY|))
        else if StartsWith(l, SOUNDFX_KEY) then before.(soundFx := FlagOf(l, |SOUNDFX_KEY|))
        else before
  {
    assert lines[..i + 1][..i] == lines[..i];
    KeysDisjoint(lines[i]);
  }

  /** The line loop of Storage_LoadSettings: every flag starts on and the last line naming it wins. */
  method ReadSettingLines(lines: seq<string>) returns (wifi: bool, music: bool, soundFx: bool)
    ensures Settings(wifi, music, soundFx) == SettingsFrom(lines)
  {
    wifi, music, soundFx := true, true, true;
    var i := 0;
    while i < |lines|
      invariant 0 <= i <= |lines|
      invariant Settings(wifi, music, soundFx) == SettingsFrom(lines[..i])
    {
      SettingsFromStep(lines, i);
      var line := lines[i];
      if StartsWith(line, WIFI_KEY) {
        wifi := FlagOf(line, |WIFI_KEY|);
      } else if StartsWith(line, MUSIC_KEY) {
        music := FlagOf(line, |MUSIC_KEY|);
      } else if StartsWith(line, SOUNDFX_KEY) {
        soundFx := FlagOf(line, |SOUNDFX_KEY|);
      }
      i := i + 1;
    }
    assert lines[..|lines|] == lines;
  }

  function Bit(b: bool): string { if b then "1" else "0" }

  function SettingLine(key: string, b: bool): string { key + Bit(b) + "\n" }

  /** The three lines Save writes, in order. */
  function SettingsLines(s: Settings): seq<string>
  {
    [SettingLine(WIFI_KEY, s.wifi), SettingLine(MUSIC_KEY, s.music), SettingLine(SOUNDFX_KEY, s.soundFx)]
  }

  /** The file Save writes: `wifi=b\nmusic=b\nsoundfx=b\n` with each b in {0, 1}. */
  function SettingsText(s: Settings): string
  {
    SettingLine(WIFI_KEY, s.wifi) + SettingLine(MUSIC_KEY, s.music) + SettingLine(SOUNDFX_KEY, s.soundFx)
  }

  lemma SettingsTextIsLines(s: Settings)
    ensures Concat(SettingsLines(s)) == SettingsText(s)
  {
    var ls := SettingsLines(s);
    ConcatCons(ls[2], []);
    assert ls[2..] == [ls[2]] + [];
    ConcatCons(ls[1], ls[2..]);
    assert ls[1..] == [ls[1]] + ls[2..];
    ConcatCons(ls[0], ls[1..]);
    assert ls == [ls[0]] + ls[1..];
  }

  /** writeDefaultsToFile: the content written, or None when the file cannot be created. */
  function DefaultsWritten(canCreate: bool): (written: Option<string>)
    ensures written.Some? <==> canCreate
    ensures canCreate ==> written.value == SettingsText(ALL_ON)
  {
    if canCreate then Some(SettingsText(ALL_ON)) else None
  }

  /** A line of one key never starts with another key. */
  lemma KeysDisjoint(l: string)
    ensures StartsWith(l, WIFI_KEY) ==> !StartsWith(l, MUSIC_KEY) && !StartsWith(l, SOUNDFX_KEY)
    ensures StartsWith(l, MUSIC_KEY) ==> !StartsWith(l, SOUNDFX_KEY)
  {
    if StartsWith(l, WIFI_KEY) { assert l[0] == 'w'; }
    if StartsWith(l, MUSIC_KEY) { assert l[0] == 'm'; }
  }

  /** The flag a written line carries reads back as the value written. */
  lemma SettingLineFlag(key: string, b: bool)
    ensures StartsWith(SettingLine(key, b), key)
    ensures FlagOf(SettingLine(key, b), |key|) == b
  {
    assert SettingLine(key, b)[..|key|] == key;
    assert SettingLine(key, b)[|key|] == Bit(b)[0];
  }

  lemma SettingLineFull(key: string, b: bool)
    requires |key| <= SETTINGS_LINE_BUFFER - 3 && forall k | 0 <= k < |key| :: key[k] != '\n'
    ensures FullLine(SettingLine(key, b), SETTINGS_LINE_BUFFER)
  {
    var l := SettingLine(key, b);
    assert forall k | 0 <= k < |l| - 1 :: l[k] == if k < |key| then key[k] else Bit(b)[0];
  }

  /** The file Save writes reads back as its three lines. */
  lemma SettingsReadBack(s: Settings)
    ensures FgetsLines(SettingsText(s), SETTINGS_LINE_BUFFER) == SettingsLines(s)
  {
    var ls := SettingsLines(s);
    SettingLineFull(WIFI_KEY, s.wifi);
    SettingLineFull(MUSIC_KEY, s.music);
    SettingLineFull(SOUNDFX_KEY, s.soundFx);
    SettingsTextIsLines(s);
    ReadBackFullLines(ls, SETTINGS_LINE_BUFFER);
  }

  /** Saving and loading back reproduces the three settings. */
  lemma SaveThenLoad(s: Settings)
    ensures SettingsFrom(FgetsLines(SettingsText(s), SETTINGS_LINE_BUFFER)) == s
  {
    var ls := SettingsLines(s);
    SettingsReadBack(s);
    SettingLineFlag(WIFI_KEY, s.wifi);
    SettingLineFlag(MUSIC_KEY, s.music);
    SettingLineFlag(SOUNDFX_KEY, s.soundFx);
    assert !StartsWith(ls[1], WIFI_KEY) by { assert ls[1][0] == 'm'; }
    assert !StartsWith(ls[2], WIFI_KEY) && !StartsWith(ls[2], MUSIC_KEY) by { assert ls[2][0] == 's'; }
    assert ls[..2] == [ls[0], ls[1]];
    assert ls[..2][..1] == [ls[0]];
    assert LastFlag(ls, SOUNDFX_KEY) == s.soundFx;
    assert LastFlag(ls, MUSIC_KEY) == LastFlag(ls[..2], MUSIC_KEY) == s.music;
    assert LastFlag(ls, WIFI_KEY) == LastFlag(ls[..2], WIFI_KEY) == LastFlag(ls[..2][..1], WIFI_KEY) == s.wifi;
  }

  /** The user settings of the game context, updated in place. */
  class UserSettings {
    var wifiEnabled: bool
    var musicEnabled: bool
    var soundFxEnabled: bool

    function Value(): Settings
      reads this
    {
      Settings(wifiEnabled, musicEnabled, soundFxEnabled)
    }

    constructor(s: Settings)
      ensures Value() == s
    {
      wifiEnabled, musicEnabled, soundFxEnabled := s.wifi, s.music, s.soundFx;
    }

    /**
     * Storage_LoadSettings. An unreadable file (None) gives false and leaves
     * the settings as they were; otherwise each flag is set from the last
     * line of its key, or to on when no line has it.
     */
    method LoadSettings(file: Option<string>) returns (ok: bool)
      modifies this
      ensures ok <==> file.Some?
      ensures Value() == if file.None? then old(Value()) else SettingsFrom(FgetsLines(file.value, SETTINGS_LINE_BUFFER))
    {
      if file.None? {
        return false;
      }
      var lines := FgetsLines(file.value, SETTINGS_LINE_BUFFER);
      var wifi, music, soundFx := ReadSettingLines(lines);
      wifiEnabled, musicEnabled, soundFxEnabled := wifi, music, soundFx;
      return true;
    }

    /** Storage_SaveSettings: the content written, or None when the file cannot be created. */
    method SaveSettings(canCreate: bool) returns (written: Option<string>)
      ensures written.Some? <==> canCreate
      ensures canCreate ==> FgetsLines(written.value, SETTINGS_LINE_BUFFER) == SettingsLines(Value())
    {
      if !canCreate {
        return None;
      }
      var text := SettingsText(Value());
      SettingsReadBack(Value());
      return Some(text);
    }

    /**
     * Storage_ResetToDefaults: write the defaults, then load them, so every
     * flag ends up on; when the file cannot be created nothing changes.
     */
    method ResetToDefaults(canCreate: bool) returns (ok: bool, written: Option<string>)
      modifies this
      ensures ok <==> canCreate
      ensures written == DefaultsWritten(canCreate)
      ensures Value() == if canCreate then ALL_ON else old(Value())
    {
      written := DefaultsWritten(canCreate);
      if written.None? {
        return false, written;
      }
      SaveThenLoad(ALL_ON);
      ok := LoadSettings(written);
    }
  }
}
