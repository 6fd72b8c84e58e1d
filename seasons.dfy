/**
 * openSAM.cpp: the plugin's season selection, its preference file, the
 * season datarefs, the door information file and the flight loop scheduler.
 *
 * The globals `nh`, `season`, `auto_season` and `pref_auto_mode` are the
 * fields of `SeasonControl`; the preference file is the list of integers
 * `fscanf("%i,%i,%i")` reads back from it (None when it cannot be opened).
 * Simulator reads (day of year, latitude, the plane's state, the values the
 * sub-machines return) are parameters.
 */
module Seasons {
  import opened Wrappers
  import opened Strings

  /** openSAM.h: the largest door number. */
  const KMaxDoor := 3

  // ---------------------------------------------------------------------
  // Seasons from the day of the year
  // ---------------------------------------------------------------------

  /**
   * The northern season of a day of the year: 0 winter, 1 spring, 2 summer,
   * 3 autumn.  The last arm (`else if (day)`) is reached only for days past
   * 355, which are never 0, so it always applies.
   */
  function NorthSeason(day: int): (s: int)
    ensures 0 <= s <= 3
    ensures s == 0 <==> day <= 80 || day > 355
  {
    if day <= 80 then 0
    else if day <= 172 then 1
    else if day <= 264 then 2
    else if day <= 355 then 3
    else if day != 0 then 0
    else 0
  }

  /** The southern season of a day of the year. */
  function SouthSeason(day: int): (s: int)
    ensures 0 <= s <= 3
  {
    if day <= 80 then 2
    else if day <= 172 then 3
    else if day <= 264 then 0
    else if day <= 355 then 1
    else if day != 0 then 2
    else 2
  }

  /** On every day the southern season is the northern one shifted by half a year. */
  lemma SouthIsNorthShifted(day: int)
    ensures SouthSeason(day) == (NorthSeason(day) + 2) % 4
    ensures NorthSeason(day) == (SouthSeason(day) + 2) % 4
  {
  }

  /** The season `set_season_auto` picks for a hemisphere and a day. */
  function AutoSeason(nh: bool, day: int): (s: int)
    ensures 0 <= s <= 3
    ensures !nh ==> s == (NorthSeason(day) + 2) % 4
  {
    SouthIsNorthShifted(day);
    if nh then NorthSeason(day) else SouthSeason(day)
  }

  // ---------------------------------------------------------------------
  // The preference file
  // ---------------------------------------------------------------------

  /** `save_pref`: the southern hemisphere is stored as a negative season. */
  function EncodeSeason(nh: bool, season: int): int
  {
    if nh then season else -season
  }

  /** `load_pref`: a negative season selects the southern hemisphere. */
  function DecodeSeason(s: int): (r: (bool, int))
    ensures r.1 >= 0
    ensures r.0 <==> s >= 0
  {
    if s < 0 then (false, -s) else (true, s)
  }

  /** The stored season reads back, except winter in the south. */
  lemma SeasonRoundTrip(nh: bool, season: int)
    requires 0 <= season <= 3
    ensures DecodeSeason(EncodeSeason(nh, season)) == (nh, season) <==> nh || season != 0
  {
  }

  /** Winter in the southern hemisphere is stored as 0 and reads back as northern winter. */
  lemma SouthWinterReadsNorth()
    ensures EncodeSeason(false, 0) == 0
    ensures DecodeSeason(EncodeSeason(false, 0)) == (true, 0)
  {
  }

  /** An encoding that keeps the hemisphere: the south stores -(season + 1). */
  function EncodeSeasonFixed(nh: bool, season: int): int
  {
    if nh then season else -(season + 1)
  }

  function DecodeSeasonFixed(s: int): (r: (bool, int))
    ensures r.1 >= 0
    ensures r.0 <==> s >= 0
  {
    if s < 0 then (false, -s - 1) else (true, s)
  }

  /** With the fixed encoding every hemisphere and season reads back. */
  lemma SeasonRoundTripFixed(nh: bool, season: int)
    requires season >= 0
    ensures DecodeSeasonFixed(EncodeSeasonFixed(nh, season)) == (nh, season)
  {
  }

  /** The preference state: hemisphere, automatic season, season, automatic jetway selection. */
  datatype Prefs = Prefs(nh: bool, autoSeason: int, season: int, autoMode: int)

  /** The integers `save_pref` writes, `"%d,%d,%d"`. */
  function PrefRecord(p: Prefs): seq<int>
  {
    [p.autoSeason, EncodeSeason(p.nh, p.season), p.autoMode]
  }

  /**
   * The state `load_pref` leaves: defaults nh = 1, auto_season = 1,
   * season = 1, mode = 1, overwritten by as many integers as the file holds.
   */
  function LoadedPrefs(file: Option<seq<int>>): (p: Prefs)
    ensures file.None? ==> p == Prefs(true, 1, 1, 1)
    ensures p.season >= 0
  {
    var v := if file.Some? then file.value else [];
    var a := if |v| >= 1 then v[0] else 1;
    var s := if |v| >= 2 then v[1] else 1;
    var m := if |v| >= 3 then v[2] else 1;
    var (nh, season) := DecodeSeason(s);
    Prefs(nh, a, season, m)
  }

  /** Saving then loading restores every preference, except the hemisphere of a southern winter. */
  lemma PrefsRoundTrip(p: Prefs)
    requires 0 <= p.season <= 3
    ensures LoadedPrefs(Some(PrefRecord(p))) == p <==> p.nh || p.season != 0
  {
    SeasonRoundTrip(p.nh, p.season);
  }

  /** The integers the fixed `save_pref` would write. */
  function PrefRecordFixed(p: Prefs): seq<int>
  {
    [p.autoSeason, EncodeSeasonFixed(p.nh, p.season), p.autoMode]
  }

  function LoadedPrefsFixed(file: Option<seq<int>>): (p: Prefs)
    ensures file.None? ==> p == Prefs(true, 1, 1, 1)
  {
    var v := if file.Some? then file.value else [];
    var a := if |v| >= 1 then v[0] else 1;
    var s := if |v| >= 2 then v[1] else 1;
    var m := if |v| >= 3 then v[2] else 1;
    var (nh, season) := DecodeSeasonFixed(s);
    Prefs(nh, a, season, m)
  }

  /** With the fixed encoding saving then loading restores every preference. */
  lemma PrefsRoundTripFixed(p: Prefs)
    requires p.season >= 0
    ensures LoadedPrefsFixed(Some(PrefRecordFixed(p))) == p
  {
    SeasonRoundTripFixed(p.nh, p.season);
  }

  /**
   * `load_pref` takes the season from the file without a range check: a
   * file holding `0,7,1` leaves season 7, and `set_menu` then indexes
   * `season_item[7]` of a four-element array.
   */
  lemma LoadedSeasonOutOfRange()
    ensures LoadedPrefs(Some([0, 7, 1])) == Prefs(true, 0, 7, 1)
    ensures !(0 <= LoadedPrefs(Some([0, 7, 1])).season <= 3)
  {
  }

  /**
   * `load_pref` with the season checked: a season outside 0..3 falls back
   * to the default, northern spring; everything else is taken as loaded.
   */
  function LoadedPrefsChecked(file: Option<seq<int>>): (p: Prefs)
    ensures 0 <= p.season <= 3
    ensures file.None? ==> p == Prefs(true, 1, 1, 1)
    ensures p.autoSeason == LoadedPrefs(file).autoSeason && p.autoMode == LoadedPrefs(file).autoMode
  {
    var p := LoadedPrefs(file);
    if p.season <= 3 then p else p.(nh := true, season := 1)
  }

  /** The checked load differs from `load_pref` exactly on the files whose season is out of range. */
  lemma LoadedPrefsCheckedAgrees(file: Option<seq<int>>)
    ensures LoadedPrefsChecked(file) == LoadedPrefs(file) <==> 0 <= LoadedPrefs(file).season <= 3
  {
  }

  /** What `save_pref` writes, the checked load reads back as `load_pref` does. */
  lemma PrefsRoundTripChecked(p: Prefs)
    requires 0 <= p.season <= 3
    ensures LoadedPrefsChecked(Some(PrefRecord(p))) == p <==> p.nh || p.season != 0
  {
    PrefsRoundTrip(p);
    SeasonRoundTrip(p.nh, p.season);
    LoadedPrefsCheckedAgrees(Some(PrefRecord(p)));
  }

  // ---------------------------------------------------------------------
  // The season datarefs
  // ---------------------------------------------------------------------

  /** `read_season_acc`: dataref `ref` (winter, spring, summer, autumn) reads 1 when it is the season. */
  function ReadSeasonAcc(ref: int, season: int): (v: int)
    ensures v == 0 || v == 1
  {
    if ref == season then 1 else 0
  }

  /** Exactly one of the four season datarefs reads 1 while the season is valid, none otherwise. */
  lemma SeasonDatarefsOneHot(season: int)
    ensures ReadSeasonAcc(0, season) + ReadSeasonAcc(1, season) + ReadSeasonAcc(2, season) + ReadSeasonAcc(3, season)
      == (if 0 <= season <= 3 then 1 else 0)
    ensures 0 <= season <= 3 ==> ReadSeasonAcc(season, season) == 1
  {
  }

  // ---------------------------------------------------------------------
  // The plugin's season state
  // ---------------------------------------------------------------------

  class SeasonControl {
    var nh: bool
    var autoSeason: int
    var season: int
    var prefAutoMode: int
    /** The integers the preference file holds; None when it cannot be opened. */
    var prefFile: Option<seq<int>>
    /** The check marks of the season menu: the four seasons and "Automatic". */
    var seasonChecked: seq<bool>
    var autoChecked: bool

    function State(): Prefs
      reads this
    {
      Prefs(nh, autoSeason, season, prefAutoMode)
    }

    /** The globals as the plugin starts: zero, with the preference file on disk. */
    constructor (file: Option<seq<int>>)
      ensures State() == Prefs(false, 0, 0, 0) && prefFile == file
      ensures seasonChecked == [false, false, false, false] && !autoChecked
    {
      nh := false;
      autoSeason := 0;
      season := 0;
      prefAutoMode := 0;
      prefFile := file;
      seasonChecked := [false, false, false, false];
      autoChecked := false;
    }

    /** `load_pref`: the defaults, then the file, then the hemisphere from the season's sign. */
    method LoadPref()
      modifies this
      ensures State() == LoadedPrefs(prefFile)
      ensures prefFile == old(prefFile) && seasonChecked == old(seasonChecked) && autoChecked == old(autoChecked)
    {
      nh := true;
      autoSeason := 1;
      season := 1;
      prefAutoMode := 1;
      if prefFile.None? {
        return;
      }
      var v := prefFile.value;
      if |v| >= 1 {
        autoSeason := v[0];
      }
      if |v| >= 2 {
        season := v[1];
      }
      if |v| >= 3 {
        prefAutoMode := v[2];
      }
      if season < 0 {
        nh := false;
        season := -season;
      }
    }

    /** `load_pref` followed by the season range check the menu needs. */
    method LoadPrefChecked()
      modifies this
      ensures State() == LoadedPrefsChecked(prefFile)
      ensures prefFile == old(prefFile) && seasonChecked == old(seasonChecked) && autoChecked == old(autoChecked)
    {
      LoadPref();
      if season > 3 {
        nh := true;
        season := 1;
      }
    }

    /**
     * `save_pref`: when the file can be written, the jetway auto mode is
     * fetched from the plane and the record replaces the file.
     */
    method SavePref(writable: bool, planeAutoMode: int)
      modifies this
      ensures writable ==> prefAutoMode == planeAutoMode && prefFile == Some(PrefRecord(State()))
      ensures !writable ==> prefAutoMode == old(prefAutoMode) && prefFile == old(prefFile)
      ensures nh == old(nh) && autoSeason == old(autoSeason) && season == old(season)
      ensures seasonChecked == old(seasonChecked) && autoChecked == old(autoChecked)
    {
      if !writable {
        return;
      }
      prefAutoMode := planeAutoMode;
      var s := if nh then season else -season;
      prefFile := Some([autoSeason, s, prefAutoMode]);
    }

    /** `set_season_auto`: with automatic seasons on, the season follows the day. */
    method SetSeasonAuto(day: int)
      modifies this
      ensures autoSeason == 0 ==> season == old(season)
      ensures autoSeason != 0 ==> season == AutoSeason(nh, day)
      ensures nh == old(nh) && autoSeason == old(autoSeason) && prefAutoMode == old(prefAutoMode)
      ensures prefFile == old(prefFile) && seasonChecked == old(seasonChecked) && autoChecked == old(autoChecked)
    {
      if autoSeason == 0 {
        return;
      }
      if nh {
        if day <= 80 {
          season := 0;
        } else if day <= 172 {
          season := 1;
        } else if day <= 264 {
          season := 2;
        } else if day <= 355 {
          season := 3;
        } else if day != 0 {
          season := 0;
        }
      } else {
        if day <= 80 {
          season := 2;
        } else if day <= 172 {
          season := 3;
        } else if day <= 264 {
          season := 0;
        } else if day <= 355 {
          season := 1;
        } else if day != 0 {
          season := 2;
        }
      }
    }

    /** `set_menu`: "Automatic" shows the mode and exactly the current season is checked. */
    method SetMenu()
      requires 0 <= season <= 3
      modifies this
      ensures |seasonChecked| == 4 && forall i :: 0 <= i < 4 ==> (seasonChecked[i] <==> i == season)
      ensures autoChecked <==> autoSeason != 0
      ensures State() == old(State()) && prefFile == old(prefFile)
    {
      autoChecked := autoSeason != 0;
      seasonChecked := [false, false, false, false][season := true];
    }

    /** Plugin start: the preferences are loaded (checked) and the menu drawn from them. */
    method Start()
      modifies this
      ensures State() == LoadedPrefsChecked(prefFile) && prefFile == old(prefFile)
      ensures |seasonChecked| == 4 && forall i :: 0 <= i < 4 ==> (seasonChecked[i] <==> i == season)
      ensures autoChecked <==> autoSeason != 0
    {
      LoadPrefChecked();
      SetMenu();
    }

    /**
     * `menu_cb`: entry 4 toggles automatic mode and re-evaluates the season;
     * a season entry selects that season and switches to manual mode.  The
     * menu is redrawn and the preferences saved.
     */
    method MenuCb(entry: int, day: int, writable: bool, planeAutoMode: int)
      requires 0 <= entry <= 4
      requires entry == 4 && autoSeason != 0 ==> 0 <= season <= 3
      modifies this
      ensures entry == 4 ==> autoSeason == (if old(autoSeason) == 0 then 1 else 0)
      ensures entry == 4 ==> season == (if autoSeason != 0 then AutoSeason(nh, day) else old(season))
      ensures entry < 4 ==> season == entry && autoSeason == 0
      ensures nh == old(nh) && 0 <= season <= 3 && |seasonChecked| == 4
      ensures forall i :: 0 <= i < 4 ==> (seasonChecked[i] <==> i == season)
      ensures autoChecked <==> autoSeason != 0
      ensures writable ==> prefFile == Some(PrefRecord(State())) && prefAutoMode == planeAutoMode
      ensures !writable ==> prefFile == old(prefFile) && prefAutoMode == old(prefAutoMode)
    {
      if entry == 4 {
        autoSeason := if autoSeason == 0 then 1 else 0;
        SetSeasonAuto(day);
      } else {
        season := entry;
        autoSeason := 0;
      }
      SetMenu();
      SavePref(writable, planeAutoMode);
    }

    /** On airport load the hemisphere follows the latitude and the season is re-evaluated. */
    method AirportLoaded(lat: real, day: int)
      modifies this
      ensures nh == (lat >= 0.0)
      ensures autoSeason != 0 ==> season == AutoSeason(nh, day)
      ensures autoSeason == 0 ==> season == old(season)
      ensures autoSeason == old(autoSeason) && prefAutoMode == old(prefAutoMode) && prefFile == old(prefFile)
    {
      nh := lat >= 0.0;
      SetSeasonAuto(day);
    }
  }

  /** Automatic mode always yields a valid season, and a round trip through the file keeps it. */
  lemma AutoSeasonSaved(nh: bool, day: int, mode: int)
    ensures var p := Prefs(nh, 1, AutoSeason(nh, day), mode);
      LoadedPrefs(Some(PrefRecord(p))) == p <==> nh || AutoSeason(nh, day) != 0
  {
    PrefsRoundTrip(Prefs(nh, 1, AutoSeason(nh, day), mode));
  }

  // ---------------------------------------------------------------------
  // The door information file
  // ---------------------------------------------------------------------

  datatype DoorInfo = DoorInfo(x: real, y: real, z: real)

  /** What `sscanf(line, "%4s %d %f %f %f", ...)` yields: the number of conversions and the values. */
  datatype Scan = Scan(count: int, icao: string, door: int, x: real, y: real, z: real)

  /** A scanned line enters the map: five fields, no comment, a door in 1..kMaxDoor. */
  predicate Accepted(sc: Scan)
  {
    sc.count == 5 && !(|sc.icao| > 0 && sc.icao[0] == '#') && 1 <= sc.door <= KMaxDoor
  }

  /** The map key: the ICAO code followed by the door digit. */
  function DoorKey(sc: Scan): string
    requires 1 <= sc.door <= KMaxDoor
  {
    sc.icao + [(sc.door + '0' as int) as char]
  }

  /** The line as the scanner sees it: cut at the first carriage return. */
  function ScanLine(scan: string -> Scan, line: string): Scan
  {
    scan(CutAt(line, '\r'))
  }

  /** The map after the lines of the file, added to the map m. */
  function DoorLoad(m: map<string, DoorInfo>, lines: seq<string>, scan: string -> Scan): map<string, DoorInfo>
  {
    if lines == [] then m
    else
      var m' := DoorLoad(m, lines[..|lines| - 1], scan);
      var sc := ScanLine(scan, lines[|lines| - 1]);
      if Accepted(sc) then m'[DoorKey(sc) := DoorInfo(sc.x, sc.y, sc.z)] else m'
  }

  /** Line i of the file is accepted with key k. */
  predicate AcceptedWithKey(lines: seq<string>, scan: string -> Scan, i: int, k: string)
  {
    0 <= i < |lines| && Accepted(ScanLine(scan, lines[i])) && DoorKey(ScanLine(scan, lines[i])) == k
  }

  /** A key is in the loaded map iff it was there before or an accepted line has it. */
  lemma {:induction false} DoorLoadKeys(m: map<string, DoorInfo>, lines: seq<string>, scan: string -> Scan, k: string)
    ensures k in DoorLoad(m, lines, scan) <==> k in m || exists i :: AcceptedWithKey(lines, scan, i, k)
  {
    if lines != [] {
      var init := lines[..|lines| - 1];
      DoorLoadKeys(m, init, scan, k);
      forall i | AcceptedWithKey(init, scan, i, k)
        ensures AcceptedWithKey(lines, scan, i, k)
      {
      }
      forall i | AcceptedWithKey(lines, scan, i, k) && i < |init|
        ensures AcceptedWithKey(init, scan, i, k)
      {
      }
      var sc := ScanLine(scan, lines[|lines| - 1]);
      if Accepted(sc) && DoorKey(sc) == k {
        assert AcceptedWithKey(lines, scan, |lines| - 1, k);
      } else {
        assert !AcceptedWithKey(lines, scan, |lines| - 1, k);
      }
    }
  }

  /** The last accepted line with a key decides its value: later lines overwrite earlier ones. */
  lemma {:induction false} DoorLoadLastWins(m: map<string, DoorInfo>, lines: seq<string>, scan: string -> Scan, i: int)
    requires 0 <= i < |lines| && Accepted(ScanLine(scan, lines[i]))
    requires forall j :: i < j < |lines| ==> !AcceptedWithKey(lines, scan, j, DoorKey(ScanLine(scan, lines[i])))
    ensures var sc := ScanLine(scan, lines[i]);
      DoorKey(sc) in DoorLoad(m, lines, scan) && DoorLoad(m, lines, scan)[DoorKey(sc)] == DoorInfo(sc.x, sc.y, sc.z)
  {
    var init := lines[..|lines| - 1];
    if i < |init| {
      assert init[i] == lines[i];
      forall j | i < j < |init|
        ensures !AcceptedWithKey(init, scan, j, DoorKey(ScanLine(scan, lines[i])))
      {
        assert !AcceptedWithKey(lines, scan, j, DoorKey(ScanLine(scan, lines[i])));
      }
      DoorLoadLastWins(m, init, scan, i);
      assert !AcceptedWithKey(lines, scan, |lines| - 1, DoorKey(ScanLine(scan, lines[i])));
    }
  }

  /** Every key the file adds ends in a door digit 1..3 after a non-comment ICAO code. */
  lemma {:induction false} DoorLoadKeyShape(m: map<string, DoorInfo>, lines: seq<string>, scan: string -> Scan, k: string)
    requires k in DoorLoad(m, lines, scan) && k !in m
    ensures |k| >= 1 && '1' <= k[|k| - 1] <= '3'
    ensures !(|k| > 1 && k[0] == '#')
  {
    DoorLoadKeys(m, lines, scan, k);
    var i :| AcceptedWithKey(lines, scan, i, k);
    var sc := ScanLine(scan, lines[i]);
    assert k == sc.icao + [(sc.door + '0' as int) as char];
    if |sc.icao| > 0 {
      assert k[0] == sc.icao[0];
    }
  }

  /** The door information map, filled by `load_door_info`. */
  class DoorInfoMap {
    var doorInfo: map<string, DoorInfo>

    constructor ()
      ensures doorInfo == map[]
    {
      doorInfo := map[];
    }

    /**
     * `load_door_info`: fails (the source throws) when the file cannot be
     * opened; otherwise every accepted line is entered in order.
     */
    method LoadDoorInfo(file: Option<seq<string>>, scan: string -> Scan) returns (r: Result<()>)
      modifies this
      ensures file.None? <==> r.Err?
      ensures file.None? ==> doorInfo == old(doorInfo)
      ensures file.Some? ==> doorInfo == DoorLoad(old(doorInfo), file.value, scan)
    {
      if file.None? {
        return Err("Error loading door info file");
      }
      var lines := file.value;
      for i := 0 to |lines|
        invariant doorInfo == DoorLoad(old(doorInfo), lines[..i], scan)
      {
        assert lines[..i + 1][..i] == lines[..i];
        var line := lines[i];
        line := CutAt(line, '\r');
        var sc := scan(line);
        if sc.count == 5 {
          if |sc.icao| > 0 && sc.icao[0] == '#' {
            continue;
          }
          if sc.door < 1 || sc.door > KMaxDoor {
            continue;
          }
          var c := (sc.door + '0' as int) as char;
          doorInfo := doorInfo[sc.icao + [c] := DoorInfo(sc.x, sc.y, sc.z)];
        }
      }
      assert lines[..|lines|] == lines;
      return Ok(());
    }
  }

  // ---------------------------------------------------------------------
  // The flight loop scheduler
  // ---------------------------------------------------------------------

  /** What one flight loop call does besides scheduling. */
  datatype LoopActions = LoopActions(runJw: bool, runDgs: bool, runAnim: bool, dgsActivate: Option<bool>)

  function Min(a: real, b: real): real
  {
    if a <= b then a else b
  }

  /** The delay the flight loop asks for: the smallest of the three. */
  function LoopDelay(jw: real, dgs: real, anim: real): (d: real)
    ensures d <= jw && d <= dgs && d <= anim
    ensures d == jw || d == dgs || d == anim
  {
    Min(anim, Min(jw, dgs))
  }

  /** The times at which the three sub-machines are next due (`static` in `flight_loop_cb`). */
  class FlightLoop {
    var jwNextTs: real
    var dgsNextTs: real
    var animNextTs: real

    constructor ()
      ensures jwNextTs == 0.0 && dgsNextTs == 0.0 && animNextTs == 0.0
    {
      jwNextTs := 0.0;
      dgsNextTs := 0.0;
      animNextTs := 0.0;
    }

    /**
     * `flight_loop_cb` at time `now`: a change of on-ground state switches
     * the DGS on or off; each sub-machine runs when it is due (jetways and
     * DGS never for a helicopter) and returns its next delay (the `*Delay`
     * parameters); the result is the smallest remaining delay.
     */
    method FlightLoopCb(now: real, onGroundPrev: bool, onGround: bool, isHelicopter: bool,
                        jwDelay: real, dgsDelay: real, animDelay: real)
      returns (delay: real, act: LoopActions)
      modifies this
      ensures act.dgsActivate == (if onGround != onGroundPrev then Some(onGround) else None)
      ensures act.runJw <==> !isHelicopter && old(jwNextTs) - now <= 0.0
      ensures act.runDgs <==> !isHelicopter && old(dgsNextTs) - now <= 0.0
      ensures act.runAnim <==> old(animNextTs) - now <= 0.0
      ensures jwNextTs == (if act.runJw then now + jwDelay else old(jwNextTs))
      ensures dgsNextTs == (if act.runDgs then now + dgsDelay else old(dgsNextTs))
      ensures animNextTs == (if act.runAnim then now + animDelay else old(animNextTs))
      ensures delay == LoopDelay(jwNextTs - now, dgsNextTs - now, animNextTs - now)
    {
      var activate: Option<bool> := None;
      if onGround != onGroundPrev {
        activate := Some(onGround);
      }
      var jwLoopDelay := jwNextTs - now;
      var dgsLoopDelay := dgsNextTs - now;
      var animLoopDelay := animNextTs - now;
      var runJw, runDgs, runAnim := false, false, false;
      if !isHelicopter {
        if jwLoopDelay <= 0.0 {
          jwLoopDelay := jwDelay;
          jwNextTs := now + jwLoopDelay;
          runJw := true;
        }
        if dgsLoopDelay <= 0.0 {
          dgsLoopDelay := dgsDelay;
          dgsNextTs := now + dgsLoopDelay;
          runDgs := true;
        }
      }
      if animLoopDelay <= 0.0 {
        animLoopDelay := animDelay;
        animNextTs := now + animLoopDelay;
        runAnim := true;
      }
      delay := Min(animLoopDelay, Min(jwLoopDelay, dgsLoopDelay));
      act := LoopActions(runJw, runDgs, runAnim, activate);
    }
  }
}
