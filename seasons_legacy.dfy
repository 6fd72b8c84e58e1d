/**
 * openSAM.c: the earlier season-only plugin.  It shares the day-to-season
 * mapping of openSAM.cpp but stores two integers in its preference file,
 * resets both on a short read, keeps its globals zero when there is no file,
 * and consults the menu's own check mark before switching season.  It also
 * publishes fixed values for the jetway datarefs.
 */
module SeasonsLegacy {
  import opened Wrappers
  import Seasons

  /** XPLM menu check states. */
  const MenuNoCheck := 0
  const MenuUnchecked := 1
  const MenuChecked := 2

  /** The two integers `save_pref` writes, `"%d,%d"`. */
  function PrefRecord(autoSeason: int, nh: bool, season: int): seq<int>
  {
    [autoSeason, Seasons.EncodeSeason(nh, season)]
  }

  /**
   * The state `load_pref` leaves from a file holding the integers v: the
   * file's values when it holds two, both zero otherwise; the sign of the
   * season picks the hemisphere.
   */
  function LoadedPrefs(v: seq<int>): (r: (bool, int, int))
    ensures r.2 >= 0
    ensures |v| < 2 ==> r == (true, 0, 0)
  {
    var a := if |v| >= 2 then v[0] else 0;
    var s := if |v| >= 2 then v[1] else 0;
    var (nh, season) := Seasons.DecodeSeason(s);
    (nh, a, season)
  }

  /** Saving then loading restores the state, except the hemisphere of a southern winter. */
  lemma PrefsRoundTrip(nh: bool, autoSeason: int, season: int)
    requires 0 <= season <= 3
    ensures LoadedPrefs(PrefRecord(autoSeason, nh, season)) == (nh, autoSeason, season) <==> nh || season != 0
  {
    Seasons.SeasonRoundTrip(nh, season);
  }

  /** A file holding `0,7` loads season 7, past the four season items `set_menu` indexes. */
  lemma LoadedSeasonOutOfRange()
    ensures LoadedPrefs([0, 7]) == (true, 0, 7)
    ensures !(0 <= LoadedPrefs([0, 7]).2 <= 3)
  {
  }

  /**
   * `load_pref` with the season checked: a season outside 0..3 is treated
   * like a short read, northern winter; the automatic flag is kept.
   */
  function LoadedPrefsChecked(v: seq<int>): (r: (bool, int, int))
    ensures 0 <= r.2 <= 3
    ensures |v| < 2 ==> r == (true, 0, 0)
    ensures r.1 == LoadedPrefs(v).1
  {
    var r := LoadedPrefs(v);
    if r.2 <= 3 then r else (true, r.1, 0)
  }

  /** The checked load differs from `load_pref` exactly on the files whose season is out of range. */
  lemma LoadedPrefsCheckedAgrees(v: seq<int>)
    ensures LoadedPrefsChecked(v) == LoadedPrefs(v) <==> 0 <= LoadedPrefs(v).2 <= 3
  {
  }

  class LegacySeasonControl {
    var nh: bool
    var autoSeason: int
    var season: int
    var prefFile: Option<seq<int>>
    /** The check state of the four season items. */
    var seasonItem: seq<int>
    var autoItem: int

    /** The menu shows the current season checked and the other three unchecked. */
    predicate MenuShowsSeason()
      reads this
    {
      |seasonItem| == 4 && forall i :: 0 <= i < 4 ==> seasonItem[i] == (if i == season then MenuChecked else MenuUnchecked)
    }

    /** Zero-initialised globals and menu items without check marks. */
    constructor (file: Option<seq<int>>)
      ensures !nh && autoSeason == 0 && season == 0 && prefFile == file
      ensures seasonItem == [MenuNoCheck, MenuNoCheck, MenuNoCheck, MenuNoCheck] && autoItem == MenuNoCheck
    {
      nh := false;
      autoSeason := 0;
      season := 0;
      prefFile := file;
      seasonItem := [MenuNoCheck, MenuNoCheck, MenuNoCheck, MenuNoCheck];
      autoItem := MenuNoCheck;
    }

    /** `load_pref`: without a file nothing changes (not even the hemisphere). */
    method LoadPref()
      modifies this
      ensures prefFile.None? ==> nh == old(nh) && autoSeason == old(autoSeason) && season == old(season)
      ensures prefFile.Some? ==> (nh, autoSeason, season) == LoadedPrefs(prefFile.value)
      ensures prefFile == old(prefFile) && seasonItem == old(seasonItem) && autoItem == old(autoItem)
    {
      if prefFile.None? {
        return;
      }
      var v := prefFile.value;
      nh := true;
      if |v| >= 2 {
        autoSeason := v[0];
        season := v[1];
      } else {
        autoSeason := 0;
        season := 0;
      }
      if season < 0 {
        nh := false;
        season := -season;
      }
    }


    /** `load_pref` followed by the season range check the menu needs. */
    method LoadPrefChecked()
      requires 0 <= season <= 3
      modifies this
      ensures prefFile.None? ==> nh == old(nh) && autoSeason == old(autoSeason) && season == old(season)
      ensures prefFile.Some? ==> (nh, autoSeason, season) == LoadedPrefsChecked(prefFile.value)
      ensures 0 <= season <= 3
      ensures prefFile == old(prefFile) && seasonItem == old(seasonItem) && autoItem == old(autoItem)
    {
      LoadPref();
      if season > 3 {
        nh := true;
        season := 0;
      }
    }
    /** `save_pref`: the record replaces the file when it can be written. */
    method SavePref(writable: bool)
      modifies this
      ensures prefFile == (if writable then Some(PrefRecord(autoSeason, nh, season)) else old(prefFile))
      ensures nh == old(nh) && autoSeason == old(autoSeason) && season == old(season)
      ensures seasonItem == old(seasonItem) && autoItem == old(autoItem)
    {
      if writable {
        var s := if nh then season else -season;
        prefFile := Some([autoSeason, s]);
      }
    }

    /** `set_season_auto`: the same mapping as openSAM.cpp. */
    method SetSeasonAuto(day: int)
      modifies this
      ensures season == (if autoSeason == 0 then old(season) else Seasons.AutoSeason(nh, day))
      ensures nh == old(nh) && autoSeason == old(autoSeason) && prefFile == old(prefFile)
      ensures seasonItem == old(seasonItem) && autoItem == old(autoItem)
    {
      if autoSeason == 0 {
        return;
      }
      if nh {
        if day <= 80 {
          season := 0;
        } else if day <= 172 {
          season := 1;
        } else if day <= 264 {
          season := 2;
        } else if day <= 355 {
          season := 3;
        } else if day != 0 {
          season := 0;
        }
      } else {
        if day <= 80 {
          season := 2;
        } else if day <= 172 {
          season := 3;
        } else if day <= 264 {
          season := 0;
        } else if day <= 355 {
          season := 1;
        } else if day != 0 {
          season := 2;
        }
      }
    }

    /** `set_menu`: radio buttons over the four seasons. */
    method SetMenu()
      requires 0 <= season <= 3
      modifies this
      ensures MenuShowsSeason()
      ensures autoItem == (if autoSeason != 0 then MenuChecked else MenuUnchecked)
      ensures nh == old(nh) && autoSeason == old(autoSeason) && season == old(season) && prefFile == old(prefFile)
    {
      autoItem := if autoSeason != 0 then MenuChecked else MenuUnchecked;
      seasonItem := [MenuUnchecked, MenuUnchecked, MenuUnchecked, MenuUnchecked][season := MenuChecked];
    }


    /** Plugin start: the preferences are loaded (checked) and the menu drawn from them. */
    method Start()
      requires 0 <= season <= 3
      modifies this
      ensures prefFile.None? ==> nh == old(nh) && autoSeason == old(autoSeason) && season == old(season)
      ensures prefFile.Some? ==> (nh, autoSeason, season) == LoadedPrefsChecked(prefFile.value)
      ensures prefFile == old(prefFile) && MenuShowsSeason()
      ensures autoItem == (if autoSeason != 0 then MenuChecked else MenuUnchecked)
    {
      LoadPrefChecked();
      SetMenu();
    }
    /**
     * `menu_cb`: entry 4 toggles automatic mode; a season entry switches the
     * season only when its item is unchecked and not already the season,
     * and always goes to manual mode.
     */
    method MenuCb(entry: int, day: int, writable: bool)
      requires 0 <= entry <= 4 && |seasonItem| == 4
      requires entry == 4 && autoSeason != 0 ==> 0 <= season <= 3
      requires entry < 4 && !(seasonItem[entry] == MenuUnchecked && entry != season) ==> 0 <= season <= 3
      modifies this
      ensures entry == 4 ==> autoSeason == (if old(autoSeason) == 0 then 1 else 0)
      ensures entry == 4 ==> season == (if autoSeason != 0 then Seasons.AutoSeason(nh, day) else old(season))
      ensures entry < 4 ==> autoSeason == 0
      ensures entry < 4 ==> season == (if old(seasonItem)[entry] == MenuUnchecked && entry != old(season) then entry else old(season))
      ensures entry < 4 && old(MenuShowsSeason()) ==> season == entry
      ensures nh == old(nh) && MenuShowsSeason()
      ensures prefFile == (if writable then Some(PrefRecord(autoSeason, nh, season)) else old(prefFile))
    {
      if entry == 4 {
        autoSeason := if autoSeason == 0 then 1 else 0;
        SetSeasonAuto(day);
      } else {
        var checked := seasonItem[entry];
        if checked == MenuUnchecked && entry != season {
          season := entry;
        }
        autoSeason := 0;
      }
      SetMenu();
      SavePref(writable);
    }
  }

  /** The jetway datarefs the stub publishes, in accessor index order. */
  const JwDatarefs := ["sam/jetway/rotate1", "sam/jetway/rotate2", "sam/jetway/rotate3", "sam/jetway/extent",
                       "sam/jetway/wheels", "sam/jetway/wheelrotatec", "sam/jetway/wheelrotater", "sam/jetway/wheelrotatel"]

  /** `read_jw_acc`: fixed test values for the jetway datarefs. */
  function ReadJwAcc(i: int): real
  {
    if i == 3 then 4.0 else if i == 0 then -45.0 else 0.0
  }

  /** Only the first rotation (-45 degrees) and the extension (4 m) are non-zero. */
  lemma JwStubValues()
    ensures |JwDatarefs| == 8
    ensures forall i :: 0 <= i < 8 && i != 0 && i != 3 ==> ReadJwAcc(i) == 0.0
    ensures ReadJwAcc(0) == -45.0 && JwDatarefs[0] == "sam/jetway/rotate1"
    ensures ReadJwAcc(3) == 4.0 && JwDatarefs[3] == "sam/jetway/extent"
  {
  }
}
