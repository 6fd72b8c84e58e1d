# openSAM core in Dafny

openSAM is an X-Plane plugin that drives the scenery animations of the
"Scenery Animation Manager" (SAM) format: jetways that dock to the doors of
the user's plane, visual docking guidance systems (DGS) that guide the plane
onto its stand, animated scenery objects (hangar doors and the like), and the
seasonal textures of the scenery. It also animates jetways for the
multiplayer planes of other plugins (LiveTraffic, xPilot, TGXP). Two offline
Python tools that generate the DGS object variants belong to the repository.

This project models that core in Dafny, file by file, and proves what each
part promises:

- `opensam_h.dfy` (module `OpenSamH`): the inline helpers of `openSAM.h`
  (angle normalisation, clamping, `BETWEEN`, the scenery bounding box), with
  C's truncating conversions written out.
- `strings.dfy`, `wrappers.dfy`: text helpers (substring search, replace,
  split) and the `Option`/`Result` wrappers the rest uses.
- `byte_areas.dfy`: the NUL-separated byte areas of Traffic Global's
  datarefs, as the TGXP adapter walks them.
- `height_variants.dfy`, `indent_anim.dfy`: the two tools,
  `tools/gen_height_variants.py` and `tools/indent_anim.py`, as functions on
  lines of text with the loops of the scripts as methods.
- `seasons.dfy` / `seasons_legacy.dfy`: the plugin entry (`openSAM.cpp` and the
  older `openSAM.c`): preferences, automatic seasons, the season menu, door
  info loading and the flight loop's scheduling.
- `ltapi.dfy`: the LiveTraffic client of `LTAPI.cpp` (key formatting, the bulk
  and info updates, the aircraft list).
- `sam_xml.dfy` / `sam_xml_legacy.dfy`: the SAM XML parser (scenery, jetways,
  stands, animations and their value tables) of `sam_xml.cpp` / `sam_xml.c`.
- `read_wav.dfy`: the RIFF/WAVE reader of `read_wav.cpp`, with a writer as
  its partner.
- `my_plane.dfy` / `plane_legacy.dfy`: the user's plane (`myplane.cpp`,
  `plane.cpp`): door positions, beacon, ground state, teleport detection.
- `sam_jw.dfy` / `jw_ctrl.dfy`: the jetway objects (`samjw.cpp`) and the
  jetway controller (`jwctrl.cpp`): the setup for a door, the candidate
  filter and sort, and the dock and undock drives.
- `os_jw.dfy` / `os_jw_machine.dfy`: the jetway search and the jetway state
  machine of `os_jw.cpp`; `os_jw_legacy.dfy`: the older `os_jw.c`.
- `os_dgs.dfy` / `os_dgs_legacy.dfy`: the DGS of `os_dgs.cpp` and `os_dgs.c`:
  stand search, activity, the dataref accessors and the state machine.
- `os_anim.dfy`: the animated scenery objects of `os_anim.cpp`.
- `mp_adapter.dfy`, `mp_tgxp.dfy`, `mp_xpilot.dfy`, `mp_lt.dfy`: the
  multiplayer adapters (`mpadapter.cpp`, `mpplane_tgxp.cpp`,
  `mpplane_xpilot.cpp`, `mpadapter_lt.cpp`).

State that the C++ code keeps in objects and updates in place (the jetway
controllers, the DGS, the state machines, the plane, the adapters) is a
`class` whose methods carry `modifies` clauses and state the new state through
a specification function of the old one; the parsers and pure computations are
functions. Simulator queries (datarefs, terrain probes, trigonometry, the
clock, random numbers) are parameters. Floating point values are `real`s.

## Model

| member | source | states |
|---|---|---|
| OpenSamH.Trunc | openSAM.h:149 | the float-to-int conversion `fmodf` relies on truncates toward zero: the result is within one below a non-negative argument and within one above a negative one |
| OpenSamH.FMod | openSAM.h:149 | `fmodf(a, m)` for m > 0 keeps the sign of a, stays strictly inside (-m, m) and differs from a by a whole number of m |
| OpenSamH.TruncBounds | openSAM.h:149 | removing trunc(a / m) multiples of m from a leaves less than one m, on the side of a's sign |
| OpenSamH.RA | openSAM.h:147-158 | the folded angle lies in (-180, 180] |
| OpenSamH.RAWholeTurns | openSAM.h:147-158 | `RA` moves an angle by a whole number of turns (a multiple of 360) |
| OpenSamH.RAFixed | openSAM.h:147-158 | an angle already in (-180, 180] is returned unchanged |
| OpenSamH.RAIdempotent | openSAM.h:147-158 | folding twice is folding once |
| OpenSamH.Clamp | openSAM.h:160-166 | below the low bound gives the low bound, above the high bound the high bound, inside gives x; with lo <= hi the result lies in [lo, hi] |
| OpenSamH.InBboxPlain | openSAM.h:82-85 | `in_bbox` contains every point of a box narrower than 180 degrees that does not cross the antimeridian |
| OpenSamH.InBboxAcrossAntimeridian | openSAM.h:82-85 | `in_bbox` also contains points on both sides of the antimeridian for a box that straddles it, thanks to the `RA` comparisons |
| OpenSamH.Abs | openSAM.h:170-173 | the absolute value used beside `len2f`: non-negative and equal to x or -x |
| IndentAnim.IndentLines | tools/indent_anim.py:7-21 | the script's loop writes exactly `Indented(lines)`: each input line in order, prefixed by the current indent |
| IndentAnim.IndentIsNesting | tools/indent_anim.py:7-21 | the indent counter after a prefix is four times the number of `ANIM_begin` lines less the number of `ANIM_end` lines |
| IndentAnim.IndentedLines | tools/indent_anim.py:9-21 | one output line per input line, each the input line after max(0, indent) spaces, where an end line is written at the counter less 4 |
| IndentAnim.BeginWins | tools/indent_anim.py:10-13 | a line holding both markers is treated as a begin line: written at the current indent, after which the counter grows by 4 |
| IndentAnim.IndentAppend | tools/indent_anim.py:7-21 | the counter change over two pieces of input is the sum of their changes |
| IndentAnim.EndAlignsWithBegin | tools/indent_anim.py:10-17 | an end line closing a balanced block body is written at the same indent as its begin line |
| IndentAnim.BalancedIndent | tools/indent_anim.py:7-21 | on balanced input the counter never goes negative and returns to zero |
| HeightVariants.Fixed3 | tools/gen_height_variants.py:71 | the `{dh:0.3f}` text of a height is non-empty and holds no white space, so it stays one word of the directive |
| HeightVariants.Fixed3RoundTrip | tools/gen_height_variants.py:71 | the three-decimal text of a height in hundredths reads back as the same height (in thousandths: ten times it) |
| HeightVariants.UnsignedFixed3RoundTrip | tools/gen_height_variants.py:71 | the unsigned three-decimal text reads back as its value and never starts with '-' |
| HeightVariants.ParseUnsigned | tools/gen_height_variants.py:71 | a digit string, a point and three digits read back as whole * 1000 + decimals |
| HeightVariants.WordsLayout | tools/gen_height_variants.py:71 | a line laid out from non-blank fields and white-space separators splits back into exactly those fields |
| HeightVariants.TransLineFields | tools/gen_height_variants.py:71 | the `ANIM_trans` line splits into its ten fields and both of its height slots read back as the height |
| HeightVariants.TransFieldsAt | tools/gen_height_variants.py:71 | the translation directive has ten fields and the third and sixth are the height text |
| HeightVariants.TransWords | tools/gen_height_variants.py:71 | split on white space, the translation line is its field list |
| HeightVariants.TransLayoutOk | tools/gen_height_variants.py:71 | the directive's fields are non-blank words and its separators non-empty white space |
| HeightVariants.KeptFromTemplate | tools/gen_height_variants.py:46-54 | every line that survives the NO-openSAM filter is a template line, and no end marker survives |
| HeightVariants.KeptPlain | tools/gen_height_variants.py:46-54 | outside any region, a template without markers is kept whole and leaves the nesting counter alone |
| HeightVariants.KeptAppend | tools/gen_height_variants.py:46-54 | filtering two pieces of template is filtering the second from the counter the first leaves |
| HeightVariants.KeptRegion | tools/gen_height_variants.py:46-54 | a marked region without inner markers is dropped whole, both markers included, and what follows is filtered from depth zero |
| HeightVariants.KeptInside | tools/gen_height_variants.py:53-54 | inside a region, lines without markers are dropped and leave the counter unchanged |
| HeightVariants.RenamedAll | tools/gen_height_variants.py:56 | each kept line is written with every "AutoDGS" replaced by "opensam", in order |
| HeightVariants.InjectedDistinct | tools/gen_height_variants.py:58-71 | the four injected directives (`ANIM_begin`, `ANIM_end`, the rotation, the translation) are different lines |
| HeightVariants.CountOne | tools/gen_height_variants.py:56-71 | how one kept line changes the count of any line x in the output: its renamed copy plus the directives its LOD status, `turn_180` and the height inject |
| HeightVariants.CountLod | tools/gen_height_variants.py:57-71 | the same count for an LOD line: an end directive unless it is the first LOD, a begin directive, a rotation when turned and not a comment, a translation when the height exceeds 0.03 m |
| HeightVariants.BeginCount | tools/gen_height_variants.py:62-64 | the output holds one `ANIM_begin` per LOD line beyond those copied from the template |
| HeightVariants.EndCount | tools/gen_height_variants.py:57-58 | the output holds one `ANIM_end` per LOD line except the first, beyond those copied from the template |
| HeightVariants.RotateCount | tools/gen_height_variants.py:65-66 | with `turn_180` a rotation follows exactly the LOD lines not starting with '#'; without it none is added |
| HeightVariants.TransCount | tools/gen_height_variants.py:68-71 | a translation follows every LOD line exactly when the height is more than 0.03 m in magnitude |
| HeightVariants.ExpandPrefix | tools/gen_height_variants.py:46-71 | the output of a prefix of the kept lines is a prefix of the output: the script only appends |
| HeightVariants.AppendExpansionShape | tools/gen_height_variants.py:57-71 | one kept line's expansion lands after the output so far: the renamed line, then `ANIM_begin` for an LOD line, preceded by `ANIM_end` unless it is the first LOD |
| HeightVariants.Placement | tools/gen_height_variants.py:56-64 | kept line j is written renamed at its position; an LOD line is followed by `ANIM_begin` and, unless it is the first, preceded by `ANIM_end` |
| HeightVariants.PlacementOrder | tools/gen_height_variants.py:46-71 | kept lines keep their relative order in the output |
| HeightVariants.EmitKept | tools/gen_height_variants.py:56-71 | the loop body for a surviving line appends exactly that line's expansion and clears `first_lod` on an LOD line |
| HeightVariants.GenVariant | tools/gen_height_variants.py:38-74 | the lines written are `Generated`: the expansion of the filtered template plus the closing `ANIM_end`, which the lemmas above characterise |
| HeightVariants.ExportedFilesFromLines | tools/gen_height_variants.py:79-84 | the manifest reads exactly when every EXPORT line has a third word, and every collected file is the third word of some EXPORT line |
| HeightVariants.ExportedFilesRead | tools/gen_height_variants.py:79-84 | reading fails exactly on an EXPORT line with fewer than three words |
| HeightVariants.ExportedFilesFound | tools/gen_height_variants.py:79-84 | every collected file comes from an EXPORT line of the manifest |
| HeightVariants.ExportedNoneStays | tools/gen_height_variants.py:83-84 | once an EXPORT line is too short, reading a longer manifest fails too |
| HeightVariants.Check | tools/gen_height_variants.py:76-94 | `check` fails exactly when an EXPORT line is too short; otherwise it reports exactly the target paths of the exported files missing on disk, and "all exist" exactly when none is missing |
| HeightVariants.Missing | tools/gen_height_variants.py:87-92 | the reporting loop yields exactly the target paths of the unique files not on disk, and `res` stays true exactly when all are present |
| HeightVariants.HeightInName | tools/gen_height_variants.py:103-106 | a job's height in the file name (`{h:0.1f}`) and in its translation (`{dh:0.3f}`) are the same number |
| HeightVariants.PoleTurnedNotRotated | tools/gen_height_variants.py:134-138 | as written, some pole object named `_180` is generated without the rotation |
| HeightVariants.TurnedMatchesName | tools/gen_height_variants.py:109-113 | with the pole loop corrected, an object is rotated exactly when its name says `_180` |
| HeightVariants.AgpObjectsGenerated | tools/gen_height_variants.py:116-150 | every AGP file places an unrotated object the script also generates, naming it on its OBJECT line, with ROTATION 2 exactly for the `_180` variants |
| Seasons.NorthSeason | openSAM.cpp:264-275 | the northern season is in 0..3 and is winter exactly for days up to 80 or past 355 |
| Seasons.SouthSeason | openSAM.cpp:276-288 | the southern season is in 0..3 |
| Seasons.SouthIsNorthShifted | openSAM.cpp:264-288 | on every day the southern season is the northern one shifted by two, and back |
| Seasons.AutoSeason | openSAM.cpp:259-293 | the automatic season is in 0..3 and, in the south, the northern season shifted by half a year |
| Seasons.DecodeSeason | openSAM.cpp:162-166 | the season read back is never negative, and the hemisphere is north exactly when the stored value is not negative |
| Seasons.SeasonRoundTrip | openSAM.cpp:136-137 | the stored season reads back with its hemisphere exactly when it is not a southern winter |
| Seasons.SouthWinterReadsNorth | openSAM.cpp:136-137 | a southern winter is stored as 0 and read back as northern winter |
| Seasons.DecodeSeasonFixed | openSAM.cpp:162-166 | the corrected decoding: non-negative season, north exactly for a non-negative stored value |
| Seasons.SeasonRoundTripFixed | openSAM.cpp:136-137 | with the south stored as -(season + 1), every hemisphere and season reads back |
| Seasons.LoadedPrefs | openSAM.cpp:144-167 | without a file `load_pref` leaves the defaults (north, automatic, spring, auto mode 1); the season read is never negative |
| Seasons.PrefsRoundTrip | openSAM.cpp:128-167 | saving then loading restores every preference exactly when it is not a southern winter |
| Seasons.LoadedPrefsFixed | openSAM.cpp:144-167 | the corrected loading keeps the defaults without a file |
| Seasons.PrefsRoundTripFixed | openSAM.cpp:128-167 | with the corrected encoding saving then loading restores every preference |
| Seasons.ReadSeasonAcc | openSAM.cpp:179-187 | a season dataref reads 0 or 1 |
| Seasons.SeasonDatarefsOneHot | openSAM.cpp:179-187 | exactly one of the four season datarefs reads 1 while the season is valid, the one of the current season |
| Seasons.SeasonControl.LoadPref | openSAM.cpp:144-167 | the preference globals become `LoadedPrefs` of the file; nothing else changes |
| Seasons.LoadedSeasonOutOfRange | openSAM.cpp:155-166 | a file holding `0,7,1` loads season 7, outside the four seasons `set_menu` indexes |
| Seasons.LoadedPrefsChecked | openSAM.cpp:144-167 | the load with the season checked always yields a season in 0..3, the defaults without a file, and the file's automatic flags |
| Seasons.LoadedPrefsCheckedAgrees | openSAM.cpp:155-166 | the checked load equals `load_pref`'s result exactly when the loaded season is in 0..3 |
| Seasons.PrefsRoundTripChecked | openSAM.cpp:128-167 | a saved state reads back through the checked load exactly when it is not a southern winter |
| Seasons.SeasonControl.LoadPrefChecked | openSAM.cpp:144-167 | the preference globals become `LoadedPrefsChecked` of the file; nothing else changes |
| Seasons.SeasonControl.SavePref | openSAM.cpp:128-142 | when the file can be written, the auto mode is fetched from the plane and the file holds the encoded record; otherwise nothing changes |
| Seasons.SeasonControl.SetSeasonAuto | openSAM.cpp:259-293 | with automatic seasons the season becomes `AutoSeason` of the hemisphere and the day; otherwise it is unchanged |
| Seasons.SeasonControl.SetMenu | openSAM.cpp:296-306 | exactly the current season's item is checked, and the automatic item shows the mode |
| Seasons.SeasonControl.Start | openSAM.cpp:445-530 | at start the preferences are the checked load of the file and the menu checks exactly that season and shows the automatic mode |
| Seasons.SeasonControl.MenuCb | openSAM.cpp:308-323 | entry 4 toggles automatic mode and re-evaluates the season; a season entry selects it and switches to manual; the menu then shows the season and the file holds the new state when writable; a season outside 0..3 is demanded only where `set_menu` would index with it |
| Seasons.SeasonControl.AirportLoaded | openSAM.cpp:586-591 | on airport load the hemisphere follows the latitude's sign and the season is re-evaluated when automatic |
| Seasons.AutoSeasonSaved | openSAM.cpp:259-323 | an automatic season saved and reloaded survives exactly when it is not a southern winter |
| Seasons.DoorLoadKeys | openSAM.cpp:358-390 | a key is in the door map after loading exactly when it was there before or an accepted line (five fields, no '#', door 1..3) produces it |
| Seasons.DoorLoadLastWins | openSAM.cpp:379-387 | the last accepted line for a key decides its door position |
| Seasons.DoorLoadKeyShape | openSAM.cpp:379-387 | every added key is an ICAO code not starting with '#' followed by a door digit 1..3 |
| Seasons.DoorInfoMap.LoadDoorInfo | openSAM.cpp:358-390 | an unopenable file is an error and leaves the map alone; otherwise the map becomes the in-order load of its lines |
| Seasons.LoopDelay | openSAM.cpp:255 | the flight loop's delay is the smallest of the three sub-machine delays |
| Seasons.FlightLoop.FlightLoopCb | openSAM.cpp:213-256 | a ground-state change switches the DGS on or off; each sub-machine runs exactly when due (jetways and DGS never for a helicopter) and its next time is now plus its delay; the result is the smallest remaining delay |
| SeasonsLegacy.LoadedPrefs | openSAM.c:91-114 | a file with two integers gives its values with the hemisphere from the season's sign; otherwise north, manual, winter |
| SeasonsLegacy.PrefsRoundTrip | openSAM.c:76-114 | saving then loading restores the state exactly when it is not a southern winter |
| SeasonsLegacy.LegacySeasonControl.LoadPref | openSAM.c:91-114 | without a file nothing changes, not even the hemisphere; with one the globals become `LoadedPrefs` |
| SeasonsLegacy.LoadedSeasonOutOfRange | openSAM.c:91-114 | a file holding `0,7` loads season 7, outside the four seasons `set_menu` indexes |
| SeasonsLegacy.LoadedPrefsChecked | openSAM.c:91-114 | the checked load always yields a season in 0..3, northern manual winter on a short read, and the file's automatic flag |
| SeasonsLegacy.LoadedPrefsCheckedAgrees | openSAM.c:91-114 | the checked load equals `load_pref`'s result exactly when the loaded season is in 0..3 |
| SeasonsLegacy.LegacySeasonControl.LoadPrefChecked | openSAM.c:91-114 | as `load_pref`, with the loaded season checked: the season stays in 0..3 |
| SeasonsLegacy.LegacySeasonControl.SavePref | openSAM.c:76-89 | the two-integer record replaces the file when it can be written |
| SeasonsLegacy.LegacySeasonControl.SetSeasonAuto | openSAM.c:143-177 | the same day-to-season mapping as openSAM.cpp, applied only in automatic mode |
| SeasonsLegacy.LegacySeasonControl.SetMenu | openSAM.c:180-190 | the menu checks exactly the current season and shows the automatic mode |
| SeasonsLegacy.LegacySeasonControl.Start | openSAM.c:248-249 | at start the globals are the checked load of the file (unchanged without one) and the menu shows exactly that season and the automatic mode |
| SeasonsLegacy.LegacySeasonControl.MenuCb | openSAM.c:192-214 | entry 4 toggles automatic mode; a season entry switches the season only when its item was unchecked and not the season, and always goes to manual mode; with a consistent menu the season becomes the entry; a season outside 0..3 is demanded only where `set_menu` would index with it |
| SeasonsLegacy.JwStubValues | openSAM.c:128-140 | of the eight jetway datarefs only rotate1 (-45) and extent (4 m) read non-zero |
| LTAPI.LowDigits | LTAPI.cpp:97-101 | the k least significant hex digits of n, most significant first: exactly k characters |
| LTAPI.NumDigits | LTAPI.cpp:97-103 | the number of digits the loop writes before n reaches 0: at least one |
| LTAPI.PadZeros | LTAPI.cpp:105-108 | the pad loop stops at min(last, 10 - minChars) and puts exactly that many zeros before the digits already written |
| LTAPI.HexStr | LTAPI.cpp:93-113 | the imperative `hexStr` over its 11-byte buffer returns `HexStrSpec(n, minChars)` |
| LTAPI.PadDigits | LTAPI.cpp:102-109 | once all digits of n are in the buffer, padding and copying out yields `HexStrSpec(n, minChars)` |
| LTAPI.LowDigitsValue | LTAPI.cpp:97-101 | the k low digits are hex digits and denote n modulo 16^k |
| LTAPI.NumDigitsBound | LTAPI.cpp:97-103 | n is below 16^NumDigits(n), and at least 16^(NumDigits(n) - 1) when it has more than one digit |
| LTAPI.LeadingDigit | LTAPI.cpp:97-103 | a number with more than one digit has a leading digit 1..15 |
| LTAPI.HexDigitsValue | LTAPI.cpp:97-103 | the digits written read back as n, and only 0 is written with a leading zero |
| LTAPI.HexDigitsLeading | LTAPI.cpp:97-103 | only the number 0 starts with the digit '0' |
| LTAPI.ZerosValue | LTAPI.cpp:107-108 | leading zeros keep the digits hex and do not change the value |
| LTAPI.HexStrMeaning | LTAPI.cpp:93-113 | below 16^9 the result is upper-case hex denoting n, padded with zeros to min(minChars, 10) - 1 characters; from 16^9 on it is "-OVFL-" |
| LTAPI.HexStrOneShort | LTAPI.cpp:93-113 | as written, the key 0xABCD with the default minChars 6 is "0ABCD": five characters |
| LTAPI.SampleKeyDigits | LTAPI.cpp:97-103 | the sample key 0xABCD is written with the four digits ABCD |
| LTAPI.HexStrFixedMeaning | LTAPI.cpp:89-91 | the corrected `hexStr` keeps the value and has at least min(minChars, 9) characters, as its documentation promises |
| LTAPI.HexStrFixedMatchesLookup | LTAPI.cpp:589 | the corrected key of 0xABCD is "00ABCD", what the camera lookup's `"%06X"` prints |
| LTAPI.Description | LTAPI.cpp:148-181 | the label starts with the identifier (flight number, else call sign, else key); with no type and no route it is the identifier alone; with a route it ends with " origin-destination", '?' standing for an unknown end |
| LTAPI.DescriptionParts | LTAPI.cpp:158-169 | without a route, the type part is " (model ICAO)", else " (model)", else nothing |
| LTAPI.ZeroTermBounded | LTAPI.cpp:75 | `ZERO_TERM` leaves a C string shorter than its buffer, and one already terminated unchanged |
| LTAPI.ZeroFrom | LTAPI.cpp:255-262 | the `memset` of the CSL model zeroes exactly the bytes from `from` on |
| LTAPI.AcceptedTexts | LTAPI.cpp:233-262 | the accepted text fields: one per field of the structure |
| LTAPI.AcceptedTextsTerminated | LTAPI.cpp:237-262 | after acceptance every field holds a terminated C string; the CSL model of a v1.20 structure is empty and that of a v1.22 one has at most 24 characters |
| LTAPI.ZeroFromShortens | LTAPI.cpp:260-262 | zeroing from `from` leaves a C string no longer than `from` nor than before |
| LTAPI.LTAPIAircraft.UpdateBulk | LTAPI.cpp:188-218 | accepted exactly when the aircraft has no key yet or the key numbers match; the first call adopts the key (`hexStr`, the number truncated to 32 bits); a v1.20 structure gets its doubles from the floats; a rejected call changes nothing |
| LTAPI.LTAPIAircraft.UpdateInfo | LTAPI.cpp:226-267 | accepted exactly for the aircraft's own key number; the key never changes; accepted texts are the terminated, version-cut copies |
| LTAPI.KeyNeverEmpty | LTAPI.cpp:191-195 | `hexStr` never returns the empty string, so an aircraft that has a key keeps it |
| LTAPI.ClampBulk | LTAPI.cpp:308 | the batch size is the request clamped into [1, 100] |
| LTAPI.DateRecompose | LTAPI.cpp:389-392 | a non-negative date integer is year * 10000 + (month + 1) * 100 + day with both parts below 100 |
| LTAPI.DateRoundTrip | LTAPI.cpp:389-392 | composing a date and decomposing it gives back its fields |
| LTAPI.TimeRecompose | LTAPI.cpp:395-397 | a non-negative time integer is hour * 10000 + minute * 100 + second with minute and second below 100 |
| LTAPI.TimeRoundTrip | LTAPI.cpp:395-397 | composing a time and decomposing it gives back its fields |
| LTAPI.WalkKeys | LTAPI.cpp:419-421 | the walk over the map meets every key exactly once |
| LTAPI.ResetFlags | LTAPI.cpp:435-436 | after `resetUpdated` every aircraft of the map is marked not updated |
| LTAPI.Sweep | LTAPI.cpp:459-473 | exactly the updated aircraft stay; the removed ones are handed over, each once, when the caller asks for them |
| LTAPI.LTAPIConnect.constructor | LTAPI.cpp:306-317 | the connection starts with the clamped batch size and an empty map |
| LTAPI.LTAPIConnect.UpdateAcList | LTAPI.cpp:408-476 | without LiveTraffic or aircraft the map is emptied and all its aircraft handed over; otherwise the map holds exactly the fetched aircraft, all marked updated, and exactly the others are handed over, each once |
| SamXml.AttrOfFirst | sam_xml.cpp:65-72 | the value found belongs to the first pair with that name; no value is found only when no pair has the name |
| SamXml.LookupAttr | sam_xml.cpp:65-72 | the `lookup_attr` loop returns the value of the first matching pair, or none |
| SamXml.FirstIndex | sam_xml.cpp:143-161 | -1 exactly when the name is absent; otherwise the first index that holds the name |
| SamXml.LookupName | sam_xml.cpp:143-161 | the `lookup_drf`/`lookup_obj` loops return the first matching index, or -1 |
| SamXml.StrField | sam_xml.cpp:89-93 | `GET_STR_ATTR` leaves the field alone when the attribute is missing; otherwise it stores a prefix of the value, cut to size-1 characters |
| SamXml.DoorOf | sam_xml.cpp:133-140 | `forDoorLocation` gives door 1 exactly for "LF2" and door 2 exactly for "LU1"; anything else gives 0 |
| SamXml.GetJwAttrs | sam_xml.cpp:101-141 | the record starts zeroed: a missing id, name or float stays 0/empty; the names stay under 40 characters; the door comes from `forDoorLocation` |
| SamXml.AddEntry | sam_xml.cpp:233-258 | as written: a repeated last time overwrites the last value; any other time is appended with the slope from the previous entry; the table stays well formed |
| SamXml.Slope | sam_xml.cpp:253 | the stored slope times the time step equals the value step |
| SamXml.FirstSlopeReadsOutside | sam_xml.cpp:249-254 | as written, the slope of the first entry depends on memory outside the table (v[-1], t[-1]) |
| SamXml.AddEntryFixed | sam_xml.cpp:233-258 | corrected: the first entry gets slope 0; the table stays well formed and ends with the new (t, v) |
| SamXml.AddEntryFixedAgrees | sam_xml.cpp:233-258 | the corrected update agrees with the written one everywhere except the first slope |
| SamXml.AppendDrfOk | sam_xml.cpp:203-231 | appending a dataref with a fresh non-empty name and a good table keeps the loaded data consistent |
| SamXml.ReplaceDrfOk | sam_xml.cpp:233-258 | replacing a dataref's table under the same name keeps the loaded data consistent |
| SamXml.StartStepOk | sam_xml.cpp:164-318 | every start tag keeps dataref names non-empty and unique (the first definition wins) and tables well formed; checkboxes point at existing objects and datarefs; library ids stay in 1..27 |
| SamXml.DatarefStepOk | sam_xml.cpp:203-231 | `<dataref>` keeps the state consistent and keeps every name defined before |
| SamXml.AnimationStepOk | sam_xml.cpp:233-260 | `<animation>` keeps the state consistent and adds no dataref |
| SamXml.AnimationKeeps | sam_xml.cpp:233-260 | the table update keeps the data well formed and keeps every dataref's name |
| SamXml.CheckboxStepOk | sam_xml.cpp:289-313 | `<checkbox>` keeps the data well formed and leaves the datarefs alone; it is kept only when both its object and its dataref resolve |
| SamXml.OtherStepOk | sam_xml.cpp:164-287 | the scenery, jetway, set, object and section tags leave the datarefs alone and keep the state consistent |
| SamXml.DuplicateDatarefIgnored | sam_xml.cpp:219-223 | a dataref name that is already defined is ignored: the data is unchanged and no current dataref is set |
| SamXml.SamXmlCtx.constructor | sam_xml.cpp:346-393 | `parse_sam_xml` starts with all section flags false and an empty scenery, plus the datarefs and library read so far |
| SamXml.SamXmlCtx.StartDataref | sam_xml.cpp:203-231 | the context's new flags and data are those of the `<dataref>` step |
| SamXml.SamXmlCtx.StartAnimation | sam_xml.cpp:233-260 | the flags are unchanged; the data is that of the `<animation>` step |
| SamXml.SamXmlCtx.StartCheckbox | sam_xml.cpp:289-313 | the flags are unchanged; the data is that of the `<checkbox>` step |
| SamXml.SamXmlCtx.StartElement | sam_xml.cpp:164-318 | the context's new flags and data are `StartStep` of the old ones, and the context stays valid |
| SamXml.SamXmlCtx.EndElement | sam_xml.cpp:320-344 | the closing tag clears its section flag; the data is unchanged |
| SamXml.PackPath | sam_xml.cpp:456-477 | a scenery path taken from `scenery_packs.ini` never contains a backslash |
| SamXml.SceneryPacks | sam_xml.cpp:440-496 | without the file, nothing is read and no error is raised; with it, the result is an error exactly when no openSAM library line was found, and otherwise holds the packs the lines give |
| SamXml.PacksClean | sam_xml.cpp:456-492 | scenery paths never name a library and use only '/' separators; each library path contains its library's name |
| SamXml.AddPackClean | sam_xml.cpp:481-489 | adding a path without backslashes keeps the packs clean |
| SamXml.PackPathPlacement | sam_xml.cpp:467-472 | a relative entry goes under the X-Plane directory; an absolute one (a leading '/' or any ':') is taken as it stands |
| SamXml.Boxes | sam_xml.cpp:530-567 | one box per jetway and one per stand |
| SamXml.ScBBox | sam_xml.cpp:527-567 | the scenery box encloses every jetway and stand box and each of its bounds is attained; without jetways and stands it stays at the 1000/-1000 start values |
| SamXml.UnionBox | sam_xml.cpp:527-567 | the min/max union encloses every box and each bound is attained; an empty list leaves the start values |
| SamXml.KeptScsMembers | sam_xml.cpp:517-531 | a scenery is kept exactly when its sam.xml parsed and it has jetways, stands or animations |
| SamXml.KeptScsCount | sam_xml.cpp:517-531 | one scenery is kept for each slot that parsed to a non-empty scenery |
| SamXml.CollectSamXml | sam_xml.cpp:499-575 | an error exactly when the openSAM library is missing or unreadable; otherwise the kept sceneries, in order, each with a box that encloses all its jetway and stand boxes |
| SamXmlLegacy.ExtractSpanMeaning | sam_xml.c:28-48 | the copied span is the quoted value after the first occurrence of prop: it follows a quote, holds no quote, fits the buffer with its terminator, and is cut short only when the buffer is too small; without prop there is no span |
| SamXmlLegacy.ExtractStr | sam_xml.c:28-48 | without prop or either quote the buffer is left alone; otherwise it holds the span, a NUL and the old bytes after them |
| SamXmlLegacy.StrProp | sam_xml.c:53-54 | the string read from a zeroed field of `size` bytes is shorter than `size` |
| SamXmlLegacy.SpanString | sam_xml.c:28-48 | without a span the field reads as the empty string; otherwise as at most the span's length |
| SamXmlLegacy.GetSamProps | sam_xml.c:56-88 | `get_sam_props` fills a zeroed record with the record `SamProps` computes from the line |
| SamXmlLegacy.StrField | sam_xml.c:53-63 | one zeroed 40-byte field filled by `extract_str` reads back as `StrProp(line, prop, 40)` |
| SamXmlLegacy.ZeroedBufferString | sam_xml.c:42-46 | a zeroed buffer into which the span was copied and terminated reads back as the span's text |
| SamXmlLegacy.Records | sam_xml.c:103-122 | `main` keeps at most one record per line |
| SamXmlLegacy.ReadSamJws | sam_xml.c:101-122 | the loop's records are `Records(lines)`; the capacity grows in steps of 100, always holds the records, and is never 100 or more above their count |
| SamXmlLegacy.RecordsStep | sam_xml.c:103-121 | one more line adds its record, cut at CR, exactly when it contains "<jetway " |
| SamXmlLegacy.RecordsConcat | sam_xml.c:103-122 | lines are read independently: the records of two runs of lines are the two runs' records concatenated |
| SamXmlLegacy.RecordsNone | sam_xml.c:104-106 | lines without "<jetway " yield no records |
| ReadWav.U32 | read_wav.cpp:39-43 | an `unsigned int` size field lies in 0..2^32-1 |
| ReadWav.S16 | read_wav.cpp:30-37 | a `short` field lies in -2^15..2^15-1 |
| ReadWav.S32 | read_wav.cpp:30-37 | an `int` field lies in -2^31..2^31-1 |
| ReadWav.FirstChunk | read_wav.cpp:87 | the chunk walk starts after the format chunk's declared size |
| ReadWav.NextChunk | read_wav.cpp:115 | the walk moves forward by at least the chunk header and the declared size |
| ReadWav.DataChunkIsData | read_wav.cpp:90-92 | the walk stops only at a "data" chunk header that lies wholly inside the file, at or after where it started |
| ReadWav.ReadWavOf | read_wav.cpp:58-121 | a sound is loaded only from an existing file with a full 36-byte header that passes the RIFF/WAVE/"fmt " and format-size checks |
| ReadWav.LoadData | read_wav.cpp:92-120 | a sound is loaded exactly when a "data" chunk was found whose body is non-empty and fits in the file; the sound then holds that body, its size and the header's rate and channel count; otherwise the sound stays zeroed |
| ReadWav.ReadWav | read_wav.cpp:58-121 | the imperative reader returns `ReadWavOf(file)` |
| ReadWav.WalkChunks | read_wav.cpp:89-116 | the header-reading loop stops at the chunk `DataChunk` designates |
| ReadWav.ReadData | read_wav.cpp:92-113 | the data branch returns `LoadData` of the chunk found |
| ReadWav.WalkStep | read_wav.cpp:114-115 | skipping a chunk that is not "data" leaves the walk's result unchanged |
| ReadWav.ChunkBytes | read_wav.cpp:39-43 | a chunk takes 8 header bytes plus its body, plus a pad byte after an odd body when padding is used |
| ReadWav.WalkFindsFirstData | read_wav.cpp:89-116 | over chunks written with the same padding convention, the walk stops at the first "data" chunk and reads its size and body |
| ReadWav.WalkPastChunk | read_wav.cpp:114-115 | after a first chunk that is not "data", the walk finds the first "data" chunk in the rest of the run |
| ReadWav.StopAtData | read_wav.cpp:92 | the walk stops at a written "data" chunk and reads back its size and body |
| ReadWav.SkipChunk | read_wav.cpp:114-115 | the walk steps over any other written chunk |
| ReadWav.ChunkAt | read_wav.cpp:90-115 | at a written chunk the walk reads back its id, size and body, and moves on past its bytes |
| ReadWav.ReadWavRoundTrip | read_wav.cpp:58-121 | writing a header, the rest of the format chunk and a run of chunks, then reading the file back, yields the first "data" body with the header's rate and channel count, provided reader and writer agree on padding |
| ReadWav.ReadWavFindsData | read_wav.cpp:58-121 | a file that passes the checks and holds the run of chunks where the walk starts yields the run's first "data" body |
| ReadWav.LoadsBody | read_wav.cpp:100-112 | a "data" chunk whose size field matches the body written after its header loads that body |
| ReadWav.HeaderPrefix | read_wav.cpp:72-85 | the header checks and fields depend only on the first 36 bytes |
| ReadWav.EvenChunksNeedNoPad | read_wav.cpp:114-115 | when no body is odd, padding changes nothing, so the reader is correct on such files |
| ReadWav.SampleWalkMissesData | read_wav.cpp:114-115 | on the sample file, the unpadded walk reads a bogus header one byte early and runs off the end |
| ReadWav.OddChunkHidesData | read_wav.cpp:114-115 | the reader misses the "data" chunk of a well-formed RIFF file whose preceding chunk has an odd size; a reader that skips pad bytes finds it |
| ReadWav.SampleReadAsWritten | read_wav.cpp:58-121 | on the sample file, the reader as written finds no "data" chunk |
| MyPlanes.SanitizeIcao | myplane.cpp:216-217 | same length; every upper-case letter or digit is kept and every other character becomes a blank, so the result is clean |
| MyPlanes.SanitizeIdempotent | myplane.cpp:216-217 | sanitising twice is sanitising once |
| MyPlanes.SanitizeClean | myplane.cpp:216-217 | a designator that is already clean is unchanged |
| MyPlanes.IcaoRemap | myplane.cpp:327-331 | only A20N and A21N change; they become "A" followed by three digits, and a clean designator stays clean |
| MyPlanes.IcaoRemapIdempotent | myplane.cpp:327-331 | remapping twice is remapping once |
| MyPlanes.IcaoLineIsPrefix | myplane.cpp:476-497 | the designator's first occurrence is at the start of the line exactly when the line, cut at CR, starts with it |
| MyPlanes.FindIcaoInFile | myplane.cpp:476-497 | found exactly when some line of the file starts with the designator |
| MyPlanes.Coord | myplane.cpp:294-313 | a door 2 coordinate line adds at most one to the count and changes neither the flag nor the stop state |
| MyPlanes.AcfScanOf | myplane.cpp:288-321 | the scan stops with door 2 found only with all three coordinates parsed and the `_has_board_2` flag set |
| MyPlanes.AcfStopped | myplane.cpp:315-320 | once the scan has stopped, later lines change nothing (the loop `break`s) |
| MyPlanes.AcfNeedsFlag | myplane.cpp:289-315 | without a `_has_board_2` line the flag stays 0 and the scan never stops with door 2 found |
| MyPlanes.ScanAcf | myplane.cpp:282-324 | the imperative .acf reading loop yields `AcfScanOf(lines)` |
| MyPlanes.Door2Of | myplane.cpp:262-325 | after `plane_loaded` the plane has one or two doors |
| MyPlanes.Door2Meaning | myplane.cpp:262-325 | two doors come from the door table's ICAO+"2" entry, or else from an .acf file with the flag set and all three coordinates parsed; an .acf file without the flag line leaves one door |
| MyPlanes.LoadDoor2 | myplane.cpp:262-325 | the imperative door 2 code yields `Door2Of` |
| MyPlanes.OnGroundHysteresis | myplane.cpp:346-352 | the on-ground flag flips exactly when the raw value differs and more than 10 s have passed since the last flip; a flip records its time |
| MyPlanes.BeaconReset | myplane.cpp:447-452 | `reset_beacon` keeps the reported state and clears the pending edge |
| MyPlanes.BeaconNeedsPersistence | myplane.cpp:364-386 | the reported beacon changes only toward a raw value already pending from an earlier sample, and only more than 3 s after that edge; the pending edge always follows the raw value |
| MyPlanes.BeaconGlitchIgnored | myplane.cpp:364-386 | a one-sample glitch of the raw beacon leaves the reported state and the pending edge alone |
| MyPlanes.BeaconSettles | myplane.cpp:364-386 | a raw value that holds on two samples more than 3 s apart is reported |
| MyPlanes.BeaconAfterReset | myplane.cpp:447-452 | after `reset_beacon`, a beacon that is off is reported off as soon as the clock passes -7 s |
| MyPlanes.DockedAtStep | myplane.cpp:82-90 | one more jetway adds exactly its door, when it is docked, to the doors served |
| MyPlanes.MarkDocked | myplane.cpp:82-90 | after one pass over a jetway, each returned slot is 1 exactly when a docked jetway seen so far serves its door; slots past the range are unchanged |
| MyPlanes.MyPlane.constructor | myplane.cpp:102-133 | ICAO "0000", state IDLE, no active jetways and the beacon filter reset |
| MyPlanes.MyPlane.JwStatusAcc | myplane.cpp:45-63 | `number` gives the count of active jetways; `status` is 0 exactly without active jetways, 1 exactly when they can dock, 2 exactly when docked, and -1 otherwise |
| MyPlanes.MyPlane.JwDoorStatusAcc | myplane.cpp:69-92 | without a buffer it returns the array size; for a bad range it returns 0 and writes nothing; otherwise it returns min(n, doors left) and sets each slot to whether a docked jetway serves that door, leaving the rest unchanged |
| MyPlanes.MyPlane.RequestDock | myplane.cpp:136-140 | the dock request is set only when the plane can dock |
| MyPlanes.MyPlane.RequestUndock | myplane.cpp:142-147 | the undock request is set only when the plane is docked |
| MyPlanes.MyPlane.RequestToggle | myplane.cpp:149-154 | the toggle request is set only when the plane can dock or is docked |
| MyPlanes.MyPlane.DockRequested | myplane.cpp:156-162 | reports the pending dock request once and clears it |
| MyPlanes.MyPlane.UndockRequested | myplane.cpp:164-170 | reports the pending undock request once and clears it |
| MyPlanes.MyPlane.ToggleRequested | myplane.cpp:172-178 | reports the pending toggle request once and clears it |
| MyPlanes.ResetJws | myplane.cpp:189-190 | every active jetway is reset to its parked pose; only the motion fields of those jetways are written |
| MyPlanes.UnlockJws | myplane.cpp:198-199 | every active jetway is unlocked; only the `locked` flags are written |
| MyPlanes.MyPlane.AutoModeSet | myplane.cpp:180-205 | the mode is stored; changing it while docking or undocking resets every jetway and goes IDLE; switching to manual while the plane can dock releases the jetways and returns to PARKED; that release changes only the `locked` flags, the reset only the motion fields; otherwise neither the state nor any jetway changes |
| MyPlanes.MyPlane.PlaneLoaded | myplane.cpp:207-336 | on the ground with a zero timestamp; gear from the datarefs or the CG; a helicopter keeps only the sanitised designator; otherwise the exception files are consulted, door 1 comes from the datarefs, door 2 and the door count come from `Door2Of`, and A20N/A21N are remapped |
| MyPlanes.MyPlane.LoadCommon | myplane.cpp:210-231 | ground state, sanitised designator, gear positions (from the datarefs or the CG) and the helicopter flag; both exception flags cleared |
| MyPlanes.MyPlane.LoadFixedWing | myplane.cpp:239-331 | exception flags from the two files; door 1 from the datarefs; door 2 and the door count from `Door2Of`; designator remapped |
| MyPlanes.MyPlane.Update | myplane.cpp:338-399 | position copied; debounced on-ground flag; engines on exactly when any engine runs; the beacon follows the engines for listed aircraft and the 3 s filter otherwise; park brake set above 0.5 |
| MyPlanes.MyPlane.UpdateBeacon | myplane.cpp:354-386 | engines on exactly when any engine runs; the beacon follows them for listed aircraft and the filter otherwise |
| MyPlanes.MyPlane.UpdateOnGround | myplane.cpp:346-352 | the on-ground flag and timestamp follow `OnGroundStep` |
| MyPlanes.MyPlane.SampleBeacon | myplane.cpp:372-385 | one beacon sample advances the filter by `BeaconStep` |
| MyPlanes.MyPlane.MemorizeParkedPos | myplane.cpp:401-430 | records position and reference generation, so no teleportation is seen right after; for an A321 with the exit-config dataref, value 0 gives two doors and anything else one |
| MyPlanes.MyPlane.ResetBeacon | myplane.cpp:447-452 | the beacon filter becomes `BeaconReset` of the old one |
| MyPlanes.TeleportationMeaning | myplane.cpp:432-445 | teleportation needs the ground; a plane within 1 m in the same frame has not teleported; a plane on the ground whose frame changed has |
| MyPlanes.AnyRunning | myplane.cpp:355-362 | true exactly when some engine reports running |
| PlaneLegacy.IcaoRemapLegacy | plane.cpp:191-193 | only A20N changes, and it becomes A320 |
| PlaneLegacy.RemapVersionsDiffer | plane.cpp:191-193 | the two versions of the remap differ exactly on A21N |
| PlaneLegacy.FirstExitLine | plane.cpp:216-224 | the first livery line that mentions `exit_Configuration`; none when no line does |
| PlaneLegacy.EnginesOn | plane.cpp:314-324 | true exactly when some engine-running flag is set |
| PlaneLegacy.ScanLivery | plane.cpp:212-227 | the scan reports one door exactly as `OneDoorLivery` does: the first exit configuration line decides |
| PlaneLegacy.LegacyPlane.constructor | plane.cpp:42-69 | ICAO "0000" and the beacon filter reset |
| PlaneLegacy.LegacyPlane.PlaneLoaded | plane.cpp:71-194 | as in myplane.cpp: sanitised designator; a helicopter stops early; exception files; door 1 from the datarefs; door 2 from the door table or the .acf file. Only A20N is remapped |
| PlaneLegacy.LegacyPlane.LoadCommon | plane.cpp:71-101 | ground state, sanitised designator, gear positions and helicopter flag; both exception flags cleared |
| PlaneLegacy.LegacyPlane.LoadFixedWing | plane.cpp:103-193 | exception flags from the two files; door 1 from the datarefs; door 2 and the door count from `Door2Of`; only A20N remapped |
| PlaneLegacy.LegacyPlane.LiveryLoaded | plane.cpp:196-228 | for an A321 whose `livery.tlscfg` opens, an exit configuration line that is not CLASSIC gives one door; otherwise the door count is unchanged |
| PlaneLegacy.LegacyPlane.Update | plane.cpp:230-264 | the 10 s on-ground hysteresis; the beacon follows the engines for listed aircraft and the 3 s filter otherwise |
| PlaneLegacy.LegacyPlane.SampleBeacon | plane.cpp:249-262 | one beacon sample advances the filter by `BeaconStep` |
| PlaneLegacy.LegacyPlane.MemorizeParkedPos | plane.cpp:266-284 | records position and reference generation, so no teleportation is seen right after |
| PlaneLegacy.LegacyPlane.ResetBeacon | plane.cpp:306-311 | the beacon filter becomes `BeaconReset` of the old one |
| PlaneLegacy.TeleportationAgrees | plane.cpp:286-303 | both versions detect teleportation by the same rule |
| SamJws.Filled | samjw.cpp:66-105 | once a library id is set nothing changes; an id outside 1..27 is refused; otherwise the id is recorded with that library entry's geometry |
| SamJws.FilledOneShot | samjw.cpp:66-105 | filling is one-shot: a filled jetway keeps its id and geometry whatever id a later call passes |
| SamJws.SamJw.Zeroed | samjw.h:27-58 | `new SamJw()`: every member zero-initialised, with no stand |
| SamJws.SamJw.ZeroConfig | samjw.cpp:158-186 | a new jetway set up as `configure_zc_jw` does: marked zero-config, named "zc_", library values filled, randomised initial rotate2/rotate3, extent 0.3, animation values at the initial ones |
| SamJws.SamJw.DrValue | samjw.cpp:340-375 | an invalid dataref code reads 0.0 |
| SamJws.SamJw.FillLibraryValues | samjw.cpp:66-105 | the id and geometry become `Filled` of the old ones |
| SamJws.SamJw.Reset | samjw.h:66-73 | the animation values go back to the initial ones, the wheels follow rotate3 and extent, and the warn light is off |
| SamJws.PackCtx | samjw.cpp:406-411 | the registered context word, the id shifted left by 32 bits or-ed with the code, fits in 64 bits |
| SamJws.CtxCode | samjw.cpp:246-248 | the dataref code is below 2^32 |
| SamJws.CtxRoundTrip | samjw.cpp:246-248 | decoding a packed context gives back the id and the code, for ids and codes that fit in 32 bits |
| SamJws.CtxInjective | samjw.cpp:398-412 | distinct (id, code) pairs get distinct context words, so every registered dataref can be told apart |
| SamJws.ZcFind | samjw.cpp:323-331 | -1 or the index of the first table entry at exactly the object's x, z and y |
| SamJws.Probed | samjw.cpp:276-298 | the probe gives a position exactly when it hits terrain at that latitude and longitude |
| SamJws.FirstStop | samjw.cpp:252-319 | the index of the first jetway where the walk stops; no earlier jetway stops it |
| SamJws.Outcome | samjw.cpp:252-319 | no match exactly when no jetway stops the walk; a match is one of the jetways walked |
| SamJws.MatchIsNear | samjw.cpp:301-315 | a match is a walked jetway that is in sight, whose probe hit, and that lies within 2.5 m of the object |
| SamJws.FirstMatchWins | samjw.cpp:252-319 | the first jetway in sight near the object wins when no earlier jetway in sight had a failed probe |
| SamJws.FirstFailureWins | samjw.cpp:278-294 | the first jetway in sight whose probe fails, before any match, makes the accessor give up |
| SamJws.Decided | samjw.cpp:252-319 | at the first jetway that stops the walk, that jetway's view decides the outcome: a failed probe or a match |
| SamJws.VisitedStep | samjw.cpp:252-257 | one more scenery adds its jetways exactly when its box holds the plane |
| SamJws.VisitedPrefix | samjw.cpp:252-257 | the jetways visited over a prefix of the sceneries are a prefix of all the jetways visited |
| SamJws.Rot2Factor | samjw.cpp:173 | the random share `0.2 + 0.8 * 0.01 * (rand() % 100)` lies in [0.2, 0.992] |
| SamJws.InitialRot3 | samjw.cpp:181 | the random initial rotate3 lies in [-2.97, 0] |
| SamJws.StandDelta | samjw.cpp:171 | the stand angle `RA(hdgt + 90 - psi)` lies in (-180, 180] |
| SamJws.ShareBounds | samjw.cpp:171-174 | the randomised initial rotate2 lies between 0.2 and 0.992 of the stand angle, on its side, and stays inside (-180, 180) |
| SamJws.JwWorld.constructor | openSAM.cpp:108-110 | the world starts with an empty zero-config table, generation 1 and an impossible reference, so every cache starts stale |
| SamJws.JwWorld.CheckRefFrameShift | samjw.cpp:196-219 | a new reference starts a new generation; a zero-config table from an older generation is emptied; the table's generation catches up |
| SamJws.JwWorld.FindZc | samjw.cpp:323-331 | the zero-config loop returns `ZcFind` |
| SamJws.JwWorld.SearchSceneries | samjw.cpp:252-319 | the walk ends as `Outcome` says; stale positions of jetways in sight are probed and cached; a matched jetway's cached position is current and within 2.5 m |
| SamJws.JwWorld.WalkScenery | samjw.cpp:259-318 | the inner loop over one scenery's jetways stops exactly where the whole walk first stops, and keeps the caches refreshed |
| SamJws.JwWorld.Visit | samjw.cpp:260-317 | one jetway stops the walk exactly when it is in sight and either its probe failed or it is near the object |
| SamJws.JwWorld.Record | samjw.cpp:296-298 | a probe result is cached with the current generation |
| SamJws.JwWorld.Lookup | samjw.cpp:252-378 | after the walk, the value is 0.0 on a failed probe, the matched jetway's dataref on a match, else the first zero-config entry at the object, else a new zero-config jetway for a library id, else 0.0 |
| SamJws.JwWorld.ConfigureZcJw | samjw.cpp:149-193 | an object too far from the plane (half of FAR_SKIP across, 1000 m up or down) gets no jetway; otherwise a fresh configured jetway is appended to the table |
| SamJws.JwWorld.MatchedAccess | samjw.cpp:301-375 | a matched jetway takes the drawn object's position once per generation, and its dataref is read |
| SamJws.JwWorld.ZcAccess | samjw.cpp:321-337 | the first table entry at the object answers; else a library id 1..27 gets a new entry; else the value is 0.0 |
| SamJws.ReadDr | samjw.cpp:339-375 | the value of the selected dataref; rotate1 with a library id fills the library values first, and no other code touches them |
| SamJws.ZcFindFirst | samjw.cpp:323-331 | an entry that matches after k entries that do not is the one found |
| SamJws.ZcFindNone | samjw.cpp:323-331 | a table with no match gives -1 |
| SamJws.JwAnimAcc | samjw.cpp:231-378 | the frame check, then the walk over the declared jetways of the sceneries in sight, then the lookup; a failed probe reads 0.0 and a matched jetway gives its dataref; otherwise the frame's zero-config table answers |
| SamJws.EnterFrame | samjw.cpp:244 | the frame check keeps the world valid and the table generation current, and changes none of what the lookup after it will read |
| SamJws.ResetAll | samjw.cpp:381-390 | every declared jetway and every zero-config jetway is reset |
| JwCtrls.LessReflexive | jwctrl.cpp:111-136 | as written, every key is less than itself (equal x falls through to `return true`), so the comparator is no strict weak ordering for `std::sort` |
| JwCtrls.LessFixedStrict | jwctrl.cpp:111-136 | the corrected comparator is irreflexive and asymmetric; it differs from the written one exactly when the heights are within 1 m, the z values within 0.5 m and the x values equal |
| JwCtrls.SolveSolves | jwctrl.cpp:276-310 | the s and t `collision_check` computes by Cramer's rule solve the system: the point s of the way along jetway 1's path is the point t of the way along jetway 2's |
| JwCtrls.CollidesMeaning | jwctrl.cpp:296-309 | a collision is reported exactly when the determinant is at least 0.2 in size and both parameters lie in [0, 1] |
| JwCtrls.XzToSamDr | jwctrl.cpp:48-67 | rotate1 and rotate2 lie in (-180, 180]; the extent is the distance to the cabin point minus `cabinPos` |
| JwCtrls.XzToSamDrSquare | jwctrl.cpp:55-59 | rotate1 plus rotate2 is 90 - psi up to whole turns, so the cabin ends square to the fuselage |
| JwCtrls.SetupFor | jwctrl.cpp:72-108 | the door point is one cabin length before the door and the alignment point 1 m before that; the angles lie in (-180, 180]; the height is the jetway's minus the door's |
| JwCtrls.SetupFrom | jwctrl.cpp:72-108 | the same for a given jetway pose |
| JwCtrls.WbDelta | jwctrl.cpp:317-323 | the wheel base turn still to do lies in [-90, 90] |
| JwCtrls.WbDeltaAligns | jwctrl.cpp:317-323 | turning by it lines the wheel base up with the target up to half turns |
| JwCtrls.StepsNoOvershoot | jwctrl.cpp:362-397 | a rotate2 or rotate3 step for a non-negative time stays between the old value and the target, and moves at most one step |
| JwCtrls.Rot2Progress | jwctrl.cpp:383-397 | each rotate2 step ends within 0.5 of the target or moves dt * 10 closer, so repeated steps reach it |
| JwCtrls.Judge | jwctrl.cpp:146-183 | a jetway is taken only when visible in this generation, not locked, on the left within -80..1 by +-80 m, not pointing away, and needing less than 10 m beyond its maximum extent; the match is soft exactly when it is outside its limits; a reachable jetway within its limits is always taken as a hard match |
| JwCtrls.Candidates | jwctrl.cpp:139-193 | no more candidates than jetways |
| JwCtrls.Picked | jwctrl.cpp:158-191 | one jetway adds at most one candidate |
| JwCtrls.JwsOf | jwctrl.cpp:139-193 | one jetway per candidate |
| JwCtrls.CandidatesSound | jwctrl.cpp:146-191 | every candidate kept is a jetway of the list that the filters take, set up for the door |
| JwCtrls.CandidatesComplete | jwctrl.cpp:146-191 | every jetway of the list that the filters take is kept |
| JwCtrls.CandidatesConcat | jwctrl.cpp:226-231 | filtering two lists one after the other keeps, in order, what filtering each list keeps |
| JwCtrls.CandidatesSub | jwctrl.cpp:146-191 | no jetway is kept more often than the list holds it |
| JwCtrls.CandidatesStep | jwctrl.cpp:146-191 | what a list keeps is at most what all but its last element keep, plus that last element |
| JwCtrls.Flatten | jwctrl.cpp:226-228 | no sceneries give no jetways |
| JwCtrls.ApHeading | jwctrl.cpp:467-476 | the wheel base angle lies in (-180, 180]; at minimum extent it turns no further back than -90 degrees, so the tunnel is never compressed |
| JwCtrls.ParkHeading | jwctrl.cpp:650-659 | toward the parked position the wheel base angle lies in (-180, 180]; at minimum extent it turns no further than 90 degrees |
| JwCtrls.RampSpeed | jwctrl.cpp:528-531 | before the door the speed ramps down from full speed to a tenth of it |
| JwCtrls.JwCtrl.FromCandidate | jwctrl.cpp:158-191 | the copy of a candidate that becomes a door's controller is parked and holds the candidate's set-up and soft flag |
| JwCtrls.JwCtrl.RotateWheelBase | jwctrl.cpp:314-351 | done exactly when at most 2 degrees were left; the base turns one step toward the target; the wheels turn by opposite amounts, so their sum is unchanged |
| JwCtrls.JwCtrl.Rotate2 | jwctrl.cpp:383-397 | rotate2 takes one step toward the target; done exactly when it ends within 0.5 degrees |
| JwCtrls.JwCtrl.Rotate3 | jwctrl.cpp:362-380 | rotate3 takes one step toward the target and the wheel height follows the stepped value; within 0.1 degrees it snaps to the target and is done |
| JwCtrls.JwCtrl.Rotate1Extend | jwctrl.cpp:354-359 | rotate1 and the extent put the tunnel end at the cabin position; the wheel height follows |
| JwCtrls.JwCtrl.AnimateWheels | jwctrl.cpp:400-411 | both wheels turn by the same amount for straight driving |
| JwCtrls.JwCtrl.SetupDockUndock | jwctrl.cpp:693-703 | state TO_AP, start and last step at the start time, time-out 50 s later, warn light on |
| JwCtrls.JwCtrl.Reset | jwctrl.cpp:705-709 | the jetway returns to its initial values |
| JwCtrls.JwCtrl.FollowToAp | jwctrl.cpp:490-501 | the tunnel end follows the cabin; near the alignment point rotate2 steps toward its door value |
| JwCtrls.JwCtrl.FollowCabin | jwctrl.cpp:545-546 | the tunnel end follows the cabin and the wheels roll the distance driven |
| JwCtrls.JwCtrl.FollowToPark | jwctrl.cpp:672-675 | rotate2 and rotate3 step toward their initial values; the tunnel end follows the cabin |
| JwCtrls.JwCtrl.DockToAp | jwctrl.cpp:445-502 | stays in TO_AP, or reaches AT_AP within eps of the alignment point and stops the call; a turning wheel base stops the call; at minimum extent the base angle stays at or above -90 |
| JwCtrls.JwCtrl.ApStep | jwctrl.cpp:453-501 | one drive step toward the alignment point; the call stops exactly while the wheel base turns |
| JwCtrls.JwCtrl.DockAtAp | jwctrl.cpp:504-512 | the wheel base turns toward the door; on to TO_DOOR only with rotate2 within 0.5 and rotate3 at their door values |
| JwCtrls.JwCtrl.DockToDoor | jwctrl.cpp:514-557 | DOCKED, with the warn light off, exactly when the cabin is within eps of the door; the cabin never passes the door |
| JwCtrls.JwCtrl.DoorStep | jwctrl.cpp:522-556 | one drive step to the door once the wheel base is lined up, with the same guarantees |
| JwCtrls.JwCtrl.DockDrive | jwctrl.cpp:415-561 | done at once when docked; nothing before the start time; after the time-out the jetway jumps to its door values with the warn light off; otherwise the phases run in order and the state only advances; done exactly when DOCKED |
| JwCtrls.JwCtrl.UndockToAp | jwctrl.cpp:591-627 | stays in TO_AP, or reaches AT_AP within eps and stops the call; a turning wheel base stops the call |
| JwCtrls.JwCtrl.UndockToPark | jwctrl.cpp:634-687 | PARKED, with the warn light off, exactly when the cabin is within eps of its parked position; reaching it unlocks a jetway that carries a lock; at minimum extent the base angle stays at or below 90 |
| JwCtrls.JwCtrl.ParkStep | jwctrl.cpp:643-686 | one drive step to the parked position once the wheel base is lined up, with the same guarantees |
| JwCtrls.JwCtrl.UndockTimeout | jwctrl.cpp:574-581 | as written, the time-out parks and resets the jetway but keeps its lock |
| JwCtrls.JwCtrl.UndockTimeoutFixed | jwctrl.cpp:574-581 | corrected: the time-out also unlocks the jetway, as reaching the parked position does |
| JwCtrls.JwCtrl.OsUndockTimeout | os_jw.cpp:1052-1063 | os_jw.cpp's time-out parks the jetway with rotate1..3 and the extent back at their initial values, leaving the wheel height as it was |
| JwCtrls.JwCtrl.UndockDrive | jwctrl.cpp:565-691 | done at once when parked; nothing before the start time; after the time-out the jetway is back at its initial values with its lock kept (fully reset in jwctrl.cpp, wheels left alone in os_jw.cpp); otherwise the phases run in order; done exactly when PARKED |
| JwCtrls.FilterCandidates | jwctrl.cpp:139-193 | the loop keeps exactly `Candidates(jws)`, in list order |
| JwCtrls.AvgDoorWithin | jwctrl.cpp:211-222 | the average door lies within the doors' x range |
| JwCtrls.AverageDoor | jwctrl.cpp:211-222 | the summing loop yields `AvgDoor(doors)` |
| JwCtrls.CollectCandidates | jwctrl.cpp:226-231 | the candidates of the sceneries' jetways, then of the zero-config table, in that order |
| JwCtrls.CollectSceneries | jwctrl.cpp:226-228 | the loop over the sceneries yields the candidates of all their jetways, in order |
| JwCtrls.CollectStep | jwctrl.cpp:226-228 | one more scenery adds its own candidates after those of the earlier ones |
| JwCtrls.SwapDown | jwctrl.cpp:234 | an exchange of neighbours is a permutation that changes only those two positions |
| JwCtrls.SortCandidates | jwctrl.cpp:234 | the sort (under the corrected comparator) returns a permutation of the candidates, and of their jetways, in which no candidate is less than its predecessor |
| JwCtrls.InsertDown | jwctrl.cpp:234 | one insertion step is a permutation that leaves the first i + 1 keys in order |
| JwCtrls.StandPrefix | jwctrl.cpp:243-252 | the stand id is cut at its first space and then to at most 10 characters |
| JwCtrls.ZcNameShape | jwctrl.cpp:236-258 | a zero-config name is a stand prefix without spaces (or "zc"), an underscore and a letter; the first 26 get A to Z, and the names for one stand differ from letter to letter |
| JwCtrls.NameZcJws | jwctrl.cpp:236-259 | each zero-config jetway is named from the number of zero-config jetways before it; other jetways keep their names |
| JwCtrls.NameOne | jwctrl.cpp:239-258 | a zero-config jetway takes the i-th name and advances the counter; any other jetway changes nothing |
| JwCtrls.ZcOrdinals | jwctrl.cpp:237-258 | the counter starts at 0 and advances exactly at zero-config jetways |
| JwCtrls.LockAll | jwctrl.cpp:261-263 | every candidate's jetway is locked and keeps its name |
| JwCtrls.CandidatesNoDup | jwctrl.cpp:146-191 | without duplicate jetways in the list, each jetway is kept at most once, and only jetways of the list are kept |
| JwCtrls.PermutedDistinct | jwctrl.cpp:234 | a permutation of candidates with distinct jetways still has distinct jetways |
| JwCtrls.FindNearestJws | jwctrl.cpp:197-266 | a plane without doors gets 0 and nothing changes; otherwise the frame check runs, and the result is every candidate of the sceneries and the zero-config table, filtered against the average door and ordered; zero-config jetways are renamed in that order, every returned jetway is locked, and the count is returned |
| JwCtrls.GatherNearest | jwctrl.cpp:209-234 | frame check, average door, filtering and ordering yield the candidates of the remaining pool, ordered and with distinct jetways |
| JwCtrls.FilterSorted | jwctrl.cpp:211-234 | average door, filtering and sort, over the world the frame check left |
| JwCtrls.SortDistinct | jwctrl.cpp:234 | sorting candidates of distinct jetways from a pool keeps them distinct and from the pool |
| JwCtrls.NameAndLock | jwctrl.cpp:236-263 | naming and locking keep the order; every jetway ends locked, and each zero-config jetway carries its ordinal's name |
| OsJw.Judged | os_jw.cpp:581-621 | a candidate exactly when the filters take the jetway (the threshold aside); it names its jetway and holds its door set-up |
| OsJw.JudgedAll | os_jw.cpp:581-631 | one verdict per jetway of the list |
| OsJw.JudgedAllEach | os_jw.cpp:581-631 | the judged list holds the verdict on each jetway, and each candidate names its own jetway |
| OsJw.Passed | os_jw.cpp:601-602 | the candidates whose door-frame z does not exceed the threshold, and only those, in order |
| OsJw.PassedComplete | os_jw.cpp:601-602 | every candidate within the threshold passes |
| OsJw.PassedConcat | os_jw.cpp:666-670 | what passes of two lists one after the other is what passes of each, in order |
| OsJw.OsCandidates | os_jw.cpp:575-632 | under a fixed threshold, no more candidates than jetways, all within the threshold |
| OsJw.OsCandidatesKept | os_jw.cpp:581-623 | every admitted candidate comes from the list and is what the filters make of its jetway |
| OsJw.OsCandidatesComplete | os_jw.cpp:581-623 | every jetway the filters take within the threshold yields a candidate |
| OsJw.VerdictVersions | os_jw.cpp:581-615 | without the lock test the filters agree with jwctrl.cpp's on unlocked jetways, and take every jetway those take |
| OsJw.NearestBuf.Held | os_jw.cpp:622-623 | the candidates in the used slots of `nearest_jw` |
| OsJw.NearestBuf.constructor | os_jw.cpp:622-630 | the zero-initialised buffer: no used slots |
| OsJw.NearestBuf.Clear | os_jw.cpp:662 | the buffer is emptied |
| OsJw.NearestBuf.Push | os_jw.cpp:622-630 | a candidate goes into the next slot, which always exists; when that fills the buffer it is sorted into a permutation (of the candidates and of their jetways) with no candidate less than its predecessor, trimmed to NEAR_JW_LIMIT, and the threshold becomes the z of the last one kept |
| OsJw.NearestBuf.SortTrim | os_jw.cpp:626-630 | a full buffer is sorted, trimmed to NEAR_JW_LIMIT, and the threshold taken from the last one kept |
| OsJw.NearestBuf.FinalSort | os_jw.cpp:672-676 | the held candidates are sorted into a permutation with no candidate less than its predecessor and trimmed to NEAR_JW_LIMIT |
| OsJw.NearestBuf.SortBack | os_jw.cpp:672-676 | sorting the held candidates and writing them back, trimmed |
| OsJw.Filter | os_jw.cpp:582-615 | the tests for one jetway: its candidate when the filters take it within the threshold, nothing otherwise |
| OsJw.Offer | os_jw.cpp:622-630 | a candidate that passed goes into the buffer, which keeps its jetways distinct; without a trim the candidate is appended and the threshold stays |
| OsJw.FilledFresh | os_jw.cpp:666-670 | a buffer filled from empty holds only candidates that passed; while it did not overflow it holds all of them in order and the threshold is unchanged; otherwise it holds at least NEAR_JW_LIMIT |
| OsJw.FilterCandidates | os_jw.cpp:575-632 | the buffer never overflows and holds only candidates the filters made, with distinct jetways; as long as it does not fill, it gains exactly the list's candidates within the threshold, in order, and the threshold stays |
| OsJw.FilterAt | os_jw.cpp:582-615 | the tests for the jetway at a position of the list |
| OsJw.FilterOne | os_jw.cpp:581-631 | one pass of the loop: the next jetway's candidate, if it passed, goes to the buffer |
| OsJw.FilterStep | os_jw.cpp:581-631 | one step of the loop keeps the bookkeeping of what the buffer holds |
| OsJw.FilterSceneries | os_jw.cpp:665-667 | the loop over the sceneries: the buffer holds only candidates from the jetways seen; while it did not overflow, exactly those that passed, in order |
| OsJw.FilterScenery | os_jw.cpp:666-667 | one scenery's jetways filtered after those before it |
| OsJw.ScenerySteps | os_jw.cpp:666-667 | one scenery's bookkeeping, on the buffer's contents before and after |
| OsJw.SceneryFrom | os_jw.cpp:666-667 | after one scenery the buffer holds only what passed in it or before it |
| OsJw.FindNearestJws | os_jw.cpp:635-701 | a plane without doors gets 0 and nothing changes; otherwise the frame check runs, then every scenery's jetways and the zero-config ones are filtered against the average door. The buffer ends with at most NEAR_JW_LIMIT candidates, each made from a jetway of that pool, with distinct jetways and in order; while the buffer never filled it holds the first of all passing candidates. Zero-config jetways are named after their position |
| OsJw.RankNamed | os_jw.cpp:647-698 | gathering, then naming, once the plane has doors |
| OsJw.NameHeld | os_jw.cpp:678-698 | zero-config jetways held are named after their position; the buffer and the verdicts on it stay as they were; no other jetway is renamed |
| OsJw.GatherOs | os_jw.cpp:647-676 | frame check, filtering and final sort over the pool the frame check leaves |
| OsJw.FilterRanked | os_jw.cpp:649-676 | average door, filtering and final sort: at most NEAR_JW_LIMIT candidates, from the pool, in order; all passing candidates when fewer than MAX_NEAREST passed |
| OsJw.FilterAveraged | os_jw.cpp:649-670 | the average door, then both filter passes into the cleared buffer |
| OsJw.HeldKept | os_jw.cpp:581-623 | candidates found among the verdicts on a list are kept for their own jetways |
| OsJw.SortedFrom | os_jw.cpp:672-676 | what the final sort keeps was in the buffer, with distinct jetways |
| OsJw.FilterPool | os_jw.cpp:662-670 | the two filter passes, the sceneries' jetways and then the zero-config ones, into the cleared buffer with threshold 1e10 |
| OsJw.NameByIndex | os_jw.cpp:678-698 | each zero-config jetway is named after its position in the buffer, counting all candidates; other jetways keep their names |
| OsJwMachine.Pick | os_jw.cpp:764-783 | the positions the assignment loop takes from `from` on with `limit` doors free: at most `limit`, only usable ones, strictly increasing |
| OsJwMachine.Chosen | os_jw.cpp:751-788 | the candidates `select_jws` assigns to doors 0, 1, ...: at most one per door, in candidate order, each index inside the buffer |
| OsJwMachine.ChosenUsable | os_jw.cpp:757-783 | every chosen candidate is usable: not a soft match beside a hard one, and not colliding with a later candidate |
| OsJwMachine.PickedComplete | os_jw.cpp:764-783 | a usable position is passed over only when all `limit` doors were already taken by earlier positions |
| OsJwMachine.ChosenComplete | os_jw.cpp:764-783 | a usable candidate is left out only when every door already got a candidate ahead of it |
| OsJwMachine.ChosenHardOnly | os_jw.cpp:757-769 | when some candidate is a hard match, no soft match is chosen |
| OsJwMachine.CycleOf | os_jw.cpp:1177-1406 | one cycle is an arm's outcome followed by the tail: a wait keeps the registers and returns the animation interval; otherwise the counters go down by one, the toggle clears, the entry state is remembered, and a change of state returns -1, no change 0.5 |
| OsJwMachine.CycleDisabled | os_jw.cpp:1180-1181 | DISABLED keeps every register and polls again after 2 s |
| OsJwMachine.CycleUnknown | os_jw.cpp:1376-1379 | a state outside the enumeration goes to DISABLED at once |
| OsJwMachine.CycleCountsDown | os_jw.cpp:1382-1387 | a cycle that does not wait clears the toggle, counts the dock request down by one (or to -1 after parking resets it) and remembers the entry state |
| OsJwMachine.CycleWaitKeeps | os_jw.cpp:1313-1320 | while DOCKING or UNDOCKING waits on its drives, no register changes and the animation interval is returned |
| OsJwMachine.CycleTransitionNow | os_jw.cpp:1389-1402 | a state change is reported with -1 so that the next cycle runs on the next frame |
| OsJwMachine.DockingOnRequest | os_jw.cpp:1267-1292 | DOCKING is entered only from CAN_DOCK, without a teleport, on a ripe dock request (counter 1) or a toggle |
| OsJwMachine.ParkedFromIdle | os_jw.cpp:1207-1222 | PARKED is entered only from IDLE on the ground with the beacon off, and then no stale dock, undock or toggle request survives |
| OsJwMachine.DockCommandTwoCycles | os_jw.cpp:1267-1419 | a dock command sets the counter to 2: the first CAN_DOCK cycle only counts it down to 1, the second starts docking |
| OsJwMachine.CanDockBeaconOverridden | os_jw.cpp:1267-1293 | as written, a beacon switched on in CAN_DOCK is overridden by a dock request of the same cycle, and docking starts anyway |
| OsJwMachine.FixedBeaconWins | os_jw.cpp:1267-1293 | with the corrected CAN_DOCK arm a plane whose beacon is on never starts docking, and CAN_DOCK falls back to IDLE |
| OsJwMachine.FixedAgreesElsewhere | os_jw.cpp:1177-1406 | the corrected cycle differs from the written one only in CAN_DOCK with the beacon on and a request pending |
| OsJwMachine.ProgressStep | os_jw.cpp:764-783 | one turn of the assignment loop keeps its invariant: a usable candidate is appended and the door advances, any other is passed over |
| OsJwMachine.ProgressDone | os_jw.cpp:764-783 | when the candidates or the doors run out, the loop has picked exactly what `Pick` takes |
| OsJwMachine.CountAll | os_jw.cpp:1303-1313 | when only the first `n` drive results can be true, their count equals `n` exactly when all of them are true |
| OsJwMachine.JwsBefore | os_jw.cpp:771-773 | in a candidate buffer of distinct jetways, no earlier candidate has the jetway of candidate `i` |
| OsJwMachine.JwMachine.constructor | os_jw.cpp:56-89 | the zero-initialised globals: IDLE coming from DISABLED, no request pending, no active or nearest jetway, automatic selection on and the UI locked |
| OsJwMachine.JwMachine.HardMatch | os_jw.cpp:757-762 | the `have_hard_match` flag is true exactly when some candidate is a hard match |
| OsJwMachine.JwMachine.AssignDoors | os_jw.cpp:764-783 | the slots 0, 1, ... receive copies of exactly the candidates `Chosen` picks, and the door count is their number |
| OsJwMachine.JwMachine.TakeAt | os_jw.cpp:764-776 | candidate `i` is taken exactly when it is usable: not soft beside a hard match and not blocked |
| OsJwMachine.JwMachine.CollidesLater | os_jw.cpp:771-773 | the collision loop reports exactly whether some later candidate collides with candidate `i` |
| OsJwMachine.JwMachine.SelectJws | os_jw.cpp:751-788 | the candidate buffer is unchanged, `n_active_jw` is the number `Chosen` picks, those candidates fill the slots in order, and the slots stay packed and distinct |
| OsJwMachine.JwMachine.SetupDoors | os_jw.cpp:1249-1264 | each occupied slot's controller is set up for its door from the pose memorised on parking, and door 0's target rot2 is slanted by 3 degrees |
| OsJwMachine.JwMachine.StartDocking | os_jw.cpp:1273-1291 | every occupied slot among the first `n_door` is started toward its alignment point, at `now` plus 5 s per slot, lowest slot first |
| OsJwMachine.JwMachine.StartUndocking | os_jw.cpp:1334-1356 | every occupied slot among the first `n_door` is started, at `now` plus 5 s per slot counted from the highest slot down |
| OsJwMachine.JwMachine.DriveDocking | os_jw.cpp:1302-1311 | `n_done` counts the drives that report done, and a drive reports done exactly when its jetway is docked |
| OsJwMachine.JwMachine.DriveUndocking | os_jw.cpp:1360-1368 | `n_done` counts the drives that report done, and a drive reports done exactly when its jetway is parked |
| OsJwMachine.JwMachine.ClearActive | os_jw.cpp:1201-1204 | no active jetway is left and the slots are packed and distinct |
| OsJwMachine.JwMachine.IdleArm | os_jw.cpp:1199-1224 | a selection left over from another state is dropped; on the ground with the beacon off the pose is memorised, every request is reset and the next state is PARKED; otherwise nothing else changes and the state stays IDLE |
| OsJwMachine.JwMachine.ParkedArm | os_jw.cpp:1226-1232 | with a candidate found the next state is SELECT_JWS, otherwise CANT_DOCK; the count is the candidate buffer's fill |
| OsJwMachine.JwMachine.SelectArm | os_jw.cpp:1234-1265 | the beacon sends the machine to IDLE; automatic selection activates the `Chosen` candidates; manual selection unlocks the UI on entry and activates none; with a selection each slot is set up for its door and the next state is CAN_DOCK |
| OsJwMachine.JwMachine.SelectAuto | os_jw.cpp:1241-1242 | the candidates `Chosen` picks fill the slots with new controllers of jetways from the candidate buffer |
| OsJwMachine.JwMachine.SetupSelected | os_jw.cpp:1249-1262 | every occupied slot holds the set-up for the door it serves |
| OsJwMachine.JwMachine.ActiveFromHeld | os_jw.cpp:751-788 | the selected controllers drive only jetways from the candidate buffer |
| OsJwMachine.JwMachine.CanDockArm | os_jw.cpp:1267-1293 | a ripe dock request or a toggle starts docking, staggered by slot, even when the beacon selected IDLE; otherwise the beacon gives IDLE and no beacon keeps CAN_DOCK |
| OsJwMachine.JwMachine.DockedArm | os_jw.cpp:1323-1358 | leaving the ground gives IDLE; the beacon sets the undock request to 1; a ripe undock request or a toggle starts undocking from the highest slot down |
| OsJwMachine.JwMachine.DockingArm | os_jw.cpp:1302-1321 | the machine goes to DOCKED exactly when every active jetway has docked, and waits on the animation interval otherwise |
| OsJwMachine.JwMachine.UndockingArm | os_jw.cpp:1360-1374 | the machine goes to IDLE exactly when every active jetway is parked, and waits on the animation interval otherwise |
| OsJwMachine.JwMachine.AllDone | os_jw.cpp:1303-1313 | the count of drives done reaches `n_active_jw` exactly when every active jetway has arrived |
| OsJwMachine.JwMachine.ResetJetways | os_jw.cpp:459-476 | every jetway of every scenery and every zero-config jetway is back in its initial pose, and the machine is IDLE |
| OsJwMachine.JwMachine.Teleported | os_jw.cpp:1188-1192 | a teleport leaves the machine in IDLE with every jetway reset |
| OsJwMachine.JwMachine.AutoModeChange | os_jw.cpp:479-486 | the machine ends in IDLE; leaving any state but SELECT_JWS also resets every jetway |
| OsJwMachine.JwMachine.DockCommand | os_jw.cpp:1408-1419 | the dock command sets its counter to 2 |
| OsJwMachine.JwMachine.UndockCommand | os_jw.cpp:1408-1419 | the undock command sets its counter to 2 |
| OsJwMachine.JwMachine.ToggleCommand | os_jw.cpp:1408-1419 | the toggle command sets its counter to 2 |
| OsJwMachine.JwMachine.Xp12Toggle | os_jw.cpp:1422-1437 | the simulator's jetway command requests a toggle only in CAN_DOCK and DOCKED, and leaves the counter alone elsewhere |
| OsJwMachine.JwMachine.TeleportCase | os_jw.cpp:1188-1224 | a teleport from beyond IDLE resets every jetway and then runs the IDLE arm, with the outcome `Cycle` describes |
| OsJwMachine.JwMachine.Step | os_jw.cpp:1177-1406 | the registers and the returned delay follow `Cycle`; a teleport resets every jetway; a transition to IDLE drops the selection; DOCKING and UNDOCKING finish exactly when every active jetway has docked or parked |
| OsJwMachine.JwMachine.Arms | os_jw.cpp:1188-1380 | the teleport check and the arm of the entry state give the outcome `Cycle` describes |
| OsJwMachine.JwMachine.Commit | os_jw.cpp:1382-1405 | after an arm's outcome the registers and delay are those of `Cycle`, and a transition to IDLE leaves no selection |
| OsJwMachine.JwMachine.Tail | os_jw.cpp:1382-1405 | a wait keeps the registers; otherwise the counters go down by one, the toggle clears, the entry state is remembered, and the delay is -1 on a change of state and 0.5 without |
| OsJwMachine.JwMachine.Enter | os_jw.cpp:1389-1401 | the new state is taken and the UI locked; entering IDLE drops every active and nearest jetway, any other state keeps them |
| OsJwMachine.FindNearest | os_jw.cpp:1227 | the count the state machine tests is the candidate buffer's fill (0 without a door), and the buffer holds distinct jetways |
| OsJwMachine.StartSlot | os_jw.cpp:1277-1288 | slot `i`'s controller starts at `start`; earlier slots keep their start times |
| OsJwMachine.DockSlot | os_jw.cpp:1305-1310 | `dock_drive` reports done exactly when that jetway is docked; the other slots keep their state |
| OsJwMachine.UndockSlot | os_jw.cpp:1363-1367 | `undock_drive` reports done exactly when that jetway is parked; the other slots keep their state |
| OsJwMachine.Slanted | os_jw.cpp:1259-1260 | only door 0's set-up changes, its target rot2 raised by 3 degrees |
| OsJwMachine.SetupSlot | os_jw.cpp:513-544 | the controller takes the set-up for its door and its wheels are set for it |
| OsJwLegacy.XyToSamDr | os_jw.c:240-262 | rotate1, rotate2 and rotate3 are normalised to (-180, 180], and the extent is the distance to the tunnel end less the cabin position |
| OsJwLegacy.XyToSamDrAgrees | os_jw.c:240-262 | rotate1, extent and rotate2 equal those of the newer `xz_to_sam_dr`; only rotate3 is derived differently |
| OsJwLegacy.Tentative | os_jw.c:301-330 | the tentative slot's distance is the length of its door-frame position, and its target tunnel end lies one cabin length ahead of the door |
| OsJwLegacy.TentativeAgrees | os_jw.c:301-330 | the door-frame position and the rotate1 and extent targets equal those of the newer `setup_for_door`; the rotate2 target differs only by the 3 degrees of door 1 |
| OsJwLegacy.EntryOf | os_jw.c:290-318 | a jetway competes for its own door only when it was drawn in this generation, the plane has that door, and it stands on the left without pointing away |
| OsJwLegacy.PickNearest | os_jw.c:284-336 | after the first loop over `k` jetways, each door's slot holds the nearest competing jetway for that door, or is empty when none competes |
| OsJwLegacy.PickStepDoor | os_jw.c:320-335 | one more jetway keeps each door's slot the nearest, since a jetway farther than the slot's is passed over |
| OsJwLegacy.PickPlaced | os_jw.c:284-336 | each slot of the first loop holds a jetway for its own door; the doors the plane lacks stay empty |
| OsJwLegacy.FirstLoopPlaced | os_jw.c:284-336 | after the first loop every slot holds a jetway for its own door |
| OsJwLegacy.Finish | os_jw.c:356-364 | finishing keeps the slot's jetway, tentative values and state, and puts the alignment point 1 m before the door target |
| OsJwLegacy.Settled | os_jw.c:339-354 | the sanity check never changes which jetway a slot holds, nor its tentative values or state |
| OsJwLegacy.ActiveCount | os_jw.c:339-370 | `n_active_jw` never exceeds the number of doors checked |
| OsJwLegacy.ActiveCountIsLastTaken | os_jw.c:369 | `n_active_jw` is one more than the last door whose slot passed, or 0; no door at or after it passed, while doors below it need not have |
| OsJwLegacy.FinishMatches | os_jw.c:356-364 | a slot whose tentative values match the newer set-up is finished with the same parked position, tunnel end and alignment point |
| OsJwLegacy.FinishAgrees | os_jw.c:356-364 | a finished jetway is parked where the newer `setup_for_door` parks it: same parked position, tunnel end and alignment point |
| OsJwLegacy.Armed | os_jw.c:788-794 | a slot set out keeps its jetway and targets, is TO_AP, and times out 50 s after `now` |
| OsJwLegacy.EmptySlotArmed | os_jw.c:788-794 | as written, with door 1 unmatched and door 2 matched `n_active_jw` is 2 and the empty slot 0 sets out |
| OsJwLegacy.ArmTakenArmsTaken | os_jw.c:788-794 | with the corrected arming exactly the slots whose jetway passed the check set out, and each of them holds a jetway |
| OsJwLegacy.WbTargetRange | os_jw.c:375-410 | the wheel base target stays within 90 degrees of the tunnel, turning a drive angle beyond 90 degrees by 180 |
| OsJwLegacy.WbTurnApproaches | os_jw.c:375-410 | the last step lands exactly on the target; a waiting step no larger than the gap brings the wheel base closer by exactly that step |
| OsJwLegacy.RotateWheelBase | os_jw.c:375-410 | the drive waits exactly while more than 2 degrees are left; the base turns one step and the left and right wheels turn by opposite amounts |
| OsJwLegacy.Rotate2 | os_jw.c:449-464 | rotate2 takes one step toward its target, and the step is done exactly when it ends within 0.5 degrees |
| OsJwLegacy.Rot3StepLegacyBounds | os_jw.c:424-445 | a rotate3 step never overshoots, moves at most the step size, and stays put within 0.5 degrees of the target |
| OsJwLegacy.Rotate3 | os_jw.c:424-445 | rotate3 takes one step without snapping, the wheel height follows the new value, and the step is done exactly within 0.5 degrees |
| OsJwLegacy.CycleDisabled | os_jw.c:739-740 | DISABLED keeps every register and polls again after 2 s |
| OsJwLegacy.BeaconFreezes | os_jw.c:744-746 | with the beacon on no register changes in any state, pending requests included, and the machine polls again after 0.5 s |
| OsJwLegacy.DockingOnRequest | os_jw.c:785-796 | DOCKING is entered only from CAN_DOCK, with the beacon off, no teleport, a request or toggle, and at least one active slot |
| OsJwLegacy.CanDockOnFound | os_jw.c:768-783 | CAN_DOCK is entered only from PARKED when the plane has doors and the search found jetways, and `n_active_jw` is the count found |
| OsJwLegacy.NoDoorsCantDock | os_jw.c:269-272 | a plane without doors goes from PARKED to CANT_DOCK and keeps its active count |
| OsJwLegacy.RequestsCleared | os_jw.c:851 | a cycle that gets past the beacon and does not wait on a drive clears all three requests |
| OsJwLegacy.CycleWaitKeeps | os_jw.c:805-843 | a cycle that waits on a drive changes no register and returns the animation interval |
| OsJwLegacy.TeleportAirborneUnreported | os_jw.c:748-752 | a teleport in DOCKED while airborne drops to IDLE and forgets the active jetways, yet returns 0.5 rather than -1 |
| OsJwLegacy.CycleDelays | os_jw.c:736-860 | every cycle returns 2, 0.5 or -1 s; a running drive returns the animation interval, -1 |
| OsJwLegacy.Status | os_jw.c:208-222 | the status is 0 exactly without an active jetway, 1 exactly in CAN_DOCK, 2 exactly in DOCKED, and -1 otherwise |
| OsJwLegacy.LegacyMachine.constructor | os_jw.c:224-237 | IDLE, no active jetway, no request pending, and zeroed slots |
| OsJwLegacy.LegacyMachine.ResetJetways | os_jw.c:224-237 | every jetway's rotate1..3 and extent are back at their initial values, and no jetway is active |
| OsJwLegacy.LegacyMachine.PickLoop | os_jw.c:284-336 | the slots after the first loop are `FirstLoop` of the jetways |
| OsJwLegacy.LegacyMachine.OfferAll | os_jw.c:290-336 | offering every jetway in turn leaves the slots the first loop picks |
| OsJwLegacy.LegacyMachine.Offer | os_jw.c:320-335 | jetway `k` takes its door's slot exactly when it competes and is not farther from the door |
| OsJwLegacy.LegacyMachine.SettleLoop | os_jw.c:339-370 | the slots are those the sanity check leaves, `n_active_jw` is its count, and exactly the held jetways get their wheel height set |
| OsJwLegacy.LegacyMachine.FindDockableJws | os_jw.c:266-373 | without doors 0 and no change; otherwise the slots hold each door's nearest dockable jetway, finished when it passed the check, the passed jetways' wheel heights are set, and the count returned is `n_active_jw` |
| OsJwLegacy.LegacyMachine.ArmSlots | os_jw.c:788-794 | every slot below `n_active_jw` sets out at `now` |
| OsJwLegacy.LegacyMachine.DockDriveGuard | os_jw.c:482-499 | a DOCKED slot is done; a slot past its timeout becomes DOCKED with its jetway at the targets and is done; otherwise nothing changes |
| OsJwLegacy.LegacyMachine.UndockDriveGuard | os_jw.c:618-635 | a PARKED slot is done; a slot past its timeout becomes PARKED with its jetway at its initial pose and is done; otherwise nothing changes |
| OsJwLegacy.LegacyMachine.JwStateMachine | os_jw.c:736-860 | the registers and delay follow `Cycle`, with the search result `find_dockable_jws` gives; a teleport resets every jetway; outside DOCKING and UNDOCKING the slots are `SlotsAfter` |
| OsJwLegacy.LegacyMachine.Proceed | os_jw.c:754-860 | once past the beacon and the teleport check, the registers and delay are those of the arm followed by the tail |
| OsJwLegacy.LegacyMachine.IdleArm | os_jw.c:759-766 | on the ground the parked position and reference generation are recorded and the state becomes PARKED |
| OsJwLegacy.LegacyMachine.Conclude | os_jw.c:851-859 | a wait returns at once; otherwise the requests are cleared and a change of state returns -1, no change 0.5 |
| OsJwLegacy.LegacyMachine.RunArm | os_jw.c:758-849 | the arms beyond IDLE set the registers and new state as `Arm` does, and a drive not yet done makes the cycle wait |
| OsJwLegacy.LegacyMachine.OtherArm | os_jw.c:785-849 | the arms beyond PARKED set the registers and new state as `Arm` does |
| OsJwLegacy.LegacyMachine.ParkedArm | os_jw.c:768-783 | PARKED goes to CAN_DOCK when the plane has doors and the search found some jetway, and to CANT_DOCK otherwise |
| OsJwLegacy.LegacyMachine.RequestArm | os_jw.c:785-796 | on a request every slot below `n_active_jw` sets out, and the state moves on only when some slot is active |
| OsDgs.UtcDigits | os_dgs.cpp:550-555 | the four clock digits recombine to the zulu minutes and hours; for a valid clock each digit is a decimal digit, the tens of minutes at most 5 and the tens of hours at most 2 |
| OsDgs.Brightness | os_dgs.cpp:548-549 | the brightness lies in [0.025, 1], the minimum 0.025 when the scenery lights are fully on (night), 1 at full daylight |
| OsDgs.IcaoCodeInjective | os_dgs.cpp:362-368 | letters and digits get distinct codes: two characters with the same code are the same |
| OsDgs.BlankReadsAsK | os_dgs.cpp:364-367 | a blank, which is not a letter, takes the digit formula and reads 11, the code of 'K' |
| OsDgs.ReadSam1IcaoAcc | os_dgs.cpp:351-371 | no array asks for the size 4; a request outside the 4 characters writes nothing and returns 0; otherwise min(n, 4 - ofs) codes from position ofs are written to the front of the array and their number returned |
| OsDgs.Global2Stand | os_dgs.cpp:207-215 | with the stand's heading at zero the frame change is a plain translation to the stand |
| OsDgs.Global2StandKeepsDistance | os_dgs.cpp:207-215 | with a true sine and cosine pair the frame change keeps every distance to the stand |
| OsDgs.Associate | os_dgs.cpp:230-264 | an accepted object lies in the box around the stand and is aligned or anti-aligned; a refused one changes nothing; a newly associated one records its z, its distance to the centre line and the time |
| OsDgs.AssociateRefusesDominated | os_dgs.cpp:242-243 | with an association, an object more than 2 m behind it or farther off the centre line is refused |
| OsDgs.AssociateFirst | os_dgs.cpp:245-263 | without an association every object in the box is accepted and becomes the association |
| OsDgs.AssociateStable | os_dgs.cpp:242-263 | the associated DGS asking again at any later time is accepted and keeps the association unchanged |
| OsDgs.AssociateKeepsOk | os_dgs.cpp:230-264 | associating keeps the association's values consistent with their reset values |
| OsDgs.BestIsFirstNearest | os_dgs.cpp:387-454 | the chosen stand is eligible and nearer than the start distance, no farther than any eligible stand, and strictly nearer than each eligible stand before it; no stand is chosen exactly when none is nearer than the start distance |
| OsDgs.FindNearest | os_dgs.cpp:373-479 | the loop's choice is the first nearest eligible stand, and a stand frame is refreshed exactly when some stand was stale |
| OsDgs.Blend | os_dgs.cpp:594-597 | the blend factor lies in [0, 1]: 0 with the nose wheel 6 m or nearer, 1 from 26 m on |
| OsDgs.Observe | os_dgs.cpp:578-610 | the nose-wheel azimuth is the arctangent of its offset over the distance plus half the DGS distance ahead of the stop, 0 once past it; the azimuth is 0 within 0.5 m of the centre line or past the stop |
| OsDgs.ObserveNearUsesNoseWheel | os_dgs.cpp:594-599 | within 6 m the reference point is the nose wheel |
| OsDgs.ObserveFarUsesMainWheel | os_dgs.cpp:594-599 | from 26 m on the reference point is the main wheel |
| OsDgs.DisplayAzimuth | os_dgs.cpp:678-680 | the displayed azimuth lies in [-4, 4], is a multiple of 0.5, and is the scaled, clamped azimuth truncated toward zero |
| OsDgs.Steer | os_dgs.cpp:673-676 | the arrow is 2 exactly when the plane must turn left by more than 1.5 degrees, 1 exactly to the right, and 0 otherwise |
| OsDgs.Guide | os_dgs.cpp:655-696 | in TRACK within capture: lead-in only exactly far out or off the azimuth sector; the distance bar exactly from half the remaining distance on, except that a marshaller switches only on a half-wave; the arrow changes only on a half-wave; the loop delay is 0.03 s with the distance bar and 0.2 s otherwise |
| OsDgs.Decide | os_dgs.cpp:624-763 | only BAD and DONE switch the DGS off, and chocks are set only on leaving PARKED |
| OsDgs.DecideFollowsEdges | os_dgs.cpp:624-763 | every cycle either keeps the state or follows one of the documented transitions |
| OsDgs.EngagedTransitions | os_dgs.cpp:625-632 | ENGAGED goes to TRACK exactly when the beacon is on and the plane is within capture, and to DONE exactly when the beacon is off |
| OsDgs.TrackTransitions | os_dgs.cpp:634-653 | TRACK tests in order beacon off (DONE), stop window (GOOD), past the stop (BAD) and out of capture (ENGAGED), and stays otherwise; each outcome exactly under its conditions |
| OsDgs.GoodTransitions | os_dgs.cpp:700-710 | GOOD returns to TRACK exactly when the plane leaves the window, and goes to PARKED exactly when it stays and the parking brake is set or the beacon is off |
| OsDgs.BadTransitions | os_dgs.cpp:712-726 | BAD switches off exactly 5 s after the beacon went off, and otherwise returns to TRACK exactly once the nose wheel is back before the window |
| OsDgs.ParkedTransitions | os_dgs.cpp:728-743 | PARKED stays exactly while the beacon is on; chocks are set exactly when the beacon is off, jetways may connect and the plane has chocks; CHOCKS follows exactly then without a marshaller |
| OsDgs.Timeouts | os_dgs.cpp:745-759 | CHOCKS lasts exactly 5 s; DONE switches off after 3 s, requesting a dock unless the jetways must not connect |
| OsDgs.Digits | os_dgs.cpp:780-785 | the metre and decimetre digits are decimal digits that truncate the distance to one decimal |
| OsDgs.HalfMetres | os_dgs.cpp:787 | the shown distance is a multiple of 0.5 m, truncated toward zero |
| OsDgs.Encode | os_dgs.cpp:772-787 | without guidance distance and azimuth are 0; the distance is clamped to [-0.5, 12], shown in steps of 0.5 m, with its digits only below 10 m |
| OsDgs.DrefsOf | os_dgs.cpp:789-802 | the published array has its fixed size with ident 0, the status, arrow, track and encoded values, and the type characters only in TRACK |
| OsDgs.Sam1Of | os_dgs.cpp:804-837 | the SAM1 values: tracking in ENGAGED, TRACK and BAD; stop zone in GOOD and PARKED below 0.1 m, tracking otherwise; idle in CHOCKS and DONE; off in any other state |
| OsDgs.Search | os_dgs.cpp:560-564 | the search runs only when the last is more than 2 s old; a change of state is only to ENGAGED on a different stand |
| OsDgs.Finish | os_dgs.cpp:765-800 | a published array always has the fixed size |
| OsDgs.Conclude | os_dgs.cpp:571-800 | a published array always has the fixed size |
| OsDgs.Cycle | os_dgs.cpp:557-900 | a published array always has the fixed size |
| OsDgs.SearchPreserves | os_dgs.cpp:560-569 | the search keeps the register invariant once a cycle without a stand has made the DGS ACTIVE |
| OsDgs.ConcludePreserves | os_dgs.cpp:571-900 | a cycle with an engaged stand keeps the register invariant |
| OsDgs.CyclePreserves | os_dgs.cpp:557-900 | every cycle keeps the register invariant |
| OsDgs.CycleIdle | os_dgs.cpp:557-558 | an inactive or disabled DGS changes nothing and comes back after 1 s |
| OsDgs.CycleTransitionDefersPublish | os_dgs.cpp:765-770 | a transition takes effect at once with a fresh timestamp and -1, publishing nothing; displays are rewritten only by a cycle that keeps its state |
| OsDgs.CycleWithoutStand | os_dgs.cpp:566-569 | without an engaged stand the DGS is ACTIVE, publishes nothing and polls every second |
| OsDgs.Dgs.constructor | os_dgs.cpp:481-542 | the initial values after `dgs_init`: INACTIVE, no stand, a zeroed dref array and zeroed SAM1 values, and no dock request |
| OsDgs.Dgs.SetInactive | os_dgs.cpp:144-159 | no stand is engaged and the state is INACTIVE |
| OsDgs.Dgs.SetActive | os_dgs.cpp:162-188 | on the ground the stand is dropped and the state is ACTIVE; in the air nothing changes |
| OsDgs.Dgs.IsDgsActive | os_dgs.cpp:230-264 | without a stand no object is active and nothing changes; otherwise activity and the association follow `Associate`, and a new association clears the marshaller flag |
| OsDgs.Dgs.DgsActiveAcc | os_dgs.cpp:282-311 | an associated DGS reads the published value; an object not associated, or misaligned asking for the ident, reads 0; an aligned object asking for the ident more than 2 s after the association is taken as the marshaller and reads 0 |
| OsDgs.Dgs.ReadSam1Acc | os_dgs.cpp:318-344 | an associated DGS reads the SAM1 values; any other reads idle, lateral off and 0 |
| OsDgs.Dgs.SearchStand | os_dgs.cpp:373-479 | the registers after the throttled search are those `Search` gives |
| OsDgs.Dgs.StateMachine | os_dgs.cpp:544-901 | the clock digits and brightness are set; the registers, the delay and the published array follow `Cycle` |
| OsDgsLegacy.Reset | os_dgs.c:196-203 | a reset drops the association, and the last object's z is left as it was |
| OsDgsLegacy.Associate | os_dgs.c:220-262 | the object accepted last is accepted again at once; any other accepted object lies in the box, is aligned or anti-aligned, and becomes the cached last one; a refused one changes nothing; a new association happens exactly when the object is farther forward than the largest z so far, and records that z and the time |
| OsDgsLegacy.AssociateRefusesBehind | os_dgs.c:238-239 | with an association, an object behind the largest z is refused unless it is the one accepted last |
| OsDgsLegacy.AssociateFirst | os_dgs.c:249-261 | after a reset the first object in the box is accepted and associated, unless it sits on the reset position |
| OsDgsLegacy.AssociateKeepsMax | os_dgs.c:249-253 | the association's largest z never decreases |
| OsDgsLegacy.AssociateKeepsOk | os_dgs.c:220-262 | associating keeps the association's values consistent with their reset values |
| OsDgsLegacy.Decide | os_dgs.c:591-708 | only BAD and DONE switch the DGS off, and the C version never sets chocks |
| OsDgsLegacy.DecideFollowsEdges | os_dgs.c:591-708 | every cycle either keeps the state or follows one of the documented transitions |
| OsDgsLegacy.TrackIgnoresBeacon | os_dgs.c:601-659 | TRACK decides the same whatever the beacon, and goes to GOOD exactly in the stop window |
| OsDgsLegacy.ParkedAndDone | os_dgs.c:688-704 | PARKED goes to DONE exactly on beacon off; DONE switches off after 5 s, issuing the dock command unless jetways must not connect |
| OsDgsLegacy.AgreesWithOsDgs | os_dgs.c:591-708 | in ENGAGED, GOOD and BAD the C version decides as the C++ version does, up to the code of DONE |
| OsDgsLegacy.ShownDistance | os_dgs.c:717-727 | the published distance is 0 without guidance and otherwise the distance clamped to [-0.5, 12], not rounded to half metres |
| OsDgsLegacy.IcaoValue | os_dgs.c:739-745 | each type character is published as its code, the fourth plus 0.98 when it is a letter |
| OsDgsLegacy.DrefsOf | os_dgs.c:729-747 | the 11 published values: ident 0, status, arrow, track, azimuth, distance, brightness, and the type characters only in TRACK |
| OsDgsLegacy.Sam1Of | os_dgs.c:749-780 | the SAM1 values as in the C++ version, except that the stop zone keeps the lateral offset and DONE is the only idle state |
| OsDgsLegacy.Search | os_dgs.c:364-469 | the search runs only when the last is more than 2 s old; a change of state is only to ENGAGED on a different stand |
| OsDgsLegacy.Cycle | os_dgs.c:520-843 | a published array always has its fixed size |
| OsDgsLegacy.CyclePreserves | os_dgs.c:520-843 | every cycle keeps the register invariant |
| OsDgsLegacy.CycleDelays | os_dgs.c:520-715 | an inactive DGS changes nothing and returns 2 s; without a stand it becomes ACTIVE and returns 2 s; a transition takes effect with a fresh timestamp and -1, publishing nothing |
| OsDgsLegacy.DgsLegacy.constructor | os_dgs.c:471-518 | the initial values after `dgs_init`: INACTIVE, no stand, a zeroed dref array and no dock command issued |
| OsDgsLegacy.DgsLegacy.SetInactive | os_dgs.c:141-156 | no stand is engaged and the state is INACTIVE |
| OsDgsLegacy.DgsLegacy.SetActive | os_dgs.c:159-187 | on the ground the stand is dropped and the state is ACTIVE; in the air nothing changes |
| OsDgsLegacy.DgsLegacy.IsDgsActive | os_dgs.c:220-262 | without a stand no object is active and nothing changes; otherwise activity and the association follow the C `Associate`, and a new association clears the marshaller flag |
| OsDgsLegacy.DgsLegacy.ReadDgsAcc | os_dgs.c:270-300 | an associated DGS reads the published value; one not associated, or misaligned asking for the ident, reads 0; an aligned object asking for the ident 2 s after the association is taken as the marshaller |
| OsDgsLegacy.DgsLegacy.ReadSam1Acc | os_dgs.c:307-333 | an associated DGS reads the SAM1 values; any other reads idle, lateral off and 0 |
| OsDgsLegacy.DgsLegacy.StateMachine | os_dgs.c:520-843 | the registers, the delay and the published array follow the C `Cycle` |
| OsAnim.LastT | os_anim.cpp:104-108 | the duration is the last time of the table |
| OsAnim.LastV | os_anim.cpp:119-120 | the value when on is the last value of the table |
| OsAnim.FirstV | os_anim.cpp:117-118 | the value when off is the first value of the table |
| OsAnim.FirstAbove | os_anim.cpp:111-113 | the index found is the first from `from` on whose time lies beyond dt; none is found exactly when no such time exists |
| OsAnim.InterpLoop | os_anim.cpp:111-113 | the interpolation loop returns a value exactly when `Interp` has one, and then that value |
| OsAnim.InterpOnSegment | os_anim.cpp:111-113 | on an increasing table the value read is that of the segment that contains dt |
| OsAnim.InterpAtKnot | os_anim.cpp:111-113 | at a time of the table the table's own value is read |
| OsAnim.InterpAtEnd | os_anim.cpp:111-113 | at the last time of the table the loop runs out without a value |
| OsAnim.InterpBetween | os_anim.cpp:111-113 | where the slopes join the values, the value read lies between the segment's end values |
| OsAnim.Read | os_anim.cpp:99-120 | OFF reads the first value and ON the last; a running transition becomes OFF exactly before its start and ON exactly past its end, and otherwise keeps its state; no value is read only while running |
| OsAnim.ReadAtEndGoesOn | os_anim.cpp:99-121 | a switch-on exactly at its end time returns nothing and stays running, so the walk goes on with the next animation |
| OsAnim.SwitchOffMirrorsSwitchOn | os_anim.cpp:103-104 | switching off runs the table backwards: e seconds into ON_2_OFF reads what T - e seconds into OFF_2_ON reads |
| OsAnim.Toggle | os_anim.cpp:159-192 | OFF and ON_2_OFF switch on, ON and OFF_2_ON switch off; from a state at rest the transition starts now |
| OsAnim.ToggleKeepsPlace | os_anim.cpp:185-189 | reversing a running transition keeps its place in the table, so the value read at that moment does not jump |
| OsAnim.ToggleElapsed | os_anim.cpp:185-189 | a reversed transition has run T minus the time the original had run |
| OsAnim.ToggleTwice | os_anim.cpp:159-192 | toggling twice at the same moment restores the state and the start time |
| OsAnim.CFMod | os_anim.cpp:150 | C `fmodf`: undefined for a zero modulus; otherwise the remainder of the truncated quotient, in [0, m) for a non-negative time |
| OsAnim.AutoDrfAcc | os_anim.cpp:134-157 | the accessor returns `AutoValue`: the table read at the clock, shifted per object when the phase is randomised, modulo the duration |
| OsAnim.AutoFindsSegment | os_anim.cpp:150-156 | on an increasing table of two or more entries the looped time always lies on a segment, so the final `return 0.0` is never reached |
| OsAnim.SamObj.constructor | os_anim.cpp:71-84 | an object keeps the position and heading of its `instance` attributes, and its position cache starts empty |
| OsAnim.SamAnim.constructor | os_anim.cpp:99-120 | an animation keeps its label, title, dataref and object, and starts OFF |
| OsAnim.WalkAnims | os_anim.cpp:67-121 | the walk stops at the first accepted animation that gives a value, and that value is its `Read`; every accepted animation before it gave none; without a stop no accepted animation gave a value |
| OsAnim.WalkScs | os_anim.cpp:66-122 | a stop names an accepted animation of a scenery from the i-th on |
| OsAnim.Refresh | os_anim.cpp:76-84 | a cache from an older frame is replaced by the position in the current frame; a current one is kept |
| OsAnim.MenuLine | os_anim.cpp:205-206 | the menu line is a prefix of label, blank and title, no longer than `snprintf` keeps, and the whole of it when it fits |
| OsAnim.MenuOf | os_anim.cpp:194-211 | one menu line per animation, in order, checked exactly when the animation is ON or switching on |
| OsAnim.AnimWorld.constructor | os_anim.cpp:33-35 | no current scenery, chosen at -100 s, and no menu |
| OsAnim.AnimWorld.MenuCb | os_anim.cpp:159-192 | without a menu scenery nothing changes; otherwise the clock is read, the animation is toggled as `Toggle` says, and its check mark follows the new state |
| OsAnim.AnimWorld.BuildMenu | os_anim.cpp:194-211 | the menu becomes `MenuOf` the scenery |
| OsAnim.AnimWorld.StateMachine | os_anim.cpp:215-235 | a scenery not seen for 180 s is forgotten; the menu is rebuilt for the current scenery, or cleared, whenever it was made for another; the delay is 5 s |
| OsAnim.AnimWorld.Choose | os_anim.cpp:94-97 | an accepted animation's scenery becomes current unless the current one was chosen less than 20 s ago |
| OsAnim.AnimWorld.Near | os_anim.cpp:68-89 | an animation is accepted exactly when it is of the dataref, its object faces the drawn one within 5 degrees and, with the cache refreshed, lies within 2.5 m |
| OsAnim.AnimWorld.ReadAnim | os_anim.cpp:99-120 | a running transition reads the clock; the new state and value are those of `Read` |
| OsAnim.AnimWorld.WalkScenery | os_anim.cpp:67-121 | the walk over one scenery's animations ends as `WalkAnims` says, and only the animation that stopped it may change state |
| OsAnim.AnimWorld.AnimAcc | os_anim.cpp:44-125 | a shift of the reference frame starts a new generation; the sceneries are walked in order, the first animation that gives a value decides the result, and 0 is returned when none does |
| OsAnim.AnimWorld.ShiftFrame | os_anim.cpp:53-62 | the reference is taken over, and the generation counts up exactly when it moved |
| OsAnim.AnimWorld.WalkAll | os_anim.cpp:66-124 | the walk over all sceneries ends as `WalkScs` says; without a stop the result is 0 and no animation changes state |
| MpTgxp.Records | mpplane_tgxp.cpp:221-253 | plane i takes the i-th string of each terminated byte area; the scan reaches no further than the vectors or the shorter area, and ends at the first of them |
| MpTgxp.NewPlane | mpplane_tgxp.cpp:83-129 | the plane is on the ground with the brake set; it is DISABLED without doors exactly when the aircraft code has no generic type or door 1 of that type is unknown; otherwise it is IDLE with its type's doors, placed 1 m back along its heading at the probed ground height |
| MpTgxp.UpdatePlane | mpplane_tgxp.cpp:131-149 | a DISABLED plane ignores the beacon; otherwise the beacon is taken over and a plane stuck in CANT_DOCK for 60 s with the beacon off is retried |
| MpTgxp.UpdateKeepsRest | mpplane_tgxp.cpp:131-149 | an update changes nothing but the state and the beacon |
| MpTgxp.UptoOrigins | mpplane_tgxp.cpp:237-285 | the scan never drops a plane; each key it saw belongs to an airliner that passed the filter, and each plane it created to a parked one |
| MpTgxp.UptoBudget | mpplane_tgxp.cpp:236-281 | the scan creates one plane per unit of spawn budget it spends |
| MpTgxp.UptoSeesAll | mpplane_tgxp.cpp:237-285 | unless the scan broke off it saw every plane that passed the filter; skipping instead of breaking never breaks off |
| MpTgxp.UptoStopped | mpplane_tgxp.cpp:276-277 | once the scan broke off, later planes change nothing |
| MpTgxp.RunSpawnsAtMostTen | mpplane_tgxp.cpp:189-301 | one run creates at most ten planes, each for a plane the feed lists as parked |
| MpTgxp.RunKeepsOnlySeen | mpplane_tgxp.cpp:287-298 | every plane a run keeps passed the filter in this run's feed |
| MpTgxp.FreshPrefix | mpplane_tgxp.cpp:236-281 | with new parked airliners listed first, the first ten are created and the eleventh breaks the scan off |
| MpTgxp.SpawnLimitDropsListedPlane | mpplane_tgxp.cpp:276-298 | as written, when eleven new parked airliners come first, a known plane listed after them is never marked as seen and is deleted although it is still there |
| MpTgxp.SkipKeepsListedPlanes | mpplane_tgxp.cpp:236-298 | skipping the new plane instead of breaking off keeps every known plane that is still listed and passes the filter, and the spawn budget still holds |
| MpTgxp.TgxpAdapter.constructor | mpplane_tgxp.cpp:160-176 | no value vector, no byte area and no plane yet |
| MpTgxp.TgxpAdapter.Reserve | mpplane_tgxp.cpp:194-212 | the vectors grow to max(n + 50, 200) entries when n exceeds them, and the byte areas to s + 512 bytes when s exceeds them; otherwise the sizes stay |
| MpTgxp.TgxpAdapter.VisitOne | mpplane_tgxp.cpp:255-282 | one plane of the loop changes the scan exactly as `Visit` says |
| MpTgxp.TgxpAdapter.Update | mpplane_tgxp.cpp:189-301 | the planes after an update are `Run` of the old planes and the feed's records; the buffers hold the whole feed; the delay is 2 s |
| MpTgxp.TgxpAdapter.ScanFeed | mpplane_tgxp.cpp:237-285 | the loop walks both byte areas string by string beside the vectors and ends in the scan `Upto` describes |
| MpXPilot.NewPlane | mpplane_xpilot.cpp:59-82 | the plane keeps its slot, flight id and type and is on the ground; it is DISABLED without doors exactly when door 1 of its type is unknown, and IDLE with that one door otherwise |
| MpXPilot.UpdatePlane | mpplane_xpilot.cpp:84-109 | an update keeps the slot, flight id, type, state, doors and ground flag |
| MpXPilot.UpdateReports | mpplane_xpilot.cpp:90-104 | the position is the report's; the engines run exactly above throttle 0.1; the beacon is bit 0 of the lights; a move of more than 0.5 m re-anchors the plane and releases the brake; without a move the brake is set exactly when the anchor is more than 10 s old |
| MpXPilot.DisabledIgnoresUpdate | mpplane_xpilot.cpp:87-88 | a DISABLED plane stays exactly as it was |
| MpXPilot.ReplayKeepsState | mpplane_xpilot.cpp:84-109 | updates never enable or disable a plane |
| MpXPilot.AnchorAfterMoves | mpplane_xpilot.cpp:98-101 | with reports in time order, the anchor is at least as recent as every move |
| MpXPilot.ParkbrakeMeansQuiet | mpplane_xpilot.cpp:98-104 | the emulated brake is set only when every move lies more than 10 s before the last report |
| MpXPilot.StillKeepsAnchor | mpplane_xpilot.cpp:98-104 | a plane that never moves keeps its anchor, and its brake is set exactly when the last report is more than 10 s after it |
| MpXPilot.SlotText | mpplane_xpilot.cpp:188-195 | the text of a slot has at most 7 characters, contains no NUL, and is a prefix of the slot's first 7 bytes |
| MpXPilot.FirstSlash | mpplane_xpilot.cpp:197 | in the key of a flight id without '/', the first '/' follows the flight id |
| MpXPilot.KeyParts | mpplane_xpilot.cpp:197 | two keys built from flight ids without '/' are equal only when their flight ids and types are |
| MpXPilot.ListedMembers | mpplane_xpilot.cpp:181-198 | a key is listed exactly when a passing slot among 1 to j carries it |
| MpXPilot.UptoSeen | mpplane_xpilot.cpp:181-209 | after slots 1 to j the scan has seen exactly the keys of the passing slots, holds a plane for each, and has dropped none it had |
| MpXPilot.RunKeepsListed | mpplane_xpilot.cpp:164-226 | a plane stays after an update exactly when a passing slot from 1 on carries its key |
| MpXPilot.RunKeepsTargets | mpplane_xpilot.cpp:164-226 | with the feed's views, a plane stays exactly when some slot from 1 on holds a target on the ground within 2 km whose flight id and type make up its key |
| MpXPilot.UptoNewPlanes | mpplane_xpilot.cpp:204-208 | a plane the scan creates was built for a passing slot with its key, carries that slot's number, flight id and type, and is DISABLED exactly when door 1 of the type is unknown |
| MpXPilot.XPilotAdapter.constructor | mpplane_xpilot.cpp:121-153 | the slot count is the length of the mode S vector, and no plane is known |
| MpXPilot.XPilotAdapter.Update | mpplane_xpilot.cpp:164-226 | the planes after an update are `Run` of the old planes over the slots' views; the delay is 2 s |
| MpXPilot.XPilotAdapter.ScanSlots | mpplane_xpilot.cpp:181-209 | the loop over slots 1 to n - 1 ends in the scan `Upto` describes |
| MpXPilot.XPilotAdapter.VisitSlot | mpplane_xpilot.cpp:183-208 | one slot changes the scan exactly as `Visit` says |
| MpLt.NewPlane | mpadapter_lt.cpp:52-99 | the type is the generic one when the map has it and the model's own code otherwise; the plane is DISABLED without doors exactly when door 1 of that type is unknown; otherwise it is IDLE at the reported position with the probed ground height and up to 3 doors |
| MpLt.RawCodeFallback | mpadapter_lt.cpp:64-72 | a code without a generic entry is looked up as it is, and its own door 1 enables the plane |
| MpLt.UpdatePlane | mpadapter_lt.cpp:101-119 | a DISABLED plane ignores the beacon; otherwise the beacon is taken over and a plane stuck in CANT_DOCK for 60 s with the beacon off is retried |
| MpLt.UpdateKeepsRest | mpadapter_lt.cpp:101-119 | an update changes nothing but the state and the beacon |
| MpLt.UptoOrigins | mpadapter_lt.cpp:148-188 | the scan never drops a plane, and each plane it creates belongs to a parked aircraft that passed the filter |
| MpLt.UptoBudget | mpadapter_lt.cpp:147-184 | the scan creates one plane per unit of spawn budget it spends |
| MpLt.RunSpawnsAtMostTen | mpadapter_lt.cpp:138-204 | one run creates at most ten planes, each for a parked aircraft that passed the filter |
| MpLt.RunKeepsListed | mpadapter_lt.cpp:190-201 | a known plane survives a run exactly when LiveTraffic still lists it, filtered or not, reached or not; no unlisted plane survives |
| MpLt.RunKeepsFiltered | mpadapter_lt.cpp:151-165 | a known plane whose aircraft never passes the filter in this run is left as it was and kept while LiveTraffic lists it |
| MpLt.RunUpdatesFirst | mpadapter_lt.cpp:175-178 | the first aircraft of the map, known and passing the filter, has its plane updated from its beacon |
| MpLt.UptoStopped | mpadapter_lt.cpp:181-182 | once the scan broke off, later aircraft change nothing |
| MpLt.LtAdapter.constructor | mpadapter_lt.cpp:127-130 | no plane is known |
| MpLt.LtAdapter.VisitOne | mpadapter_lt.cpp:149-185 | one aircraft changes the scan exactly as `Visit` says |
| MpLt.LtAdapter.Update | mpadapter_lt.cpp:138-204 | the planes after an update are `Run` of the old planes over LiveTraffic's map; the delay is 3 s |
| MpLt.LtAdapter.ScanMap | mpadapter_lt.cpp:148-188 | the loop over LiveTraffic's map ends in the planes `Upto` describes |
| MpAdapters.DoorKey | mpplane_tgxp.cpp:96-124 | the door key is the ICAO type followed by the door's digit |
| MpAdapters.DoorsOf | mpplane_tgxp.cpp:93-126 | no doors exactly when door 1 is unknown; otherwise 1 to 3 doors, each the map's entry for its key, stopping at the first missing door |
| MpAdapters.DoorThreeNeedsTwo | mpplane_tgxp.cpp:121-126 | door 3 without door 2 is never used: the plane then has one door |
| MpAdapters.RetriedOnlyRetries | mpplane_tgxp.cpp:142-143 | the retry changes only CANT_DOCK, only into PARKED, and exactly when the beacon is off and 60 s have passed |
| MpAdapters.RetriedKeepsDisabled | mpplane_tgxp.cpp:134-143 | retrying never leaves DISABLED nor enters it |
| MpAdapters.Restrict | mpplane_tgxp.cpp:287-298 | the planes kept are exactly those whose key was seen, unchanged |
| MpAdapters.Sweep | mpplane_tgxp.cpp:287-298 | the sweep leaves exactly `Restrict` of the planes to the keys seen |
| MpAdapters.JwLoopDelay | mpadapter.cpp:59-65 | the delay is at most 10 s, no larger than any plane's, and either 10 s or one of the planes' delays |
| ByteAreas.Split | mpplane_tgxp.cpp:243-253 | no strings exactly for an empty area, and none of them contains a NUL |
| ByteAreas.JoinSplit | mpplane_tgxp.cpp:243-253 | splitting a terminated area and joining the pieces gives the area back |
| ByteAreas.SplitJoin | mpplane_tgxp.cpp:243-253 | joining strings without NUL and splitting the area gives the strings back |
| ByteAreas.NextString | mpplane_tgxp.cpp:245-253 | one step of the walk yields string i and moves past it and its NUL |

## Left out

- JwCtrls.FilterCandidates: `setup_for_door` also calls `set_wheels` on every jetway it examines (jwctrl.cpp:107); the model's filter is pure, so that write of the wheel height is not captured.
- OsJw.FilterCandidates: the same `set_wheels` side effect of os_jw.cpp's `setup_for_door` (os_jw.cpp:543) is not captured.
- OsJw.FindNearestJws: when the buffer overflowed, the ensures say the result holds at most NEAR_JW_LIMIT of the filtered candidates, in order, but not that they are the nearest by z.
- OsJwMachine.JwMachine.SelectArm: manual selection through the jetway UI (os_ui.cpp) is not modelled; in manual mode the arm activates no jetway and only unlocks the UI.
- Seasons.SeasonControl.SetMenu: requires `0 <= season <= 3`, as does `SeasonsLegacy.LegacySeasonControl.SetMenu`; in the source a season outside 0..3 loaded from the preference file makes `set_menu` index past the four-element `season_item`, which the model records as a finding and avoids with the checked load.
- MyPlanes.ScanAcf: `fgets` into a 200-byte buffer splits a line longer than 199 characters into several reads (myplane.cpp:284-288); the model reads whole lines, so a long line is not split into pieces that could each match.
- PlaneLegacy.ScanLivery: `fgets` with 149 usable bytes splits a longer livery line (plane.cpp:214-216), and `LegacyPlane.LoadFixedWing` reads the .acf file with a 200-byte buffer (plane.cpp:148-152); the model reads whole lines.
- SamJws: the stand `find_stand` picks, the value of `rand()` (0..99), the terrain probe and the plane's distance are parameters.
- SamXml: the XML tokenizer (expat), `parse_apt_dat`, file access and `atoi`/`atof` are not modelled; an element is an input of name and attributes and numbers are parsed by parameter functions.
- SamXmlLegacy: `fgets` splits a line longer than 498 characters into several reads; the model reads whole lines.
- LTAPI: the dataref byte transfers (`DoBulkFetch`, the `LTDataRef` reads) and `timegm` are not modelled; the fetched keys and the raw integers are parameters.
- OsJwLegacy: the motion steps of `dock_drive` and `undock_drive` in os_jw.c are not modelled as geometry; the number of jetways that finished a drive in a cycle is a parameter.
- Trigonometry (`sinf`, `cosf`, `tanf`, `atan2`, `asin`), `powf`, `sqrtf` and terrain probes are parameters of the models that use them; their results are inputs.
- OsJw: os_jw.h defines NEAR_JW_LIMIT as 2 while os_jw_impl.h, which os_jw.cpp includes, defines it as 3; the model uses 3.
- MyPlanes: the plane's elevation and the `pax_no` field of the jetway status are not modelled; no modelled operation reads them.
- MpAdapters.Sweep: the TGXP and xPilot sweeps erase from the map they are range-iterating, which is undefined behaviour in C++; the model erases every unseen plane, as evidently intended.
- `MpAdapter_factory` (mpadapter.cpp:43-57) and the plugin probes it calls are not modelled: they ask the simulator which multiplayer plugins are loaded.
- OsDgs: the marshaller and stairs object instances, the airport lookup (`XPLMFindNavAid`) and the stand names are not modelled; the stand search takes the candidate stands and their transformed positions as inputs.
- OsDgsLegacy: the same simulator queries as in `OsDgs` are inputs.
- Floating point values are `real`s: rounding, `fmodf` and IEEE-754 corner cases (NaN, infinities) are not modelled; C truncation is written out where the source converts to `int`.
- Logging, sound playback (os_sound.c, os_sound_xp11.c, jwctrl_sound.cpp, jwctrl_sound_xp11.cpp), the widget UI (os_ui.cpp), menus as X-Plane objects, and dataref and command registration are not part of this model.
- sam_xml_test.cpp and sam_xml_test.c are print-only drivers and are not part of this model.
- File system access is a parameter: files are sequences of lines or bytes, or a set of existing paths (`shutil.copy` and printing in the tools are not modelled).

## Findings

| source | as written | input that shows it | evidently intended | confidence | as-written member | corrected member |
|---|---|---|---|---|---|---|
| LTAPI.cpp:89-113 | `hexStr` pads only to minChars - 1 characters | n = 0xABCD, minChars = 6 gives "0ABCD" | padding to minChars characters, "00ABCD", as `"%06X"` at LTAPI.cpp:589 prints | not executed | LTAPI.HexStrOneShort | LTAPI.HexStrFixedMeaning |
| openSAM.cpp:136-137 | the southern hemisphere is stored as the negated season | southern winter, season 0, is stored as 0 and reads back as northern | every hemisphere and season reads back | not executed | Seasons.SeasonRoundTrip | Seasons.SeasonRoundTripFixed |
| os_jw.cpp:1267-1293 | in CAN_DOCK the beacon test sets IDLE without `break` | beacon on and a dock request in the same cycle: the machine goes to DOCKING | a plane with its beacon on never starts docking | not executed | OsJwMachine.CanDockBeaconOverridden | OsJwMachine.FixedBeaconWins |
| jwctrl.cpp:111-136 | `operator<` returns true when all keys compare equal | any jetway compared with itself | a strict weak ordering, as `std::sort` requires | not executed | JwCtrls.LessReflexive | JwCtrls.LessFixedStrict |
| jwctrl.cpp:574-581 | the undock time-out resets the jetway but keeps its lock | an undock that runs past the 50 s time-out | the time-out unlocks the jetway as reaching the park position does | not executed | JwCtrls.JwCtrl.UndockTimeout | JwCtrls.JwCtrl.UndockTimeoutFixed |
| read_wav.cpp:114-115 | a skipped chunk is skipped by its size without the RIFF pad byte | a "LIST" chunk of odd size before the "data" chunk | odd-sized chunks are followed by a pad byte that is skipped | not executed | ReadWav.OddChunkHidesData | ReadWav.ReadWavRoundTrip |
| sam_xml.cpp:249-254 | the slope of a new entry reads `v[n-1]` and `t[n-1]`, also for n = 0 | the first value of any animation table | the first entry has slope 0 | not executed | SamXml.FirstSlopeReadsOutside | SamXml.AddEntryFixed |
| tools/gen_height_variants.py:134-138 | the pole `_180` objects are generated without `turn_180` | the pole height 2.5 m: `Safedock-T2-24_2.5m_pole_180.obj` has no rotation | every `_180` object is rotated | not executed | HeightVariants.PoleTurnedNotRotated | HeightVariants.TurnedMatchesName |
| os_jw.c:788-794 | `n_active_jw` is the last accepted door + 1, so earlier rejected slots are counted | door 1 unmatched, door 2 matched: slot 0 sets out without a jetway | only slots holding a jetway set out | not executed | OsJwLegacy.EmptySlotArmed | OsJwLegacy.ArmTakenArmsTaken |
| mpplane_tgxp.cpp:276-277 | reaching the spawn limit `break`s out of the scan | eleven new parked airliners listed before a known plane | the known plane is still marked as seen and kept | not executed | MpTgxp.SpawnLimitDropsListedPlane | MpTgxp.SkipKeepsListedPlanes |
| openSAM.cpp:155-166 | the season is taken from the preference file without a range check | a file holding `0,7,1`: `set_menu` at start indexes `season_item[7]` | a loaded season outside 0..3 falls back to the default | not executed | Seasons.LoadedSeasonOutOfRange | Seasons.LoadedPrefsChecked |
| openSAM.c:91-114 | the season is taken from the preference file without a range check | a file holding `0,7`: `set_menu` at start indexes `season_item[7]` | a loaded season outside 0..3 falls back to winter as on a short read | not executed | SeasonsLegacy.LoadedSeasonOutOfRange | SeasonsLegacy.LoadedPrefsChecked |
