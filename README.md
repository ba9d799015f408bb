# A Dafny model of the TSC / SMC platformer engine

This project models the deterministic core of the C++ engine of *The Secret
Chronicles of Dr. M.* (TSC, under `tsc/src`) and of its older form, *Secret
Maryo Chronicles* (SMC, under `smc/src`). It leaves out everything that
draws, plays sound, runs scripts or threads, or reads and writes files. Each
source file of the core becomes one Dafny module in one file, named after
it, e.g. `property_helper.dfy` for `tsc/src/core/property_helper.cpp`. The
files cover ten areas:

- **String and enum codecs** (`PropertyHelper`): replace-all, trim, booleans,
  version numbers, `<br/>` unescaping, and the direction, massivity, colour,
  ground and difficulty name/id tables. Each table has its round trip.
- **The sprite list and its UID pool** (`SpriteManager`): a class over the
  sprite sequence, the free-UID set and the high-water mark. The pool
  invariant is kept by `Add`, `Generate_UID` and `Allocate_UIDs`;
  `Move_To_Front` and `Move_To_Back` are proved to be permutations.
- **Packages and resource lookup**: `Packages`, `PackageManager` and
  `SmcPackageManager` cover package-info merging, the cycle-safe dependency
  walk that builds the search path, first-hit lookup, and the probe order
  for levels, savegames and menu levels. `Paths` holds the path helpers
  they use.
- **Image data**:
  - `ImgSet`: image-set animation and its line parser;
  - `ImgSettings`: the `.settings` parser with base-settings merging;
  - `Video`: the integer box-filter downscaler, proved equal to a
    per-pixel mean, and the guards of the video helpers.
- **XML loaders as property-map transformers**: `PreferencesLoading`,
  `SavegameLoading`, `LevelLoading` and `OverworldLoading`, with the SMC
  level reader in `SmcLevel`.
  - The SAX input is a sequence of events, and a `<property>` is collected
    last-wins (`XmlAttributes`).
  - The legacy version migrations are functions on attribute maps.
  - The records the loaders fill are `UserPreferences`, `SaveData`,
    `Savegame`, `SavegameTsc`, `TscLevel`, `LevelBackground`, `Overworld`
    and the two waypoint modules.
- **Level containers**: `TscLevel` covers the depth-sorted actor insertion
  and collision de-duplication; `SmcLevelManager` covers the probe order,
  loading and unloading.
- **Object and enemy state machines**: actors, boxes, bonus boxes, level
  exits, moving platforms, balls, power-ups, the common enemy, the turtle
  boss, the army, the furball, the krush, the pip, the larry, the thromp,
  the rokko and the gee. Each is a class whose methods update its fields
  as the source does.
- **HUD counters** (`Hud`): gold-to-life rollover, points with a
  multiplier, the minutes:seconds timer, the debug-text countdown and the
  item box.
- **Menus** (`Menu`, `MenuData`): the selection arithmetic of the menu
  handler, list boxes, tab controls, the start-menu search buffer, the
  savegame menu and the colour-depth toggle.
- **Editors and the game loop**: `Editor` and `LevelEditor` cover tag
  matching and menu dispatch; `GameCore` covers the game-event queue and
  the property list of an XML node.

How the model stands in for what it leaves out:

- **Outside services.** The filesystem, the renderer, the resource manager
  and `rand()` are parameters. Files that exist are a set or a predicate,
  and a random number is an argument.
- **Float text.** `string_to_float` and `float_to_string` are function
  parameters (`FloatText`).
- **Floats.** A C++ `float` is a Dafny `real`.
- **Integer widths.** Where the source narrows an integer (a `uint8_t`
  button code, an `unsigned int` count, a 32-bit tick counter), the model does
  the wrap-around explicitly.
- **Known defects.** Where the source is defective, the operation members
  follow the source as written. The evidently intended definition is stated
  beside it and proved, and "## Findings" lists both halves.

## Model

| member | source | states |
|---|---|---|
| PropertyHelper.ReplaceAllAbsent | tsc/src/core/property_helper.cpp:24-32 | a string without an occurrence of the search text is returned unchanged |
| PropertyHelper.StringReplaceAll | tsc/src/core/property_helper.cpp:24-32 | the in-place loop yields `ReplaceAll`: every non-overlapping occurrence, left to right, replaced, with scanning resumed after the inserted text |
| PropertyHelper.FindSomeStep | tsc/src/core/property_helper.cpp:27-31 | one loop step: replacing the first occurrence at or after the cursor and moving past the inserted text preserves the final result |
| PropertyHelper.FindNoneStep | tsc/src/core/property_helper.cpp:27 | when no occurrence is left after the cursor, the rest of the string is already final |
| PropertyHelper.ReplaceAtOccurrence | tsc/src/core/property_helper.cpp:28-30 | an occurrence at the scan position is replaced by the format text and the scan resumes after the search text, so the replacement is never rescanned |
| PropertyHelper.XmlStringToString | tsc/src/core/property_helper.cpp:346-359 | every "<br/>" becomes a newline, and the result contains no "<br/>" |
| PropertyHelper.TrimFromEnd | tsc/src/core/property_helper.cpp:44-56 | the result is the longest prefix not ending in the character: only that character is removed, from the end |
| PropertyHelper.BoolStringRoundTrip | tsc/src/core/property_helper.cpp:86-89 | `string_to_bool(bool_to_string(b)) == b` |
| PropertyHelper.LeadingDigits | tsc/src/core/property_helper.cpp:242-246 | the stream extraction reads the maximal run of leading digits |
| PropertyHelper.ParseIntIn | tsc/src/core/property_helper.cpp:242-246 | a failed extraction gives 0, an out-of-range one the nearer bound of the target type, so every result lies in the target type's range |
| PropertyHelper.StringToInt | tsc/src/core/property_helper.cpp:248-254 | `string_to_int` always returns a value in the `int` range |
| PropertyHelper.StringToInt64 | tsc/src/core/property_helper.cpp:264-270 | `string_to_int64` reads a `uint64_t`: its value always lies in [0, 2^64) |
| PropertyHelper.StringToLong | tsc/src/core/property_helper.cpp:272-278 | `string_to_long` always returns a value in the 64-bit `long` range |
| PropertyHelper.ToInt64 | tsc/src/overworld/overworld.hpp:194 | storing a `uint64_t` into a `time_t` gives the one value of the signed 64-bit range congruent to it modulo 2^64 |
| PropertyHelper.StringToTime | tsc/src/overworld/overworld_loader.cpp:132 | a save time read with `string_to_int64` into a `time_t` lies in the signed 64-bit range |
| PropertyHelper.StringToTimeOfInt | tsc/src/user/savegame.hpp:148 | every `time_t` written as decimal text reads back as itself, a negative one wrapping on reading and again on storing |
| PropertyHelper.StringToInt64OfNat | tsc/src/core/property_helper.cpp:264-270 | every `uint64_t` written as decimal text reads back as itself |
| PropertyHelper.StringToTimeWraps | tsc/src/core/property_helper.cpp:264-270 | text past the signed range wraps when stored into a `time_t`: 2^63 reads as -2^63, -2^63-1 as 2^63-1, and "-1" is read as 2^64-1 before storing |
| PropertyHelper.IntToString | tsc/src/core/property_helper.cpp:58-63 | the decimal text is non-empty, digits only for non-negative numbers and led by a minus sign otherwise |
| PropertyHelper.StringToIntOfInt | tsc/src/core/property_helper.cpp:58-63 | `string_to_int(int_to_string(i)) == i` for every `int` |
| PropertyHelper.StringToIntOfNat | tsc/src/core/property_helper.cpp:248-254 | reading back the decimal text of a non-negative `int` gives the number |
| PropertyHelper.ToUInt | tsc/src/core/property_helper.cpp:343 | the conversion to `unsigned int` lands in [0, 2^32) and keeps values already in range |
| PropertyHelper.StringToVersionNumber | tsc/src/core/property_helper.cpp:304-344 | the version number is an `unsigned int` |
| PropertyHelper.VersionNumberSplit | tsc/src/core/property_helper.cpp:310-318 | "A.rest" contributes A*10000 plus the minor and patch value of the rest |
| PropertyHelper.MinorAndPatchOfParts | tsc/src/core/property_helper.cpp:320-340 | "B.C" contributes B*100 plus C (0 when C is empty) |
| PropertyHelper.VersionValueOfParts | tsc/src/core/property_helper.cpp:304-344 | "A.B.C" has the value A*10000 + B*100 + C |
| PropertyHelper.VersionNumberOfValue | tsc/src/core/property_helper.cpp:317-343 | the returned number is the computed value reduced to `unsigned int` |
| PropertyHelper.VersionNumberOfTwoParts | tsc/src/core/property_helper.cpp:304-344 | "A.B" gives A*10000 + B*100, reduced to `unsigned int` |
| PropertyHelper.VersionNumberOfThreeParts | tsc/src/core/property_helper.cpp:304-344 | "X.Y.Z" round-trips with `TSC_VERSION_NUM(X, Y, Z)` |
| PropertyHelper.VersionNumberOfShortForms | tsc/src/core/property_helper.cpp:304-344 | "X.Y" gives X*10000+Y*100, "X" gives X*10000 and "" gives 0 |
| PropertyHelper.OppositeDirectionInvolution | tsc/src/core/property_helper.cpp:461-481 | the opposite direction is an involution without fixed points on left/right/up/down/horizontal/vertical, and every other direction maps to DIR_UNDEFINED |
| PropertyHelper.DirectionId | tsc/src/core/property_helper.cpp:529-587 | a direction name maps back to a direction with that name; an unknown string gives DIR_UNDEFINED |
| PropertyHelper.DirectionNameRoundTrip | tsc/src/core/property_helper.cpp:483-587 | `Get_Direction_Id(Get_Direction_Name(d)) == d` |
| PropertyHelper.MassiveTypeId | tsc/src/core/property_helper.cpp:646-665 | a massivity name maps back to a type with that name; an unknown string gives MASS_PASSIVE |
| PropertyHelper.MassiveTypeNameRoundTrip | tsc/src/core/property_helper.cpp:626-665 | `Get_Massive_Type_Id(Get_Massive_Type_Name(m)) == m` |
| PropertyHelper.GroundTypeId | tsc/src/core/property_helper.cpp:709-731 | a ground-type name maps back to a type with that name; an unknown string gives GROUND_NORMAL |
| PropertyHelper.GroundTypeNameRoundTrip | tsc/src/core/property_helper.cpp:687-731 | `Get_Ground_Type_Id(Get_Ground_Type_Name(g)) == g` |
| PropertyHelper.LevelLandTypeId | tsc/src/core/property_helper.cpp:775-827 | a land-type name maps back to a type with that name; an unknown string gives LLT_UNDEFINED |
| PropertyHelper.LevelLandTypeNameRoundTrip | tsc/src/core/property_helper.cpp:733-827 | `Get_Level_Land_Type_Id(Get_Level_Land_Type_Name(t)) == t` |
| PropertyHelper.ColorId | tsc/src/core/property_helper.cpp:861-895 | a colour name maps back to a colour with that name; an unknown string gives COL_DEFAULT |
| PropertyHelper.ColorNameRoundTrip | tsc/src/core/property_helper.cpp:829-895 | `Get_Color_Id(Get_Color_Name(c)) == c` |
| PropertyHelper.DifficultyBand | tsc/src/core/property_helper.cpp:897-934 | every difficulty falls into one of the named bands |
| PropertyHelper.DifficultyBanding | tsc/src/core/property_helper.cpp:897-934 | the banding is monotone: 0 is "Undefined", 1-9 "Easy-Peasy", 90-94 "Nightmare" and 95 and above "Ultimate", each in both directions |
| SpriteManager.Insert | tsc/src/core/sprite_manager.cpp:476-477 | inserting into the sorted UID pool keeps it strictly increasing and adds exactly the new UID |
| SpriteManager.Erase | tsc/src/core/sprite_manager.cpp:90-91 | erasing a UID from the pool keeps it increasing and removes exactly that UID |
| SpriteManager.AppendRange | tsc/src/core/sprite_manager.cpp:475-477 | the allocation loop adds exactly the UIDs in [old mark, new mark) to the pool and keeps it sorted |
| SpriteManager.FirstDestroyed | tsc/src/core/sprite_manager.cpp:72-96 | the slot chosen for reuse is the first sprite marked for auto-destroy, and no earlier one is |
| SpriteManager.SpriteManager.constructor | tsc/src/core/sprite_manager.cpp:28-36 | a new manager has no sprites, an empty pool and mark 1 (UID 0 stays reserved), and satisfies the pool invariant |
| SpriteManager.SpriteManager.AllocateUids | tsc/src/core/sprite_manager.cpp:463-482 | the mark never shrinks, marks at or above INT_MAX are refused, and the pool gains exactly [old mark, new mark) |
| SpriteManager.SpriteManager.GenerateUid | tsc/src/core/sprite_manager.cpp:450-460 | returns the smallest free UID (topping an empty pool up by 10), which was free before and is in use after |
| SpriteManager.SpriteManager.Add | tsc/src/core/sprite_manager.cpp:43-99 | a null sprite is ignored; a UID at or below 0 gets a fresh UID, a preset UID raises the mark past it and leaves the pool; the first auto-destroyed slot is overwritten and its UID returned to the pool, otherwise the sprite is appended |
| SpriteManager.SpriteManager.ClaimUid | tsc/src/core/sprite_manager.cpp:57-76 | the UID step of `Add`: a preset UID is kept and taken out of the pool, otherwise the smallest pooled UID is taken |
| SpriteManager.SpriteManager.Store | tsc/src/core/sprite_manager.cpp:78-98 | the placement step of `Add`: overwrite the first auto-destroyed sprite and return its UID to the pool, else append |
| SpriteManager.SpriteManager.GetByUid | tsc/src/core/sprite_manager.cpp:317-324 | returns the first sprite in list order that carries the UID, and none exactly when no sprite does |
| SpriteManager.SpriteManager.MoveToFront | tsc/src/core/sprite_manager.cpp:151-180 | the list becomes `MovedToFront` of the old list, and the pool invariant is kept |
| SpriteManager.SpriteManager.MoveToBack | tsc/src/core/sprite_manager.cpp:182-211 | the list becomes `MovedToBack` of the old list, and the pool invariant is kept |
| SpriteManager.SpriteManager.Find | tsc/src/core/sprite_manager.cpp:160-161 | the `std::find` loop returns the index of the first occurrence of the sprite |
| SpriteManager.SpriteManager.DeleteAll | tsc/src/core/sprite_manager.cpp:213-249 | the pool is emptied; delayed deletion marks every sprite for auto-destroy and keeps the list, instant deletion empties the list |
| SpriteManager.PermutationKeepsUids | tsc/src/core/sprite_manager.cpp:151-211 | reordering the sprite list keeps every sprite's UID allocated |
| SpriteManager.MovesArePermutations | tsc/src/core/sprite_manager.cpp:151-211 | moving to the front or back permutes the list, and the moved sprite ends up first or last |
| Editor.TagSearchStep | tsc/src/core/editor/editor.cpp:1448-1471 | one call of the tag search answers true only for a whole ';'-delimited token, false only when no occurrence is left, and otherwise resumes behind the rejected occurrence |
| Editor.IsTagAvailable | tsc/src/core/editor/editor.cpp:1448-1471 | a true answer means the tag occurs as a whole ';'-delimited token at or after the search position |
| Editor.IsTagAvailableComplete | tsc/src/core/editor/editor.cpp:1467-1470 | for a non-empty tag without ';', resuming behind a rejected occurrence never skips a whole token, so an existing token is found |
| Editor.SearchStepBeforeToken | tsc/src/core/editor/editor.cpp:1448-1471 | one call of the search before a whole token of a tag without ';' either answers true or resumes at a position no later than that token |
| Editor.TagAvailableIffToken | tsc/src/core/editor/editor.cpp:1448-1471 | `Is_Tag_Available(str, tag)` is true exactly when the tag occurs in `str` as a whole token (both directions) |
| Editor.EmptyTagSearchRepeats | tsc/src/core/editor/editor.cpp:1450-1470 | with an empty tag, a search that does not answer calls itself with its own arguments |
| Editor.DoubleSeparatorLoops | tsc/src/core/editor/editor.cpp:995-1037 | item tags "a;;b" split into "a", "" and "b"; against an item tagged "a" the first token matches and the search for the empty one repeats itself |
| Editor.TokenAvailableIffToken | tsc/src/core/editor/editor.cpp:1014-1037 | the corrected reading of one token: an empty token constrains nothing, any other is available exactly when it occurs as a whole token |
| Editor.Tokens | tsc/src/core/editor/editor.cpp:994-1009 | a non-empty tag string yields at least one token, an empty one none |
| Editor.TokensHaveNoSeparator | tsc/src/core/editor/editor.cpp:994-1009 | no token holds a ';' |
| Editor.TokensJoin | tsc/src/core/editor/editor.cpp:994-1009 | joining the tokens with ';' gives back the tag string, less one trailing ';' (the split drops no text and adds no trailing empty token) |
| Editor.SplitTags | tsc/src/core/editor/editor.cpp:994-1009 | the splitting loop produces exactly `Tokens` of the tag string, in order |
| Editor.TokensStep | tsc/src/core/editor/editor.cpp:995-1008 | one cut of the loop: the text before the first ';' is the next token, or the whole rest when no ';' is left |
| Editor.MatchesAllTags | tsc/src/core/editor/editor.cpp:1018-1037 | the inner search lists a candidate exactly when every token is available in its editor tags |
| Editor.ListItems | tsc/src/core/editor/editor.cpp:1014-1063 | a candidate's index is listed exactly when it carries every token (and, for images, its surface loads) |
| Editor.LoadItemMenu | tsc/src/core/editor/editor.cpp:983-1066 | an empty tag string is rejected; otherwise exactly the loadable images, then the objects, carrying every token are listed |
| Editor.ParseMenuObject | tsc/src/core/editor/editor.cpp:912-953 | the entry is a function exactly when the tags start with "function:", and the stored tags are never longer than the input |
| Editor.MenuObjectRoundTrip | tsc/src/core/editor/editor.cpp:912-953 | putting back the stripped "function:" and "header" prefixes gives the original tags, so only those prefixes are removed |
| Editor.ActivateMenuItem | tsc/src/core/editor/editor.cpp:955-981 | a function entry exits only for "exit", a header does nothing, and any other entry shows the item menu for its tags exactly when they are non-empty |
| Editor.EditorState.constructor | tsc/src/core/editor/editor.cpp:192-203 | a new editor is disabled |
| Editor.EditorState.Enable | tsc/src/core/editor/editor.cpp:298-326 | afterwards the editor is enabled (a no-op when it already was) |
| Editor.EditorState.Disable | tsc/src/core/editor/editor.cpp:328-357 | afterwards the editor is disabled (a no-op when it already was) |
| Editor.EditorState.Toggle | tsc/src/core/editor/editor.cpp:286-296 | toggling flips the enabled state |
| LevelEditor.NextMassiveType | tsc/src/level/level_editor.cpp:240-268 | one switch always changes the massivity |
| LevelEditor.FiveSwitchesRestore | tsc/src/level/level_editor.cpp:240-268 | the cycle front_passive, massive, halfmassive, climbable, passive has length exactly five: five switches are the identity and fewer never are |
| LevelEditor.SwitchObjectState | tsc/src/level/level_editor.cpp:240-268 | a null or lava-array object is refused and unchanged; any other object moves to the next massivity in the cycle |
| LevelEditor.LevelEditorState.Enable | tsc/src/level/level_editor.cpp:67-102 | enabling sets `editor_level_enabled` (and `editor_enabled` in level mode) and is a no-op when already enabled |
| LevelEditor.LevelEditorState.Disable | tsc/src/level/level_editor.cpp:104-121 | disabling clears `editor_level_enabled` (and `editor_enabled` in level mode) and is a no-op when already disabled |
| LevelEditor.LevelEditorState.KeyDownM | tsc/src/level/level_editor.cpp:157-177 | the `m` key switches the first selected object and then gives every other selected object its new massivity; nothing changes when it is refused |
| LevelEditor.LevelActivateMenuItem | tsc/src/level/level_editor.cpp:204-238 | the seven level functions are handled by the level editor, every other entry by the base editor |
| LevelEditor.LevelMenuExit | tsc/src/level/level_editor.cpp:204-238 | for the level editor, "exit" is the only function that reaches the base editor's exit |
| Packages.LoadPackageInfo | tsc/src/core/filesystem/package_manager.cpp:439-509 | a missing or nameless package changes nothing; otherwise exactly its name is added or updated, every other package is kept, and each package stays filed under its own name |
| Packages.Merge | tsc/src/core/filesystem/package_manager.cpp:483-508 | merging a copy keeps the package's name and appends the copy's dependencies after the known ones |
| Packages.LoadAll | tsc/src/core/filesystem/package_manager.cpp:420-437 | the loads of a package scan only ever add packages |
| Packages.UserThenGameMerge | tsc/src/core/filesystem/package_manager.cpp:493-508 | for a user copy followed by a game copy: `hidden` is the AND of both, the description and menu level are the user's unless empty, and the dependencies are the user's followed by the game's |
| Packages.GameOnlyPackageNeverHidden | tsc/src/core/filesystem/package_manager.cpp:494-498 | a package found only in the game directory is never hidden, because `hidden` starts false and a game copy can only AND into it |
| Packages.DuplicateCopyIgnored | tsc/src/core/filesystem/package_manager.cpp:466-476 | a second user (resp. game) copy of a known package is rejected and changes nothing |
| Packages.SearchWalk | tsc/src/core/filesystem/package_manager.cpp:559-577 | the walk only appends to the list of processed packages |
| Packages.SearchWalkAll | tsc/src/core/filesystem/package_manager.cpp:570-576 | the dependency loop only appends to the list of processed packages |
| Packages.SearchWalkGood | tsc/src/core/filesystem/package_manager.cpp:559-577 | the walk visits each package at most once (the processed list stays free of duplicates), which makes it end on dependency cycles, and appends two directories per visited package |
| Packages.SearchWalkAllGood | tsc/src/core/filesystem/package_manager.cpp:570-576 | the same for the walk over a dependency list |
| Packages.WalkStartsWithPackage | tsc/src/core/filesystem/package_manager.cpp:563-569 | a visit to an unprocessed known package starts by recording it and appending its user directory, then its game directory |
| Packages.WalkSkips | tsc/src/core/filesystem/package_manager.cpp:561-562 | a processed or unknown package adds nothing to the search path |
| Packages.SearchWalkUnfold | tsc/src/core/filesystem/package_manager.cpp:563-576 | a visit is the package's two directories followed by the walk over its dependencies in order |
| Packages.EntryCandidates | tsc/src/core/filesystem/package_manager.cpp:584-596 | per search-path entry the candidates are the plain path, then one per extra extension |
| Packages.FirstExisting | tsc/src/core/filesystem/package_manager.cpp:579-599 | the result is the first existing candidate in order, and none exactly when no candidate exists |
| Packages.FirstExistingAppend | tsc/src/core/filesystem/package_manager.cpp:584-596 | a hit in an earlier group of candidates wins over any later group |
| Packages.ProbeEntry | smc/src/core/filesystem/package_manager.cpp:541-555 | probing one entry finds its first existing candidate, or reports its last candidate when none exists |
| Packages.MenuLevelPath | smc/src/core/filesystem/package_manager.cpp:228-280 | the chain of existence tests returns the first existing probe in the order preference level (four directories), package level (two), default in the user directory, and otherwise the default in the game directory |
| PackageManager.InsertByName | tsc/src/core/filesystem/package_manager.cpp:138-148 | inserting a package with a new name keeps the list sorted by name and adds exactly that package |
| PackageManager.PackageManager.constructor | tsc/src/core/filesystem/package_manager.cpp:119-127 | the packages are the scan's loads (user directory first, then game directory) folded by `Load_Package_Info`, with no current package and an empty search path |
| PackageManager.PackageManager.LoadPackage | tsc/src/core/filesystem/package_manager.cpp:439-509 | the package map becomes `LoadPackageInfo` of the old map and the load |
| PackageManager.PackageManager.MergeCopy | tsc/src/core/filesystem/package_manager.cpp:483-508 | the step-by-step field updates compute `Merge` |
| PackageManager.PackageManager.GetPackages | tsc/src/core/filesystem/package_manager.cpp:133-148 | every known package appears exactly once and the list is sorted by name |
| PackageManager.PackageManager.GetPackage | tsc/src/core/filesystem/package_manager.cpp:150-157 | a known name gives its record, an unknown name the empty record |
| PackageManager.PackageManager.SetCurrentPackage | tsc/src/core/filesystem/package_manager.cpp:159-168 | an unknown name gives the empty current package; the search path is rebuilt |
| PackageManager.PackageManager.BuildSearchPath | tsc/src/core/filesystem/package_manager.cpp:534-557 | the search path is the skin's walk, then the current package's walk, then the global user and game directories, with the package start at the end of the skin entries |
| PackageManager.PackageManager.BuildSearchPathHelper | tsc/src/core/filesystem/package_manager.cpp:559-577 | the recursive helper appends exactly the walk from the package and returns the walk's processed list |
| PackageManager.PackageManager.WalkDependencies | tsc/src/core/filesystem/package_manager.cpp:570-576 | the dependency loop appends exactly the walk over the dependencies in order |
| PackageManager.PackageManager.FindReadingPath | tsc/src/core/filesystem/package_manager.cpp:579-599 | returns the first existing candidate in search-path order, trying the extra extensions per entry, or the empty path |
| PackageManager.PackageManager.FindLevel | tsc/src/core/filesystem/package_manager.cpp:239-265 | probes the package's user and game level directories, then the global ones, and returns the first existing file or the empty path |
| PackageManager.PackageManager.MenuLevel | tsc/src/core/filesystem/package_manager.cpp:267-319 | the menu level is the first existing probe of `MenuLevelProbes` with ".tsclvl", falling back to the default in the global game directory |
| PackageManager.DependencyStep | tsc/src/core/filesystem/package_manager.cpp:570-576 | one turn of the dependency loop: the walk of the rest continues from the packages processed by the walk of the current dependency |
| PackageManager.FindReadingPathFirstHit | tsc/src/core/filesystem/package_manager.cpp:579-599 | the path found exists and no earlier candidate does; without a hit no candidate exists |
| SmcPackageManager.SmcPackageManager.constructor | smc/src/core/filesystem/package_manager.cpp:117-130 | the scan's loads are merged as in the newer manager, there is no current package, and the search path built in the constructor holds just the global user and game directories |
| SmcPackageManager.SmcPackageManager.SetCurrentPackage | smc/src/core/filesystem/package_manager.cpp:162-171 | an unknown name clears the current package; the search path is rebuilt |
| SmcPackageManager.SmcPackageManager.FindReadingPath | smc/src/core/filesystem/package_manager.cpp:538-559 | returns the first existing candidate; when none exists it returns the last candidate tried rather than the empty path |
| SmcPackageManager.SmcPackageManager.MenuLevel | smc/src/core/filesystem/package_manager.cpp:228-280 | the menu level is the first existing probe of `MenuLevelProbes` with ".smclvl", falling back to the default in the global game directory |
| SmcPackageManager.ReadingPathStep | smc/src/core/filesystem/package_manager.cpp:540-556 | the loop over entries: a hit at the current entry wins, otherwise the search goes on with the next entries |
| SmcPackageManager.MissFallsBackToLastEntry | smc/src/core/filesystem/package_manager.cpp:557-558 | without extra extensions, a miss returns the resource path under the last search-path entry |
| Video.ApplyMaxTextureSize | tsc/src/video/video.cpp:1378-1404 | afterwards both sides are within the maximum texture size; sizes already within bounds are unchanged; an over-wide image gets the maximum width and its height divided by the truncated factor; an over-tall one the maximum height and its width divided by its truncated factor; when the first cap leaves the image over-tall, the second cap divides the maximum width by the truncated factor of the reduced height; non-negative sizes never grow |
| Video.MipWidth | tsc/src/video/video.cpp:1418-1424 | the output width `width / block_size_x` is at least 1 |
| Video.MipHeight | tsc/src/video/video.cpp:1419-1427 | the output height `height / block_size_y` is at least 1 |
| Video.ColumnBlock | tsc/src/video/video.cpp:1438-1444 | the clip written with `block_size_y` only fires at column 0 of an image narrower than one block, where it equals the intended clip; every column block is non-empty and inside the image |
| Video.RowBlock | tsc/src/video/video.cpp:1445-1447 | every row block is non-empty and inside the image |
| Video.RoundedMeanIsByte | tsc/src/video/video.cpp:1452-1462 | the rounded mean `(sum + area/2) / area` of bytes is a byte |
| Video.SourceInBounds | tsc/src/video/video.cpp:1433-1459 | every byte a block reads lies inside the source image |
| Video.SumBlock | tsc/src/video/video.cpp:1454-1459 | the two inner loops add exactly the bytes of the block to the rounding value |
| Video.BlockAverage | tsc/src/video/video.cpp:1432-1462 | one output byte is `OutputByte`, the rounded mean of its source block |
| Video.TargetOrder | tsc/src/video/video.cpp:1462 | output offsets grow strictly in loop order, so no output byte is written twice |
| Video.TargetInBounds | tsc/src/video/video.cpp:1462 | every output offset lies inside the `mip_width * mip_height * channels` output |
| Video.DownscalePixel | tsc/src/video/video.cpp:1431-1463 | the channel loop writes the output pixel's bytes and nothing past the output |
| Video.DownscaleRow | tsc/src/video/video.cpp:1430-1464 | the column loop writes the output row's bytes and nothing past the output |
| Video.DownscaleImage | tsc/src/video/video.cpp:1410-1469 | fails and writes nothing exactly when a dimension, the channel count or a block size is at most 0 or a buffer is null; otherwise every output byte is the rounded mean of its source block |
| Video.UniformImage | tsc/src/video/video.cpp:1432-1462 | downscaling an image whose bytes all equal `x` gives `x` everywhere |
| Video.DrawRect | tsc/src/video/video.cpp:1207-1237 | nothing is queued for a null colour or a zero width or height; otherwise the request carries the given geometry and colour |
| Video.DrawCircle | tsc/src/video/video.cpp:1285-1315 | nothing is queued for a null colour or a radius at most 0; otherwise the request carries the given geometry and colour |
| Video.SupportedResolutions | tsc/src/video/video.cpp:655-677 | the reported modes are returned when there are any, otherwise the six listed resolutions from 2048x1536 down to 640x480 |
| Video.SaveSurface | tsc/src/video/video.cpp:1499-1578 | a PNG is written exactly when the file can be created and bpp is 3 or 4; it has the image's size, RGBA for bpp 4 and RGB otherwise, and row `i` of the buffer becomes output row `h-1-i` with `reverse_data` |
| Video.PngRows | tsc/src/video/video.cpp:1555-1570 | the rows handed to the PNG writer are the buffer's rows, each placed at its slot (reversed or not) |
| Video.RowPointers | tsc/src/video/video.cpp:1558-1568 | the row-pointer loop points slot `k` at row `h-1-k` with `reverse_data` and at row `k` otherwise |
| Video.RowsInFileOrder | tsc/src/video/video.cpp:1558-1570 | through the row pointers, buffer row `k` appears at its slot in the written file |
| Video.ReversedRowsPermutation | tsc/src/video/video.cpp:1558-1568 | reversing the row order permutes the rows |
| ImgSet.TimeValue | tsc/src/video/img_set.cpp:51-56 | a time read from a line is `string_to_int` stored into a `Uint32`: non-negative values are kept, negative ones wrap |
| ImgSet.ParseOptions | tsc/src/video/img_set.cpp:66-85 | the option loop keeps the frame's file name and only appends branches, in order |
| ImgSet.ParseTimeOrigin | tsc/src/video/img_set.cpp:68-74 | the frame's time window is the parser's default unless an inline "time a b" set it |
| ImgSet.ParseBranchOrigin | tsc/src/video/img_set.cpp:76-82 | every appended branch comes from an inline "branch f p" of the line, in line order |
| ImgSet.ParseOptionsPlain | tsc/src/video/img_set.cpp:58-88 | a line without keywords gives a frame with the default window and no branches |
| ImgSet.ReadFrameOptions | tsc/src/video/img_set.cpp:66-85 | the index loop (which skips two words after a keyword) computes `ParseOptions` |
| ImgSet.HandleLine | tsc/src/video/img_set.cpp:47-92 | a "time" line changes only the default window ("time a" sets both ends to a, "time a b" sets min a and max b); any other non-empty line appends exactly one frame and leaves the window; an empty line changes nothing |
| ImgSet.FrameLineDefaults | tsc/src/video/img_set.cpp:58-88 | a plain frame line appends a frame named relative to the data file's directory, carrying the current default window |
| ImgSet.ImageSetParser.constructor | tsc/src/video/img_set.cpp:42-45 | the default window starts as the `time` passed to `Add_Image_Set`, with no frames |
| ImgSet.ImageSetParser.HandleMessage | tsc/src/video/img_set.cpp:47-92 | every line is accepted and the parser state becomes `HandleLine` of the old state |
| ImgSet.ImageSetParser.ParseLines | tsc/src/video/img_set.cpp:47-92 | feeding a file line by line folds `HandleLine` over its lines |
| ImgSet.FrameTime | tsc/src/video/img_set.cpp:107-111 | `Enter` draws a display time inside the frame's [min, max] window when the window is well formed |
| ImgSet.FirstCovering | tsc/src/video/img_set.cpp:113-133 | the branch chosen by subtracting percentages is one of the frame's branches |
| ImgSet.FirstCoveringSpec | tsc/src/video/img_set.cpp:113-133 | the chosen branch is the first whose cumulative percentage covers the random number, and without a choice no cumulative percentage covers it |
| ImgSet.LeaveCovered | tsc/src/video/img_set.cpp:113-133 | when the percentages add up to at least 100, every draw in [0, 100] picks a branch |
| ImgSet.LeaveFrame | tsc/src/video/img_set.cpp:113-133 | the loop of `Leave` returns -1 without branches and otherwise the target of the first covering branch, else -1 |
| ImgSet.AnimationStaysInRange | tsc/src/video/img_set.cpp:327-337 | the next frame of an animation inside its range is inside it: an in-range branch target, else the start after the end, else the next frame |
| ImgSet.AnimationCycles | tsc/src/video/img_set.cpp:330-337 | without branches the frames of a range cycle: from any frame, the range start comes back after the frames up to the end have been shown |
| ImgSet.ParsedSurfaces | tsc/src/video/img_set.cpp:207-226 | one surface per parsed frame, each carrying its frame information |
| ImgSet.ImageSetSurfaces | tsc/src/video/img_set.cpp:172-235 | a plain ".png" gives one surface; an image set file gives its frames, and fails when it cannot be found or holds no frame |
| ImgSet.Scale | tsc/src/video/img_set.cpp:322 | at speed 1 the scaled counter is the counter |
| ImgSet.Entered | tsc/src/video/img_set.cpp:107-111 | `Enter` only redraws the display time of the entered frame: images and frame information are kept and every window stays well formed |
| ImgSet.AnimationStepInRange | tsc/src/video/img_set.cpp:322-344 | an update keeps the animation inside its range and the number of frames, and either changes nothing or leaves the counter at most the scaled counter |
| ImgSet.ImageSet.constructor | tsc/src/video/img_set.cpp:137-148 | a new image set has no frames and no named ranges, frame -1, animation off, default time 1000, counter 0 and speed 1 |
| ImgSet.ImageSet.AddImage | tsc/src/video/img_set.cpp:154-170 | appends one surface whose time is the given time, or the default time when it is 0 |
| ImgSet.ImageSet.AddImageSet | tsc/src/video/img_set.cpp:172-235 | on success the frames are appended, the name records the range [old size, new size - 1] and it is reported through `start_num`/`end_num`; on failure nothing changes and both are -1 |
| ImgSet.ImageSet.LoadImages | tsc/src/video/img_set.cpp:187-229 | the loading part of `Add_Image_Set` appends exactly `ImageSetSurfaces`, or nothing on failure |
| ImgSet.ImageSet.AddFrames | tsc/src/video/img_set.cpp:207-226 | the adding loop appends exactly the parsed surfaces |
| ImgSet.ImageSet.SetImageNum | tsc/src/video/img_set.cpp:260-280 | the current frame is a no-op; otherwise the frame becomes `num`, shown with a null image when negative |
| ImgSet.ImageSet.GetImage | tsc/src/video/img_set.cpp:282-289 | the image of an existing frame, none past the end |
| ImgSet.ImageSet.SetImageSet | tsc/src/video/img_set.cpp:237-258 | an unknown name sets frame -1 and turns the animation off; a known name starts at the range start, with the animation on exactly when its end is past its start |
| ImgSet.ImageSet.ClearImages | tsc/src/video/img_set.cpp:291-296 | the current frame becomes -1 and the frames and named ranges are emptied |
| ImgSet.ImageSet.SetTimeAll | tsc/src/video/img_set.cpp:349-361 | every frame gets the time as its display time and window, and the default time too when asked |
| ImgSet.ImageSet.UpdateAnimation | tsc/src/video/img_set.cpp:298-347 | a second call in the same tick changes nothing; a disabled animation only records the tick; otherwise the counter grows by the elapsed ticks and the frame advances as `AnimationStep` says |
| ImgSet.ImageSet.FrameExpiry | tsc/src/video/img_set.cpp:322-344 | the expiry part computes `AnimationStep` of the old frame, counter and surfaces |
| ImgSet.ImageSet.ChangeFrame | tsc/src/video/img_set.cpp:323-343 | the frame becomes `NextFrame` of the leave result, the counter the scaled counter less the old frame's time, and the new frame draws its time |
| ImgSettings.ApplyBase | tsc/src/video/img_settings.cpp:94-118 | the base reference is replaced only when the base's own base is non-empty, and `obsolete` is the OR of both |
| ImgSettings.ApplyBaseOverrides | tsc/src/video/img_settings.cpp:100-112 | all geometry and metadata come from the base: two settings with the same obsolete flag end up alike, equal to the base except for that flag |
| ImgSettings.ApplyBaseIdempotent | tsc/src/video/img_settings.cpp:94-118 | applying the same base twice changes nothing more |
| ImgSettings.ObsoleteSticky | tsc/src/video/img_settings.cpp:114-117 | once obsolete, settings stay obsolete whatever bases follow |
| ImgSettings.Apply | tsc/src/video/img_settings.cpp:56-92 | dimensions are set only when both are positive, the collision rectangle only when both its sides are, the rotation only when non-zero, and the name only when non-empty |
| ImgSettings.ApplyName | tsc/src/video/img_settings.cpp:81-86 | the displayed name keeps the stored name's length and has a space exactly where the stored name has an underscore or a space |
| ImgSettings.UnderscoresToSpaces | tsc/src/video/img_settings.cpp:83-84 | replacing "_" by " " is a character-by-character map |
| ImgSettings.SettingsPath | tsc/src/video/img_settings.cpp:171-173 | a file already ending in ".settings" is kept |
| ImgSettings.SettingsExtensionTest | tsc/src/video/img_settings.cpp:172 | the extension test equals a ".settings" suffix test |
| ImgSettings.NextBase | tsc/src/video/img_settings.cpp:192-195 | the chain continues only with the base file's own base |
| ImgSettings.BaseChainStops | tsc/src/video/img_settings.cpp:170-180 | the chain leaves the settings alone when no name is pending or the settings file is missing |
| ImgSettings.BaseChainUnfold | tsc/src/video/img_settings.cpp:170-198 | one turn of the loop applies the base file's settings (loaded with their own bases) and continues with its settings-based base |
| ImgSettings.BaseChainSteps | tsc/src/video/img_settings.cpp:170-198 | a missing file ends the chain unchanged; an existing one is applied and ends the chain when it has no settings-based base |
| ImgSettings.BaseChainKeepsObsolete | tsc/src/video/img_settings.cpp:114-117 | whatever the chain does, obsolete settings stay obsolete |
| ImgSettings.CommandOf | tsc/src/video/img_settings.cpp:145-382 | a line's first word names a command exactly when it is one of the thirteen known words |
| ImgSettings.BaseAccepted | tsc/src/video/img_settings.cpp:160-200 | an accepted `base` line records the base file, unless a non-zero flag and loading made the chain replace it |
| ImgSettings.UnknownAndLicense | tsc/src/video/img_settings.cpp:354-380 | an unknown command is rejected and changes nothing; `license` is accepted and ignored |
| ImgSettings.ColRectRule | tsc/src/video/img_settings.cpp:204-221 | `col_rect` is accepted exactly with five words whose four numbers are valid; a rejected line changes nothing |
| ImgSettings.OneNumberRule | tsc/src/video/img_settings.cpp:222-251 | `width`, `height`, `mipmap` and `obsolete` are accepted exactly with two words and a valid number; a rejected line changes nothing |
| ImgSettings.RotationRule | tsc/src/video/img_settings.cpp:252-288 | `rotation` is accepted with two to five words of valid numbers and sets x, then y, then z only as far as the words go |
| ImgSettings.BaseWithoutLoading | tsc/src/video/img_settings.cpp:147-158 | with base loading off, a `base` line is accepted exactly with two or three words and a third word that passes the check as written (past the end on two words) |
| ImgSettings.SettingsParser.Get | tsc/src/video/img_settings.cpp:134-143 | parsing a file gives `GetSettings`: fresh defaults with the file's lines handled in order |
| ImgSettings.SettingsParser.ParseFile | tsc/src/video/img_settings.cpp:134-143 | the file parser's loop computes `ParseLines` |
| ImgSettings.SettingsParser.HandleMessage | tsc/src/video/img_settings.cpp:145-382 | one line is applied as `HandleLine` says, including the `base` check as written |
| ImgSettings.SettingsParser.BaseMessage | tsc/src/video/img_settings.cpp:147-203 | the `base` branch computes `HandleBase` |
| ImgSettings.SettingsParser.ColRectMessage | tsc/src/video/img_settings.cpp:204-221 | the `col_rect` branch computes `HandleColRect` |
| ImgSettings.SettingsParser.NumberMessage | tsc/src/video/img_settings.cpp:222-306 | the one-number branches compute `HandleNumber` |
| ImgSettings.SettingsParser.RotationMessage | tsc/src/video/img_settings.cpp:252-288 | the `rotation` branch computes `HandleRotation` |
| ImgSettings.SettingsParser.TextMessage | tsc/src/video/img_settings.cpp:307-353 | the text branches compute `HandleText` |
| ImgSettings.SettingsParser.FollowBases | tsc/src/video/img_settings.cpp:170-198 | the `while` loop over base files computes `BaseChain` |
| ImgSettings.SettingsParser.ApplyBaseFile | tsc/src/video/img_settings.cpp:181-197 | a base file is read by a new parser that loads its own bases, its settings are applied over the current ones, the loop goes on with its base only when that is settings-based, and the turn is one step of `BaseChain` |
| ImgSettings.BaseNumberWord | tsc/src/video/img_settings.cpp:154 | the check reads the third word on a three-word line and past the end of a two-word line |
| ImgSettings.BaseNumberChecksAgree | tsc/src/video/img_settings.cpp:154 | the check as written and as meant agree on three words; on two words the intended check passes, while the written one depends on what lies past the end |
| ImgSettings.HandleBaseCorrected | tsc/src/video/img_settings.cpp:147-158 | with the intended check, a `base` line is accepted exactly with two words, or three whose third is a valid number; a rejected line changes nothing |
| ImgSettings.HandleBaseAgreesOffTwoWords | tsc/src/video/img_settings.cpp:147-158 | the written and the intended `base` handling agree on every line that does not have exactly two words |
| ImgSettings.BaseTwoWordsAsWritten | tsc/src/video/img_settings.cpp:154 | as written, "base <file>" is accepted exactly when what lies past the end passes the number check |
| ImgSettings.BaseTwoWordsRejected | tsc/src/video/img_settings.cpp:154 | with an empty word past the end, "base <file>" is rejected as written |
| ImgSettings.BaseTwoWordsAccepted | tsc/src/video/img_settings.cpp:147-163 | with the intended check, "base <file>" is accepted and records the base file |
| UserPreferences.DefaultsValid | tsc/src/user/preferences.cpp:207-301 | the default settings lie in the ranges the preferences loader keeps |
| UserPreferences.ApplyVideoReloadDecision | tsc/src/user/preferences.cpp:337-349 | a full re-initialisation with texture reload is requested exactly when width, height, bpp, vsync or the texture detail changed, and then it is the only request |
| UserPreferences.ApplyVideoWithoutReload | tsc/src/user/preferences.cpp:350-363 | without a reload, the geometry is re-initialised exactly when its detail changed and fullscreen is toggled exactly when it differs; the texture detail is kept |
| UserPreferences.ApplyVideoReachesRequest | tsc/src/user/preferences.cpp:332-364 | whichever branch runs, the requested resolution, depth, vsync and fullscreen mode are in force afterwards, and both details equal the requested ones up to `Is_Float_Equal` |
| UserPreferences.Preferences.constructor | tsc/src/user/preferences.cpp:99-102 | a new preferences object holds every default, with no configuration file name |
| UserPreferences.Preferences.ResetAll | tsc/src/user/preferences.cpp:207-222 | every setting is back at its default, the game version is the engine's, and background images and the image cache are on |
| UserPreferences.Preferences.ResetGame | tsc/src/user/preferences.cpp:224-231 | the game settings are at their defaults, with no language |
| UserPreferences.Preferences.ResetVideo | tsc/src/user/preferences.cpp:233-244 | the video settings and the engine's geometry and texture detail are at their defaults |
| UserPreferences.Preferences.ResetAudio | tsc/src/user/preferences.cpp:246-254 | the audio settings and the engine's sound and music volumes are at their defaults |
| UserPreferences.Preferences.ResetKeyboard | tsc/src/user/preferences.cpp:256-276 | every key and the scroll speed are at their `*_default` constants |
| UserPreferences.Preferences.ResetJoystick | tsc/src/user/preferences.cpp:278-294 | the joystick settings are at their defaults and the joystick name is cleared |
| UserPreferences.Preferences.ResetEditor | tsc/src/user/preferences.cpp:296-301 | the editor settings are at their defaults |
| UserPreferences.Preferences.Update | tsc/src/user/preferences.cpp:303-319 | the camera speeds and the audio flags are read back from the engine, and the joystick name is cleared when the default joystick is in use |
| UserPreferences.Preferences.Apply | tsc/src/user/preferences.cpp:321-330 | the camera takes the stored speeds, and the joystick is disabled when its initialisation failed |
| UserPreferences.Preferences.ApplyVideoSettings | tsc/src/user/preferences.cpp:332-364 | the video settings, details and device requests become those of `ApplyVideo` |
| UserPreferences.Preferences.ApplyAudio | tsc/src/user/preferences.cpp:366-380 | a failed audio initialisation forces sound and music off without re-initialising; otherwise both are set as asked and audio is re-initialised |
| PreferencesLoading.KeyOf | tsc/src/user/preferences_loader.cpp:185-271 | a name the key table recognises is exactly the `keyboard_key_*` name of the key it configures |
| PreferencesLoading.ButtonOf | tsc/src/user/preferences_loader.cpp:294-318 | a name the button table recognises is exactly the `joy_button_*` name of the button it configures |
| PreferencesLoading.AlwaysRunAlias | tsc/src/user/preferences_loader.cpp:118-119 | `always_run` and `game_always_run` set the same setting |
| PreferencesLoading.CameraHorSpeedAlias | tsc/src/user/preferences_loader.cpp:122-123 | `camera_hor_speed` and `game_camera_hor_speed` set the same setting |
| PreferencesLoading.CameraVerSpeedAlias | tsc/src/user/preferences_loader.cpp:124-125 | `camera_ver_speed` and `game_camera_ver_speed` set the same setting |
| PreferencesLoading.GeometryDetailAlias | tsc/src/user/preferences_loader.cpp:160-161 | `video_geometry_quality` and `video_geometry_detail` set the same override |
| PreferencesLoading.TextureDetailAlias | tsc/src/user/preferences_loader.cpp:162-163 | `video_texture_quality` and `video_texture_detail` set the same override |
| PreferencesLoading.KeyNameRoundTrip | tsc/src/user/preferences_loader.cpp:185-271 | every configurable key's name is recognised and gives that key back |
| PreferencesLoading.ButtonNameRoundTrip | tsc/src/user/preferences_loader.cpp:294-318 | every configurable button's name is recognised and gives that button back |
| PreferencesLoading.Clamp | tsc/src/user/preferences_loader.cpp:127-153 | the result lies in [lo, hi], equals the value when it is already inside, and is the nearer bound otherwise |
| PreferencesLoading.ButtonCodeAsWritten | tsc/src/user/preferences_loader.cpp:294-297 | the source's range check accepts exactly 0..256, and the accepted value stored in a `Uint8` is the value itself below 256 |
| PreferencesLoading.ButtonCode | tsc/src/user/preferences_loader.cpp:294-297 | the corrected check accepts exactly the codes a `Uint8` holds, and stores them unchanged |
| PreferencesLoading.UnknownNameIgnored | tsc/src/user/preferences_loader.cpp:331-333 | an unknown option changes neither the preferences nor the overrides |
| PreferencesLoading.ScreenClamped | tsc/src/user/preferences_loader.cpp:127-153 | width and height are clamped to [200, 2560] and the depth to [8, 32], with nothing else changed |
| PreferencesLoading.AudioRangeChecked | tsc/src/user/preferences_loader.cpp:169-183 | a volume in [0, 128] or a frequency in [0, 96000] is stored (volumes as overrides); a value out of range changes nothing |
| PreferencesLoading.KeyRangeChecked | tsc/src/user/preferences_loader.cpp:185-271 | a key code in [0, SDLK_LAST] is stored in that key's binding alone; any other value changes nothing |
| PreferencesLoading.JoystickRangeChecked | tsc/src/user/preferences_loader.cpp:279-293 | axes in [0, 256] and the threshold in [0, 32767] are stored in their own field alone; other values change nothing |
| PreferencesLoading.ButtonRangeChecked | tsc/src/user/preferences_loader.cpp:294-318 | a button code in [0, 255] is stored; 256 passes the check and is stored as 0; anything else changes nothing |
| PreferencesLoading.PropertyKeepsValid | tsc/src/user/preferences_loader.cpp:109-334 | whatever option is read, the preferences and the overrides stay within their ranges |
| PreferencesLoading.DeviceSectionKeepsValid | tsc/src/user/preferences_loader.cpp:185-329 | the keyboard, joystick and editor options keep the ranges and leave the overrides alone |
| PreferencesLoading.VideoSectionKeepsValid | tsc/src/user/preferences_loader.cpp:127-163 | the video options keep the screen settings clamped and leave the overrides alone |
| PreferencesLoading.OtherSectionKeepsValid | tsc/src/user/preferences_loader.cpp:114-183 | the game and audio options keep every range |
| PreferencesLoading.KeyBindingKeepsValid | tsc/src/user/preferences_loader.cpp:185-271 | every key stays bound to a code in [0, SDLK_LAST] |
| PreferencesLoading.ButtonBindingKeepsValid | tsc/src/user/preferences_loader.cpp:294-318 | every button stays bound to a `Uint8` code |
| PreferencesLoading.Assignments | tsc/src/user/preferences_loader.cpp:88-107 | one assignment per element, in document order, each the element's name and value |
| PreferencesLoading.AssignAllKeepsValid | tsc/src/user/preferences_loader.cpp:88-334 | whatever the document says, the settings stay in their ranges |
| PreferencesLoading.OverridesFrame | tsc/src/user/preferences_loader.cpp:160-178 | an option other than an override's own leaves that override alone |
| PreferencesLoading.OverrideOnlyWhenGiven | tsc/src/user/preferences_loader.cpp:21-29 | an override the document never sets keeps its previous value |
| PreferencesLoading.PreferencesLoader.constructor | tsc/src/user/preferences_loader.cpp:21-29 | no preferences object yet, and every override unset (-1) |
| PreferencesLoading.PreferencesLoader.ParseFile | tsc/src/user/preferences_loader.cpp:67-72 | on a loader without preferences it creates fresh defaults for the file and applies every element in order |
| PreferencesLoading.PreferencesLoader.StartDocument | tsc/src/user/preferences_loader.cpp:74-81 | a fresh preferences object with the defaults and the file's name; a second document is refused |
| PreferencesLoading.PreferencesLoader.ParseElements | tsc/src/user/preferences_loader.cpp:88-107 | the elements are applied in document order |
| PreferencesLoading.PreferencesLoader.StartElement | tsc/src/user/preferences_loader.cpp:88-107 | one element applies its name and value as a property |
| PreferencesLoading.PreferencesLoader.HandleProperty | tsc/src/user/preferences_loader.cpp:109-334 | the new preferences and overrides are the effect of the named option on the old ones |
| PreferencesLoading.PreferencesLoader.Assign | tsc/src/user/preferences_loader.cpp:109-334 | the branch for one setting has exactly that setting's effect |
| PreferencesLoading.PreferencesLoader.AssignGeneral | tsc/src/user/preferences_loader.cpp:114-183 | the game, video and audio branches have their setting's effect on the preferences |
| PreferencesLoading.PreferencesLoader.AssignDevice | tsc/src/user/preferences_loader.cpp:185-329 | the keyboard, joystick and editor branches have their setting's effect on the preferences |
| PreferencesLoading.LoadFromFile | tsc/src/user/preferences.cpp:109-133 | a missing file gives the defaults and default device settings; an existing one gives the parsed preferences, and the device settings take the overrides that were set |
| PreferencesLoading.UnsetOverridesStayUnset | tsc/src/user/preferences_loader.cpp:74-81 | a document without volume or detail options leaves every override unset |
| PreferencesLoading.LoadedSettingsValid | tsc/src/user/preferences_loader.cpp:74-334 | loaded preferences and overrides always lie within their ranges |
| PreferencesLoading.ButtonCode256ReadAsZero | tsc/src/user/preferences_loader.cpp:294-297 | a configured button 256 passes the source's check and is stored as button 0; the corrected check refuses it |
| PreferencesLoading.ButtonCodeAgrees | tsc/src/user/preferences_loader.cpp:294-318 | apart from 256, the corrected check agrees with the source's and stores the value unchanged |
| SaveData.NewSave | tsc/src/user/savegame.cpp:168-197 | a new savegame holds no level, no world and no return entry, and the current level engine version |
| SaveData.Exists | tsc/src/user/savegame.cpp:86-99 | true exactly when some saved property has the name, i.e. when the lookup finds it |
| SaveData.GetValue | tsc/src/user/savegame.cpp:101-114 | the value of the first property with the name, or the empty string when there is none |
| SaveData.LookupFirst | tsc/src/user/savegame.cpp:101-114 | the lookup returns the value of the first pair with the key |
| SaveData.FirstActive | tsc/src/user/savegame.cpp:208-228 | the index of the first level that has a known path and a non-zero position, with none before it; none when no level qualifies |
| SaveData.FirstActiveAt | tsc/src/user/savegame.cpp:208-228 | a qualifying level with none before it is the one found |
| SaveData.GetActiveLevel | tsc/src/user/savegame.cpp:208-228 | the name of the first active level, or the empty string |
| SaveData.ReturnNodes | tsc/src/user/savegame.cpp:265-277 | one `return` node per return entry |
| SaveData.TextProps | tsc/src/user/savegame.cpp:315-322 | each saved object property becomes a property node with its name and value, in order |
| SaveData.ObjectNodes | tsc/src/user/savegame.cpp:306-325 | one node per saved object |
| SaveData.SpriteNodes | tsc/src/user/savegame.cpp:297-304 | one node per spawned object |
| SaveData.LevelNodes | tsc/src/user/savegame.cpp:279-326 | one `level` node per saved level |
| SaveData.WaypointNodes | tsc/src/user/savegame.cpp:337-346 | at most one node per waypoint (waypoints without destination are skipped) |
| SaveData.OverworldNodes | tsc/src/user/savegame.cpp:329-350 | one `overworld` node per saved world |
| SaveData.LevelTimeWrittenIffLevels | tsc/src/user/savegame.cpp:259-260 | `level_time` is written exactly when the savegame holds a level |
| SaveData.ReturnFieldsWrittenIffNonEmpty | tsc/src/user/savegame.cpp:267-276 | a return entry's `level` and `entry` are written exactly when they are not empty |
| SaveData.LevelFieldsWritten | tsc/src/user/savegame.cpp:283-295 | the player position is written exactly when both coordinates are non-zero, and `mruby_data` exactly when there is some |
| SaveData.WaypointNodesAreTheNamedOnes | tsc/src/user/savegame.cpp:337-346 | the waypoint nodes are exactly those of the waypoints that have a destination |
| SaveData.WriteToFile | tsc/src/user/savegame.cpp:230-357 | the document written is the savegame's XML document |
| SaveData.BuildReturnNodes | tsc/src/user/savegame.cpp:265-277 | the loop builds the return nodes of the entries |
| SaveData.BuildLevelNodes | tsc/src/user/savegame.cpp:279-326 | the loop builds the level nodes |
| SaveData.BuildSpriteNodes | tsc/src/user/savegame.cpp:297-304 | the loop builds the spawned-object nodes |
| SaveData.BuildObjectNodes | tsc/src/user/savegame.cpp:306-325 | the loop builds the object nodes |
| SaveData.BuildOverworldNodes | tsc/src/user/savegame.cpp:329-350 | the loop builds the world nodes |
| Savegame.SlotFile | tsc/src/user/savegame.cpp:768-785 | a slot's file is `<dir>/<slot><extension>` |
| Savegame.SlotFilesDiffer | tsc/src/user/savegame.cpp:839-842 | a slot's files with different extensions are different files |
| Savegame.KeptSpawned | tsc/src/user/savegame.cpp:650-661 | at most one saved copy per sprite |
| Savegame.SavedObjects | tsc/src/user/savegame.cpp:663-690 | at most one saved state per sprite |
| Savegame.SavedLevels | tsc/src/user/savegame.cpp:623-692 | at most one record per level |
| Savegame.SavedWaypoints | tsc/src/user/savegame.cpp:709-730 | at most one saved waypoint per sprite |
| Savegame.SavedOverworlds | tsc/src/user/savegame.cpp:700-732 | one record per world |
| Savegame.SavedLevelsAreTheLoadedOnes | tsc/src/user/savegame.cpp:623-634 | the saved levels are exactly the records of the loaded levels, the active one marked as such |
| Savegame.InactiveLevelsHaveNoPosition | tsc/src/user/savegame.cpp:636-648 | a level other than the active one is saved with position 0,0 and no script data |
| Savegame.SavedActiveLevelIsFound | tsc/src/user/savegame.cpp:208-228 | reading back the saved record, the active level found is the game's active level |
| Savegame.SavedLevelsSplit | tsc/src/user/savegame.cpp:623-692 | the records of the levels up to the active one end with the active level's record |
| Savegame.SavedLevelsPrefix | tsc/src/user/savegame.cpp:623-692 | the records of a prefix of the levels are a prefix of the records |
| Savegame.SavedWaypointsAreTheWaypoints | tsc/src/user/savegame.cpp:709-730 | the saved waypoints of a world are exactly its `TYPE_OW_WAYPOINT` sprites, with destination and access |
| Savegame.KeptSpawnedAreTheLasting | tsc/src/user/savegame.cpp:650-661 | the saved spawned objects are exactly the spawned sprites that are not auto-destroyed |
| Savegame.ActiveOverworldRule | tsc/src/user/savegame.cpp:735-747 | the active world and waypoint are saved only outside custom-level mode, and then they are the game's |
| Savegame.CollectLevel | tsc/src/user/savegame.cpp:626-692 | the loop over one level's sprites builds that level's record |
| Savegame.CollectOverworld | tsc/src/user/savegame.cpp:700-732 | the loop over one world's sprites builds that world's record |
| Savegame.BuildSave | tsc/src/user/savegame.cpp:603-748 | the record assembled is the savegame of the running game |
| Savegame.LoadFrom | tsc/src/user/savegame.cpp:768-785 | a loaded record is one of the files; otherwise the error names the slot |
| Savegame.ValidIffLoads | tsc/src/user/savegame.cpp:768-785 | a slot is valid exactly when it loads, and the `.smcsav` file wins over `.save` |
| Savegame.SavedSlotLoads | tsc/src/user/savegame.cpp:748-755 | the slot just written reads back the record written |
| Savegame.DescriptionOf | tsc/src/user/savegame.cpp:787-837 | a slot with no file reads "<slot>. Free Save"; otherwise, with only the description asked, the saved description |
| Savegame.PlaceTextNamesTheActiveLevel | tsc/src/user/savegame.cpp:806-821 | with an active level the description names it |
| Savegame.PlaceTextUnknown | tsc/src/user/savegame.cpp:822-825 | without an active level the description says "Unknown" |
| Savegame.Savegame.constructor | tsc/src/user/savegame.cpp:361-364 | the manager holds its directory and the existing files |
| Savegame.Savegame.SaveGame | tsc/src/user/savegame.cpp:603-766 | refused exactly when the player is dead or has negative lives, leaving the files alone; otherwise the record of the game is written to the slot |
| SavegameTsc.ProbeSlot | tsc/src/user/savegame/savegame.cpp:452-480 | the file found is one of `.tscsav` and `.smcsav` in the package directory or `.save` in the savegame directory; none only when all three are missing |
| SavegameTsc.LevelError | tsc/src/user/savegame/savegame.cpp:485-498 | no error exactly when every saved level has a path that exists |
| SavegameTsc.LoadSlot | tsc/src/user/savegame/savegame.cpp:452-501 | a slot loads exactly when a file is found and all its levels exist, giving that file's record; a missing file is an invalid savegame |
| SavegameTsc.CheckLevels | tsc/src/user/savegame/savegame.cpp:485-498 | the loop over the levels finds the level error |
| SavegameTsc.IsValidAsWrittenDisagreesWithLoad | tsc/src/user/savegame/savegame.cpp:555-560 | the validity test looks for `.save` in the package directory while `Load` looks in the savegame directory, so one slot loads but is called free and another is called valid but does not load |
| SavegameTsc.IsValidIffFileFound | tsc/src/user/savegame/savegame.cpp:452-501 | the corrected test is valid exactly when `Load` finds a file; a valid slot that fails to load fails on a level |
| SavegameTsc.SavedSlotReadsBack | tsc/src/user/savegame/savegame.cpp:429-449 | a saved slot reads back its record, and the older `.smcsav` and `.save` files are gone |
| SavegameTsc.SlotDescription | tsc/src/user/savegame/savegame.cpp:503-553 | a slot the source's test calls invalid is a "Free Save"; otherwise the description loads exactly when the slot does |
| SavegameTsc.DescriptionMisreportsSlots | tsc/src/user/savegame/savegame.cpp:503-560 | with the two directories different, a loadable slot is shown as free and a free one fails to load |
| SavegameTsc.IsValidAsWrittenWithOneDirectory | tsc/src/user/savegame/savegame.cpp:555-560 | with one directory the source's test agrees with the corrected one |
| SavegameTsc.ProgressFromSave | tsc/src/user/savegame/savegame.cpp:82-113 | the access flags of every waypoint are kept in number |
| SavegameTsc.ProgressStep | tsc/src/user/savegame/savegame.cpp:95-111 | one saved waypoint keeps the number of access flags |
| SavegameTsc.ProgressFromSaveEffect | tsc/src/user/savegame/savegame.cpp:82-113 | a waypoint takes the access of the last saved entry for its destination, or keeps its own |
| SavegameTsc.ProgressSkipsLaterDuplicates | tsc/src/user/savegame/savegame.cpp:95-111 | a waypoint no saved entry names keeps its access |
| SavegameTsc.ApplyWorldProgress | tsc/src/user/savegame/savegame.cpp:95-111 | the loop over a world's saved waypoints sets the access flags as the progress function says and changes nothing else |
| SavegameTsc.ApplyWaypoint | tsc/src/user/savegame/savegame.cpp:95-111 | one saved waypoint sets the access of the waypoint it names and changes nothing else |
| SavegameTsc.ObjectLookups | tsc/src/user/savegame/savegame.cpp:180-214 | one lookup per saved object |
| SavegameTsc.ObjectLookupsStep | tsc/src/user/savegame/savegame.cpp:180-214 | the lookups of one more object append that object's lookup |
| SavegameTsc.LevelsEffect | tsc/src/user/savegame/savegame.cpp:138-217 | the save type is 1 or 2 |
| SavegameTsc.LevelEffect | tsc/src/user/savegame/savegame.cpp:139-216 | the save type is 1 or 2 |
| SavegameTsc.LevelsEffectStep | tsc/src/user/savegame/savegame.cpp:138-217 | the loop over the levels applies one level's effect per turn |
| SavegameTsc.SaveTypeIsLevelIffPositioned | tsc/src/user/savegame/savegame.cpp:143-160 | the save type is 1 (level) exactly when some saved level loads and has a non-zero position |
| SavegameTsc.InvincibleAfterLevelLoad | tsc/src/user/savegame/savegame.cpp:238-245 | after a level load the player is invincible for at least one second; more saved invincibility is kept; on the world it is the saved value |
| SavegameTsc.LoadGameModeAndReturns | tsc/src/user/savegame/savegame.cpp:61-281 | custom-level mode exactly when no world was active, and the return stack is the saved one |
| SavegameTsc.LevelsKeepMode | tsc/src/user/savegame/savegame.cpp:138-217 | loading levels does not change the game mode |
| SavegameTsc.Session.constructor | tsc/src/user/savegame/savegame.cpp:51-54 | the session holds the given state |
| SavegameTsc.Session.SetState | tsc/src/user/savegame/savegame.cpp:61-281 | the whole state is replaced |
| SavegameTsc.Session.Restore | tsc/src/user/savegame/savegame.cpp:61-281 | `Load_Game` returns the save type and leaves the state the restore function computes |
| SavegameTsc.RestoreWorld | tsc/src/user/savegame/savegame.cpp:75-136 | the mode, the progress and the active world are restored as the world effect says |
| SavegameTsc.RestoreLevels | tsc/src/user/savegame/savegame.cpp:138-217 | the loop over the saved levels has the levels' effect |
| SavegameTsc.RestoreLevel | tsc/src/user/savegame/savegame.cpp:139-216 | one saved level has its effect |
| SavegameTsc.RestorePlayer | tsc/src/user/savegame/savegame.cpp:219-280 | the player's type, invincibility, music, counters and return stack are restored as the player effect says |
| SavegameTsc.CollectLookups | tsc/src/user/savegame/savegame.cpp:180-214 | the loop builds the object lookups |
| SavegameTsc.SavegameManager.constructor | tsc/src/user/savegame/savegame.cpp:51-54 | the manager holds its directories and the existing files |
| SavegameTsc.SavegameManager.Load | tsc/src/user/savegame/savegame.cpp:452-501 | `Load` gives what the slot-loading function gives |
| SavegameTsc.SavegameManager.SaveGame | tsc/src/user/savegame/savegame.cpp:283-450 | refused exactly when the player is dead or has negative lives; otherwise the record is written as `.tscsav` and the older files removed |
| SavegameLoading.FormatBySuffix | tsc/src/user/savegame_loader.cpp:50-57 | only a `.smcsav` file is read in the new format |
| SavegameLoading.KeepsPropertiesByName | tsc/src/user/savegame_loader.cpp:97-139 | the collected properties survive exactly the closing of a property, the document's own elements, objects and waypoints |
| SavegameLoading.FinalDescription | tsc/src/user/savegame_loader.cpp:67-72 | the description is never empty after the document, and a given one is kept |
| SavegameLoading.InformationFrom | tsc/src/user/savegame_loader.cpp:141-147 | the information is read exactly when a version is given, taking version, engine version, save time and description |
| SavegameLoading.AfterObject | tsc/src/user/savegame_loader.cpp:173-211 | after an object only the level's own properties stay collected, unchanged |
| SavegameLoading.PlayerFrom | tsc/src/user/savegame_loader.cpp:223-250 | the player is read exactly when lives, gold, state and item box (and in the new format the waypoint) are given; the old format keeps the world data |
| SavegameLoading.OldGhostGetsTenSeconds | tsc/src/user/savegame_loader.cpp:223-250 | an old-format ghost player gets ten seconds of ghost time |
| SavegameLoading.OldOverworldDataFrom | tsc/src/user/savegame_loader.cpp:261-265 | old-format world data is read exactly when the current waypoint is given |
| SavegameLoading.WaypointDestination | tsc/src/user/savegame_loader.cpp:283-304 | a waypoint's destination is `world_name`, else `level_name`, else `destination` |
| SavegameLoading.LevelTakesPendingObjects | tsc/src/user/savegame_loader.cpp:149-171 | a closing level takes the pending objects and spawned objects, which are then cleared |
| SavegameLoading.WaypointKeepsWorldName | tsc/src/user/savegame_loader.cpp:283-304 | a closing waypoint removes its own properties but keeps the world's name |
| SavegameLoading.EndClearsProperties | tsc/src/user/savegame_loader.cpp:97-139 | a handled element clears the collected properties; one that keeps them leaves them alone |
| SavegameLoading.SavegameLoader.constructor | tsc/src/user/savegame_loader.cpp:28-32 | a loader before its document, with the format chosen by the file's suffix and nothing collected |
| SavegameLoading.SavegameLoader.StartDocument | tsc/src/user/savegame_loader.cpp:59-65 | a new document starts a new savegame; a second start fails |
| SavegameLoading.SavegameLoader.EndDocument | tsc/src/user/savegame_loader.cpp:67-72 | only the description changes, to its final form |
| SavegameLoading.SavegameLoader.StartElement | tsc/src/user/savegame_loader.cpp:74-95 | a property records its name and value; any other element changes nothing collected |
| SavegameLoading.SavegameLoader.EndElement | tsc/src/user/savegame_loader.cpp:97-139 | a closing element has the effect its kind calls for |
| SavegameLoading.SavegameLoader.HandleLevelObject | tsc/src/user/savegame_loader.cpp:173-211 | an object without a type fails; a type of 0 or less is skipped; otherwise the object is appended with its type and every collected property but the level's own, which alone stay collected |
| SavegameLoading.CopyObjectProperties | tsc/src/user/savegame_loader.cpp:183-204 | the object's properties are the collected ones minus the level's own |
| SavegameLoading.EndStep | tsc/src/user/savegame_loader.cpp:97-139 | the non-object part of a closing element has the effect its kind calls for |
| LevelLoading.ClassifyEndCases | tsc/src/level/level_loader.cpp:118-149 | a closing element is a property exactly when named `property`/`Property`, the script exactly when `script` and not an object, an object exactly when the object table knows it and it is none of the header elements |
| LevelLoading.EngineVersionRanges | tsc/src/level/level_loader.cpp:164-175 | a float version below 3 is multiplied by ten, a larger one is truncated, and only a version of -0.1 or less gives a negative engine version |
| LevelLoading.SettingsCurrentOrUnset | tsc/src/level/level_loader.cpp:177-200 | a level of engine 35 or later, or one without a height limit, reads its settings as a current level does |
| LevelLoading.SettingsHeightShifted | tsc/src/level/level_loader.cpp:180-183 | an older level's height limit is moved up by 600 |
| LevelLoading.SettingsOnlyHeightVaries | tsc/src/level/level_loader.cpp:177-200 | apart from the height limit, the settings do not depend on the engine version |
| LevelLoading.SettingsDescriptionKept | tsc/src/level/level_loader.cpp:177-200 | a description without line-break tags is kept as written |
| LevelLoading.PlayerStartFacing | tsc/src/level/level_loader.cpp:213-250 | the start direction is left or right, left exactly when the file says left; the start height is shifted by -600, -648 or -542 by engine version and not at all from engine 35 on |
| LevelLoading.Relocated | tsc/src/level/level_loader.cpp:337-387 | a relocation changes at most the `image` attribute |
| LevelLoading.RelocatedImage | tsc/src/level/level_loader.cpp:337-465 | an image that no relocation starts from is kept; one that does becomes one of the targets |
| LevelLoading.FromsCons | tsc/src/level/level_loader.cpp:337-465 | the sources and targets of a relocation table are those of its head and its tail |
| LevelLoading.Step | tsc/src/level/level_loader.cpp:337-465 | one relocation block changes at most the `image` attribute |
| LevelLoading.Migrated | tsc/src/level/level_loader.cpp:337-465 | the blocks of the table change at most the `image` attribute |
| LevelLoading.MigratedSprite | tsc/src/level/level_loader.cpp:332-470 | a sprite's migration changes only image, position and type, and an `undefined` type becomes `passive` |
| LevelLoading.MigratedKeepsImage | tsc/src/level/level_loader.cpp:337-465 | an image that no applicable block starts from is kept |
| LevelLoading.MigratedCurrent | tsc/src/level/level_loader.cpp:337-465 | a level at least as new as every block is not migrated |
| LevelLoading.CurrentSpriteOnlyTypeFixed | tsc/src/level/level_loader.cpp:466-470 | a current level's sprite only gets the `undefined` type fixed |
| LevelLoading.PipeRelocationsCompose | tsc/src/level/level_loader.cpp:400-418 | an old green vertical pipe ends as `pipes/grey/ver_1.png` |
| LevelLoading.MigratedSpriteImage | tsc/src/level/level_loader.cpp:332-470 | the final image is the one the early blocks and then the late blocks give |
| LevelLoading.GreenPipeNotRelocatedEarly | tsc/src/level/level_loader.cpp:337-387 | the early blocks leave the green pipe alone |
| LevelLoading.PipeRelocationsLate | tsc/src/level/level_loader.cpp:393-465 | the late blocks take the green pipe to `pipes/grey/ver_1.png` |
| LevelLoading.GreenPipeNotFire | tsc/src/level/level_loader.cpp:393-399 | the first late block leaves the green pipe alone |
| LevelLoading.GreenPipeMadeGrey | tsc/src/level/level_loader.cpp:400-407 | the block for engines before 41 makes the green pipe grey |
| LevelLoading.GreyPipeRenamed | tsc/src/level/level_loader.cpp:410-419 | the block for engines before 42 renames the grey pipe |
| LevelLoading.GreyPipeNotRelocatedLate | tsc/src/level/level_loader.cpp:423-465 | the remaining blocks leave `pipes/grey/ver_1.png` alone |
| LevelLoading.MigratedUnfold | tsc/src/level/level_loader.cpp:337-465 | migrating from a block is that block followed by the rest |
| LevelLoading.RelocatedOnce | tsc/src/level/level_loader.cpp:337-465 | with distinct sources, an image listed in the table becomes its own target |
| LevelLoading.HillShiftAsWrittenMovesOthers | tsc/src/level/level_loader.cpp:525-531 | the condition as written moves every texture but the green hill head, e.g. a ground tile by -6, which the corrected test leaves alone |
| LevelLoading.HillShiftMovesHeads | tsc/src/level/level_loader.cpp:525-531 | the corrected test moves exactly the green and light blue hill heads of engines before 23, by -6, and nothing else |
| LevelLoading.PipeShiftAsWrittenMissesPipe | tsc/src/level/level_loader.cpp:491-522 | the pipe correction for engines before 22 compares the texture after relocation to the old pipe names, so it never moves the pipe, which the old name would have moved by -6 |
| LevelLoading.NotPixmapOf | tsc/src/level/level_loader.cpp:491-539 | with distinct image paths, a texture matches only its own name |
| LevelLoading.GroundTileNoPipe | tsc/src/level/level_loader.cpp:491-522 | a ground tile is no pipe |
| LevelLoading.GreyVer1NoOldPipe | tsc/src/level/level_loader.cpp:491-522 | the relocated pipe name is not among the old pipe names |
| LevelLoading.OldPipeShifted | tsc/src/level/level_loader.cpp:491-539 | the corrected sprite moves an old pipe by -6 along its axis, on top of the slider and hill corrections |
| LevelLoading.SpriteObjectsAgreeOnNewLevels | tsc/src/level/level_loader.cpp:488-593 | from engine 23 on the as-written and corrected sprites agree and only the slider correction applies |
| LevelLoading.NoOldCorrections | tsc/src/level/level_loader.cpp:488-593 | from engine 23 on neither the pipe nor the hill correction applies |
| LevelLoading.SpriteObjectAsWrittenMovesGround | tsc/src/level/level_loader.cpp:525-531 | as written, an old level's ground tile is moved up by 6; the corrected sprite is not moved |
| LevelLoading.GroundTileShifts | tsc/src/level/level_loader.cpp:488-593 | a ground tile gets no pipe or slider correction, and only the as-written hill one |
| LevelLoading.GroundTileNotSlider | tsc/src/level/level_loader.cpp:570-589 | a ground tile is not the right slider tile |
| LevelLoading.BoxTypes | tsc/src/level/level_loader.cpp:637-684 | at most one box; one exactly for `bonus`, `gold` and `invisible`, always as a bonus box; gold gives a goldpiece box, invisible an invisible one |
| LevelLoading.AtMostOneObject | tsc/src/level/level_loader.cpp:289-330 | an element creates at most one object; a sprite or enemy stopper always one, and only sprites, enemy stoppers and boxes create any |
| LevelLoading.UidOf | tsc/src/level/level_loader.cpp:270-280 | the uid is an unsigned long, and a non-negative uid is taken as given |
| LevelLoading.LevelLoader.constructor | tsc/src/level/level_loader.cpp:44-48 | no level yet and nothing collected |
| LevelLoading.LevelLoader.ParseFile | tsc/src/level/level_loader.cpp:66-70 | the loader remembers the file it parses |
| LevelLoading.LevelLoader.StartDocument | tsc/src/level/level_loader.cpp:72-79 | a fresh empty level of the current engine version; a second document is refused |
| LevelLoading.LevelLoader.EndDocument | tsc/src/level/level_loader.cpp:81-88 | the level gets the file name and a negative engine version becomes 0 |
| LevelLoading.LevelLoader.StartElement | tsc/src/level/level_loader.cpp:90-116 | a property records its name and value; `script` starts the script |
| LevelLoading.LevelLoader.Characters | tsc/src/level/level_loader.cpp:151-158 | text is appended to the script only inside `script` |
| LevelLoading.LevelLoader.ParseTagInformation | tsc/src/level/level_loader.cpp:164-175 | the engine version and save time are read from the information |
| LevelLoading.LevelLoader.ParseTagSettings | tsc/src/level/level_loader.cpp:177-200 | the level's settings are those the settings function reads |
| LevelLoading.LevelLoader.ParseTagPlayer | tsc/src/level/level_loader.cpp:213-250 | the player start is the one the player function reads |
| LevelLoading.LevelLoader.ParseLevelObjectTag | tsc/src/level/level_loader.cpp:252-283 | each object created is added to the level, built from its attributes, and the z-ordering is kept |
| LevelLoading.LevelLoader.AddObjects | tsc/src/level/level_loader.cpp:262-282 | the loop adds each object in turn, keeping the level valid and z-sorted |
| LevelLoading.LevelLoader.AddObject | tsc/src/level/level_loader.cpp:270-280 | one object is added, fresh, built from its attributes; the largest uid does not shrink |
| LevelLoading.LevelLoader.EndElement | tsc/src/level/level_loader.cpp:118-149 | the header changes as the element's kind says, the properties are cleared unless it was a property, and `script` ends the script |
| LevelLoading.LevelLoader.ObjectTagEnd | tsc/src/level/level_loader.cpp:140-145 | the objects of the element are added, keeping the level valid and z-sorted |
| LevelLoading.LevelLoader.ParseHeaderTag | tsc/src/level/level_loader.cpp:123-139 | information, settings and player set their own part of the header |
| LevelLoading.HeaderAfter | tsc/src/level/level_loader.cpp:123-139 | each header element changes only its own part of the header |
| LevelLoading.AddedExtend | tsc/src/level/level_loader.cpp:262-282 | adding one more built object keeps the record of what was added |
| LevelLoading.NewActor | tsc/src/level/level_loader.cpp:472 | a new actor is built from the object's attributes, unattached, at its start position |
| SmcLevel.Difficulty | smc/src/level/level.cpp:1114-1123 | a difficulty above 100 becomes 0; any other is kept |
| SmcLevel.DefaultHeader | smc/src/level/level.cpp:456-482 | a reset level has a negative engine version, i.e. is not loaded |
| SmcLevel.EngineVersionForms | smc/src/level/level.cpp:1189-1201 | both the old float form and the integer form of a version read back as that version |
| SmcLevel.HeightLimitText | smc/src/level/level.cpp:1204-1214 | an older level's height limit is moved up by 600; a current one is kept |
| SmcLevel.SettingsHeader | smc/src/level/level.cpp:1204-1222 | the settings keep the version and save time, bound the difficulty to [0, 100] and take the height limit as migrated |
| SmcLevel.PlayerStartByVersion | smc/src/level/level.cpp:1240-1271 | the start height is shifted by -542, -648 or -600 by engine version and not at all from 35 on; the direction is left or right |
| SmcLevel.LevelExitMotion | smc/src/level/level.cpp:1583-1591 | an old level exit's `motion` becomes `camera_motion`, one higher |
| SmcLevel.CurrentLevelExitUnchanged | smc/src/level/level.cpp:1572-1596 | a current level exit is left alone |
| SmcLevel.OldSliderImagesRenamed | smc/src/level/level.cpp:1767-1772 | the slider renaming changes only the three top images |
| SmcLevel.FallingPlatformKeeps | smc/src/level/level.cpp:1749-1798 | apart from speed, times and images, a falling platform keeps its attributes |
| SmcLevel.FallingPlatformStill | smc/src/level/level.cpp:1751-1765 | a falling platform does not move and shakes for 12 frames, and `time_fall` is gone |
| SmcLevel.FallingPlatformTouchTime | smc/src/level/level.cpp:1753-1762 | the touch time is `time_fall` times 32, or 48 without one |
| SmcLevel.GumbaBecomesFurball | smc/src/level/level.cpp:1805-1818 | an old gumba becomes a furball, and a red one blue |
| SmcLevel.RexBecomesKrush | smc/src/level/level.cpp:1819-1825 | an old rex becomes a krush |
| SmcLevel.JpiranhaBecomesFlyon | smc/src/level/level.cpp:1829-1852 | an old jpiranha becomes a flyon with its image directory renamed |
| SmcLevel.FlyonImageDirReplacesFirst | smc/src/level/level.cpp:1839-1850 | the first "jpiranha" in the image directory becomes "flyon" |
| SmcLevel.FindFirst | smc/src/level/level.cpp:1842 | searching finds the first occurrence at or after the start |
| SmcLevel.CurrentEnemyUnchanged | smc/src/level/level.cpp:1800-1862 | a current enemy is left alone |
| SmcLevel.StemHasNoSlash | smc/src/level/level.cpp:1072-1097 | a file's stem contains no `/` |
| SmcLevel.Trim | smc/src/level/level.cpp:125 | the trimmed name neither starts nor ends with the character |
| SmcLevel.WithLevelExtension | smc/src/level/level.cpp:1084-1085 | the file name ends with `.smclvl` |
| SmcLevel.LevelExtensionTest | smc/src/level/level.cpp:1084 | the extension is `.smclvl` exactly when the name ends so |
| SmcLevel.JoinedEndsWith | smc/src/level/level.cpp:163-165 | a path made absolute ends as its last component does |
| SmcLevel.LevelFileFor | smc/src/level/level.cpp:1072-1097 | a new file name ends with `.smclvl`; there is none exactly when the stem is shorter than two characters |
| SmcLevel.FreeNewSlot | smc/src/level/level.cpp:131-156 | the first of `new_1` … `new_100` that does not exist, with all before it existing; none when all exist |
| SmcLevel.EntryFrom | smc/src/level/level.cpp:1130-1157 | the first live level entry with the name, none before it; none when there is no such entry |
| SmcLevel.EntryIndex | smc/src/level/level.cpp:1132-1135 | an empty name finds no entry |
| SmcLevel.EndEffect | smc/src/level/level.cpp:1182-1315 | the level always has a background |
| SmcLevel.EndAddsAtMostOneSprite | smc/src/level/level.cpp:1272-1297 | a closing element adds at most one sprite: the object built from the migrated attributes, with the saved uid |
| SmcLevel.BackgroundsGrowOrGradientReplaced | smc/src/level/level.cpp:1224-1238 | a gradient background replaces the first background; any other is appended |
| SmcLevel.Level.constructor | smc/src/level/level.cpp:92-109 | a new level is valid, not loaded, with the default settings and the gradient background |
| SmcLevel.Level.FromState | smc/src/level/level.cpp:250-287 | the level holds the state the parser built |
| SmcLevel.Level.SetDifficulty | smc/src/level/level.cpp:1114-1123 | only the difficulty changes, bounded as `Set_Difficulty` bounds it |
| SmcLevel.Level.Unload | smc/src/level/level.cpp:290-343 | a delayed unload only marks it; otherwise the level is reset and not loaded |
| SmcLevel.Level.New | smc/src/level/level.cpp:121-187 | the level is unloaded; it succeeds exactly when a target name is found and that file does not exist, and then takes that file and the current engine version |
| SmcLevel.Level.SetFilename | smc/src/level/level.cpp:1072-1097 | the file name becomes the level file for the name, or stays when the name is too short |
| SmcLevel.Level.GetEntry | smc/src/level/level.cpp:1130-1157 | the entry found is the first live level entry with the name |
| SmcLevel.Level.StartElement | smc/src/level/level.cpp:1170-1180 | a property records its name and value; `script` starts the script |
| SmcLevel.Level.Text | smc/src/level/level.cpp:1317-1324 | script text is appended only inside `script` |
| SmcLevel.Level.EndElement | smc/src/level/level.cpp:1182-1315 | a property changes nothing; any other element has its effect and clears the properties |
| SmcLevel.Level.ApplyEnd | smc/src/level/level.cpp:1188-1310 | the element has the effect the end function gives |
| SmcLevel.Unloaded | smc/src/level/level.cpp:290-343 | an unloaded level has a negative engine version |
| SmcLevel.UnloadedIdempotent | smc/src/level/level.cpp:290-343 | unloading twice is unloading once |
| TscLevel.Actor.constructor | tsc/src/objects/actor.cpp:31-35 | a new actor is front-passive on the front-passive layer, cannot be ground, has no UID and no level, and stands at the origin |
| TscLevel.Actor.FromAttributes | tsc/src/objects/actor.cpp:37-92 | the actor stands at `posx`/`posy` (also its start), with the collision type named by `type` and the layer and ground capability that type implies |
| TscLevel.Actor.SetCollisionType | tsc/src/objects/actor.cpp:702-746 | the collision type is set; a type with a layer sets the layer and ground capability, the others keep them |
| TscLevel.Actor.Shift | tsc/src/level/level_loader.cpp:525-531 | the position moves by the offset, and the start position follows on each axis that moved |
| TscLevel.Actor.SetOnGround | tsc/src/objects/actor.cpp:539-553 | the ground is set, and the vertical speed zeroed, exactly when the ground can be ground |
| TscLevel.Actor.ResetOnGround | tsc/src/objects/actor.cpp:564-569 | the old ground is returned and the actor has none |
| TscLevel.Actor.Copy | tsc/src/objects/actor.cpp:98-105 | a new actor at this one's start position, without UID or level |
| TscLevel.Actor.HandleCollision | tsc/src/objects/actor.cpp:409-468 | every collision is handled; one from below with a massive sufferer that can be ground sets that ground, and any other leaves ground and speed alone |
| TscLevel.ZsOf | tsc/src/level/level.cpp:294-319 | the depths of the actors, in order |
| TscLevel.InsertionIndex | tsc/src/level/level.cpp:305-316 | the first position whose depth is not below the new one: every depth before it is smaller |
| TscLevel.InsertKeepsSorted | tsc/src/level/level.cpp:294-319 | inserting at the insertion index keeps the depths sorted |
| TscLevel.InsertionKeepsDepthOrder | tsc/src/level/level.cpp:294-319 | an actor inserted at the insertion index of its own depth keeps an actor list in depth order |
| TscLevel.InsertAddsOne | tsc/src/level/level.cpp:294-319 | the insertion adds exactly the one depth |
| TscLevel.MirrorRecordedOnce | tsc/src/level/level.cpp:227-239 | a recorded collision stays, and its mirror image is not recorded again |
| TscLevel.CollisionRecorded | tsc/src/level/level.cpp:227-239 | a collision is recorded under its causer unless its mirror image is there already |
| TscLevel.CollisionsFoundAreTheActors | tsc/src/level/level.cpp:255-270 | the actor records collisions only as their causer, never with itself, a passive actor or one it does not touch |
| TscLevel.Level.constructor | tsc/src/level/level.cpp:83-98 | a new level has the current engine version, the player start at 100,100, the default camera limits, and no actors, collisions or script |
| TscLevel.Level.NextUid | tsc/src/level/level.cpp:302 | each new UID is one more than the last |
| TscLevel.Level.AddActor | tsc/src/level/level.cpp:294-319 | the actor joins this level with the given UID, or the next one when none is given, at the place its depth calls for, keeping the list sorted |
| TscLevel.Level.InsertByDepth | tsc/src/level/level.cpp:305-318 | the actor is inserted at its depth's place, nothing is lost, and a sorted list stays sorted |
| TscLevel.Level.AssignUid | tsc/src/level/level.cpp:298-303 | the given UID, or the next one when none is given |
| TscLevel.Level.InsertionPoint | tsc/src/level/level.cpp:305-316 | the loop stops at the insertion index |
| TscLevel.Level.AddCollisionIfRequired | tsc/src/level/level.cpp:227-239 | the collisions become those with the new one recorded when required |
| TscLevel.Level.CheckCollisionsForActor | tsc/src/level/level.cpp:255-270 | the collisions become those the actor finds against the other actors, in list order |
| TscLevel.Snapshot | tsc/src/level/level.cpp:255-270 | the UIDs and collision types of the actors, in order |
| TscLevel.ZsAfterInsert | tsc/src/level/level.cpp:294-319 | the depths after inserting an actor are the depths with its depth inserted |
| TscLevel.InsertedMembers | tsc/src/level/level.cpp:294-319 | inserting adds the actor and nothing else |
| TscLevel.InsertionIndexUnique | tsc/src/level/level.cpp:305-316 | a position with all smaller depths before it and no smaller depth at it is the insertion index |
| Actors.GroundTypes | tsc/src/objects/actor.cpp:702-746 | anim and active types set no layer; massive, enemy, lava, half-massive and player can be ground; massive, enemy and lava lie on the massive layer |
| Actors.BlockingIsCollidable | tsc/src/objects/actor.cpp:753-799 | what blocks can be collided with, and half-massive is the only collidable type that does not block |
| Actors.HandlerDispatch | tsc/src/objects/actor.cpp:409-435 | massive and active sufferers go to the massive handler, passive-like ones to the passive handler, anim is swallowed, the player to the player handler |
| SmcLevelManager.Probe | smc/src/level/level_manager.cpp:161-207 | every probed new-format file ends with `.smclvl` |
| SmcLevelManager.Probes | smc/src/level/level_manager.cpp:161-207 | two non-empty candidates in the user directory, four when the game directory is searched as well |
| SmcLevelManager.NoEmptyProbe | smc/src/level/level_manager.cpp:161-207 | the candidate lists hold no empty path |
| SmcLevelManager.FirstExisting | smc/src/level/level_manager.cpp:161-207 | the first candidate that exists, none before it existing; none when no candidate exists |
| SmcLevelManager.GetPathIsFirstExisting | smc/src/level/level_manager.cpp:161-207 | `Get_Path` is the first existing candidate, or empty |
| SmcLevelManager.GetPathFound | smc/src/level/level_manager.cpp:161-207 | a path found exists and is a candidate; the path is empty exactly when no candidate exists |
| SmcLevelManager.OldFormatNotLoaded | smc/src/level/level.cpp:250-287 | a file of the old `.txt` format does not load |
| SmcLevelManager.FirstNamed | smc/src/level/level_manager.cpp:148-159 | the first level with the name, none before it having it; none when no level has it |
| SmcLevelManager.NamesOf | smc/src/level/level_manager.cpp:148-159 | each level's name is the stem of its file, in order |
| SmcLevelManager.SubLevelTarget | smc/src/level/level_manager.cpp:342-360 | an empty name means the active level itself; any other name is taken as given |
| SmcLevelManager.LevelManager.LevelNames | smc/src/level/level_manager.cpp:148-159 | the names of the loaded levels, in order |
| SmcLevelManager.LevelManager.constructor | smc/src/level/level_manager.cpp:39-54 | one empty, unloaded level, which is active; no return entries and no fixed camera speed |
| SmcLevelManager.LevelManager.Unload | smc/src/level/level_manager.cpp:67-94 | every level but the last is dropped and the last one becomes active and is unloaded; the camera speed is kept in level mode and zeroed otherwise |
| SmcLevelManager.LevelManager.New | smc/src/level/level_manager.cpp:96-115 | the return stack is cleared; an existing level name gives no level; otherwise a level is created exactly when its file name is free |
| SmcLevelManager.LevelManager.Load | smc/src/level/level_manager.cpp:117-135 | a loaded level of that name is returned as it is; otherwise it is read from its path and appended, or none; the return stack is cleared unless it is a sub-level |
| SmcLevelManager.LevelManager.ClearReturns | smc/src/level/level_manager.cpp:117-135 | the return stack is emptied |
| SmcLevelManager.LevelManager.GetOrLoad | smc/src/level/level_manager.cpp:117-135 | a loaded level of the name is returned, else the file at its path is loaded and appended, else none |
| SmcLevelManager.LevelManager.LoadFile | smc/src/level/level.cpp:250-287 | a file that loads becomes a fresh level appended to the list; otherwise nothing changes |
| SmcLevelManager.LevelManager.SetActive | smc/src/level/level_manager.cpp:137-146 | a level becomes active; none leaves the active one in place and fails |
| SmcLevelManager.LevelManager.Get | smc/src/level/level_manager.cpp:148-159 | the first loaded level of that name, or none |
| SmcLevelManager.LevelManager.GotoSubLevel | smc/src/level/level_manager.cpp:342-478 | going to the active level itself finds the entry in it and loads nothing; another level is looked up or loaded first |
| SmcLevelManager.CreatedLevel | smc/src/level/level.cpp:121-187 | a new level has the file, the current engine version, no sprites and the gradient background |
| LevelBackground.CodeOfTypeOfCode | tsc/src/level/level_background.cpp:79 | casting a number to a background type keeps the number |
| LevelBackground.TypeOfCodeOfType | tsc/src/level/level_background.cpp:79 | every type is the cast of its own number |
| LevelBackground.TypeNameRoundTrip | tsc/src/level/level_background.cpp:156-179 | every type's name sets that type |
| LevelBackground.UnknownNameKeepsType | tsc/src/level/level_background.cpp:156-179 | an unknown name keeps the type |
| LevelBackground.ColorFrom | tsc/src/level/level_background.cpp:84-91 | a colour read from attributes has byte components |
| LevelBackground.Loaded | tsc/src/level/level_background.cpp:77-103 | the type is the number in `type` |
| LevelBackground.LoadedDispatch | tsc/src/level/level_background.cpp:77-103 | only a gradient reads colours and only an image reads its image fields, and an image starts at its start position |
| LevelBackground.Saved | tsc/src/level/level_background.cpp:105-144 | nothing is saved exactly for a disabled background |
| LevelBackground.ByteRoundTrip | tsc/src/level/level_background.cpp:84-91 | a byte written as a number reads back as itself |
| LevelBackground.TypeCodeReadBack | tsc/src/level/level_background.cpp:79 | a saved type number reads back as that type |
| LevelBackground.SavedGradient | tsc/src/level/level_background.cpp:105-144 | a saved gradient holds its type and both colours |
| LevelBackground.LoadedGradient | tsc/src/level/level_background.cpp:81-92 | loading a gradient's type and colours gives that gradient |
| LevelBackground.GradientRoundTrip | tsc/src/level/level_background.cpp:77-144 | a saved gradient reads back as the same gradient |
| LevelBackground.SavedImage | tsc/src/level/level_background.cpp:105-144 | a saved image background holds its type, start position, depth, image, scroll speed and constant velocity |
| LevelBackground.LoadedImage | tsc/src/level/level_background.cpp:93-102 | loading an image background's fields gives that background, at its start position |
| LevelBackground.ImageRoundTrip | tsc/src/level/level_background.cpp:77-144 | a saved image background reads back as the same background |
| LevelBackground.Background.constructor | tsc/src/level/level_background.cpp:37-41 | a new background holds the initial state |
| LevelBackground.Background.FromAttributes | tsc/src/level/level_background.cpp:43-48 | a background from attributes holds what loading them gives |
| LevelBackground.Background.SetType | tsc/src/level/level_background.cpp:151-154 | the type is set |
| LevelBackground.Background.SetTypeName | tsc/src/level/level_background.cpp:156-179 | the type becomes the one named, or stays for an unknown name |
| LevelBackground.Background.SetColor1 | tsc/src/level/level_background.cpp:181-184 | the first colour is set |
| LevelBackground.Background.SetColor2 | tsc/src/level/level_background.cpp:186-189 | the second colour is set |
| LevelBackground.Background.SetImage | tsc/src/level/level_background.cpp:191-209 | the image file is set |
| LevelBackground.Background.SetScrollSpeed | tsc/src/level/level_background.cpp:211-215 | the scroll speed is set |
| LevelBackground.Background.SetStartPos | tsc/src/level/level_background.cpp:217-224 | the start position is set and the background moves back to it |
| LevelBackground.Background.SetPosZ | tsc/src/level/level_background.cpp:226-229 | the depth is set |
| LevelBackground.Background.SetConstVelocityX | tsc/src/level/level_background.cpp:231-236 | the horizontal drift is set and the background returns to its horizontal start |
| LevelBackground.Background.SetConstVelocityY | tsc/src/level/level_background.cpp:238-243 | the vertical drift is set and the background returns to its vertical start |
| LevelBackground.Background.LoadFromAttributes | tsc/src/level/level_background.cpp:77-103 | the state becomes what loading the attributes gives |
| LevelBackground.Background.LoadImage | tsc/src/level/level_background.cpp:93-102 | the image fields become those read from the attributes |
| LevelBackground.Background.SaveToXmlNode | tsc/src/level/level_background.cpp:105-144 | the node written is the saved form of the state; none exactly for a disabled background |
| Overworld.ProgressFlags | tsc/src/overworld/overworld.cpp:686-704 | progress keeps one access flag per waypoint |
| Overworld.LastValid | tsc/src/overworld/overworld.cpp:778-792 | the last accessible waypoint is -1 or an index from 1 on (waypoint 0 is never reported) |
| Overworld.LastValidIsLast | tsc/src/overworld/overworld.cpp:778-792 | a reported waypoint is accessible and none after it is |
| Overworld.ForcedProgressLastValid | tsc/src/overworld/overworld.cpp:686-704 | after forced progress to `n`, the last accessible waypoint is `n` (bounded by the list), or none when `n` is 0 or there is at most one waypoint |
| Overworld.UnforcedProgressGrows | tsc/src/overworld/overworld.cpp:686-704 | unforced progress only grants access: what was accessible stays so, and every waypoint up to `n` becomes so |
| Overworld.IndexOf | tsc/src/overworld/overworld.cpp:741-759 | the first waypoint with the destination, none before it; -1 when none has it |
| Overworld.LevelExtensionHasDot | tsc/src/overworld/overworld.cpp:731-739 | a name with a level extension contains a dot |
| Overworld.LevelWaypointName | tsc/src/overworld/overworld.cpp:731-739 | the level extension, when present, is cut at the last dot; other names are kept |
| Overworld.Overworld.State | tsc/src/overworld/overworld.cpp:160-182 | the state holds the engine version and the objects |
| Overworld.Overworld.Flags | tsc/src/overworld/overworld.cpp:686-704 | one access flag per waypoint |
| Overworld.Overworld.Destinations | tsc/src/overworld/overworld.cpp:741-759 | one destination per waypoint |
| Overworld.Overworld.constructor | tsc/src/overworld/overworld.cpp:105-108 | a new world is unloaded, named `Unnamed` in `world_1`, with the default music and no waypoints or objects |
| Overworld.Overworld.Unload | tsc/src/overworld/overworld.cpp:209-228 | afterwards the world is unloaded; a loaded world loses its objects and waypoints |
| Overworld.Overworld.New | tsc/src/overworld/overworld.cpp:190-207 | an empty name fails and changes nothing; otherwise the world is reset, loaded at the current engine version, named after the path, with the default colour |
| Overworld.Overworld.SetProgress | tsc/src/overworld/overworld.cpp:686-704 | the access flags become the progress flags; defaults and destinations are kept |
| Overworld.Overworld.GetWaypointByName | tsc/src/overworld/overworld.cpp:706-718 | the first waypoint with the destination, or none |
| Overworld.Overworld.GetWaypoint | tsc/src/overworld/overworld.cpp:720-729 | none exactly when the index is outside the list, otherwise that waypoint |
| Overworld.Overworld.GetWaypointNum | tsc/src/overworld/overworld.cpp:741-759 | the index of the first waypoint with the destination, or -1 |
| Overworld.Overworld.GetLevelWaypointNum | tsc/src/overworld/overworld.cpp:731-739 | the index of the waypoint of the level, found without its extension |
| Overworld.Overworld.GetLastValidWaypoint | tsc/src/overworld/overworld.cpp:778-792 | the loop finds the last accessible waypoint |
| Overworld.Overworld.ResetWaypoints | tsc/src/overworld/overworld.cpp:883-890 | every waypoint's access returns to its default, and nothing else changes |
| Overworld.IndexOfFound | tsc/src/overworld/overworld.cpp:741-759 | the first waypoint with the destination is the one found |
| Overworld.IndexOfAbsent | tsc/src/overworld/overworld.cpp:741-759 | a destination no waypoint has gives -1 |
| WorldWaypoint.DestinationOrder | tsc/src/overworld/world_waypoint.cpp:41-77 | the destination is `world`, else `level`, else `destination` |
| WorldWaypoint.GlimStepConsistent | tsc/src/overworld/world_waypoint.cpp:147-168 | the glimmer rises only while at most 120 and falls only while at least 7 |
| WorldWaypoint.GlimStepBounded | tsc/src/overworld/world_waypoint.cpp:147-168 | the glimmer stays within its band, and with a bounded step the tint stays a byte |
| WorldWaypoint.Waypoint.constructor | tsc/src/overworld/world_waypoint.cpp:35-39 | a new waypoint is normal, without destination or access, without directions, at the origin, with the glimmer at its start |
| WorldWaypoint.Waypoint.FromAttributes | tsc/src/overworld/world_waypoint.cpp:41-77 | the position, type, destination, directions and access are read from the attributes |
| WorldWaypoint.Waypoint.SetAccess | tsc/src/overworld/world_waypoint.cpp:317-324 | the access is set, and its default too when asked |
| WorldWaypoint.Waypoint.SetDestination | tsc/src/overworld/world_waypoint.cpp:326-329 | the destination is set |
| WorldWaypoint.Waypoint.Copy | tsc/src/overworld/world_waypoint.cpp:113-124 | a fresh waypoint at the start position with the same type, destination, directions and default access |
| WorldWaypoint.Waypoint.Update | tsc/src/overworld/world_waypoint.cpp:147-168 | a destroyed waypoint keeps its glimmer; any other takes one glimmer step |
| WorldWaypoint.AttributeDefaults | tsc/src/overworld/world_waypoint.cpp:41-77 | without attributes the backward direction is left, the forward right, access granted and the type normal |
| SmcWorldWaypoint.Waypoint.constructor | smc/src/overworld/world_waypoint.cpp:35-39 | a new waypoint is normal, without destination or access, at the origin, with the glimmer at its start |
| SmcWorldWaypoint.Waypoint.FromAttributes | smc/src/overworld/world_waypoint.cpp:41-71 | the position is read from `x`/`y`, and type, destination and access from their attributes |
| SmcWorldWaypoint.Waypoint.SetAccess | smc/src/overworld/world_waypoint.cpp:202-210 | the access is set, and its default too when asked |
| SmcWorldWaypoint.Waypoint.Copy | smc/src/overworld/world_waypoint.cpp:98-107 | a fresh waypoint at the start position with the same type, destination and default access |
| SmcWorldWaypoint.Waypoint.Update | smc/src/overworld/world_waypoint.cpp:126-152 | a destroyed waypoint keeps its glimmer; any other takes the same glimmer step as TSC's |
| OverworldLoading.ClassifyEndCases | tsc/src/overworld/overworld_loader.cpp:90-123 | a closing element is a property exactly when named so, and unknown exactly when it is none of the world's elements |
| OverworldLoading.MigrationOfCurrentWorlds | tsc/src/overworld/overworld_loader.cpp:185-245 | worlds of engine 3 are not migrated; from 2 only sprites are, by the bridge relocation |
| OverworldLoading.MigrationKeepsOtherKeys | tsc/src/overworld/overworld_loader.cpp:185-245 | a migration adds no attribute and keeps the values it does not migrate |
| OverworldLoading.OldSpriteRenamed | tsc/src/overworld/overworld_loader.cpp:187-202 | an old sprite's file and position become `image`/`posx`/`posy`, its height moves up by 600, and the old bridge is relocated |
| OverworldLoading.OldWaypointShiftUnread | tsc/src/overworld/overworld_loader.cpp:238-245 | the shifted `y` of an old waypoint is written to an attribute its constructor does not read, so the waypoint sits at height 0 |
| OverworldLoading.OldWaypointShiftRead | tsc/src/overworld/overworld_loader.cpp:238-245 | the corrected migration places an old waypoint at its shifted height |
| OverworldLoading.WaypointMigrationsAgree | tsc/src/overworld/overworld_loader.cpp:238-245 | both migrations agree on current worlds |
| OverworldLoading.EndEffectFails | tsc/src/overworld/overworld_loader.cpp:150-163 | a closing element fails exactly for a player without waypoint or moving state, or a background without all three colours |
| OverworldLoading.FailedEndChangesAtMostStart | tsc/src/overworld/overworld_loader.cpp:90-163 | a closing element changes at most the start waypoint beyond its own part, and only a player with a waypoint changes that |
| OverworldLoading.EndEffectAppendsObjects | tsc/src/overworld/overworld_loader.cpp:169-183 | a closing object other than a waypoint appends one object and keeps the others |
| OverworldLoading.EndEffectFieldsByTag | tsc/src/overworld/overworld_loader.cpp:129-163 | the colour changes only on a background, to byte components; the engine version only on the information |
| OverworldLoading.OverworldLoader.constructor | tsc/src/overworld/overworld_loader.cpp:25-29 | no world yet and nothing collected |
| OverworldLoading.OverworldLoader.StartDocument | tsc/src/overworld/overworld_loader.cpp:52-58 | a fresh, empty, unloaded world; a second document is refused |
| OverworldLoading.OverworldLoader.EndDocument | tsc/src/overworld/overworld_loader.cpp:60-65 | a negative engine version becomes 0, and the world counts as loaded |
| OverworldLoading.OverworldLoader.StartElement | tsc/src/overworld/overworld_loader.cpp:67-88 | a property records its name and value; any other element changes nothing collected |
| OverworldLoading.OverworldLoader.EndElement | tsc/src/overworld/overworld_loader.cpp:90-123 | the world changes as the element's effect says, and the properties are cleared after a handled element |
| OverworldLoading.OverworldLoader.HeaderTagEnd | tsc/src/overworld/overworld_loader.cpp:129-163 | a header element has its effect |
| OverworldLoading.OverworldLoader.ObjectTagEnd | tsc/src/overworld/overworld_loader.cpp:169-183 | an object element has its effect; only a waypoint changes the waypoint list |
| OverworldLoading.OverworldLoader.ParseTagPlayer | tsc/src/overworld/overworld_loader.cpp:150-156 | the player element has its effect |
| OverworldLoading.OverworldLoader.ParseTagBackground | tsc/src/overworld/overworld_loader.cpp:158-163 | the background element has its effect |
| OverworldLoading.OverworldLoader.AddWaypoint | tsc/src/overworld/overworld_loader.cpp:238-245 | a fresh waypoint built from the migrated attributes joins the end of the list |
| OverworldLoading.NewObject | tsc/src/overworld/overworld_loader.cpp:169-183 | an object keeps its attributes |
| Boxes.InvisibleOfCode | tsc/src/objects/box.cpp:51-61 | the cast of a number is a well-formed invisibility kind |
| Boxes.InvisibleCodeRoundTrip | tsc/src/objects/box.cpp:51-61 | the cast loses nothing in either direction |
| Boxes.AnimationSetsComplete | tsc/src/objects/box.cpp:141-188 | every animation type has an image set with a `main` and a `disabled` image |
| Boxes.UsesRunOut | tsc/src/objects/box.cpp:344-355 | after n activations a box with c uses has max(c - n, 0) left, and is still usable exactly when n < c |
| Boxes.NegativeCountUnlimited | tsc/src/objects/box.cpp:344-355 | a negative count never runs out |
| Boxes.StepShrinks | tsc/src/objects/box.cpp:287-342 | each frame of the bump brings the box closer to rest by at least min(0.2 × speed factor, 0.5) |
| Boxes.BumpEnds | tsc/src/objects/box.cpp:287-342 | after enough frames the bump is over |
| Boxes.Box.constructor | tsc/src/objects/box.cpp:45-49 | a new box is massive, ground-capable, just behind the climbable layer, usable once, visible, with no bump |
| Boxes.Box.FromAttributes | tsc/src/objects/box.cpp:51-61 | the box stands at `posx`/`posy` and its invisibility is the cast of `invisible` |
| Boxes.Box.Init | tsc/src/objects/box.cpp:63-86 | the box gets the initial settings |
| Boxes.Box.InitFields | tsc/src/objects/box.cpp:63-86 | the box's fields get their initial values |
| Boxes.Box.SetAnimationType | tsc/src/objects/box.cpp:141-188 | setting the same type changes nothing; another type sets its image set and shows `main` |
| Boxes.Box.SetUseableCount | tsc/src/objects/box.cpp:190-202 | the count is set, and the start count too when asked (never below -1) |
| Boxes.Box.SetBoxInvisible | tsc/src/objects/box.cpp:204-243 | the kind is set; only a change to or from semi-massive changes visibility and collision type |
| Boxes.Box.StartCollision | tsc/src/objects/box.cpp:245-285 | a bump starts exactly when none is running and uses remain; a semi-massive box then becomes visible and massive |
| Boxes.Box.ActivateCollision | tsc/src/objects/box.cpp:245-285 | a started bump moves the box in the direction and uses it once; otherwise nothing changes |
| Boxes.Box.Activate | tsc/src/objects/box.cpp:344-355 | a positive count drops by one |
| Boxes.Box.UpdateCollision | tsc/src/objects/box.cpp:287-342 | the bump takes one step, and the box returns to its start when the bump ends |
| Boxes.Box.Update | tsc/src/objects/box.cpp:357-373 | the box animates exactly when visible, ghost-visible to a ghost player, or used; the bump takes one step |
| Boxes.Box.HandleCollisionPlayer | tsc/src/objects/box.cpp:511-528 | a hit from below by a player who is not flying starts a downward bump and uses the box once |
| BonusBoxes.ItemNamesDistinct | tsc/src/objects/bonusbox.cpp:131-190 | different item types have different box names |
| BonusBoxes.GoldcolorAsWrittenKeepsDefault | tsc/src/objects/bonusbox.cpp:220-224 | as written, `COL_DEFAULT` is stored and the box keeps its name, so a jewel box ends up with no colour |
| BonusBoxes.GoldColorFor | tsc/src/objects/bonusbox.cpp:202-241 | the corrected colour is never the default, and a given colour is kept |
| BonusBoxes.CorrectedJewelNamed | tsc/src/objects/bonusbox.cpp:202-241 | the corrected jewel box has a colour and the jewel name of that colour |
| BonusBoxes.GoldcolorAgreesOffDefault | tsc/src/objects/bonusbox.cpp:202-241 | both versions agree on every colour but `COL_DEFAULT` |
| BonusBoxes.PowerupPick | tsc/src/objects/bonusbox.cpp:249-269 | a random power-up is one of the five named power-ups |
| BonusBoxes.BonusBox.constructor | tsc/src/objects/bonusbox.cpp:46-50 | a new bonus box is empty, yellow, usable once, with the bonus animation |
| BonusBoxes.BonusBox.FromAttributes | tsc/src/objects/bonusbox.cpp:52-64 | the item is read from `item`; best item is forced for power-ups or when asked; a goldpiece box takes `gold_color`, yellow by default |
| BonusBoxes.BonusBox.LoadItem | tsc/src/objects/bonusbox.cpp:52-64 | the item, forced best item and gold colour are read from the attributes |
| BonusBoxes.BonusBox.Init | tsc/src/objects/bonusbox.cpp:75-87 | the box is empty, yellow and shows the bonus animation |
| BonusBoxes.BonusBox.SetUseableCount | tsc/src/objects/bonusbox.cpp:115-129 | the count is set, and the image set follows it |
| BonusBoxes.BonusBox.SetBonusType | tsc/src/objects/bonusbox.cpp:131-190 | the item is set; a new item renames the box and a power-up forces the best item |
| BonusBoxes.BonusBox.SetForceBestItem | tsc/src/objects/bonusbox.cpp:192-200 | the flag is set, except on a random power-up box, which always forces it |
| BonusBoxes.BonusBox.SetGoldcolor | tsc/src/objects/bonusbox.cpp:202-241 | the colour is stored as given, and a goldpiece box with a jewel colour takes the jewel's name |
| BonusBoxes.BonusBox.Activate | tsc/src/objects/bonusbox.cpp:243-351 | a use is spent, the item is kept, and the image set follows the count |
| BonusBoxes.BonusBox.ActivateCollision | tsc/src/objects/box.cpp:245-285 | a started bump moves the box and spends one use; otherwise nothing changes |
| BonusBoxes.BonusBox.HandleCollisionPlayer | tsc/src/objects/box.cpp:511-528 | a hit from below by a player who is not flying bumps the box down and spends one use |
| LevelExits.LoadedExit | tsc/src/objects/level_exit.cpp:45-90 | the destination, return level and entry are read from their attributes, the path identifier only for path motion |
| LevelExits.SavedKeys | tsc/src/objects/level_exit.cpp:148-182 | each setting is written under its own key, and only when set |
| LevelExits.SaveLoadRoundTrip | tsc/src/objects/level_exit.cpp:45-182 | writing an exit and reading it back gives the same exit |
| LevelExits.ExitActivation | tsc/src/objects/level_exit.cpp:243-369 | an exit without destination finishes the level when the return stack is empty, otherwise pops it and goes there; an exit with destination pushes its return and goes to it |
| LevelExits.ReturnTrip | tsc/src/objects/level_exit.cpp:243-369 | going out through an exit and back through one without destination returns to the exit's return level and entry, with the stack as before |
| LevelExits.ReturnStack.constructor | tsc/src/objects/level_exit.cpp:243-369 | the return stack starts empty |
| LevelExits.ReturnStack.Push | tsc/src/objects/level_exit.cpp:243-369 | the entry is pushed on top |
| LevelExits.ReturnStack.Pop | tsc/src/objects/level_exit.cpp:243-369 | popping succeeds exactly on a non-empty stack and returns and removes its top |
| LevelExits.LevelExit.constructor | tsc/src/objects/level_exit.cpp:39-43 | a new exit holds the initial settings and marks no destination |
| LevelExits.LevelExit.FromAttributes | tsc/src/objects/level_exit.cpp:45-90 | the exit holds the settings read from the attributes, and marks a destination exactly when `level_name` is set |
| LevelExits.LevelExit.LoadNames | tsc/src/objects/level_exit.cpp:45-90 | the four names are read from their attributes |
| LevelExits.LevelExit.LoadDirection | tsc/src/objects/level_exit.cpp:45-90 | the direction is read for the exit's type and is also its start direction |
| LevelExits.LevelExit.Copy | tsc/src/objects/level_exit.cpp:128-141 | a fresh exit with the same settings, facing its start direction |
| LevelExits.LevelExit.SetType | tsc/src/objects/level_exit.cpp:371-374 | only the type changes |
| LevelExits.LevelExit.SetCameraMotion | tsc/src/objects/level_exit.cpp:376-379 | only the camera motion changes |
| LevelExits.LevelExit.SetLevel | tsc/src/objects/level_exit.cpp:381-396 | only the destination level changes; a destination is marked unless level and entry are both empty |
| LevelExits.LevelExit.SetEntry | tsc/src/objects/level_exit.cpp:408-424 | only the destination entry changes |
| LevelExits.LevelExit.SetReturnLevel | tsc/src/objects/level_exit.cpp:426-429 | only the return level changes |
| LevelExits.LevelExit.SetReturnEntry | tsc/src/objects/level_exit.cpp:431-434 | only the return entry changes |
| LevelExits.LevelExit.SetPathIdentifier | tsc/src/objects/level_exit.cpp:436-439 | only the path identifier changes |
| LevelExits.LevelExit.SetDirection | tsc/src/objects/level_exit.cpp:184-192 | the same direction changes nothing; another one is set, and its start too when asked |
| LevelExits.LevelExit.SaveToXml | tsc/src/objects/level_exit.cpp:148-182 | the node holds the saved properties of the settings |
| LevelExits.LevelExit.Activate | tsc/src/objects/level_exit.cpp:243-369 | the outcome and the player's return stack are the exit's activation |
| MovingPlatforms.NonNegative | tsc/src/objects/moving_platform.cpp:334-350 | a negative time becomes 0; any other is kept |
| MovingPlatforms.MiddleCount | tsc/src/objects/moving_platform.cpp:366-373 | a count in range is kept; any other becomes the maximum |
| MovingPlatforms.MaxDistance | tsc/src/objects/moving_platform.cpp:314-323 | a negative distance becomes 0; any other is kept |
| MovingPlatforms.GroundForTypes | tsc/src/objects/moving_platform.cpp:275-291 | massive and half-massive platforms can be ground, passive and climbable ones cannot, front-passive ones keep their setting |
| MovingPlatforms.CircleStartHorizontal | tsc/src/objects/moving_platform.cpp:255-267 | a circling platform starts left or right; other types keep their direction |
| MovingPlatforms.AccelerateAlong | tsc/src/objects/moving_platform.cpp:790-823 | below its speed a platform accelerates along its direction only; at its speed it keeps its velocity |
| MovingPlatforms.AccelerationReachesSpeed | tsc/src/objects/moving_platform.cpp:790-823 | accelerating for enough frames reaches the speed |
| MovingPlatforms.SlowDownBounds | tsc/src/objects/moving_platform.cpp:533-604 | slowing down never goes below the lowest speed or above the current one, and only along the direction |
| MovingPlatforms.DistancesSumToMax | tsc/src/objects/moving_platform.cpp:489-532 | the distances to both ends add up to the maximum distance |
| MovingPlatforms.CircleAngleInRange | tsc/src/objects/moving_platform.cpp:609-632 | the angle stays in [0, 360] |
| MovingPlatforms.FallCycle | tsc/src/objects/moving_platform.cpp:421-485 | the shake stays within ±3; a resting platform stays; a touched one shakes once its touch time has passed; a shaking one falls once its shake time has passed |
| MovingPlatforms.TouchLeadsToShake | tsc/src/objects/moving_platform.cpp:421-431 | a touched platform with a touch time starts shaking after enough frames |
| MovingPlatforms.ShakeLeadsToFall | tsc/src/objects/moving_platform.cpp:432-460 | a shaking platform falls after enough frames |
| MovingPlatforms.LineTurnsAtEnd | tsc/src/objects/moving_platform.cpp:489-532 | a platform on a line turns back at either end and keeps its direction in between |
| MovingPlatforms.StateRoundTrip | tsc/src/objects/moving_platform.cpp:229-253 | saving a platform's state and loading it back restores the state |
| MovingPlatforms.MovingPlatform.constructor | tsc/src/objects/moving_platform.cpp:42-46 | a new platform moves along a line, rests, is half-massive, with the default distance, speed, times and middle count |
| MovingPlatforms.MovingPlatform.UpdateVelocity | tsc/src/objects/moving_platform.cpp:790-823 | the velocity is the update for the type, speed and direction |
| MovingPlatforms.MovingPlatform.SetMoveType | tsc/src/objects/moving_platform.cpp:255-267 | the type is set; a circle turns a vertical start direction horizontal and resets the platform |
| MovingPlatforms.MovingPlatform.SetMassiveType | tsc/src/objects/moving_platform.cpp:275-291 | the massive type is set, and ground capability follows it |
| MovingPlatforms.MovingPlatform.SetDirection | tsc/src/objects/moving_platform.cpp:293-312 | the direction is set, and the start too when asked; a new start moves the platform back |
| MovingPlatforms.MovingPlatform.SetMaxDistance | tsc/src/objects/moving_platform.cpp:314-323 | the distance is set (never negative), and slowing down starts at 20% of it |
| MovingPlatforms.MovingPlatform.SetSpeed | tsc/src/objects/moving_platform.cpp:325-332 | the speed is set, the lowest speed is 30% of it, and the velocity is updated |
| MovingPlatforms.MovingPlatform.SetTouchTime | tsc/src/objects/moving_platform.cpp:334-341 | the touch time is set, never negative |
| MovingPlatforms.MovingPlatform.SetShakeTime | tsc/src/objects/moving_platform.cpp:343-350 | the shake time is set, never negative |
| MovingPlatforms.MovingPlatform.SetTouchMoveTime | tsc/src/objects/moving_platform.cpp:352-364 | the touch move time is set, never negative, and the platform returns to its start at rest |
| MovingPlatforms.MovingPlatform.SetMiddleCount | tsc/src/objects/moving_platform.cpp:366-373 | the middle count is set, bounded |
| MovingPlatforms.MovingPlatform.HandleCollisionPlayer | tsc/src/objects/moving_platform.cpp:881-894 | a player landing on a resting platform with a touch time touches it; otherwise the state is kept |
| MovingPlatforms.MovingPlatform.UpdateFall | tsc/src/objects/moving_platform.cpp:421-485 | the falling state takes one step |
| MovingPlatforms.MovingPlatform.UpdateMotion | tsc/src/objects/moving_platform.cpp:488-650 | the motion takes one step |
| MovingPlatforms.MovingPlatform.Update | tsc/src/objects/moving_platform.cpp:406-652 | an inactive or distant platform does not change; otherwise it takes one fall step and one motion step |
| MovingPlatforms.MovingPlatform.LoadFromSavegame | tsc/src/objects/moving_platform.cpp:229-240 | the state is read back from the savegame |
| MovingPlatforms.MovingPlatform.SaveToSavegame | tsc/src/objects/moving_platform.cpp:242-253 | a saved state reads back as itself |
| Balls.NormalTypeKinds | tsc/src/objects/ball.cpp:171-187 | only the ball types 1 to 4 are accepted; each becomes plain fire or plain ice, the same one for a type and its normal form, and the explosion variants become plain fire |
| Balls.CollisionRules | tsc/src/objects/ball.cpp:352-393 | a ball hits the player exactly when the player did not throw it and never blocks on him, passes through other balls, and is blocked by massive ground and by halfmassive ground only when falling |
| Balls.PlayerHitSlows | tsc/src/objects/ball.cpp:405-431 | a ball that hits the player slows him on each axis without reversing that axis, and slows him further against the side it came from |
| Balls.SaveLoadRoundTrip | tsc/src/objects/ball.cpp:120-169 | loading what was saved restores the direction and the velocity, and the position truncated to whole pixels |
| Balls.SavedNamesDistinct | tsc/src/objects/ball.cpp:148-169 | a saved ball has exactly seven properties, under seven different names |
| Balls.SavedPositionLookups | tsc/src/objects/ball.cpp:148-169 | the start and current positions are found under posx/posy and new_posx/new_posy, truncated to whole numbers |
| Balls.SavedMotionLookups | tsc/src/objects/ball.cpp:148-169 | the direction is found under direction and the velocities under velx and vely |
| Balls.SavedLookups | tsc/src/objects/ball.cpp:148-169 | every saved value is found under its own name |
| Balls.Ball.constructor | tsc/src/objects/ball.cpp:71-89 | a new ball is an undestroyed, unmoving fire ball with no origin and no effects |
| Balls.Ball.SetBallType | tsc/src/objects/ball.cpp:171-187 | a known type sets the ball's normal type; an unknown one leaves the type and destroys the ball |
| Balls.Ball.SetOrigin | tsc/src/objects/ball.cpp:189-193 | the ball remembers the array and the sprite type that threw it |
| Balls.Ball.Destroy | tsc/src/objects/ball.cpp:206-225 | the ball ends destroyed; only the first destruction adds the effect of its type |
| Balls.Ball.DestroyBall | tsc/src/objects/ball.cpp:195-204 | the ball ends destroyed; only the first destruction adds the effect of its type |
| Balls.Ball.HandleCollisionPlayer | tsc/src/objects/ball.cpp:405-431 | the player's velocity is slowed as PlayerHit says and the ball is destroyed |
| Balls.Ball.HandleCollisionEnemy | tsc/src/objects/ball.cpp:433-447 | the enemy is hit unless it resists the ball's kind (fire resistance, or full ice resistance); the ball is destroyed either way |
| Balls.Ball.HandleCollisionMassive | tsc/src/objects/ball.cpp:449-489 | landing while flying sideways bounces a fire ball up at 10 and an ice ball at 5; any other ground contact destroys the ball |
| Balls.Ball.HandleCollisionLava | tsc/src/objects/ball.cpp:491-498 | a fire ball jumps off lava at 25; any other ball is destroyed |
| Balls.Ball.HandleOutOfLevel | tsc/src/objects/ball.cpp:500-508 | leaving the level upward changes nothing; leaving it any other way destroys the ball |
| Balls.Ball.SaveToSavegame | tsc/src/objects/ball.cpp:148-169 | the saved object is a ball |
| Balls.Ball.LoadFromSavegame | tsc/src/objects/ball.cpp:120-146 | position, direction and velocity are each replaced by the saved value when present and kept otherwise |
| Balls.DestroyEffectKind | tsc/src/objects/ball.cpp:206-225 | destroying a ball leaves at most one effect, and exactly one for each normal ball type |
| PowerUps.CollisionRules | tsc/src/objects/powerup.cpp:92-129 | a power-up collides internally exactly with the player, passes through balls, and is blocked by massive ground and by halfmassive ground only when falling |
| PowerUps.MushroomLooks | tsc/src/objects/powerup.cpp:212-249 | exactly the five berry types have a look, and different types have different names |
| PowerUps.MushroomPointsOrder | tsc/src/objects/powerup.cpp:251-285 | no berry is worth more than the life berry, and only the poison berry is worth nothing |
| PowerUps.PowerUp.constructor | tsc/src/objects/powerup.cpp:37-47 | a new power-up is active and not destroyed, with no events yet |
| PowerUps.PowerUp.Activate | tsc/src/objects/powerup.cpp:83-90 | collecting counts an event only while the power-up is active |
| PowerUps.Mushroom.SetType | tsc/src/objects/powerup.cpp:212-249 | a known berry type is taken and, if it is new, brings its own name and images; an unknown type changes nothing |
| PowerUps.Mushroom.constructor | tsc/src/objects/powerup.cpp:178-188 | a new berry is the default berry, named Berry, moving right at 3 |
| PowerUps.Mushroom.FromAttributes | tsc/src/objects/powerup.cpp:161-170 | a berry read from a level is placed, active, and of a known type with that type's look |
| PowerUps.Mushroom.Activate | tsc/src/objects/powerup.cpp:251-285 | the player gets the berry's item and its points, and the berry vanishes |
| PowerUps.Mushroom.HandleCollisionPlayer | tsc/src/objects/powerup.cpp:143-151 | a collision with no direction does nothing; any other collects the berry |
| PowerUps.LoadedMushroom | tsc/src/objects/powerup.cpp:161-170 | a berry read from a level is always of a known type |
| PowerUps.LoadedMushroomOfSaved | tsc/src/objects/powerup.cpp:203-210 | reading back a saved berry type gives that type |
| PowerUps.FirePlant.constructor | tsc/src/objects/powerup.cpp:439-452 | a new fire plant is active and not destroyed |
| PowerUps.FirePlant.Activate | tsc/src/objects/powerup.cpp:461-481 | the player gets the fire plant and 700 points, and it vanishes |
| PowerUps.Moon.constructor | tsc/src/objects/powerup.cpp:543-555 | a new moon is active and not destroyed |
| PowerUps.Moon.Activate | tsc/src/objects/powerup.cpp:564-597 | the player gets the moon and 4000 points, and it vanishes |
| Enemies.DirectionOfNumber | tsc/src/enemies/enemy.cpp:65-106 | a saved number that names a direction names exactly that direction |
| Enemies.DirectionNumberRoundTrip | tsc/src/enemies/enemy.cpp:65-146 | every direction is read back from the number it is saved as, and that number fits an int |
| Enemies.SavedLookup | tsc/src/enemies/enemy.cpp:108-146 | a saved key is found in the first group that holds it: start and state, then position, then direction and velocity, then flags |
| Enemies.SavedHeadKeys | tsc/src/enemies/enemy.cpp:108-146 | the start position and the state are always saved |
| Enemies.SavedMiddleKeys | tsc/src/enemies/enemy.cpp:108-146 | the direction and both velocities are always saved |
| Enemies.SavedMovedKeys | tsc/src/enemies/enemy.cpp:108-146 | the current position is saved exactly when the enemy has left its start |
| Enemies.SavedFlagKeys | tsc/src/enemies/enemy.cpp:108-146 | active=0 is saved exactly when the enemy is inactive, and dead=1 exactly when it is dead |
| Enemies.SavedLacks | tsc/src/enemies/enemy.cpp:108-146 | any key other than the saved ones is not found |
| Enemies.SaveLoadRoundTrip | tsc/src/enemies/enemy.cpp:65-146 | loading what was saved restores state, direction, velocity and the active and dead flags, and the position (truncated) when the enemy had moved |
| Enemies.SavedInStateOfSaved | tsc/src/enemies/enemy.cpp:65-146 | the saved state reads back as the enemy's own state and no other |
| Enemies.WalkVelocityApproaches | tsc/src/enemies/enemy.cpp:231-254 | walking left or right moves the velocity toward the direction's top speed without passing it; other directions leave it |
| Enemies.NormalDyingEnds | tsc/src/enemies/enemy.cpp:186-197 | shrinking to death ends with the enemy hidden and, if it was shown, at full scale again |
| Enemies.Enemy.constructor | tsc/src/enemies/enemy.cpp:34-58 | a new enemy is a massive, falling, living, active enemy worth 10 points with all counters at zero |
| Enemies.Enemy.SetDead | tsc/src/enemies/enemy.cpp:148-160 | the dead flag is set as asked, the enemy no longer counts as ground, a death counts one event, and a dead enemy is no longer updated |
| Enemies.Enemy.HandleOutOfLevel | tsc/src/enemies/enemy.cpp:335-352 | leaving at the bottom downgrades the enemy; at a side it is put back inside the limits and turns around |
| Enemies.Enemy.UpdateVelocity | tsc/src/enemies/enemy.cpp:231-254 | the horizontal velocity becomes the walking velocity; the vertical one is kept |
| Enemies.Enemy.UpdateDying | tsc/src/enemies/enemy.cpp:172-212 | one frame of dying follows DyingStep and does not move the enemy sideways |
| Enemies.Enemy.SaveToSavegame | tsc/src/enemies/enemy.cpp:108-146 | the saved object carries the enemy's own sprite type |
| Enemies.Enemy.LoadPosition | tsc/src/enemies/enemy.cpp:65-106 | state and position are replaced by the saved values when present and kept otherwise |
| Enemies.Enemy.LoadMotion | tsc/src/enemies/enemy.cpp:65-106 | the velocity is replaced by the saved values when present and kept otherwise; the direction is replaced by a saved number that names a direction, and kept otherwise |
| Enemies.Enemy.LoadFlags | tsc/src/enemies/enemy.cpp:65-106 | the active and dead flags are read when present; a saved dead flag makes the enemy stop counting as ground |
| Enemies.Enemy.LoadFromSavegame | tsc/src/enemies/enemy.cpp:65-106 | the enemy's saved state becomes LoadedEnemy of the properties, and only a saved dead flag changes whether it is ground |
| Enemies.ClampedCount | tsc/src/enemies/bosses/turtle_boss.cpp:139-146 | a count the setters take is never negative: a negative one becomes 0 and any other is kept |
| TurtleBosses.HitsTotal | tsc/src/enemies/bosses/turtle_boss.cpp:227-251 | after n stomps the hit and round counters together account for exactly n more stomps, and the hit counter stays below the round size |
| TurtleBosses.EveryStompARound | tsc/src/enemies/bosses/turtle_boss.cpp:227-251 | when a round is at most one stomp, every stomp completes a round |
| TurtleBosses.StompsToKill | tsc/src/enemies/bosses/turtle_boss.cpp:227-251 | with the death test as meant, a fresh boss is dead after n stomps exactly when n reaches rounds times round size |
| TurtleBosses.StompsToKillAsWritten | tsc/src/enemies/bosses/turtle_boss.cpp:242 | with the equality test of the source, a fresh boss's death test holds after n stomps exactly when n equals rounds times round size, and at no later stomp |
| TurtleBosses.MaxZeroBossSurvivesAsWritten | tsc/src/enemies/bosses/turtle_boss.cpp:242 | with a maximum of 0 rounds the source's death test never holds, while the test as meant holds after the first round |
| TurtleBosses.AnimationSpeedsCapped | tsc/src/enemies/bosses/turtle_boss.cpp:344-390 | the walking animation speed starts at 1 and the rolling one at 3; both grow with the stomps taken and are capped at 15 |
| TurtleBosses.FreshTurtleSpeed | tsc/src/enemies/bosses/turtle_boss.cpp:635-656 | a fresh red boss walks at 3.6, gaining 0.5 a frame |
| TurtleBosses.TurtleSpeedGrows | tsc/src/enemies/bosses/turtle_boss.cpp:635-656 | more stomps never make a red boss slower, walking or rolling |
| TurtleBosses.ShellTimeLosesFractionAsWritten | tsc/src/enemies/bosses/turtle_boss.cpp:63 | read as written, a level with no shell time, or with 2.5, gives the boss 2 seconds instead of 2.5 |
| TurtleBosses.ShellTimeAsWrittenFetchesInt | tsc/src/enemies/bosses/turtle_boss.cpp:63 | reading the shell time as written is reading it as a whole number, with the whole part of the current time as the default |
| TurtleBosses.ShellTimeKept | tsc/src/enemies/bosses/turtle_boss.cpp:63 | read as a float, a missing shell time keeps the current one and a saved one comes back exactly |
| TurtleBosses.ShellTimeSet | tsc/src/enemies/bosses/turtle_boss.cpp:157-164 | the stored shell time is never negative, and a non-negative one is kept as given |
| TurtleBosses.TurtleBoss.constructor | tsc/src/enemies/bosses/turtle_boss.cpp:75-105 | a new boss is a walking red turtle boss, fire resistant, worth 750 points, with 3 stomps a round, 3 rounds, 2.5 seconds of rolling, and the level ending when it dies |
| TurtleBosses.TurtleBoss.Init | tsc/src/enemies/bosses/turtle_boss.cpp:75-105 | Init makes the enemy a walking red turtle boss with no stomps counted, 3 stomps a round, and the other settings kept |
| TurtleBosses.TurtleBoss.InitMotion | tsc/src/enemies/bosses/turtle_boss.cpp:75-105 | the boss walks right at 3.6, gaining 0.5, with a camera range of 1500 |
| TurtleBosses.TurtleBoss.InitKind | tsc/src/enemies/bosses/turtle_boss.cpp:75-105 | the boss is a red turtle boss worth 750 points, fire resistant and not hurt by shells |
| TurtleBosses.TurtleBoss.FromAttributes | tsc/src/enemies/bosses/turtle_boss.cpp:42-67 | the level's position, colour, counts (negative ones as 0), whole-second shell time, level end and left or right direction are taken, with the Init values where absent |
| TurtleBosses.TurtleBoss.LoadPlacement | tsc/src/enemies/bosses/turtle_boss.cpp:42-51 | the position read is both the position and the start position, and only a left or right direction is taken |
| TurtleBosses.TurtleBoss.LoadSettings | tsc/src/enemies/bosses/turtle_boss.cpp:54-66 | colour, counts and level end come from the attributes where present, the counts clamped at 0 |
| TurtleBosses.TurtleBoss.LoadShellTime | tsc/src/enemies/bosses/turtle_boss.cpp:63 | the shell time is read as a whole number, with the whole part of the current time as the default, and clamped at 0 |
| TurtleBosses.TurtleBoss.SetMaxHits | tsc/src/enemies/bosses/turtle_boss.cpp:139-146 | the round size is the given count, a negative one taken as 0 |
| TurtleBosses.TurtleBoss.SetMaxDowngradeCounts | tsc/src/enemies/bosses/turtle_boss.cpp:148-155 | the number of rounds is the given count, a negative one taken as 0 |
| TurtleBosses.TurtleBoss.SetShellTime | tsc/src/enemies/bosses/turtle_boss.cpp:157-164 | the shell time is the given one, a negative one taken as 0 |
| TurtleBosses.TurtleBoss.SetDirection | tsc/src/enemies/bosses/turtle_boss.cpp:166-175 | only left and right are taken, also as the start direction when asked; any other direction changes nothing |
| TurtleBosses.TurtleBoss.UpdateVelocityMax | tsc/src/enemies/bosses/turtle_boss.cpp:635-656 | the top speed and gain become what TurtleSpeed gives for the state, the colour and the stomps taken |
| TurtleBosses.TurtleBoss.SetColor | tsc/src/enemies/bosses/turtle_boss.cpp:177-207 | a new colour updates the speed, and red sets the points to 750; setting the same colour changes nothing |
| TurtleBosses.TurtleBoss.SetTurtleMovingState | tsc/src/enemies/bosses/turtle_boss.cpp:344-390 | the new state sets the enemy state, camera range, counter, animation speed and top speed as the source's table says; the same state changes nothing |
| TurtleBosses.TurtleBoss.TurnAround | tsc/src/enemies/bosses/turtle_boss.cpp:214-225 | the boss turns and reverses its velocity along that axis, at half speed while walking |
| TurtleBosses.TurtleBoss.CountStomp | tsc/src/enemies/bosses/turtle_boss.cpp:231-250 | a stomp is counted; a completed round resets the counter and either kills the boss, by the source's equality test, or makes it angry at half speed |
| TurtleBosses.TurtleBoss.DownGrade | tsc/src/enemies/bosses/turtle_boss.cpp:227-287 | a forced downgrade kills; a walking boss counts the stomp; a standing shell starts rolling; a dead boss stops and no longer blocks; the course is clear when a dead boss ends the level |
| TurtleBosses.TurtleBoss.UpdateAngry | tsc/src/enemies/bosses/turtle_boss.cpp:482-536 | an angry boss turns every tenth of its count and, after 60, rolls off in the way it faces and throws 6 plus 2 per round fireballs |
| TurtleBosses.TurtleBoss.StandUp | tsc/src/enemies/bosses/turtle_boss.cpp:539-561 | a shell that is not blocked stands up and walks; otherwise nothing changes |
| TurtleBosses.TurtleBoss.HitEnemy | tsc/src/enemies/bosses/turtle_boss.cpp:563-582 | a rolling boss hits exactly the living enemies, and earns their points |
| Armies.ArmyShellCycle | tsc/src/enemies/army.cpp:212-247 | only a forced downgrade kills the armadillo; a stomp turns a walker into a standing shell, and two stomps on a shell bring it back to its state |
| Armies.ArmySpeedOrder | tsc/src/enemies/army.cpp:479-505 | a green armadillo is faster than a red one, walking and as a rolling shell |
| Armies.DyingFallBounds | tsc/src/enemies/army.cpp:249-280 | the dying fall rises during the first 10 frames and then falls, never faster than 25 |
| Armies.ArmySaveLoadRoundTrip | tsc/src/enemies/army.cpp:108-141 | a saved shell state is restored unless the armadillo is being carried; any other state keeps the placed one |
| Armies.Army.constructor | tsc/src/enemies/army.cpp:63-80 | a new armadillo is red, walking right at 3.6 with gain 0.2, camera range 1500, worth 50 points |
| Armies.Army.UpdateVelocityMax | tsc/src/enemies/army.cpp:479-505 | the top speed and gain become what ArmySpeed gives for the state and colour |
| Armies.Army.SetDirection | tsc/src/enemies/army.cpp:143-155 | only left and right are taken, also as the start direction when asked; any other direction changes nothing |
| Armies.Army.SetColor | tsc/src/enemies/army.cpp:157-195 | a new colour sets the points and the speed of that colour; the same colour changes nothing |
| Armies.Army.SetArmyMovingState | tsc/src/enemies/army.cpp:287-319 | the new state sets the enemy state, camera range, rotation and speed as the source's table says; the same state changes nothing |
| Armies.Army.TurnAround | tsc/src/enemies/army.cpp:197-210 | the armadillo turns and reverses its velocity along that axis, at half speed while walking |
| Armies.Army.DownGrade | tsc/src/enemies/army.cpp:212-247 | the armadillo moves to the state ArmyDownGrade gives, with that state's camera range and speed, or dies when forced |
| Armies.Army.StandUp | tsc/src/enemies/army.cpp:410-432 | a shell that is not blocked stands up and walks at the walking speed; otherwise nothing changes |
| Armies.Army.UpdateShellStand | tsc/src/enemies/army.cpp:352-370 | a standing shell counts frames and, at 192, resets the count and stands up unless blocked |
| Armies.Army.HitEnemy | tsc/src/enemies/army.cpp:434-477 | a rolling shell hits a living enemy that shells can hit, except a red one against a rolling green armadillo; it earns the points, and dies itself against a spikeball or a spika |
| Armies.Army.UpdateNormalDying | tsc/src/enemies/army.cpp:249-280 | a dying armadillo spins and moves sideways and along the dying fall until it is below the limits, then is hidden and dead |
| Armies.Army.SaveToSavegame | tsc/src/enemies/army.cpp:131-141 | the army state is saved exactly when the armadillo is not walking |
| Armies.Army.LoadFromSavegame | tsc/src/enemies/army.cpp:108-129 | the common enemy state is loaded, and a saved shell state is taken unless the armadillo is carried, with that state's moving state |
| Furballs.FurballKindsRanked | tsc/src/enemies/furball.cpp:157-210 | exactly brown, blue and black furballs exist; only black resists fire and is not hurt by shells; points and ice resistance rise from brown to blue to black |
| Furballs.FurballSpeedOrder | tsc/src/enemies/furball.cpp:522-556 | a running furball is faster than a walking one, and blue is faster than brown |
| Furballs.SlowDownSlows | tsc/src/enemies/furball.cpp:396-431 | slowing down moves the velocity toward zero without passing it |
| Furballs.DiesWithinAsMeant | tsc/src/enemies/furball.cpp:230-297 | with the death test as meant, a boss dies by the stomp numbered by its maximum, and at the first when the maximum is 0 |
| Furballs.DiesWithinAsWritten | tsc/src/enemies/furball.cpp:247 | with the source's equality test, a boss dies by the stomp numbered by its maximum only when that maximum is at least 1 |
| Furballs.MaxZeroFurballSurvivesAsWritten | tsc/src/enemies/furball.cpp:247 | a boss with a maximum of 0 never dies by the source's test, and dies at the first stomp by the test as meant |
| Furballs.Furball.constructor | tsc/src/enemies/furball.cpp:70-89 | a new furball is a brown walking furball worth 10 points, walking at 2.7 with gain 0.2 |
| Furballs.Furball.Init | tsc/src/enemies/furball.cpp:70-89 | Init makes the enemy a brown walking furball worth 10 points, walking at 2.7 with gain 0.2 |
| Furballs.Furball.FromAttributes | tsc/src/enemies/furball.cpp:42-63 | the level's position, colour and direction are taken; a black furball becomes the boss, with its level's maximum and level end |
| Furballs.Furball.LoadPlacement | tsc/src/enemies/furball.cpp:45-54 | the position read is both the position and the start position, and the colour decides whether it is the boss |
| Furballs.Furball.LoadBossSettings | tsc/src/enemies/furball.cpp:56-62 | the boss's maximum downgrades (clamped at 0) and level end come from the attributes where present |
| Furballs.Furball.SetMaxDowngradeCount | tsc/src/enemies/furball.cpp:131-138 | the maximum is the given count, a negative one taken as 0 |
| Furballs.Furball.SetDirection | tsc/src/enemies/furball.cpp:145-155 | the start direction becomes the given one, and the direction too when it changed |
| Furballs.Furball.SetColor | tsc/src/enemies/furball.cpp:157-210 | a new known colour sets that kind's points, resistances, shell rule and speed; black makes the furball the boss |
| Furballs.Furball.UpdateVelocityMax | tsc/src/enemies/furball.cpp:522-556 | the top speed and gain become what FurballSpeed gives for the state, colour and downgrades |
| Furballs.Furball.SetMovingState | tsc/src/enemies/furball.cpp:352-384 | the new state sets the speed, resets the running or hit counter and sets the animation speed; the same state changes nothing |
| Furballs.Furball.TurnAround | tsc/src/enemies/furball.cpp:212-228 | the furball turns and reverses its velocity along that axis, at half speed when turned by a side hit while walking or running |
| Furballs.Furball.DownGrade | tsc/src/enemies/furball.cpp:230-297 | a stomp on a standing or running boss is ignored; one on the boss counts and kills by the source's equality test or makes it stand; a plain furball or a forced downgrade dies; a dead one stops |
| Furballs.Furball.UpdateBossCycle | tsc/src/enemies/furball.cpp:396-450 | a standing boss slows down and, after 60, runs off jumping; a running boss runs for 120 and then walks; a boss out of range or in another state is untouched |
| Furballs.Furball.HandleCollisionPlayer | tsc/src/enemies/furball.cpp:640-675 | a stomp from above by a player who does not fly downgrades the furball and bounces the player, with the points when it died; any other contact hurts the player and a side contact turns the furball |
| Furballs.Furball.LoadFromSavegame | tsc/src/enemies/furball.cpp:124-129 | only the common enemy state is loaded |
| Krushes.KrushStompsToDeath | tsc/src/enemies/krush.cpp:134-177 | two stomps kill a walking krush, and a forced downgrade kills at once |
| Krushes.Krush.constructor | tsc/src/enemies/krush.cpp:56-71 | a new krush walks right at 3 with gain 0.2 and is worth 20 points |
| Krushes.Krush.SetMovingState | tsc/src/enemies/krush.cpp:179-199 | walking is worth 20 points at speed 3, running 40 points at speed 5.5 |
| Krushes.Krush.UpdateVelocityMax | tsc/src/enemies/krush.cpp:213-223 | walking sets speed 3 and gain 0.2, running speed 5.5 and gain 0.4; other states keep them |
| Krushes.Krush.SetDirection | tsc/src/enemies/krush.cpp:112-122 | the start direction becomes the given one, and the direction too when it changed |
| Krushes.Krush.DownGrade | tsc/src/enemies/krush.cpp:134-177 | the first stomp makes the krush run, worth 40 at speed 5.5; the next one, or a forced downgrade, kills it |
| Krushes.Krush.LoadFromSavegame | tsc/src/enemies/krush.cpp:96-110 | the common enemy state is loaded, and a saved running state brings the running points and speed |
| Pips.PipDownGradeHurts | tsc/src/enemies/pip.cpp:132-187 | every downgrade hurts a pip, and a running pip always dies |
| Pips.Pip.constructor | tsc/src/enemies/pip.cpp:57-73 | a new pip walks right at 2 with gain 0.2 and is worth 35 points |
| Pips.Pip.SetMovingState | tsc/src/enemies/pip.cpp:189-205 | walking is worth 35 points at speed 2, running 70 at speed 7; the same or another state changes nothing |
| Pips.Pip.UpdateVelocityMax | tsc/src/enemies/pip.cpp:218-228 | walking sets speed 2 and gain 0.2, running speed 7 and gain 0.5; other states keep them |
| Pips.Pip.SetDirection | tsc/src/enemies/pip.cpp:112-120 | the start direction becomes the given one, and the direction too when it changed |
| Pips.Pip.TurnAround | tsc/src/enemies/pip.cpp:122-130 | the pip turns; a side or undirected turn halves the speed, any other reverses it whole |
| Pips.Pip.DownGrade | tsc/src/enemies/pip.cpp:132-187 | a stomp on a walking pip makes it run, worth 70, 5 higher; a running pip or a forced downgrade dies |
| Pips.Pip.HandleCollisionPlayer | tsc/src/enemies/pip.cpp:262-302 | a stomp from above by a player who does not fly downgrades the pip (a small player only bounces); any other contact hurts the player |
| Pips.Pip.LoadFromSavegame | tsc/src/enemies/pip.cpp:97-110 | the common enemy state is loaded, and a saved running state brings the running points and speed |
| Larries.LarryFuseChain | tsc/src/enemies/larry.cpp:94-107 | a stomp lights a walking larry and the next one kills it; a larry never dies by force alone |
| Larries.Larry.constructor | tsc/src/enemies/larry.cpp:48-70 | a new larry walks right at 1.5 with gain 0.3 and is worth 300 points |
| Larries.Larry.SetMovingState | tsc/src/enemies/larry.cpp:284-303 | walking sets speed 1.5 and gain 0.3; other states keep the speed |
| Larries.Larry.SetDirection | tsc/src/enemies/larry.cpp:174-181 | the start direction already set changes nothing; another one is taken, and as the start direction when initial |
| Larries.Larry.Fuse | tsc/src/enemies/larry.cpp:305-314 | a lit larry runs but stands still at first |
| Larries.Larry.DownGrade | tsc/src/enemies/larry.cpp:94-107 | the larry moves to the state LarryDownGrade gives: lit and standing, or dead and stopped |
| Larries.Larry.UpdateFuse | tsc/src/enemies/larry.cpp:109-158 | a lit larry counts its fuse and dies once the count passes the fuse length |
| Larries.Larry.UpdateDying | tsc/src/enemies/larry.cpp:160-172 | a dead larry is hidden after 12 frames and explodes, inactive, after 24 |
| Larries.Larry.TurnAround | tsc/src/enemies/larry.cpp:269-282 | the larry turns and stops |
| Larries.Larry.HandleBallHit | tsc/src/enemies/larry.cpp:257-267 | a fireball kills the larry, counting toward the kill multiplier; an ice ball changes nothing |
| Larries.Larry.HandleCollisionPlayer | tsc/src/enemies/larry.cpp:235-249 | a stomp lights a walking larry and kills a lit one, worth no points; other contacts leave it |
| Thromps.DestVelOneAxis | tsc/src/enemies/thromp.cpp:394-416 | a thromp flies along exactly the axis of its direction, at its speed, with the sign of the direction |
| Thromps.DistToFinalMeasures | tsc/src/enemies/thromp.cpp:446-463 | the distance left to the end of the flight falls by what has been travelled, from the full distance |
| Thromps.ReturnNeverSlows | tsc/src/enemies/thromp.cpp:267-358 | a returning thromp never slows down and never leaves its axis |
| Thromps.ThrompSaveLoadRoundTrip | tsc/src/enemies/thromp.cpp:125-150 | a saved returning flag is restored for a living thromp, and the placed one is kept otherwise |
| Thromps.Thromp.constructor | tsc/src/enemies/thromp.cpp:75-95 | a new thromp stands facing down, speed 7, range 200, fire resistant, worth 200 points |
| Thromps.Thromp.Init | tsc/src/enemies/thromp.cpp:75-95 | Init makes the enemy a standing thromp facing down at speed 7 with range 200, worth 200 points |
| Thromps.Thromp.FromAttributes | tsc/src/enemies/thromp.cpp:48-67 | the level's position, direction, range (clamped at 0) and speed (at least 0.1) are taken, and the flight velocity follows them |
| Thromps.Thromp.LoadPlacement | tsc/src/enemies/thromp.cpp:51-60 | the position read is both the position and the start position, and the direction read is the start direction |
| Thromps.Thromp.LoadSettings | tsc/src/enemies/thromp.cpp:62-66 | range and speed come from the attributes where present, clamped, and the flight velocity follows |
| Thromps.Thromp.SetDirection | tsc/src/enemies/thromp.cpp:170-182 | the same start direction changes nothing; a new one is taken and the flight velocity follows |
| Thromps.Thromp.SetMaxDistance | tsc/src/enemies/thromp.cpp:184-193 | the range is the given one, a negative one taken as 0 |
| Thromps.Thromp.SetSpeed | tsc/src/enemies/thromp.cpp:195-204 | the speed is the given one but at least 0.1, and the flight velocity follows |
| Thromps.Thromp.UpdateDestVel | tsc/src/enemies/thromp.cpp:394-416 | the flight velocity becomes DestVel of the start direction and speed |
| Thromps.Thromp.Activate | tsc/src/enemies/thromp.cpp:206-220 | a standing thromp starts flying at its flight velocity; a flying one is unchanged |
| Thromps.Thromp.MoveBack | tsc/src/enemies/thromp.cpp:222-237 | a thromp that is out and not yet returning turns back at a hundredth of its flight speed |
| Thromps.Thromp.DownGrade | tsc/src/enemies/thromp.cpp:239-260 | a downgraded thromp dies and stops, turned over when forced |
| Thromps.Thromp.UpdateDying | tsc/src/enemies/thromp.cpp:262-265 | a dead thromp is hidden |
| Thromps.Thromp.Update | tsc/src/enemies/thromp.cpp:267-358 | a standing thromp flies when the player is in front; a flying one turns back at the end of its range; a returning one stands again at its start |
| Thromps.Thromp.SaveToSavegame | tsc/src/enemies/thromp.cpp:140-150 | the returning flag is saved exactly when the thromp is returning |
| Thromps.Thromp.LoadFromSavegame | tsc/src/enemies/thromp.cpp:125-138 | the common enemy state is loaded, and the returning flag as LoadedMoveBack says |
| Thromps.ClampedDistance | tsc/src/enemies/thromp.cpp:184-193 | a range is never negative, and a non-negative one is kept |
| Thromps.ClampedSpeed | tsc/src/enemies/thromp.cpp:195-204 | a speed is never below 0.1, and one at least 0.1 is kept |
| Rokkos.RokkoFliesAhead | tsc/src/enemies/rokko.cpp:202-224 | a rokko flies at its speed along its direction: right and left on the x axis, up and down on the y axis |
| Rokkos.RokkoRotationsDistinct | tsc/src/enemies/rokko.cpp:138-169 | each direction has its own rotation, and only left and right leave the z rotation at 0 |
| Rokkos.ClampedRokkoSpeed | tsc/src/enemies/rokko.cpp:171-178 | a rokko's speed is never below 2, and one at least 2 is kept |
| Rokkos.AtLeast | tsc/src/enemies/rokko.cpp:180-200 | a distance is never below its least value, and one at least that is kept |
| Rokkos.Rokko.constructor | tsc/src/enemies/rokko.cpp:62-96 | a new rokko is a hidden, passive, waiting rokko facing left at speed 8.5, fire and ice resistant, worth 250 points |
| Rokkos.Rokko.Init | tsc/src/enemies/rokko.cpp:62-96 | Init makes the enemy a hidden, passive, waiting rokko facing left at speed 8.5, with its distances |
| Rokkos.Rokko.FromAttributes | tsc/src/enemies/rokko.cpp:41-54 | the level's position, direction and speed (at least 2) are taken, and the rokko waits hidden |
| Rokkos.Rokko.SetDirection | tsc/src/enemies/rokko.cpp:138-169 | the same start direction changes nothing; a new one is taken with its rotation |
| Rokkos.Rokko.SetSpeed | tsc/src/enemies/rokko.cpp:171-178 | the speed is the given one but at least 2 |
| Rokkos.Rokko.SetMaxDistanceFront | tsc/src/enemies/rokko.cpp:180-189 | the front distance is the given one but at least the least front distance |
| Rokkos.Rokko.SetMaxDistanceSides | tsc/src/enemies/rokko.cpp:191-200 | the side distance is the given one but at least 50 |
| Rokkos.Rokko.SetManual | tsc/src/enemies/rokko.cpp:608-611 | the manual flag is the given one |
| Rokkos.Rokko.Activate | tsc/src/enemies/rokko.cpp:202-224 | an activated rokko is shown, massive and flying along its direction |
| Rokkos.Rokko.DownGrade | tsc/src/enemies/rokko.cpp:226-245 | a downgraded rokko dies, turns passive and falls with gravity 26 |
| Rokkos.Rokko.Update | tsc/src/enemies/rokko.cpp:284-320 | a waiting, automatic rokko in range wakes exactly when the player, not a ghost, is in front, and then flies; otherwise nothing changes |
| Rokkos.Rokko.LoadFromSavegame | tsc/src/enemies/rokko.cpp:123-136 | the common enemy state is loaded; a living rokko saved while flying is shown, massive and flying again |
| Gees.GeeAxisNormal | tsc/src/enemies/gee.cpp:135-173 | a gee's direction is always an axis, horizontal or vertical, and an axis is kept |
| Gees.GeeKindsRanked | tsc/src/enemies/gee.cpp:184-228 | exactly yellow, red and green gees exist; only red resists fire; speed and points rise from yellow to red to green |
| Gees.FlyStartAlongAxis | tsc/src/enemies/gee.cpp:259-304 | a gee starts flying along its axis, in a direction of that axis, at its flying speed |
| Gees.AtMaxDistanceIsDisplacement | tsc/src/enemies/gee.cpp:438-462 | a gee is at its maximum distance exactly when its displacement along its direction exceeds it, never in the opposite direction as well |
| Gees.FlownNeverNegative | tsc/src/enemies/gee.cpp:306-354 | flying only adds to the distance flown |
| Gees.Gee.constructor | tsc/src/enemies/gee.cpp:69-92 | a new gee is a yellow waiting gee on the horizontal axis, flying at 6, range 400, waiting 2 seconds, worth 50 points |
| Gees.Gee.Init | tsc/src/enemies/gee.cpp:69-92 | Init makes the enemy a yellow waiting gee on the horizontal axis, flying at 6, range 400, waiting 2 seconds |
| Gees.Gee.InitFlight | tsc/src/enemies/gee.cpp:69-92 | the flight range and distance are 400, the wait is 2 seconds, and the gee does not always fly |
| Gees.Gee.FromAttributes | tsc/src/enemies/gee.cpp:36-61 | the level's position, axis, range (clamped at 0), always-fly flag, wait time, fly distance and colour are taken |
| Gees.Gee.LoadPlacement | tsc/src/enemies/gee.cpp:39-45 | the position read is both the position and the start position, and the direction is taken as its axis |
| Gees.Gee.LoadSettings | tsc/src/enemies/gee.cpp:47-60 | range, always-fly flag, wait time, fly distance and colour come from the attributes where present |
| Gees.Gee.SetDirection | tsc/src/enemies/gee.cpp:135-173 | the same start direction changes nothing; a new one sets the axis and stops the gee |
| Gees.Gee.SetMaxDistance | tsc/src/enemies/gee.cpp:175-182 | the range is the given one, a negative one taken as 0 |
| Gees.Gee.SetColor | tsc/src/enemies/gee.cpp:184-228 | a new known colour sets that kind's speed, points and fire resistance; otherwise nothing changes |
| Gees.Gee.DownGrade | tsc/src/enemies/gee.cpp:237-251 | a downgraded gee dies and stops, turned over when forced |
| Gees.Gee.UpdateDying | tsc/src/enemies/gee.cpp:253-257 | a dead gee is hidden |
| Gees.Gee.SetMovingState | tsc/src/enemies/gee.cpp:259-304 | waiting stops the gee and resets the distance flown; flying starts it along its axis and resets the wait |
| Gees.Gee.Stop | tsc/src/enemies/gee.cpp:391-394 | the gee waits, stopped, with no distance flown |
| Gees.Gee.Activate | tsc/src/enemies/gee.cpp:375-389 | a gee flies exactly when its range and fly distance are not 0, starting along its axis |
| Gees.Gee.Update | tsc/src/enemies/gee.cpp:306-354 | a waiting gee in range counts its wait and flies when it is over or it always flies; a flying gee stops at its fly distance or its range |
| Gees.Gee.LoadFromSavegame | tsc/src/enemies/gee.cpp:126-131 | only the common enemy state is loaded |
| Hud.ScaledPoints | tsc/src/gui/hud.cpp:466-499 | without the multiplier the points are credited as they are; with it they are the product cut to a whole number, never fewer than the points for a multiplier of at least 1 |
| Hud.MiniTextsBounded | tsc/src/gui/hud.cpp:466-499 | a mini text is added exactly when neither coordinate is 0 and the list is not over its limit; otherwise the list is unchanged, so it never grows past the limit plus one |
| Hud.Unfinished | tsc/src/gui/hud.cpp:430-454 | erasing keeps exactly the mini texts that have not finished |
| Hud.UnfinishedIdempotent | tsc/src/gui/hud.cpp:430-454 | erasing the finished mini texts a second time removes nothing more |
| Hud.PlayerPoints.constructor | tsc/src/gui/hud.cpp:417-423 | a new points display has no mini texts |
| Hud.PlayerPoints.SetPoints | tsc/src/gui/hud.cpp:456-464 | the player's points are the given ones |
| Hud.PlayerPoints.AddPoints | tsc/src/gui/hud.cpp:466-499 | the player gains the scaled points, and a mini text showing them (or the given text) is added as WithMiniText says |
| Hud.PlayerPoints.DropFinished | tsc/src/gui/hud.cpp:430-454 | the finished mini texts are erased and the rest kept in order |
| Hud.LiveDisplay.constructor | tsc/src/gui/hud.cpp:561-565 | a new lives display shows no text |
| Hud.LiveDisplay.SetLives | tsc/src/gui/hud.cpp:581-600 | the player's lives are the given ones, and a non-negative count is shown as LivesText gives it for the mode |
| Hud.LiveDisplay.AddLives | tsc/src/gui/hud.cpp:602-605 | the player's lives grow by the given count, and a non-negative total is shown |
| Hud.GoldRollover | tsc/src/gui/hud.cpp:532-552 | the gold kept plus 100 per life gained is the gold given; what is kept is below 100, and for non-negative gold it is the remainder and the lives the quotient |
| Hud.OneUpTexts | tsc/src/gui/hud.cpp:532-552 | the mini texts gain at most one "1UP" per life, after the old ones, and never pass the limit plus one |
| Hud.GoldDisplay.SetGold | tsc/src/gui/hud.cpp:532-552 | every 100 pieces become a life with a 1UP text, the rest is kept as gold, points are unchanged, and lives times 100 plus gold is conserved |
| Hud.GoldDisplay.AddGold | tsc/src/gui/hud.cpp:554-557 | adding gold is setting the current gold plus the new pieces, with lives times 100 plus gold conserved |
| Hud.RolloverUnique | tsc/src/gui/hud.cpp:532-552 | what the rollover loop ends with is the remainder and the quotient by 100 |
| Hud.ClockOf | tsc/src/gui/hud.cpp:620-647 | the clock shows minutes and seconds below 60 that together are the whole seconds elapsed |
| Hud.ClockMonotone | tsc/src/gui/hud.cpp:620-647 | more elapsed time never shows an earlier clock |
| Hud.TimeDisplay.constructor | tsc/src/gui/hud.cpp:609-613 | a new clock is at zero and blank |
| Hud.TimeDisplay.Reset | tsc/src/gui/hud.cpp:658-664 | a reset clock is at zero and blank |
| Hud.TimeDisplay.Update | tsc/src/gui/hud.cpp:620-647 | in a level the elapsed time is added, wrapping at the tick range, and the clock is shown when a new second starts; in the editor, overworld or menu it is not |
| Hud.TimeDisplay.SetTime | tsc/src/gui/hud.cpp:666-670 | in a level the time becomes the given one plus the update's elapsed time; elsewhere it is the given one |
| Hud.DebugSetText | tsc/src/gui/hud.cpp:1019-1032 | a text is shown for the display time; an empty text brings back the last one for removal at once |
| Hud.DebugUpdate | tsc/src/gui/hud.cpp:965-1011 | a shown text counts down by the speed factor and is cleared once its time is out; no text changes nothing |
| Hud.DebugClearsWithin | tsc/src/gui/hud.cpp:965-1011 | a message whose remaining time is at most n speed factors is cleared after n + 1 updates |
| Hud.DebugStaysClear | tsc/src/gui/hud.cpp:965-1011 | a cleared message stays cleared |
| Hud.EmptyTextHides | tsc/src/gui/hud.cpp:1019-1032 | setting an empty text hides the message at the next update |
| Hud.DebugDisplay.constructor | tsc/src/gui/hud.cpp:942-957 | a new debug display shows nothing |
| Hud.DebugDisplay.SetText | tsc/src/gui/hud.cpp:1019-1032 | the display's state becomes DebugSetText of the old one |
| Hud.DebugDisplay.Update | tsc/src/gui/hud.cpp:965-1011 | the display's state becomes DebugUpdate of the old one |
| Hud.BoxColor | tsc/src/gui/hud.cpp:871-904 | the red berry colours the box red, the fire plant orange, the blue berry blue, and anything else leaves it white |
| Hud.ItemFadeBounded | tsc/src/gui/hud.cpp:810-850 | the fading item's alpha stays above 0 and at most 255, and below 90 while rising |
| Hud.ItemBox.constructor | tsc/src/gui/hud.cpp:776-797 | a new item box is empty, white and not fading |
| Hud.ItemBox.Reset | tsc/src/gui/hud.cpp:931-938 | a reset item box is empty, white and not fading |
| Hud.ItemBox.SetItem | tsc/src/gui/hud.cpp:871-904 | the box holds the item, coloured by BoxColor, and is not fading |
| Hud.ItemBox.RequestItem | tsc/src/gui/hud.cpp:906-918 | an item is released exactly when the box holds one and is not already fading, and then starts fading from 255 |
| Hud.ItemBox.PushBack | tsc/src/gui/hud.cpp:920-929 | the fading stops and the item stays in the box |
| Hud.ItemBox.Update | tsc/src/gui/hud.cpp:810-850 | a box that is not fading is unchanged; a fading item fades as ItemFade says until it falls below the camera or reaches the player, and then is given back |
| GameCore.FullEventModes | tsc/src/core/game_core.cpp:79-137 | exactly the four enter actions switch modes, each to its own mode |
| GameCore.RoundsStopAtNone | tsc/src/core/game_core.cpp:79-137 | the event loop stops at the first queued entry with no action, whatever follows |
| GameCore.RoundsMode | tsc/src/core/game_core.cpp:79-137 | a round whose actions enter no mode leaves the game mode as it was |
| GameCore.EnterRound | tsc/src/core/game_core.cpp:79-137 | an enter action runs the start events, leaves the old mode, runs the middle events, enters the new mode and runs the end events, in that order |
| GameCore.Game.constructor | tsc/src/core/game_core.cpp:79-137 | a new game is in the given mode with no pending action and no calls made |
| GameCore.Game.EnterGameMode | tsc/src/core/game_core.cpp:270-293 | the new mode is set, and the calls of entering it from the old mode are made |
| GameCore.Game.LeaveGameMode | tsc/src/core/game_core.cpp:254-268 | the calls of leaving the current mode for the next are made |
| GameCore.Game.HandleAction | tsc/src/core/game_core.cpp:79-137 | one action makes the calls RoundCalls gives and moves to the mode RoundMode gives |
| GameCore.Game.HandleGameEvents | tsc/src/core/game_core.cpp:79-137 | handling the queue makes exactly the calls and the mode change that Rounds gives, and leaves no pending action |
| GameCore.RoundStep | tsc/src/core/game_core.cpp:79-137 | one turn of the loop handles the current action and then the rest of the queue |
| GameCore.Replaced | tsc/src/core/game_core.cpp:580-596 | replacing keeps the length when the name is present and adds one entry otherwise |
| GameCore.ReplacedLookup | tsc/src/core/game_core.cpp:580-596 | after replacing, the name finds the new value and every other name what it found before |
| GameCore.ReplacedIdempotent | tsc/src/core/game_core.cpp:580-596 | replacing twice with the same value is replacing once |
| GameCore.AddedShadowed | tsc/src/core/game_core.cpp:573-578 | appending a property whose name is already present does not change what that name finds |
| GameCore.Element.constructor | tsc/src/core/game_core.cpp:573-578 | a new element has no properties |
| GameCore.Element.AddProperty | tsc/src/core/game_core.cpp:573-578 | the property is appended, whatever is already there |
| GameCore.Element.ReplaceProperty | tsc/src/core/game_core.cpp:580-596 | the properties become Replaced of the old ones |
| GameCore.ReplacedAt | tsc/src/core/game_core.cpp:580-596 | replacing a present name overwrites its first entry in place |
| GameCore.ReplacedAbsent | tsc/src/core/game_core.cpp:580-596 | replacing an absent name appends it |
| Menu.FirstContaining | tsc/src/gui/menu.cpp:128-146 | the result is -1 or an entry whose rectangle holds the mouse, and no earlier entry (none at all for -1) holds it |
| Menu.FirstContainingIsFirst | tsc/src/gui/menu.cpp:128-146 | an entry under the mouse with none before it is the one found |
| Menu.NoneContaining | tsc/src/gui/menu.cpp:128-146 | with no entry under the mouse nothing is found |
| Menu.NextActive | tsc/src/gui/menu.cpp:266-273 | Down moves to the next entry and from the last entry (or from none) to the first; the result is an entry whenever the menu has one |
| Menu.PreviousActive | tsc/src/gui/menu.cpp:275-282 | Up moves to the previous entry and from the first entry (or from none) to the last |
| Menu.UpDownInverse | tsc/src/gui/menu.cpp:263-282 | on an active entry Up undoes Down and Down undoes Up |
| Menu.DownTimes | tsc/src/gui/menu.cpp:266-273 | any number of Down presses leaves an entry active |
| Menu.DownWalks | tsc/src/gui/menu.cpp:266-273 | before the end of the menu each Down press moves exactly one entry further |
| Menu.DownTimesAdd | tsc/src/gui/menu.cpp:266-273 | pressing Down j times and then k times is pressing it j + k times |
| Menu.DownCycles | tsc/src/gui/menu.cpp:266-273 | pressing Down as many times as there are entries comes back to the same entry |
| Menu.MenuHandler.constructor | tsc/src/gui/menu.cpp:41-65 | a new handler has no entries and nothing active |
| Menu.MenuHandler.AddMenuItem | tsc/src/gui/menu.cpp:93-104 | the entry is appended at the end; the first entry of an empty menu becomes active, otherwise the active entry is kept |
| Menu.MenuHandler.Reset | tsc/src/gui/menu.cpp:106-115 | afterwards there are no entries and nothing is active |
| Menu.MenuHandler.SetActive | tsc/src/gui/menu.cpp:117-126 | the entry becomes active, and the change is announced, exactly when it is a different entry of the menu; otherwise nothing changes |
| Menu.MenuHandler.ActiveItem | tsc/src/gui/menu.cpp:168-175 | the item of the active entry, or none when no entry is active |
| Menu.MenuHandler.ActiveItemRect | tsc/src/gui/menu.cpp:180-187 | the rectangle of the active entry, or the empty rectangle when no entry is active |
| Menu.MenuHandler.UpdateMouse | tsc/src/gui/menu.cpp:128-146 | the first entry under the mouse becomes active, announced only when it differs from the old one; with none under the mouse nothing changes |
| Menu.MenuCore.constructor | tsc/src/gui/menu.cpp:196-237 | the menu core drives the handler it is given |
| Menu.MenuCore.KeyDown | tsc/src/gui/menu.cpp:263-282 | Down and Up make the next and previous entry active, with wrap-around; another key, or an empty menu, leaves the active entry alone |
| MenuData.ListboxSelection | tsc/src/gui/menu_data.cpp:1098-1177 | in a non-empty list the key selects a row of the list; an empty list selects nothing |
| MenuData.ListboxStepsAndWraps | tsc/src/gui/menu_data.cpp:1098-1177 | Down and Up step one row and wrap round at the ends of the list |
| MenuData.ListboxUpDownInverse | tsc/src/gui/menu_data.cpp:1098-1177 | Up undoes Down and Down undoes Up |
| MenuData.ListboxPages | tsc/src/gui/menu_data.cpp:1098-1177 | Page Down and Page Up move ten rows, stopping at the last or first row, and wrap only from the last or first row itself |
| MenuData.FirstMatch | tsc/src/gui/menu_data.cpp:1179-1218 | the first row whose text begins with the search buffer, and none only when no row does |
| MenuData.FirstMatchIsFirst | tsc/src/gui/menu_data.cpp:1179-1218 | a matching row with no match before it is the one found |
| MenuData.NoMatch | tsc/src/gui/menu_data.cpp:1179-1218 | with no matching row nothing is found |
| MenuData.Listbox.constructor | tsc/src/gui/menu_data.cpp:1098-1177 | a new list box holds the given rows and has no selection |
| MenuData.SearchBufferAfter | tsc/src/gui/menu_data.cpp:694-717 | a running countdown is lowered by the frame time and, once it runs out, the search buffer is emptied; a run-out countdown leaves both alone |
| MenuData.SearchBufferExpires | tsc/src/gui/menu_data.cpp:694-717 | after enough frames the countdown has run out and a buffer that was counting down is empty |
| MenuData.SearchBufferIdle | tsc/src/gui/menu_data.cpp:694-717 | frames pass without effect once the countdown has run out |
| MenuData.TabAfter | tsc/src/gui/menu_data.cpp:1045-1096 | Left moves one tab back and stops at the first, Right one tab on and stops at the last, Shift-Tab one tab on and wraps from the last to the first |
| MenuData.TabLeftRightInverse | tsc/src/gui/menu_data.cpp:1045-1096 | away from the ends Left undoes Right and Right undoes Left; Shift-Tab on the last tab goes to the first |
| MenuData.StartMenu.constructor | tsc/src/gui/menu_data.cpp:524-542 | the start menu begins with an empty search buffer, no countdown and the first tab |
| MenuData.StartMenu.UpdateSearchBuffer | tsc/src/gui/menu_data.cpp:694-717 | one frame of the search buffer countdown, as SearchBufferAfter gives it |
| MenuData.StartMenu.ListboxKeyDown | tsc/src/gui/menu_data.cpp:1098-1177 | the row the key leads to is selected; an empty list keeps its selection |
| MenuData.StartMenu.ListboxCharacterKey | tsc/src/gui/menu_data.cpp:1179-1218 | a typed character is appended to the search buffer and restarts the countdown, and the first row beginning with the buffer is selected; without a list nothing changes |
| MenuData.StartMenu.TabKeyDown | tsc/src/gui/menu_data.cpp:1045-1096 | the tab index moves as TabAfter gives it and stays a valid tab |
| MenuData.HighlightedItem | tsc/src/gui/menu_data.cpp:3157-3174 | an entry below the slot count highlights that slot, the back entry highlights the back text, and nothing else is highlighted |
| MenuData.SetSaveDescription | tsc/src/gui/menu_data.cpp:3322-3364 | slot 0 and slots past 9 are refused; too few points inside a level refuse the save; otherwise the user is asked, with the stored description of a valid slot or "No Description", and an invalid slot is overwritten without asking |
| MenuData.SlotEntriesAccepted | tsc/src/gui/menu_data.cpp:3322-3364 | every slot entry of the menu names a slot that is not refused as out of range |
| MenuData.SavegamesMenu.constructor | tsc/src/gui/menu_data.cpp:3087-3141 | a new savegame menu highlights nothing and records its back entry |
| MenuData.SavegamesMenu.SelectedItemChanged | tsc/src/gui/menu_data.cpp:3157-3174 | the highlighted text becomes the one HighlightedItem gives for the new entry |
| MenuData.ToggledBpp | tsc/src/gui/menu_data.cpp:2185-2194 | 16 and 32 bits swap and any other depth stays |
| MenuData.ToggledBppTwice | tsc/src/gui/menu_data.cpp:2185-2194 | toggling the depth twice gives it back |
| MenuData.OptionsMenu.constructor | tsc/src/gui/menu_data.cpp:1443-1464 | the options menu starts from the preferred colour depth |
| MenuData.OptionsMenu.ToggleBpp | tsc/src/gui/menu_data.cpp:2185-2194 | the colour depth becomes its toggle |
| XmlAttributes.ScanAttributes | tsc/src/level/level_loader.cpp:90-116 | the key and value collected from a `<property>` are the last name and value attributes, or empty without one; the level loader takes only `name` and `value`, the other loaders also `Name` and `Value` |
| XmlAttributes.LastAttrWins | tsc/src/user/savegame_loader.cpp:74-95 | of several name (or value) attributes the last one is taken |
| XmlAttributes.LastAttrAbsent | tsc/src/user/savegame_loader.cpp:74-95 | without a name (or value) attribute the key (or value) is empty |
| XmlAttributes.Entries | tsc/src/user/savegame_loader.cpp:173-211 | walking the collected properties visits every entry exactly once, by increasing key |
| XmlAttributes.ShiftUp | tsc/src/level/level_loader.cpp:388-391 | a present coordinate is moved 600 up and nothing else changes; a missing one stays missing |
| XmlAttributes.Touch | tsc/src/overworld/overworld_loader.cpp:190-192 | reading a missing attribute with `[]` inserts it empty; present attributes are untouched |

## Left out

- Drawing, sound, CEGUI widgets, fonts, scripting (mruby), threads and input translation are not modelled: they are external library behaviour. A menu entry, a HUD text or a listed editor item is reported by value or index, never drawn.
- Reading and writing files are not modelled. File existence is a set or a predicate parameter, and an XML document is a sequence of SAX events (or, for `Write_To_File`, the document as a value). `XmlAttributes` and `cFile_parser` are not part of this model: they are taken to be a map from name to text and a line splitter that skips blank lines.
- Floating point is not modelled: a C++ `float` is a Dafny `real`, so rounding is lost. This covers animation speed modifiers, the HUD points multiplier, timers and positions. `string_to_float` and `float_to_string` are parameters, and a saved float is assumed to read back as the same value (for example the gee's `wait_time`, the turtle boss's shell time in the intended reading, and the background positions).
- Physics is not modelled: velocities, gravity, collision geometry and the per-frame motion of the enemies. Each enemy's state changes are modelled; its motion is not.
- Enemies.Enemy.LoadMotion: a saved direction number that names no direction of the enumeration (for example 42) is dropped and the old direction kept, whereas `static_cast<ObjectDirection>` in tsc/src/enemies/enemy.cpp:83-85 stores any number. The enemies' direction is the enumeration itself, which every enemy's `Set_Direction` and `Turn_Around` match on, so it has no room for other numbers.
- PropertyHelper.StringToTime: tsc/src/level/level.hpp is not part of this model; the level's save time is taken to be a `time_t`, like the world's and the savegame's.
- PackageManager.PackageManager.constructor: `Fix_Package_Paths` (tsc/src/core/filesystem/package_manager.cpp:511-527) is not modelled, because it derives missing directories with `fs::relative` on the resource manager's directories, which are outside the model.
- SpriteManager.SpriteManager.Add, SpriteManager.SpriteManager.MoveToFront and SpriteManager.SpriteManager.MoveToBack: the sprites' Z positions, which the source adjusts on these calls, are floats and are not modelled. Only the order of the list and the UIDs are.
- SpriteManager.SpriteManager.Add and SpriteManager.SpriteManager.DeleteAll: `cObject_Manager` is not part of this model. Its `Add` is taken as appending to the list and its `Delete_All` as removing every object.
- ImgSet.Entered: when `Update_Animation` enters a frame number outside the image list (a branch to a missing frame), the source indexes past the list (undefined behaviour). The model leaves the list unchanged instead.
- TscLevel.Level.NextUid: `Get_Next_UID` is not part of this model. It is taken to hand out the UID after the largest one handed out so far.
- TscLevel.Level.AddCollisionIfRequired: the collision table (`Bintree`) is not part of this model. It is taken to be a map whose insert replaces an existing entry for the same key.
- TscLevel.Level.AddActor: an actor's depth comes from a function parameter, because the Z values are floats set by the sprite classes. The list stays depth-sorted only when it already was.
- LevelExits.ReturnStack.Pop: `Push_Return`/`Pop_Return` of the level player are not part of this model. They are taken to be a last-in, first-out stack.
- SavegameLoading.SavegameLoader.EndElement: when `retrieve` fails on a missing attribute, the source throws and leaves a half-filled record. The model returns `ok == false` with the state unchanged.
- OverworldLoading.SpriteMigrated: the special case that turns an old bridge sprite into three bridge sprites (tsc/src/overworld/overworld_loader.cpp:209-228) is not modelled. The model relocates the image only, because the copies are placed by sprite geometry that is outside the model.
- SmcLevelManager.LevelManager.Load: the return stack is cleared after the file lookup rather than before it. The lookup never reads the stack, so the result is the same.
- ImgSettings.GetSettings: the chain of `base` settings files is followed only to a nesting depth of `fuel`. A cyclic chain never ends in the source, so nothing bounds it there.
- Editor.LoadItemMenu: tag strings with an empty token (from ";;" or a leading ';') are excluded by a precondition, because the source's search for an empty tag never returns (see "## Findings").
- Enemies.Enemy.SetDirection and Enemies.Enemy.TurnAround: the moving-sprite versions of `Set_Direction` and `Turn_Around` are not part of this model. They are taken to set the direction (and, on request, the start direction), and to reverse the direction and the matching velocity component; the image and collision updates of the moving sprite are left out.
- TurtleBosses.TurtleBoss.LoadShellTime: requires the shell time in hand to lie in the `int` range, because the source converts it with `int_to_string` for the default.
- Hud.LevelPlayer.constructor: the level player is a stand-in holding only the points, gold and lives the HUD reads and writes. The player's own logic is not part of this model.
- Randomness is not modelled: `rand()` in the image-set `Enter`/`Leave`, in the gee's flight and in the bonus box is a parameter.

## Findings

| source | as written | input that shows it | evidently intended | confidence | as-written member | corrected member |
|---|---|---|---|---|---|---|
| tsc/src/enemies/bosses/turtle_boss.cpp:242 | the boss dies only when its downgrade count equals the maximum | `max_downgrade_count` 0 (the setter allows it): after the first round the count is 1 and never equals 0, so the boss survives every stomp | the boss dies once the count reaches the maximum | not executed; high | TurtleBosses.MaxZeroBossSurvivesAsWritten | TurtleBosses.StompsToKill |
| tsc/src/enemies/furball.cpp:247 | the furball boss dies only when its downgrade count equals the maximum | `max_downgrade_count` 0: no stomp kills the boss | the boss dies once the count reaches the maximum | not executed; high | Furballs.MaxZeroFurballSurvivesAsWritten | Furballs.DiesWithinAsMeant |
| tsc/src/objects/bonusbox.cpp:220-224 | COL_YELLOW chosen for COL_DEFAULT is overwritten by the next statement | a jewel box with `gold_color="purple"` (an unknown name reads as COL_DEFAULT) keeps COL_DEFAULT and its "Bonusbox Empty" name | COL_DEFAULT stands for yellow, and the box is named after its jewel | not executed; high | BonusBoxes.GoldcolorAsWrittenKeepsDefault | BonusBoxes.CorrectedJewelNamed |
| tsc/src/video/img_settings.cpp:154 | `parts[2]` is checked although a `base` line may have only two words | the line `base name` reads one word past the end of the list | the number is checked only when a third word is given | not executed; high | ImgSettings.BaseTwoWordsAsWritten | ImgSettings.BaseTwoWordsAccepted |
| tsc/src/user/savegame/savegame.cpp:555-560 | `Is_Valid` looks for all three slot files in the user savegame directory, while `Load` reads `.save` from the game's savegame directory | `savegames/1.save` alone: slot 1 is called free, yet `Load` reads it; `user/savegames/2.save` alone: slot 2 is called valid, yet `Load` fails | a slot is valid exactly when `Load` finds a file for it | not executed; high | SavegameTsc.IsValidAsWrittenDisagreesWithLoad | SavegameTsc.IsValidIffFileFound |
| tsc/src/level/level_loader.cpp:525-531 | the first `compare` lacks `== 0`, so the test holds for every texture but the green hill head | any non-hill sprite of a level older than engine version 23 is moved up by 6 | only the green and light blue hill heads are moved | not executed; high | LevelLoading.HillShiftAsWrittenMovesOthers | LevelLoading.HillShiftMovesHeads |
| tsc/src/level/level_loader.cpp:491-522 | the V1.2 pipe correction compares with the old green pipe images, which the earlier relocations have already renamed | a green vertical pipe of a level older than engine version 22 is not moved | old pipes are moved by 6 | not executed; medium | LevelLoading.PipeShiftAsWrittenMissesPipe | LevelLoading.OldPipeShifted |
| tsc/src/overworld/overworld_loader.cpp:238-245 | the old-world migration shifts the attribute `y`, which `cWaypoint` does not read | a waypoint of a world older than engine version 2 with a `y` and no `posy` is placed at height 0, whatever its `y` | the position the waypoint is placed by is shifted | not executed; medium | OverworldLoading.OldWaypointShiftUnread | OverworldLoading.OldWaypointShiftRead |
| tsc/src/user/preferences_loader.cpp:294-297 | joystick button values up to 256 are accepted and stored in a `uint8_t` | `joy_button_jump` 256 becomes button 0 | values above 255 are rejected | not executed; high | PreferencesLoading.ButtonCode256ReadAsZero | PreferencesLoading.ButtonCodeAgrees |
| tsc/src/core/editor/editor.cpp:995-1037 | the item tags are split at every ';', so ";;" yields an empty tag, and `Is_Tag_Available` with an empty tag calls itself with its own arguments | item tags "a;;b" against an item tagged "a": the search for "" never returns | an empty tag constrains nothing | not executed; high | Editor.DoubleSeparatorLoops | Editor.TokenAvailableIffToken |
| tsc/src/enemies/bosses/turtle_boss.cpp:63 | the shell time is read with `string_to_int`, although it is a float written with its fraction | the default shell time 2.5, saved and loaded again, becomes 2 | the shell time is read as a float | not executed; medium | TurtleBosses.ShellTimeLosesFractionAsWritten | TurtleBosses.ShellTimeKept |
