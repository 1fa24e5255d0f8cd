# GenericRpgV2 core, modelled in Dafny

This project models the rule-bearing core of a small pygame role-playing game prototype, and proves properties of that model. The core covers:

- **The game-mode state machine** (`main.py`). There are three modes: MENU, GAME and MAP. A fixed table says which handlers run in each mode, and the toggle rule sends a repeated request back to GAME. The per-frame loop offers each event to the handlers of the mode that is current when the event is reached. It stops at the first close event. Walking happens only in GAME mode and only when no close event came.
- **Character movement** (`game_world.py`). Speed is the walk or sprint speed divided by the 60/30 frame-rate ratio. There are four step methods. A border check blocks every step while any held key would carry the character's rectangle out of the 1300x900 window. The headline result: a character on screen stays on screen whatever keys are held (`World.WalkHeldKeepsOnScreen`). Also modelled: the stage and world containers and a character's construction.
- **Record loading** (`models.py`). Rows of parsed JSON become item and character records. A record is built from its constructor parameters only, and each class's counter hands out ids in creation order. `resolve_to_n_data` then replaces the character's id references with the matching item records, in place.
- **The pause menu** (`menu.py`). Pages hold buttons. Switch buttons move the current page, and action buttons call the music mixer. The progress bar's width arithmetic is modelled too.
- **The inventory layout** (`inventory.py`). This is the texts and positions of the item list and of the current-item column.

## How the model is built

Each source file is one module:

| module | file | contents |
|---|---|---|
| `Wrappers` | `wrappers.dfy` | `Option` and `Result` |
| `Menus` | `menus.dfy` | `menu.py` |
| `World` | `world.dfy` | `game_world.py` |
| `MainLoop` | `main_loop.dfy` | `main.py` |
| `Models` | `models.dfy` | `models.py` |
| `Inventories` | `inventory.dfy` | `inventory.py` |

### Objects and the functions that specify them

- Objects whose fields the source updates are classes: `Game`, `Menu`, `MenuPage`, `MenuButton`, `MainChar`, `GameStage`, `GameWorld`, `MainCharModel`, and the class-wide counters (`CharCounter`, `ModelCounters`).
- Every loop of the source is a method with loop invariants, except two list comprehensions that only compute a value and are pure functions: `from_dict_to_dataclass` (models.py:75-78) is `FromDict`, and the id filter of models.py:108 and :111 is `Matching`, called from the loop of `ResolveList`. Each method is proved against a pure function:
  - the event loop against `Drain`;
  - mouse handling against `MouseStep`;
  - walking against `WalkHeld`;
  - loading against `ItemRows` and `MainCharRows`;
  - in-place resolution against `ResolveAll`.
- The properties are proved about those functions.

### Inputs from the pygame library

The event queue, the held keys, the LSHIFT state and the cursor position are parameters. The held keys are a set of the four movement keys. Walking visits them in the order in which enumerating pygame's pressed-key table meets their scancodes: A, D, S, W.

### What values stand for

- `Rect.collidepoint` is a half-open containment test. The volume bar's 0x0 rectangle therefore contains no point.
- A rendered text surface is represented by the request that produced it: text, size and colour.
- A JSON value is an int, a string or a list.
- A record field holds one of these:
  - a value from the row;
  - an item record;
  - the list of match lists that resolving a list field leaves.
- `dataclasses.asdict` turns an item record into a dict. A dict equals no id, and it is not a list.

### Where the code decides

- The mode table has only MENU, GAME and MAP (main.py:20-33).
- A border only ever blocks a step (game_world.py:165-185); no stage change happens there.
- The neighbour setters of `GameStage` are left out (see below).
- The source leaves a button's `focus` unassigned at construction. It is assigned True on a mouse-down over the button (main.py:84-86), and False for every button of the page showing at each mouse-up (main.py:91). The model starts it cleared; see `Menus.MenuButton` under Left out.

## Model

| member | source | states |
|---|---|---|
| `Menus.MixerCalls` | menu.py:203-205 | `no_action` makes no call into the mixer. A volume action makes exactly one call, itself. |
| `Menus.Mixer.Run` | menu.py:200-201 | `ActionButton.on_click` invokes its action once. The mixer's record grows by exactly that action's calls, so `no_action` leaves it unchanged. |
| `Menus.MenuButton.ActionButton` | menu.py:194-198 | An action button holds its action, text, position and size as its rectangle. |
| `Menus.MenuButton.SwitchButton` | menu.py:208-212 | A switch button targets its page, has the default 200x80 size and the text "Link". |
| `Menus.MenuButton.SoundProgressBar` | menu.py:127-136 | The volume bar's rectangle is placed at its position and is 0x0, because it comes from an empty surface. |
| `Menus.MenuButton.OnClick` | menu.py:200-216 | Clicking a button changes the menu exactly as `OnClickView` says. |
| `Menus.MenuPage.constructor` | menu.py:15-23 | A page keeps its button group and its name. |
| `Menus.MenuPage.Add` | menu.py:270-271 | Adding to a sprite group appends a sprite that is not yet there. A sprite already there leaves the group unchanged. |
| `Menus.SwitchOnClick` | menu.py:214-216 | A switch moves to its target when the current page's name differs from the target's. Otherwise it stays. |
| `Menus.SwitchOnClickIdempotent` | menu.py:214-216 | Clicking a switch twice is the same as clicking it once. Afterwards the current page has the target's name. |
| `Menus.SwitchRoundTrip` | menu.py:261-271 | Between two pages with different names, switching there and back returns to the start page. |
| `Menus.OnClickView` | menu.py:200-216 | An action click adds only its mixer calls. A switch click changes only the current page. The bar is never clicked. No click touches groups or focus flags. |
| `Menus.Menu.constructor` | menu.py:41-44 | A new menu opens on the page stored under 'page1'. |
| `Menus.CalculateInnerBarWidth` | menu.py:138-140 | The bar width is percent·width/100 truncated toward zero. The contract is stated as a bound on the remainder, for both signs. |
| `Menus.InnerBarWidthEnds` | menu.py:138-140 | The width is 0 at 0% and the full width at 100%. |
| `Menus.InnerBarWidthMonotone` | menu.py:138-140 | For a non-negative outer width, the width never decreases as the percentage grows. |
| `Menus.InnerBarWidthBounded` | menu.py:138-140 | For 0..100 percent, the width lies between 0 and the outer width. |
| `Menus.CreateMenuPages` | menu.py:219-258 | page1 ("Seite1") holds '+', the volume bar and '-' at heights 200, 300 and 400. page2 ("Seite2") holds 'Foobar2' at 200. All buttons are fresh and unfocused. |
| `Menus.AddSwitchPages` | menu.py:261-271 | page1 gains a switch to page2 at height 600, and page2 gains a switch to page1 at height 400. Each is appended to its group. |
| `Menus.CreateMenu` | menu.py:274-280 | The menu opens on page1. page1's group is '+', bar, '-' and a switch to page2. page2's group is 'Foobar2' and a switch to page1. The menu's invariant holds. |
| `World.Speed` | game_world.py:145-151 | The speed times the frame-rate ratio is the walk or sprint speed. The speed is therefore exactly 2 when walking and 3 when sprinting. |
| `World.Walked` | game_world.py:153-171 | `walk_top` and `walk_down` move only y, up or down by the speed. `walk_left` and `walk_right` move only x. Any other name has no walk method and changes nothing. |
| `World.WallCollision` | game_world.py:173-185 | The border check, a definition with no contract of its own: some held key faces a border that a step of the current speed would cross. `World.BlockedStaysPut` and `World.SolveKeepsOnScreen` state what it guarantees. |
| `World.SolvedForWalking` | game_world.py:165-171 | `solve_for_walking` on the rectangle, a definition with no contract of its own: no step while the border check holds, otherwise the `walk_` step the name selects. `World.BlockedStaysPut`, `World.SolveKeepsOnScreen` and `World.UnknownNameStaysPut` state its properties. |
| `World.BlockedStaysPut` | game_world.py:165-168 | While the border check holds, `solve_for_walking` leaves the rectangle unchanged for every direction name. |
| `World.SolveKeepsOnScreen` | game_world.py:165-185 | An on-screen character given the direction of a held key is still on screen afterwards. |
| `World.UnknownNameStaysPut` | game_world.py:169-171 | A name with no `walk_` method changes nothing. |
| `World.WalkHeld` | main.py:75-79 | The walking comprehension, a definition with no contract of its own: one `solve_for_walking`, in the given key order, per held key. `World.WalkHeldKeepsOnScreen` and `World.WalkNothingHeld` state its properties. |
| `World.WalkHeldKeepsOnScreen` | main.py:75-79 | Any sequence of held-key steps keeps an on-screen character on screen. |
| `World.WalkNothingHeld` | main.py:75-79 | With no key held, walking moves nothing. |
| `World.CharCounter.constructor` | game_world.py:128 | The class counter starts at 0. |
| `World.MainChar.constructor` | game_world.py:130-143 | A new character takes the counter plus one as its id, bumping the counter. It sits at the given position with the image's size, with walk direction NONE and movement WALK. |
| `World.MainChar.WalkTop` | game_world.py:153-154 | y decreases by the speed. Nothing else changes. |
| `World.MainChar.WalkRight` | game_world.py:156-157 | x increases by the speed. Nothing else changes. |
| `World.MainChar.WalkLeft` | game_world.py:159-160 | x decreases by the speed. Nothing else changes. |
| `World.MainChar.WalkDown` | game_world.py:162-163 | y increases by the speed. Nothing else changes. |
| `World.MainChar.SolveForWalking` | game_world.py:165-171 | The new rectangle is `SolvedForWalking` of the old one. The movement type and walk direction are kept. |
| `World.GameStage.constructor` | game_world.py:21-33 | A new stage keeps its group and name and has no neighbour in any direction. |
| `World.GameWorld.constructor` | game_world.py:88-90 | The current stage is the first stage of the non-empty list. |
| `World.CreateGameWorld` | game_world.py:195-217 | The world has one stage, "Start Level". Its character is new, at (0, 200), walking, facing nowhere, with the next character id. |
| `MainLoop.EveryModeHasHandlers` | main.py:20-33 | Every mode runs two handlers, the pause handler among them. The map handler is listed exactly outside MENU, and the menu-click handler exactly in MENU. |
| `MainLoop.Game.constructor` | main.py:17-33 | A game starts in the given mode (GAME by default) with the fixed handler table. |
| `MainLoop.Toggled` | main.py:41-45 | The rule of `set_game_state`, a definition with no contract of its own: requesting the active mode gives GAME, any other request gives the requested mode. `MainLoop.ToggledTwice`, `MainLoop.PauseKeyToggles` and `MainLoop.MapKeyToggles` state its consequences. |
| `MainLoop.ToggledTwice` | main.py:41-45 | From GAME, the first request for an overlay opens it and the same request again returns to GAME. |
| `MainLoop.SetGameState` | main.py:41-45 | The new mode is the toggle of the old mode and the request. |
| `MainLoop.HandlePauseEvent` | main.py:55-57 | KEYDOWN p requests MENU. Any other event keeps the mode. |
| `MainLoop.HandleMapEvent` | main.py:60-62 | KEYDOWN m requests MAP. Any other event keeps the mode. |
| `MainLoop.HandleGameCloseEvents` | main.py:48-52 | The close test, a definition with no contract of its own: false exactly for QUIT and for KEYDOWN of ESCAPE. `MainLoop.CloseEventChangesNothing`, `MainLoop.DrainKeepsRunning` and `MainLoop.DrainStopsAtClose` state what the loop does with it. |
| `MainLoop.PauseKeyToggles` | main.py:55-57 | Through the handler table, p takes GAME and MAP to MENU and MENU back to GAME. The menu is untouched. |
| `MainLoop.MapKeyToggles` | main.py:60-62 | Through the handler table, m swaps GAME and MAP. In MENU, whose list has no map handler, it does nothing. |
| `MainLoop.CloseEventChangesNothing` | main.py:48-52 | QUIT and KEYDOWN ESCAPE change neither the mode nor the menu, in any mode. |
| `MainLoop.Drain` | main.py:96-100 | The event loop of `check_user_action`, a definition with no contract of its own: each event runs the current mode's handlers, and the first close event stops the loop with false. `MainLoop.DrainKeepsRunning` and `MainLoop.DrainStopsAtClose` state its properties. |
| `MainLoop.DrainKeepsRunning` | main.py:94-102 | The frame keeps running exactly when none of its events is a close event. |
| `MainLoop.DrainStopsAtClose` | main.py:96-100 | Events after the first close event are never processed, and the frame ends the session. |
| `MainLoop.FocusUnderCursor` | main.py:83-86 | After a mouse-down, a button has focus exactly when it is in the current page's group and under the cursor, or already had focus. The focus map is `FocusDown` of the old one. |
| `MainLoop.Release` | main.py:88-91 | A button under the cursor that has focus is clicked. Then its focus is cleared. |
| `MainLoop.ReleaseUnderCursor` | main.py:87-91 | Mouse-up releases each button of the group in group order, and every button of the group ends unfocused. Over a group without repeats, two things follow from the buttons that were under the cursor and focused when the mouse-up began. The mixer record grows by exactly the calls of those that are action buttons. The current page becomes the one reached by clicking those that are switch buttons, in group order. |
| `MainLoop.FocusDownMeaning` | main.py:83-86 | Mouse-down sets the focus of exactly the group's buttons under the cursor. Every other flag is kept, and no other button gains a flag. |
| `MainLoop.ReleaseAllFocus` | main.py:87-91 | Mouse-up clears the focus of every button of the group. Every other flag and the page groups are kept. |
| `MainLoop.ReleaseAllCalls` | main.py:87-90 | Over a group without repeats, mouse-up makes the mixer calls of the action buttons that were under the cursor and focused when it began, in group order. Unfocusing one button never affects a later one. |
| `MainLoop.ReleaseAllPage` | main.py:87-90 | Over a group without repeats, mouse-up leaves the page reached by clicking, in group order, the switch buttons that were under the cursor and focused when it began. |
| `MainLoop.HandleMouseEvents` | main.py:82-91 | The menu changes exactly as `MouseStep` says. Other events leave it unchanged. |
| `MainLoop.MouseStep` | main.py:82-91 | `handle_mouse_events` on the menu's view, a definition with no contract of its own: mouse-down is `FocusDown` and mouse-up is `ReleaseAll` over the current page's group, and other events change nothing. `MainLoop.FocusDownMeaning` states the focus after a mouse-down. For a mouse-up, `MainLoop.ReleaseAllFocus` states the focus flags, `MainLoop.ReleaseAllCalls` the mixer calls and `MainLoop.ReleaseAllPage` the current page. |
| `MainLoop.MenuClickEvents` | main.py:37-38 | `menu_click_events` is mouse handling. |
| `MainLoop.RunHandler` | main.py:97-98 | One handler call changes the mode and the menu as that handler's step says. |
| `MainLoop.HandleWalking` | main.py:70-79 | The movement type is SPRINT exactly when LSHIFT is held, and it is set before any step. Then there is one `solve_for_walking` per held key, in scancode order. |
| `MainLoop.HandleKeyboardEvents` | main.py:65-67 | Walking happens in GAME mode only. In other modes the character is untouched. |
| `MainLoop.ProcessEvent` | main.py:97-98 | An event runs the handler list of the mode current when it is reached, in list order. |
| `MainLoop.DrainEvents` | main.py:96-100 | The event loop leaves the mode and the menu as `Drain` says. It returns false at the first close event. |
| `MainLoop.CheckUserAction` | main.py:94-102 | The result is true exactly when no event closes. The character walks only when the result is true and the mode is GAME afterwards. |
| `Models.FirstMissing` | models.py:76 | It points at the first required parameter absent from the row. Every parameter before it is present or has a default. |
| `Models.FromDict` | models.py:73-79 | The result fails with KeyError exactly when a required parameter is missing, naming the first one. Otherwise each parameter gets the row's value or its default, in signature order. Other keys, an `id` among them, play no part. |
| `Models.FirstMissingIs` | models.py:73-79 | The first missing required parameter is unique. |
| `Models.FieldIndex` | models.py:103 | Every field has a position in the declaration order that `asdict` follows. |
| `Models.EveryFieldVisited` | models.py:103 | Walking a character's fields in declaration order visits every field. |
| `Models.CharRecord.Set` | models.py:14-15 | `__setitem__` gives one field the new value and keeps every other field. |
| `Models.InitMainChar` | models.py:39-47 | The sort index is the hit points, and the id is the given counter value. An `items` value without a length raises TypeError. Empty items give a new Hand item with the next item id. Otherwise the first item is kept. |
| `Models.NewMainChar` | models.py:73-79 | A character built from a row takes the given id and carries the row's name, damage, hp and items or their defaults. It can fail only with KeyError('name') or TypeError. |
| `Models.CharOfRow` | models.py:91 | One row gives one character, made from that row, with the next character id, and the character counter is bumped. |
| `Models.ItemRowsIds` | models.py:89-91 | Loaded items keep row order and count. They get consecutive ids after the counter, and their name and damage (default 5) come from the row. |
| `Models.ItemRows` | models.py:89-91 | Loading item rows in order, a definition with no contract of its own: the first row that lacks a required name stops loading with its error, and each row before it takes the next item id. `Models.ItemRowsIds` and `Models.ItemRowsMissingName` state its properties. |
| `Models.ItemRowsMissingName` | models.py:89-91 | The first row without a name stops loading with KeyError('name'), after the rows before it took their ids. |
| `Models.MainCharRowsIds` | models.py:89-91 | Loading as many characters as rows, with consecutive ids after the counter in row order. |
| `Models.MainCharRowsFields` | models.py:75-78 | Loaded character i is made from row i: its name is the row's name, and its damage, hp and items are the row's values or the defaults 2, 10 and []. The sort index is the hp. |
| `Models.MainCharRows` | models.py:89-91 | Loading character rows in order, a definition with no contract of its own: each row is `CharOfRow` with the counters the previous rows left, and the first failure stops loading. `Models.MainCharRowsIds` states its properties. |
| `Models.Matching` | models.py:108 | The matches of a reference are items with that id, and every item with that id is among them. There are no more matches than items. |
| `Models.MatchingCount` | models.py:108 | Each item with that id is matched exactly as often as it occurs among the items. No other item is matched. |
| `Models.MatchingAppend` | models.py:108 | The matches over two concatenated lists are the matches of the first list followed by those of the second, so the matches keep item order. |
| `Models.MatchingSingle` | models.py:108 | A single item is matched exactly when its id is the reference. |
| `Models.MatchingFirst` | models.py:111 | The first match is the earliest item with that id. |
| `Models.ResolveValueMeaning` | models.py:104-111 | A list becomes the list of its entries' match lists, of the same length. A scalar becomes its first match, or fails with IndexError when nothing matches. As written an item record fails too; the corrected resolution keeps it. |
| `Models.ResolveValue` | models.py:104-111 | Resolving one field value can fail only with IndexError. `Models.ResolveValueMeaning` states what a success holds. |
| `Models.ResolveKeysFields` | models.py:102-112 | Over distinct keys, a record resolves exactly when each named field does. Named fields become their resolution and other fields are kept. |
| `Models.ResolveFieldsMeaning` | models.py:103-111 | The same, over all fields of a character. |
| `Models.ResolveAll` | models.py:102-112 | A success has as many records as were given. |
| `Models.ResolveAllRecords` | models.py:102-112 | Resolving a list succeeds exactly when each record resolves, and then entry i is record i resolved. |
| `Models.ResolveAllFailure` | models.py:102-112 | The first record that fails decides the error. |
| `Models.HandForEmptyItems` | models.py:44-45 | A character row with a name and no items loads holding a Hand item with the next item id. |
| `Models.RecordFailsAsWritten` | models.py:110-111 | As written, a character that already holds an item record fails to resolve, with IndexError. |
| `Models.HandFailsAsWritten` | models.py:110-111 | As written, loading fails with IndexError whenever the first character has no items. |
| `Models.HeroFailsAsWritten` | models.py:56-67 | As written, the data "Sword" with "Hero" (no items) cannot be loaded. |
| `Models.SwordLoads` | models.py:60-62 | The Sword row loads as item 1 with damage 5. |
| `Models.HeroBuilt` | models.py:39-47 | The Hero row loads as character 1. It holds a Hand item with the next item id and an empty item list. |
| `Models.ResolvedFieldsAre` | models.py:67 | The fields loading resolves are exactly `current_item` and `items`. |
| `Models.ResolveLoadedFields` | models.py:67 | Resolving a loaded character succeeds exactly when `current_item` and `items` both resolve. Those two fields then take their resolution and the rest are kept. |
| `Models.RecordWithoutItemsResolves` | models.py:102-112 | With records kept, a character holding an item and no items resolves to itself, its items becoming an empty list. |
| `Models.SingleRecordResolves` | models.py:102-112 | The same holds for the list of that one character. |
| `Models.HeroLoadsCorrected` | models.py:56-67 | With records kept, "Sword" with "Hero" loads. The items are [Sword 1], and Hero holds Hand 2. Both counters end where construction left them. |
| `Models.LoadDataModel` | models.py:56-67 | `DataModel()` on parsed rows, a definition with no contract of its own: items first, then characters, then resolution of `current_item` and `items`, and the first resolved character. An error at any stage ends loading, and an empty character list is `[0]`'s IndexError. `Models.HeroLoadsCorrected` and `Models.HeroFailsAsWritten` state its result on the Sword/Hero data. |
| `Models.ModelCounters.constructor` | models.py:20 | Both class counters start at 0. |
| `Models.ModelCounters.NewItemModel` | models.py:24-26 | A new item takes the item counter plus one, bumping the counter. The character counter is untouched. |
| `Models.ModelCounters.NewMainCharModel` | models.py:39-47 | The character counter is bumped before the items are looked at, even when they then raise TypeError. The record is the one `InitMainChar` describes, and Hand items change the item counter the same way. |
| `Models.MainCharModel.SetItem` | models.py:14-15 | `__setitem__` changes the one field in place. |
| `Models.MainCharModel.constructor` | models.py:29-46 | The object holds the given record. `Models.ModelCounters.NewMainCharModel` states which record and ids a new character gets. |
| `Models.CreateItems` | models.py:89-91 | Loading items leaves the result and the item counter that `ItemRows` describes. |
| `Models.MainCharFromRow` | models.py:73-79 | Building a character from a row gives the record or error `CharOfRow` describes, and leaves the counters it describes. |
| `Models.CreateMainChars` | models.py:89-91 | Loading characters gives new, distinct objects whose records and counters are the ones `MainCharRows` describes. |
| `Models.ResolveList` | models.py:105-109 | Entry i of the list built is the match list of reference i. |
| `Models.ResolveFieldValue` | models.py:104-111 | One field resolves as `ResolveValue` with records kept, which is the corrected resolution (see Findings and Left out). |
| `Models.ResolveRecord` | models.py:103-111 | The fields are walked as `asdict` lists them, and the record is updated in place to its resolution. |
| `Models.ResolveToNData` | models.py:94-112 | The records are changed in place into what `ResolveAll` describes, and the same list is returned. The error is the first record's error. |
| `Models.NewDataModel` | models.py:56-67 | Items are loaded before characters. The data model holds the items and the first resolved character, or the first error, with the counters `LoadDataModel` describes. |
| `Models.DataModel.constructor` | models.py:56-58 | The data model holds the loaded items and the main character, the two attributes `__init__` sets. |
| `Inventories.SetFont` | inventory.py:49-53 | A surface is described by its text, size and colour. |
| `Inventories.NewInventoryText` | inventory.py:40-46 | An entry's left is pos[0] and its top is pos[1]. |
| `Inventories.CreateInventoryItemFonts` | inventory.py:56-76 | There are len(items)+1 entries. The first is "Items:", size 20, darkgreen, at (200, 200). Item i's name follows in black at (200, 230+20·i). The tops strictly increase. |
| `Inventories.CurrentItemName` | inventory.py:80-92 | The current item has a name exactly when it is an item record. |
| `Inventories.CreateInventoryCurrentItemFonts` | inventory.py:79-99 | There are exactly two entries: "Current Item:" in darkgreen at (600, 200), and the current item's name in black at (600, 230). A current item that is not an item record fails. |
| `Inventories.Inventory.constructor` | inventory.py:20-23 | The inventory keeps both groups, and its header is "Inventory" at size 40 in blue. |
| `Inventories.CreateInventory` | inventory.py:102-109 | The all-items group gets the item list and the current group gets the current-item column. The call fails exactly when the current item has no name. |

## Left out

- Rendering and window handling are left out because drawing has no rule to prove:
  - `blit` and `draw.rect`;
  - the float-half centring arithmetic;
  - `draw_page_name`;
  - `draw_sprites`;
  - the display, window and clock globals;
  - the frame loop of `loop` and `main`.
- The `print` in `Inventory.__init__` is left out because it is output only.
- `mixer.py` is not part of this model: the volume steps are floats inside a library. The mixer is reduced to an ordered record of the volume actions the buttons make.
- `load_menu_background_music`, which `create_menu` calls (menu.py:278), is left out: it loads and plays a music file at volume 0.10, through the library. `Menus.CreateMenu` leaves the mixer's record unchanged.
- `SoundProgressBar.calculate_inner_bar_percent` is left out because it reads the library's float volume.
- `debug.py` is not part of this model, being rendering only. The call in `main.py:138` passes an argument that `display_debug_output` does not take; the model does not represent that call.
- `load_data_from_json_file` is left out because it is file I/O. Loading starts from rows already parsed. JSON booleans, floats, nulls and objects are not modelled.
- The `GameStage` neighbour setters are left out because none of them terminates. Each sets a field and then calls the opposite setter, which calls back, without end. The right and left setters also pass `self` instead of the new neighbour. The neighbour fields and their getters are modelled.
- Key codes are abstracted to the four movement keys plus LSHIFT, because they are a library-level encoding; the move names come from scancodes and the border check uses key codes. Walking visits the held keys in scancode order.
- The `game_world` argument that `main.py:76` passes to `solve_for_walking` is ignored. As written, that call would raise an arity error.
- `create_map`, `Map`, `load_data`, `Game.data` and the map overlay are not part of this model: the symbols `main.py` imports are not defined in the code modelled.
- `World.GameWorld.constructor` requires a non-empty stage list because `stages[0]` of an empty list raises.
- `Menus.CalculateInnerBarWidth` treats the float division `percent * outer_width / 100` as exact before `int` truncates it, because floats are not modelled. For integer percents from 0 to 100 and the bar's width, the product is exact and the division's rounding error is far smaller than the distance to the next integer, so the truncated results agree. The percent itself, which the source derives from the float volume, is not modelled.
- `Menus.Menu.constructor` requires a 'page1' page because a missing key raises KeyError.
- `Menus.MenuButton`: its constructors start `focus` cleared, where the source leaves it unassigned. main.py:89 reads `focus` only for a button under the cursor at mouse-up, because `and` short-circuits, and main.py:91 assigns False to every button of the group at each mouse-up. So the source raises AttributeError only at a mouse-up over a button whose focus was never assigned: no earlier mouse-down over it, and no earlier mouse-up while its page was showing. By then the buttons before it in the group have already been released and unfocused. The model treats such a button as unfocused and raises nothing.
- The string identity test `is not` in `SwitchButton.on_click` is modelled as name inequality.
- `World.MainChar`: the `rect` size comes from the loaded character image and is a constructor parameter here.
- `Models.ResolveToNData` requires the records to be distinct objects, as loading always produces them. On failure it does not state which records were already changed.
- `Models.ResolveFieldValue`, `Models.ResolveToNData`, `Models.ResolveRecord` and `Models.NewDataModel` model the corrected resolution, which keeps an item record already in a field (see Findings). The resolution as written is modelled by `Models.ResolveValue` with `AsWritten`.
- The `_counter` field of a record is not modelled. The source never sets it on the instance, so reading it gives the live class counter. The model's record holds 0 there. `_counter` is not one of the resolved fields (models.py:67), and no contract reads it.
- `Inventories.SetFont`: `pygame.font.render` of a text that is not a string raises TypeError. The model carries any JSON value as the text.

## Findings

| source | as written | input that shows it | evidently intended | confidence | as-written member | corrected member |
|---|---|---|---|---|---|---|
| models.py:110-111 | A named field that is not a list is always looked up as an id. A character built without items holds a new Hand ItemModel in `current_item` (models.py:44-45). `asdict` turns that item into a dict, which matches no item id, so `[...][0]` raises IndexError. | item rows `[{"name": "Sword"}]`, character rows `[{"name": "Hero"}]` | A character keeps the item it already holds, so Hero loads holding Hand item 2 | not executed | `Models.HeroFailsAsWritten` | `Models.HeroLoadsCorrected` |
