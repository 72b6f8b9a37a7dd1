# screen_animator core, modelled in Dafny

screen_animator scrolls text messages from right to left across a pygame
window and changes the background and text colours at random. This project
models the parts of it that hold the logic:

- **SpeedChanging** (`SpeedChanger.dfy`, from `speed_changer.py`). A speed
  changer captures a movement's speed when it is built. Each request then
  does one of four things: it keeps the speed, it restores the captured
  speed, it adds one step, or it subtracts one step with a floor at zero. A
  step is the captured speed divided by ten and rounded half to even. Speed
  actions are listeners that forward a fixed request.
- **Items** (`Items.dfy`, from `items.py`). This module holds the pygame
  `Rect` and `Surface` reduced to their geometry. It also holds the `Item`
  sprite, which joins its group when it is built and whose rectangle follows
  its content.
- **ItemGroups** (`ItemGroups.dfy`, from `item_groups.py`). This is the
  left-scrolling text group.
  - A new message is placed with its middle-left point on the perimeter's
    middle-right point.
  - Every `update` moves all messages left by their speed. It then drops the
    messages whose right edge is strictly left of the perimeter.
  - It spawns a new message when nothing is still emerging on the right.
- **AnimatorModel** (`Model.dfy`, from `model.py`).
  - The model builds one group per class handle and calls `create` on each,
    in order.
  - On every tick it calls `update` on each group, in order, and then posts
    one update event.
  - `quit` switches it off.
  - The groups are opaque. What the model does to them goes into a call log.
- **Observers** (`Observers.dfy`, from `observers.py`). This is an
  insertion-ordered registry without duplicates. Adding is idempotent,
  removing happens only if the observer is present, and a notification
  reaches each observer once.
- **ImageLoading** (`ImageLoading.dfy`, from `image_loading.py`). One table,
  shared by the whole class, maps a path suffix to a loader. An unknown
  suffix falls back to the raster loader. Importing the module registers the
  SVG loader for `.svg`.
- **Settings** (`Settings.dfy`, from `settings.py`).
  - The validator checks the structure of a parsed TOML document.
  - The conversion turns colour-shaped lists into tuples.
  - `set_colors` and `generate_message_text` make random choices. Each
    choice is drawn from a caller-supplied stream: draw `d` picks element
    `d mod n`.

Where the classes of the source change their fields, the model uses Dafny
classes. Each method states its new state against a pure function, and the
lemmas prove the source's promises about that function.

## Model

| member | source | states |
|---|---|---|
| SpeedChanging.OperationFor | src/screen_animator/speed_changer.py:47-52 | FASTER selects the increase and only FASTER does. SLOWER selects the decrease and RESET the restore, in both directions. MAINTAIN and every request the table does not know select the operation that changes nothing. |
| SpeedChanging.Step | src/screen_animator/speed_changer.py:73-80 | The step is within one half of a tenth of the original speed. An exact half goes to the even neighbour. A non-negative original gives a non-negative step. |
| SpeedChanging.Changed | src/screen_animator/speed_changer.py:58-80 | One change request, applied as the dispatch table says. From a non-negative original and a non-negative speed the result is never negative. |
| SpeedChanging.Run | src/screen_animator/speed_changer.py:58-80 | A series of requests applied in order. From a non-negative original and speed, the speed stays non-negative whatever the requests. |
| SpeedChanging.DispatchTable | src/screen_animator/speed_changer.py:58-80 | Faster adds one step. Slower subtracts one step and floors at zero. Reset restores the captured speed. Maintain and unknown requests keep the speed. |
| SpeedChanging.RunAppend | src/screen_animator/speed_changer.py:58-67 | A series of requests run one after another: the second series continues from the speed the first one ended at. |
| SpeedChanging.IncreaseIsLinear | src/screen_animator/speed_changer.py:73-75 | n increases add exactly n equal steps. The step depends only on the captured speed, so nothing compounds. |
| SpeedChanging.DecreaseIsFloored | src/screen_animator/speed_changer.py:77-80 | From a non-negative speed, n decreases give max(0, speed - n·step). |
| SpeedChanging.DecreaseOnce | src/screen_animator/speed_changer.py:77-80 | The first of n decreases floors the speed after one step, and the remaining n - 1 continue from there. |
| SpeedChanging.ResetRestoresOriginal | src/screen_animator/speed_changer.py:69-71 | After any history, a reset puts back the speed captured at construction. |
| SpeedChanging.UnrecognisedKeepsSpeed | src/screen_animator/speed_changer.py:67 | An unknown request leaves the speed where any history left it. |
| SpeedChanging.SpeedFourHundred | tests/screen_animator/test_speed_changer.py:31-75 | From 400: the step is 40. Three increases give 520. Eight decreases give 80. Ten or thirteen decreases give 0. A reset after ten increases gives 400. |
| SpeedChanging.SpeedChanger.constructor | src/screen_animator/speed_changer.py:35-53 | The changer keeps its speeder and captures that speeder's current speed as the original. |
| SpeedChanging.SpeedChanger.ChangeSpeed | src/screen_animator/speed_changer.py:58-67 | The new speed is the one the dispatched operation gives for this request. |
| SpeedChanging.SpeedChanger.Reset | src/screen_animator/speed_changer.py:69-71 | The speed becomes the captured original. |
| SpeedChanging.SpeedChanger.Increase | src/screen_animator/speed_changer.py:73-75 | The speed grows by one step of the captured original. |
| SpeedChanging.SpeedChanger.Decrease | src/screen_animator/speed_changer.py:77-80 | The speed drops by one step but never below zero. |
| SpeedChanging.RequestOf | src/screen_animator/speed_changer.py:93-134 | The base listener and the maintain listener issue MAINTAIN. The increase, decrease and reset listeners issue FASTER, SLOWER and RESET respectively, and no other listener issues those. |
| SpeedChanging.SpeedAction.constructor | src/screen_animator/speed_changer.py:95-105 | A listener keeps its kind and the changer it drives. |
| SpeedChanging.SpeedAction.Notify | src/screen_animator/speed_changer.py:110-112 | Notifying applies the listener's fixed request to the changer's speeder. |
| Items.Item.constructor | src/screen_animator/items.py:5-7 | A new item is appended to its group. It holds its content and has a rectangle of the content's size at the origin. |
| Items.Item.SetContent | src/screen_animator/items.py:13-16 | Setting the content replaces the rectangle with one of the new content's size at the origin. |
| ItemGroups.Spawn | src/screen_animator/item_groups.py:56-74 | A created message's left edge is the perimeter's right edge. Its vertical centre is the perimeter's. It has the content's size and the group's speed. |
| ItemGroups.MoveAll | src/screen_animator/item_groups.py:83 | Moving the group keeps the number of messages; `MoveAllAt` states what each one becomes. |
| ItemGroups.MoveAllAt | src/screen_animator/item_groups.py:83 | The i-th message after the move is the i-th message before it, moved one step. |
| ItemGroups.Survivors | src/screen_animator/item_groups.py:84-86 | The removal pass never adds a message. |
| ItemGroups.Advance | src/screen_animator/item_groups.py:83-86 | Moving then removing never adds a message; the lemmas below say which ones are kept. |
| ItemGroups.Tick | src/screen_animator/item_groups.py:76-91 | One update: the moved survivors, plus one spawned message exactly when none of them is still emerging (see TickReplenishes). |
| ItemGroups.LeftScrollingText.constructor | src/screen_animator/item_groups.py:18-31 | A new group holds no messages. |
| ItemGroups.LeftScrollingText.Create | src/screen_animator/item_groups.py:56-74 | Exactly one message is appended, placed as Spawn says. |
| ItemGroups.LeftScrollingText.Update | src/screen_animator/item_groups.py:76-91 | The new messages are the old ones moved, minus those strictly left of the perimeter. One spawned message is added when every remaining message has emerged. |
| ItemGroups.LeftScrollingText.AllEmerged | src/screen_animator/item_groups.py:87-90 | True if and only if every given message has its right edge at or inside the perimeter's right edge. |
| ItemGroups.SurvivorsExactly | src/screen_animator/item_groups.py:84-86 | A message survives removal if and only if its right edge is not left of the perimeter's left edge. |
| ItemGroups.SurvivorsKeepOrder | src/screen_animator/item_groups.py:84-86 | Removal is order preserving: it distributes over concatenation. |
| ItemGroups.TickReplenishes | src/screen_animator/item_groups.py:87-91 | After an update the group is never empty. It gains exactly one message if and only if nothing is still emerging on the right. |
| ItemGroups.AdvanceOne | src/screen_animator/item_groups.py:83-86 | A lone message moves one step and is dropped exactly when it is then strictly left of the perimeter. |
| ItemGroups.MoveAllAppend | src/screen_animator/item_groups.py:83 | Moving distributes over concatenation: each message moves on its own. |
| ItemGroups.DriftAppend | src/screen_animator/item_groups.py:83-86 | With create switched off, n updates of a group are n updates of each of its parts, concatenated in order. |
| ItemGroups.DriftMembers | src/screen_animator/item_groups.py:83-86 | With create switched off and visible messages moving left, a message is in the group after n updates if and only if it is one of the original messages moved n steps whose right edge has not passed strictly left of the perimeter. |
| ItemGroups.DriftOfOne | src/screen_animator/item_groups.py:83-86 | With create switched off, a visible message is gone after n updates exactly when its right edge minus n steps is left of the perimeter. Otherwise it has moved n steps. |
| ItemGroups.EmptiedAfterCrossing | tests/screen_animator/test_item_groups.py:74-87 | Let k = ceil((w + perimeter width) / s). A fresh message is gone after k updates. When k·s equals w + perimeter width exactly, it is gone only after k + 1 updates, because removal is strict. |
| ItemGroups.EmergingAlone | src/screen_animator/item_groups.py:87-91 | While a fresh message is still emerging, each update only moves it. |
| ItemGroups.ReplenishedOnEmergence | tests/screen_animator/test_item_groups.py:60-72 | From one fresh message of width w at speed s ≤ the perimeter width, ceil(w / s) updates leave exactly two messages. |
| ItemGroups.LastEmerges | src/screen_animator/item_groups.py:83-91 | A lone message that stays visible and fully emerges on this update is kept and joined by exactly one new message. |
| AnimatorModel.Built | src/screen_animator/model.py:78-81 | One group per class handle, in the same order, each handed the perimeter. |
| AnimatorModel.Model.constructor | src/screen_animator/model.py:33-55 | A new model is not initialised and has update event type 0. It has no perimeter and no groups yet. |
| AnimatorModel.Model.Init | src/screen_animator/model.py:67-86 | Init stores the perimeter and builds the groups. It calls create once on each group in list order, then marks the model initialised. |
| AnimatorModel.Model.Update | src/screen_animator/model.py:88-93 | When groups exist, update is called on each in list order, followed by one posted update event. Before init it fails and changes nothing. |
| AnimatorModel.Model.Quit | src/screen_animator/model.py:95-98 | The model is no longer initialised, and only that field changes. |
| AnimatorModel.Model.Initialized | src/screen_animator/model.py:62-65 | The initialized property reads the flag that init sets and quit clears; Init and Quit state its value. |
| AnimatorModel.UpdateCallsOnce | src/screen_animator/model.py:90-91 | A tick calls update on each group index exactly once and on no other index. |
| AnimatorModel.UpdateRoundShape | src/screen_animator/model.py:88-93 | A tick updates group i at position i. The single event is posted after all updates. |
| AnimatorModel.CreateRoundOnce | src/screen_animator/model.py:82-83 | Init calls create exactly once per group, in order. |
| AnimatorModel.OnePostPerTick | src/screen_animator/model.py:93 | k ticks post exactly k update events. |
| Observers.Observable.constructor | src/screen_animator/observers.py:11-12 | A new registry is empty. |
| Observers.Observable.AddObserver | src/screen_animator/observers.py:14-15 | Adding makes the observer a member. A new observer goes last. An existing one keeps its place. There are still no duplicates. |
| Observers.Observable.RemoveObserver | src/screen_animator/observers.py:21-23 | The table loses exactly that observer and keeps the others in order, without duplicates. |
| Observers.Observable.NotifyObservers | src/screen_animator/observers.py:17-19 | Every registered observer is notified exactly once, in registration order, and nothing else is notified. |
| Observers.AddedExactly | src/screen_animator/observers.py:14-15 | Adding yields exactly the old members plus the observer. It grows the table only for a new observer, and adding twice equals adding once. |
| Observers.RemovedKeepsOthers | src/screen_animator/observers.py:21-23 | After removal, x is a member if and only if it was one and is not the removed observer. |
| Observers.RemovedAbsent | src/screen_animator/observers.py:22 | Removing an unregistered observer changes nothing. |
| Observers.RemovedShrinks | src/screen_animator/observers.py:21-23 | Removing a registered observer shortens the table by one. |
| Observers.OccursOnce | src/screen_animator/observers.py:12 | In the key table every member occurs exactly once. |
| Observers.Added | src/screen_animator/observers.py:14-15 | Dictionary insertion: a new key goes last and an existing key keeps its place; AddedExactly states its properties. |
| Observers.Removed | src/screen_animator/observers.py:21-23 | Deletion if present: the keys without that observer, in the same order; RemovedKeepsOthers, RemovedAbsent and RemovedShrinks state its properties. |
| ImageLoading.LastIndexOf | src/screen_animator/image_loading.py:101 | The result is the last index holding the character, or -1 when there is none. |
| ImageLoading.TrimSlashes | src/screen_animator/image_loading.py:101 | The result is the path with exactly its trailing slashes removed: a prefix not ending in a slash, followed in the path only by slashes. |
| ImageLoading.Name | src/screen_animator/image_loading.py:101 | The name is the last component of the path without trailing slashes: a slash-free tail of it that is the whole of it or follows a slash. |
| ImageLoading.NameSuffix | src/screen_animator/image_loading.py:101 | A suffix is a proper tail of the name: a dot and at least one further character, with no other dot. It is empty if and only if the name has no dot after its first character or ends in a dot. |
| ImageLoading.Suffix | src/screen_animator/image_loading.py:101 | A non-empty suffix of a path is a proper tail of its name that starts with a dot and holds no other dot and no slash. |
| ImageLoading.Dispatch | src/screen_animator/image_loading.py:101 | The loader is the one registered for the path's suffix when there is one, and the raster loader exactly when the suffix is not registered. |
| ImageLoading.NameAfterDirectory | src/screen_animator/image_loading.py:101 | Directories before a slash-free last component other than "." do not change the name. |
| ImageLoading.ExtensionSuffix | src/screen_animator/image_loading.py:101 | A non-empty stem followed by a dot-led extension without further dots has that extension as its suffix. |
| ImageLoading.SuffixOfPath | src/screen_animator/image_loading.py:101 | The suffix of a path is the suffix of its last component (other than "."). |
| ImageLoading.LoaderRegistry.constructor | src/screen_animator/image_loading.py:85 | The class table starts empty. |
| ImageLoading.LoaderRegistry.RegisterLoader | src/screen_animator/image_loading.py:87-90 | The format maps to the loader and replaces any earlier entry. |
| ImageLoading.ImageLoader.constructor | src/screen_animator/image_loading.py:85 | Every loader instance reads the one shared table. |
| ImageLoading.ImageLoader.LoadImage | src/screen_animator/image_loading.py:92-103 | The image is what the loader dispatched for the path's suffix gives for that path and width; RegisterRedirects and the default-table lemmas say which loader that is. |
| ImageLoading.ImportModule | src/screen_animator/image_loading.py:85-106 | After import the table holds exactly ".svg" mapped to the SVG loader. |
| ImageLoading.RegisterRedirects | src/screen_animator/image_loading.py:87-103 | Registering redirects exactly the paths with that suffix. Every other path is dispatched as before. |
| ImageLoading.DefaultTableSvg | tests/screen_animator/test_image_loading.py:11-33 | With the import-time table, a file ending in ".svg" goes to the SVG loader, in any directory. |
| ImageLoading.DefaultTableOther | tests/screen_animator/test_image_loading.py:11-33 | With the import-time table, any other extension goes to the raster loader. This includes ".bmp", ".png" and upper-case ".SVG". |
| ImageLoading.DefaultTableNoDot | src/screen_animator/image_loading.py:101-106 | With the import-time table, a file name with no dot at all has no suffix and goes to the raster loader, in any directory. |
| ImageLoading.DefaultTableHidden | src/screen_animator/image_loading.py:101 | A hidden file such as ".svg" (a dot followed by at least one character and no other dot) has no suffix and goes to the raster loader. |
| Settings.ValidateSettings | src/screen_animator/settings.py:62-93 | Validation either passes or raises ValueError. A passing document has a "colors" list and a "messages" table. |
| Settings.Conforms | src/screen_animator/settings.py:64-93 | The mapping pattern of the validator: the four top-level keys, each with a value of the listed class or a table with the listed fields; other keys are ignored. The lemmas below state its consequences. |
| Settings.MissingKeyRejected | tests/screen_animator/test_settings.py:47-52 | A document missing any listed top-level key raises ValueError. |
| Settings.MissingFieldRejected | src/screen_animator/settings.py:65-93 | A document missing a listed field of a table raises ValueError. |
| Settings.ExtraKeyAccepted | src/screen_animator/settings.py:65-90 | Keys the pattern does not list are ignored. |
| Settings.FieldReplaced | src/screen_animator/settings.py:65-93 | Replacing one field of a valid document keeps it valid exactly when the new value is of one of the classes listed for that field. |
| Settings.BoolCountsAsInt | src/screen_animator/settings.py:71 | `int()` accepts True and False, as Python's class patterns do for a subclass: a boolean text size passes validation. |
| Settings.WrongClassRejected | src/screen_animator/settings.py:86 | A frame rate given as a string matches neither `int()` nor `float()`, so validation raises ValueError. |
| Settings.ConformingColours | src/screen_animator/settings.py:66 | A conforming document holds a "colors" list. |
| Settings.SectionField | src/screen_animator/settings.py:67-90 | A table that matches a mapping pattern holds every field the pattern lists, with a value of one of that field's classes. |
| Settings.ConformingMessagesTable | src/screen_animator/settings.py:67-79 | In a conforming document the "messages" entry matches the messages table pattern. |
| Settings.ConformingMessages | src/screen_animator/settings.py:67-79 | A conforming document's messages table holds the messages as a list or a string, a string separator and a list of outline colours. |
| Settings.ExampleAccepted | tests/conftest.py:9-49 | The example settings of the tests pass validation. |
| Settings.BritishSettingsRejected | tests/screen_animator/test_settings.py:6-43 | The importer tests' fixture spells the key "colours", so the validator rejects it. |
| Settings.Convert | src/screen_animator/settings.py:95-107 | A colour-shaped list becomes a tuple of the same elements. Another list stays a list of the same length. A dictionary keeps its keys. Any other value is unchanged. |
| Settings.ConvertEntry | src/screen_animator/settings.py:101-105 | Converting a dictionary converts the value under each key. |
| Settings.ConvertItem | src/screen_animator/settings.py:99-100 | Converting a list that is not colour-shaped converts each element in place: same length, same order. |
| Settings.ConvertKeepsColourShape | src/screen_animator/settings.py:97-100 | Converting a list's elements never makes it colour-shaped or stops it being colour-shaped. |
| Settings.ConvertIsPlain | src/screen_animator/settings.py:95-107 | No colour-shaped list survives the conversion. |
| Settings.ConvertFixesPlain | src/screen_animator/settings.py:95-107 | The conversion leaves a value unchanged if and only if no colour-shaped list is reachable in it. |
| Settings.ConvertIdempotent | src/screen_animator/settings.py:95-107 | Converting twice equals converting once. |
| Settings.ConvertColourList | src/screen_animator/settings.py:97-100 | A list, not itself colour-shaped, whose elements are all colour-shaped lists becomes the list of the corresponding tuples. |
| Settings.ExampleColoursConverted | tests/conftest.py:53-74 | In the example settings, the colours and the outline colours become lists of RGB tuples. |
| Settings.ExampleSourcesConverted | tests/conftest.py:53-74 | In the example settings, the image sources become (path, width) tuples. |
| Settings.ExampleMessagesKept | tests/conftest.py:53-74 | In the example settings, the message list holds no colour-shaped list and is left unchanged. |
| Settings.SettingsImporter.constructor | src/screen_animator/settings.py:27-29 | A new importer holds no settings (None). |
| Settings.SettingsImporter.ImportSettings | src/screen_animator/settings.py:34-55 | Import succeeds if and only if the document conforms, and returns and stores its conversion. Otherwise it raises ValueError with the unconverted document stored. |
| Settings.ConvertedColoursReady | src/screen_animator/settings.py:145-164 | An imported document has what set_colors reads. |
| Settings.ConvertedMessagesReady | src/screen_animator/settings.py:167-178 | An imported document has what generate_message_text reads. |
| Settings.Choice | src/screen_animator/settings.py:150 | A random choice is an element of the sequence. |
| Settings.PyEq | src/screen_animator/settings.py:155 | Python's == as the text-colour loop applies it: numbers and booleans by value (1 == True == 1.0), lists with lists and tuples with tuples element by element, tables by keys and values. |
| Settings.PyEqReflexive | src/screen_animator/settings.py:155 | Every value equals itself under Python's ==. |
| Settings.Retry | src/screen_animator/settings.py:154-156 | The text-colour loop on a stream of draws: the first drawn colour not equal to the background under Python's ==, or None when the draws run out first; RetryDiffers and RetrySettlesIff state its properties. |
| Settings.ColoursSet | src/screen_animator/settings.py:145-164 | The outcome of set_colors and the settings it leaves, each step in source order until one raises; ColoursChosen, ColoursSetOutcome and ColoursSetKeepsOthers state its properties. |
| Settings.Pool | src/screen_animator/settings.py:178 | random.choice picks from one element per index: an element of a list or tuple is in the pool exactly when it is in the list, and for a string the pool holds exactly the one-character strings of its characters. |
| Settings.SettingsManager.constructor | src/screen_animator/settings.py:120-135 | The manager holds the imported settings and then runs set_colors, as _setup_settings does first (settings.py:183-184): its status and settings are those ColoursSet gives. Any status but Done is a constructor that raised or never returned. |
| Settings.DrawTextColour | src/screen_animator/settings.py:154-156 | The loop ends on the first drawn colour not equal to the background under Python's ==; its result is Retry of the draws, None when the draws run out first. |
| Settings.SettingsManager.SetColors | src/screen_animator/settings.py:145-164 | The status and the new settings are those `ColoursSet` gives for the old settings and the draws; only the settings field may change. See the note below the table. |
| Settings.ColoursChosen | src/screen_animator/settings.py:150-164 | Whenever there are colours and "bg" is a table, the background colour is set to one of the colours, however set_colors ends. When it finishes, the background colour is one of the colours, and the text colour is one of the colours not equal to it under Python's ==. The outline colour is the single RGB triple given, or else one of the outline colours. |
| Settings.ColoursSetOutcome | src/screen_animator/settings.py:148-164 | IndexError exactly when there are no colours (the draw comes before "bg" is indexed), or when the text colour settles and there is neither an RGB triple nor any outline colour. TypeError exactly when there are colours and "bg" is not a table. Unsettled exactly when the text-colour loop does not end on the given draws. |
| Settings.ColoursSetKeepsOthers | src/screen_animator/settings.py:148-164 | Only "bg" and "messages" change. "bg" always exists afterwards: a missing one is created, a non-table one is left as it was, and a table keeps its other entries. "messages" keeps every entry except "color" and "outline_color". |
| Settings.SettingsManager.GenerateMessageText | src/screen_animator/settings.py:167-178 | The text is one pool message followed by the separator. An empty list, tuple or string raises IndexError, and only that does. |
| Settings.EveryMessageReachable | src/screen_animator/settings.py:178 | Every message of the pool is the text for some draw. |
| Settings.RetryDiffers | src/screen_animator/settings.py:154-156 | A text colour that the retry loop settles on is one of the colours and is not equal to the background under Python's ==. |
| Settings.RetryNeverSettles | src/screen_animator/settings.py:155-156 | When every colour equals the background under Python's ==, no sequence of draws ends the loop. |
| Settings.RetrySettlesIff | src/screen_animator/settings.py:153-156 | Some sequence of draws ends the loop if and only if some colour is not equal to the background under Python's ==. |
| Settings.SingleColourNeverSettles | src/screen_animator/settings.py:150-156 | With a single colour, set_colors never finishes. |
| Settings.SingleColourUnsettled | src/screen_animator/settings.py:145-164 | With a single colour and a usable "bg" entry, set_colors never finishes, so neither does the construction of a manager. |
| Settings.EqualSpellingsNeverSettle | src/screen_animator/settings.py:155-156 | Colours written [1, 0, 0] and [true, 0, 0], which the validator accepts, are equal in Python, so the text-colour loop never ends on them. |

`Settings.SettingsManager.SetColors` is tied to the function `Settings.ColoursSet`, and the lemmas `ColoursChosen`, `ColoursSetOutcome` and `ColoursSetKeepsOthers` prove what that function does:

- A missing "bg" table is created first.
- An empty colour list then raises IndexError. The colour is drawn before "bg" is indexed, so this holds even when "bg" is not a table.
- Otherwise a "bg" entry that is not a table raises TypeError, and nothing changes.
- Otherwise the background colour is a drawn colour, and the text colour is the first drawn colour not equal to it under Python's `==` (`Settings.PyEq`).
- If the draws run out before such a colour appears, the loop is unsettled.
- The outline colour is the outline value itself when that value is one RGB triple. Otherwise it is drawn from the outline colours, and an empty list of outline colours raises IndexError.
- No other key changes.

## Left out

- Float speeds: the scrolling speed `scroll_speed / fps` and the speeder's speed are floats in the source. Here they are whole pixels per tick, given as the group's integer `speed`. `max(0.0, …)` becomes `max(0, …)`.
- SpeedChanging.Step: it computes `round(0.1 * speed)` in exact arithmetic rather than in binary floating point. The two agree on whole speeds of magnitude below 2^50: away from a tie, the error of the float product is far below the distance to the next half; at a tie 10q + 5, the float product is exactly q + 0.5, because the relative error of the double nearest 0.1 is smaller than half a unit in the last place there.
- Only the left scroll direction is modelled. The `ScrollingMovement` class with its direction table, the `rect_box` and the `Speeder` protocol of `items.py` are not part of this model. The `items.py` shown takes three arguments and has no movement. The movement rule is taken from the item group's use of `ScrollingMovement(speed, "left")`, as x decreasing by the speed each tick.
- Messages are values in the group's sequence, not aliased sprite objects, so `kill()` is a filter. Their content comes in as a parameter to `Create` and `Update`; the `message` callable in the settings is not modelled.
- AnimatorModel: groups are opaque entries recorded in a call log. pygame's event queue is the same log, and `update` before `init` is a failed result rather than an `AttributeError`. The settings manager handed to each group is not modelled.
- Observers: the table holds strong references. Automatic removal of garbage-collected observers by the `WeakKeyDictionary` is not modelled.
- ImageLoading: loaders are opaque. `load_image` passes the chosen loader, path and width to a caller-supplied `open` function. Decoding, scaling and missing-file handling in `load_raster_image` and `load_svg_image` are left out. Paths are POSIX strings; `PurePosixPath` normalisation of "." components and of repeated slashes is not modelled.
- Settings: `int() | float()` for timings is modelled, but float values are kept as reals and never computed with. Reading the TOML file, setting the font and loading the images in `_setup_settings` are I/O or pygame. So is the copy of `fps` into `fps_actual`. The constructor takes the imported settings directly and then runs `set_colors`, the first step of `_setup_settings`. Values have no `None`, so a "bg" entry that is present is never treated as missing.
- Settings.PyEq: floats are reals, so TOML's `nan` and `inf` are not modelled; Python's `nan != nan` is therefore not reflected.
- Settings.SettingsManager.SetColors: the retry loop has no bound in the source. Here it consumes a finite stream of draws and reports `Unsettled` when the stream ends while the colour still equals the background under Python's `==`. The text colour is written once the loop settles rather than on every draw; an unsettled run never returns, so the two differ in no observable state.
- Settings.SettingsManager.GenerateMessageText: only string messages are modelled exactly. Any other chosen value is rendered by a caller-supplied `format` function standing for Python's `str()`.
- Randomness: `random.choice` draws from caller-supplied streams. No distribution is modelled.
- Logging, `__repr__`, the ASCII-art converter, the launcher, the controller and view stubs, and the log setup are not part of this model. `EventManager`, `RandomMovement`, `RandomImagesGroup` and the loader classes named in the tests are not in the source shown, so they are not part of this model either.
- The importer tests' fixture uses the key "colours" and other fields the validator does not accept. The code asks for "colors", so the model follows the code, and `Settings.BritishSettingsRejected` shows that this fixture is rejected.
