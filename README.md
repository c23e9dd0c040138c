# BottomSheetBuilder in Dafny

BottomSheetBuilder is a small Android library. Its one class,
`BottomSheetBuilder`, builds a Material bottom-sheet menu. The sheet is a
vertical `LinearLayout` whose child 0 is a title `TextView`, hidden at first.
Every later child is a clickable row whose view id is its position among the
rows. Rows are created with the builder's current default colour and default
icon. They can be re-iconed or recoloured afterwards, either all at once
(which also changes the defaults) or at explicit positions. `show()` lays the
children out and opens the dialog once. A row tap reports the row's id and the
builder's tag to the click listener and closes the sheet. Any other dismissal
reports the tag to the dismissal listener, unless a row tap or `dismiss()`
closed the sheet first.

The model has four modules:

- `SheetModel` (`sheet_model.dfy`) holds the data model and one reference function per builder call:
  - `Child` is a text view: text, icon, text colour, icon tint, height, padding, visibility, appearance, id, and whether it has a click handler.
  - `Sheet` is a snapshot of every builder field. It also holds the `Log` calls (`Diagnostic`), the listener calls (`Event`) and the dialog.
- `SheetProperties` (`sheet_properties.dfy`) states what each call does, as lemmas about those functions.
- `SheetCalls` (`sheet_calls.dfy`) interprets arbitrary sequences of calls and UI events (`Run`). It proves what no sequence can undo, for example that a builder notifies its listeners at most once in its life.
- `SheetBuilder` (`sheet_builder.dfy`) is the class itself:
  - it has the Java fields as mutable fields and one method per Java method, with the same loops;
  - each method is proved to leave `State()` equal to the reference function applied to the old state, and to keep `Valid()`;
  - three client methods replay the demo activity and two dismissal scenarios.

Modelling conventions:

- **Overloads.** The `String` and `@StringRes` overloads are merged through `Text = Literal(s) | Resource(res)`, because string resources are opaque here. `setTitle(@StringRes int)` stays separate because, unlike `setTitle(String)`, it does not change the title's visibility.
- **Return values.** Java's fluent return of `this` is not modelled; the methods return nothing.
- **Null.** A `null` tag or title is `None`.
- **Listeners.** They are represented only by whether they are set. What they receive is appended to `events`.
- **setIcon exceptions.** Positional `setIcon` uses `getChildAt(pos)` with no offset. When that child does not exist, the Java call throws a `NullPointerException`. The model returns that position as `thrown`: earlier positions stay applied and later ones are not reached.
- **setItemColor exceptions.** Positional `setItemColor` uses `getChildAt(pos + 1)`, and it catches the same exception. The model logs `NonexistentItem` and goes on with the next position.
- **Integer arithmetic.** Java `int` is the subset type `i32`. The last child's height `mItemHeight + mItemPadding / 2` is written with truncating division (`Half`) and 32-bit wrap-around (`Wrap32`).
- **Environment.** The device density, the resolved primary text colour and the ids of resources are constructor parameters or plain integers.

## Model

| member | source | states |
|---|---|---|
| SheetModel.Wrap32 | bottomsheetbuilder/src/main/java/com/koenidv/bottomsheetbuilder/BottomSheetBuilder.java:592 | Java int addition wraps: in range the value is unchanged, otherwise the result is the 32-bit value congruent to it modulo 2^32 |
| SheetModel.Half | bottomsheetbuilder/src/main/java/com/koenidv/bottomsheetbuilder/BottomSheetBuilder.java:591-592 | `mItemPadding / 2` rounds toward zero: the remainder has the sign of the padding and is less than 2 in magnitude |
| SheetProperties.TitleCallsTouchOnlyTitle | bottomsheetbuilder/src/main/java/com/koenidv/bottomsheetbuilder/BottomSheetBuilder.java:129-174 | setTitle(null) hides the title and keeps its text; setTitle(text) shows the text; setTitle(res) changes only the text; setTitle(text, style) is setTitle(text) plus the appearance; setTitleColor sets the text colour; no row and no other field changes |
| SheetProperties.StyledTitleThenRows | bottomsheetbuilder/src/main/java/com/koenidv/bottomsheetbuilder/BottomSheetBuilder.java:156-164 | createItem restyles the title: a title style set before rows are added is replaced by the popup-menu appearance, and one set after them stays |
| SheetProperties.AddItemsAppends | bottomsheetbuilder/src/main/java/com/koenidv/bottomsheetbuilder/BottomSheetBuilder.java:187-225 | addItems appends one row per text in argument order. Each row has id (its position − 1), the default colour and icon, and item padding. Earlier rows are untouched; the title gets the popup-menu appearance iff a row was added; no other field changes |
| SheetProperties.AddIconItemsAppends | bottomsheetbuilder/src/main/java/com/koenidv/bottomsheetbuilder/BottomSheetBuilder.java:309-349 | with enough icons, row i is texts[i] with icons[i] (or the default icon when one is set), tinted with the default colour; earlier rows untouched |
| SheetProperties.AddIconItemsKeeps | bottomsheetbuilder/src/main/java/com/koenidv/bottomsheetbuilder/BottomSheetBuilder.java:230-279 | with a default icon set, the paired loop logs one debug note per row and otherwise nothing; only children and log change |
| SheetProperties.AddItemsWithIconsRows | bottomsheetbuilder/src/main/java/com/koenidv/bottomsheetbuilder/BottomSheetBuilder.java:309-349 | fewer icons than texts: one error is logged and no passed icon is used on any row; otherwise every row gets its paired icon unless the default icon overrides it; either way one row per text with the default colour |
| SheetProperties.AddItemExplicitColor | bottomsheetbuilder/src/main/java/com/koenidv/bottomsheetbuilder/BottomSheetBuilder.java:357-375 | addItem appends one plain row whose text colour is the given one; the default colour is unchanged |
| SheetProperties.RecolorBecomesDefault | bottomsheetbuilder/src/main/java/com/koenidv/bottomsheetbuilder/BottomSheetBuilder.java:429-454 | setItemColor without positions repaints every row and becomes the colour of rows added later, while addItem's explicit colour still wins |
| SheetProperties.SetIconAllEffect | bottomsheetbuilder/src/main/java/com/koenidv/bottomsheetbuilder/BottomSheetBuilder.java:384-401 | setIcon without positions gives every row the icon tinted with the default colour, leaves the title alone, and sets the default icon iff there is a row |
| SheetProperties.RecolorAllEffect | bottomsheetbuilder/src/main/java/com/koenidv/bottomsheetbuilder/BottomSheetBuilder.java:430-454 | setItemColor without positions paints text and tint of every row, leaves the title alone, and sets the default colour iff there is a row |
| SheetProperties.ColorAtEffect | bottomsheetbuilder/src/main/java/com/koenidv/bottomsheetbuilder/BottomSheetBuilder.java:455-486 | positional setItemColor paints child k exactly when k − 1 is among the positions; every other child keeps its value |
| SheetProperties.ColorAtLog | bottomsheetbuilder/src/main/java/com/koenidv/bottomsheetbuilder/BottomSheetBuilder.java:478-484 | the caught exception logs only "non-existent item" errors, at most one per position, and none iff every position names a child |
| SheetProperties.ColorAtSplit | bottomsheetbuilder/src/main/java/com/koenidv/bottomsheetbuilder/BottomSheetBuilder.java:456-485 | a missing position does not stop the loop: recolouring at ps + qs is recolouring at ps then at qs, logs concatenated |
| SheetProperties.ColorAtOne | bottomsheetbuilder/src/main/java/com/koenidv/bottomsheetbuilder/BottomSheetBuilder.java:456-485 | a single position paints child pos + 1 if it exists, otherwise logs one error and changes nothing |
| SheetProperties.IconAtShape | bottomsheetbuilder/src/main/java/com/koenidv/bottomsheetbuilder/BottomSheetBuilder.java:403-418 | positional setIcon leaves every child either untouched or with the icon and the default-colour tint |
| SheetProperties.IconAtNoThrow | bottomsheetbuilder/src/main/java/com/koenidv/bottomsheetbuilder/BottomSheetBuilder.java:403-404 | positional setIcon does not throw when every position names an existing child |
| SheetProperties.IconAtInRange | bottomsheetbuilder/src/main/java/com/koenidv/bottomsheetbuilder/BottomSheetBuilder.java:403-418 | with all positions in range, exactly the children at those positions, counted from the title, get the icon |
| SheetProperties.IconAtAfterThrow | bottomsheetbuilder/src/main/java/com/koenidv/bottomsheetbuilder/BottomSheetBuilder.java:403-406 | after the first missing position throws, no later position is applied |
| SheetProperties.IconAtThrows | bottomsheetbuilder/src/main/java/com/koenidv/bottomsheetbuilder/BottomSheetBuilder.java:403-406 | at the first missing position the call throws with that position, after the positions before it were applied |
| SheetProperties.PositionZeroDiffers | bottomsheetbuilder/src/main/java/com/koenidv/bottomsheetbuilder/BottomSheetBuilder.java:403-458 | setIcon(icon, 0) changes the title, while setItemColor(color, 0) changes the first row |
| SheetProperties.FirstShow | bottomsheetbuilder/src/main/java/com/koenidv/bottomsheetbuilder/BottomSheetBuilder.java:585-607 | the first show gives every child the item height and padding, and the last child half the padding more at the bottom and in height. The dialog is themed iff the sheet style is non-zero and is then showing; nothing is logged or notified |
| SheetProperties.ShowOnlyOnce | bottomsheetbuilder/src/main/java/com/koenidv/bottomsheetbuilder/BottomSheetBuilder.java:585-614 | once the layout is attached, show only logs "already shown" under the tag, also after a dismissal |
| SheetProperties.ClickReportsPosition | bottomsheetbuilder/src/main/java/com/koenidv/bottomsheetbuilder/BottomSheetBuilder.java:204-214 | a tap on row k with a click listener reports id k − 1 and the tag, sets the flag and closes the dialog with no dismissal notification |
| SheetProperties.ClickWithoutListener | bottomsheetbuilder/src/main/java/com/koenidv/bottomsheetbuilder/BottomSheetBuilder.java:207 | without a click listener a tap changes nothing, and the sheet stays open |
| SheetProperties.DismissFromOutsideNotifies | bottomsheetbuilder/src/main/java/com/koenidv/bottomsheetbuilder/BottomSheetBuilder.java:600-606 | an outside dismissal closes the dialog and notifies the dismissal listener with the tag exactly when it is set and the flag is clear |
| SheetProperties.DismissIsSilent | bottomsheetbuilder/src/main/java/com/koenidv/bottomsheetbuilder/BottomSheetBuilder.java:617-622 | dismiss() never notifies; without a dialog it changes nothing, with one it sets the flag and closes it |
| SheetCalls.Step | bottomsheetbuilder/src/main/java/com/koenidv/bottomsheetbuilder/BottomSheetBuilder.java:129-622 | no call or UI event removes a child |
| SheetCalls.Run | bottomsheetbuilder/src/main/java/com/koenidv/bottomsheetbuilder/BottomSheetBuilder.java:129-622 | no sequence of calls removes a child |
| SheetCalls.EvolvesTransitive | bottomsheetbuilder/src/main/java/com/koenidv/bottomsheetbuilder/BottomSheetBuilder.java:584-622 | what a later state keeps of an earlier one composes over two steps |
| SheetCalls.WithTitleSucceeds | bottomsheetbuilder/src/main/java/com/koenidv/bottomsheetbuilder/BottomSheetBuilder.java:129-174 | replacing the title by a view with no id and no click handler keeps the sheet well formed and undoes nothing |
| SheetCalls.TitleCallSucceeds | bottomsheetbuilder/src/main/java/com/koenidv/bottomsheetbuilder/BottomSheetBuilder.java:129-174 | every title call keeps the sheet well formed and undoes nothing |
| SheetCalls.SetterCallSucceeds | bottomsheetbuilder/src/main/java/com/koenidv/bottomsheetbuilder/BottomSheetBuilder.java:497-572 | every listener, style, tag, height and padding setter keeps the sheet well formed and undoes nothing |
| SheetCalls.AddItemsSucceeds | bottomsheetbuilder/src/main/java/com/koenidv/bottomsheetbuilder/BottomSheetBuilder.java:286-301 | addItems keeps row ids equal to positions and undoes nothing |
| SheetCalls.AddItemsWithIconsSucceeds | bottomsheetbuilder/src/main/java/com/koenidv/bottomsheetbuilder/BottomSheetBuilder.java:309-349 | the paired addItems keeps row ids equal to positions and undoes nothing |
| SheetCalls.AddItemSucceeds | bottomsheetbuilder/src/main/java/com/koenidv/bottomsheetbuilder/BottomSheetBuilder.java:357-375 | addItem keeps row ids equal to positions and undoes nothing |
| SheetCalls.SetIconSucceeds | bottomsheetbuilder/src/main/java/com/koenidv/bottomsheetbuilder/BottomSheetBuilder.java:383-421 | setIcon, thrown or not, keeps ids, texts and click handlers |
| SheetCalls.SetItemColorSucceeds | bottomsheetbuilder/src/main/java/com/koenidv/bottomsheetbuilder/BottomSheetBuilder.java:429-488 | setItemColor keeps ids, texts and click handlers |
| SheetCalls.LifecycleCallSucceeds | bottomsheetbuilder/src/main/java/com/koenidv/bottomsheetbuilder/BottomSheetBuilder.java:204-622 | show, dismiss, a tap and an outside dismissal never recreate the dialog, never reopen a closed one, never reset the flag, and notify at most once |
| SheetCalls.StepSucceeds | bottomsheetbuilder/src/main/java/com/koenidv/bottomsheetbuilder/BottomSheetBuilder.java:129-622 | every call from a well-formed state keeps it well formed and undoes nothing |
| SheetCalls.RunSucceeds | bottomsheetbuilder/src/main/java/com/koenidv/bottomsheetbuilder/BottomSheetBuilder.java:129-622 | every sequence of calls keeps the sheet well formed: rows keep place and text, logs and events only grow, the flag stays set, one dialog at most |
| SheetCalls.NotifiedAtMostOnce | bottomsheetbuilder/src/main/java/com/koenidv/bottomsheetbuilder/BottomSheetBuilder.java:204-606 | from construction, any sequence of calls and UI events calls the listeners at most once in total |
| SheetCalls.SetupHasOnlyTitle | bottomsheetbuilder/src/main/java/com/koenidv/bottomsheetbuilder/BottomSheetBuilder.java:97-116 | a new builder has exactly one child, the hidden title; no dialog, no log, no events |
| SheetBuilder.BottomSheetBuilder.constructor | bottomsheetbuilder/src/main/java/com/koenidv/bottomsheetbuilder/BottomSheetBuilder.java:52-116 | the four constructors run setup, then store the style and the tag |
| SheetBuilder.BottomSheetBuilder.SetTitle | bottomsheetbuilder/src/main/java/com/koenidv/bottomsheetbuilder/BottomSheetBuilder.java:129-137 | the fields become setTitle's reference result; the sheet stays well formed |
| SheetBuilder.BottomSheetBuilder.SetTitleRes | bottomsheetbuilder/src/main/java/com/koenidv/bottomsheetbuilder/BottomSheetBuilder.java:144-147 | as above, for setTitle(@StringRes int) |
| SheetBuilder.BottomSheetBuilder.SetTitleStyled | bottomsheetbuilder/src/main/java/com/koenidv/bottomsheetbuilder/BottomSheetBuilder.java:156-164 | as above, for setTitle(String, int) |
| SheetBuilder.BottomSheetBuilder.SetTitleColor | bottomsheetbuilder/src/main/java/com/koenidv/bottomsheetbuilder/BottomSheetBuilder.java:171-174 | as above, for setTitleColor |
| SheetBuilder.BottomSheetBuilder.CreateItem | bottomsheetbuilder/src/main/java/com/koenidv/bottomsheetbuilder/BottomSheetBuilder.java:187-225 | returns the row with id (child count − 1), the default colour and icon, and item padding; the only state change is the title's appearance |
| SheetBuilder.BottomSheetBuilder.CreateIconItem | bottomsheetbuilder/src/main/java/com/koenidv/bottomsheetbuilder/BottomSheetBuilder.java:230-279 | returns that row with the passed icon, or the default icon plus a debug note, tinted with the default colour |
| SheetBuilder.BottomSheetBuilder.AddItems | bottomsheetbuilder/src/main/java/com/koenidv/bottomsheetbuilder/BottomSheetBuilder.java:286-301 | the loop leaves the fields equal to the reference addItems |
| SheetBuilder.BottomSheetBuilder.AddPlainItem | bottomsheetbuilder/src/main/java/com/koenidv/bottomsheetbuilder/BottomSheetBuilder.java:288 | one pass: createItem then addView |
| SheetBuilder.BottomSheetBuilder.AddItemsWithIcons | bottomsheetbuilder/src/main/java/com/koenidv/bottomsheetbuilder/BottomSheetBuilder.java:309-349 | the error branch and the paired loop leave the fields equal to the reference paired addItems |
| SheetBuilder.BottomSheetBuilder.AddIconItems | bottomsheetbuilder/src/main/java/com/koenidv/bottomsheetbuilder/BottomSheetBuilder.java:320-322 | the paired loop matches the reference loop |
| SheetBuilder.BottomSheetBuilder.AddIconItem | bottomsheetbuilder/src/main/java/com/koenidv/bottomsheetbuilder/BottomSheetBuilder.java:321 | one pass: createItem(text, icon) then addView |
| SheetBuilder.BottomSheetBuilder.AddItem | bottomsheetbuilder/src/main/java/com/koenidv/bottomsheetbuilder/BottomSheetBuilder.java:357-375 | the fields become the reference addItem |
| SheetBuilder.BottomSheetBuilder.SetIcon | bottomsheetbuilder/src/main/java/com/koenidv/bottomsheetbuilder/BottomSheetBuilder.java:383-421 | the fields and the thrown position are those of the reference setIcon |
| SheetBuilder.BottomSheetBuilder.SetIconAllRows | bottomsheetbuilder/src/main/java/com/koenidv/bottomsheetbuilder/BottomSheetBuilder.java:384-401 | the all-rows loop matches the reference |
| SheetBuilder.BottomSheetBuilder.SetIconAtPositions | bottomsheetbuilder/src/main/java/com/koenidv/bottomsheetbuilder/BottomSheetBuilder.java:403-418 | the positional loop matches the reference, stopping at the throw |
| SheetBuilder.BottomSheetBuilder.SetItemColor | bottomsheetbuilder/src/main/java/com/koenidv/bottomsheetbuilder/BottomSheetBuilder.java:429-488 | the fields become the reference setItemColor |
| SheetBuilder.BottomSheetBuilder.RecolorAllRows | bottomsheetbuilder/src/main/java/com/koenidv/bottomsheetbuilder/BottomSheetBuilder.java:430-454 | the all-rows loop matches the reference |
| SheetBuilder.BottomSheetBuilder.RecolorAtPositions | bottomsheetbuilder/src/main/java/com/koenidv/bottomsheetbuilder/BottomSheetBuilder.java:455-486 | the positional loop with the caught exception matches the reference |
| SheetBuilder.BottomSheetBuilder.SetOnItemClickListener | bottomsheetbuilder/src/main/java/com/koenidv/bottomsheetbuilder/BottomSheetBuilder.java:497-500 | only the click listener changes |
| SheetBuilder.BottomSheetBuilder.SetOnSheetDismissedListener | bottomsheetbuilder/src/main/java/com/koenidv/bottomsheetbuilder/BottomSheetBuilder.java:502-505 | only the dismissal listener changes |
| SheetBuilder.BottomSheetBuilder.SetStyle | bottomsheetbuilder/src/main/java/com/koenidv/bottomsheetbuilder/BottomSheetBuilder.java:519-522 | only the sheet style changes |
| SheetBuilder.BottomSheetBuilder.SetTag | bottomsheetbuilder/src/main/java/com/koenidv/bottomsheetbuilder/BottomSheetBuilder.java:529-532 | only the tag changes |
| SheetBuilder.BottomSheetBuilder.SetItemHeightPx | bottomsheetbuilder/src/main/java/com/koenidv/bottomsheetbuilder/BottomSheetBuilder.java:549-552 | only the item height changes |
| SheetBuilder.BottomSheetBuilder.SetItemPaddingPx | bottomsheetbuilder/src/main/java/com/koenidv/bottomsheetbuilder/BottomSheetBuilder.java:569-572 | only the item padding changes |
| SheetBuilder.BottomSheetBuilder.Show | bottomsheetbuilder/src/main/java/com/koenidv/bottomsheetbuilder/BottomSheetBuilder.java:584-615 | the fields become the reference show |
| SheetBuilder.BottomSheetBuilder.SizeRows | bottomsheetbuilder/src/main/java/com/koenidv/bottomsheetbuilder/BottomSheetBuilder.java:587-592 | the layout loop and the last-child adjustment match the reference sizing |
| SheetBuilder.BottomSheetBuilder.CloseDialog | bottomsheetbuilder/src/main/java/com/koenidv/bottomsheetbuilder/BottomSheetBuilder.java:600-606 | closing a showing dialog runs the registered OnDismissListener |
| SheetBuilder.BottomSheetBuilder.Dismiss | bottomsheetbuilder/src/main/java/com/koenidv/bottomsheetbuilder/BottomSheetBuilder.java:617-622 | the fields become the reference dismiss |
| SheetBuilder.BottomSheetBuilder.ClickItem | bottomsheetbuilder/src/main/java/com/koenidv/bottomsheetbuilder/BottomSheetBuilder.java:204-214 | a tap on a visible row matches the reference click handler |
| SheetBuilder.BottomSheetBuilder.DismissFromOutside | bottomsheetbuilder/src/main/java/com/koenidv/bottomsheetbuilder/BottomSheetBuilder.java:600-606 | an outside dismissal of the showing dialog matches the reference |
| SheetBuilder.DeleteDemo | app/src/main/java/com/koenidv/bottomsheetbuilder/demo/MainActivity.java:19-39 | in the demo sheet, Delete is red in text and tint, Cancel keeps the primary colour, nothing is logged, and a tap on Delete reports which = 0 with no tag |
| SheetBuilder.ShowTwiceDemo | bottomsheetbuilder/src/main/java/com/koenidv/bottomsheetbuilder/BottomSheetBuilder.java:584-622 | repeated show, also after dismiss, keeps the one themed dialog (now closed) and logs one error per extra call |
| SheetBuilder.DismissDemo | bottomsheetbuilder/src/main/java/com/koenidv/bottomsheetbuilder/BottomSheetBuilder.java:600-622 | a tap outside notifies the dismissal listener once with the tag; dismiss() on another sheet notifies nobody |

## Left out

- `setItemHeight(int)` and `setItemPadding(int)` in dp, and the dp-to-pixel conversion in `setup`, are not modelled. They are float arithmetic on the device density. The constructor takes the pixel values instead.
- The pre-Marshmallow drawable paths (`DrawableCompat` wrapping, `getCompoundDrawables()[0]`) are not modelled, so each SDK branch is its Marshmallow-and-later form. On older devices `setItemColor` on a row without an icon would also fail inside the wrapping; that is not captured.
- Gravity and the selectable-item background never change after creation and carry no behaviour, so they are not modelled.
- String and drawable resources are opaque resource ids; `getString` is not resolved.
- `null` arrays and `null` array elements passed to `addItems` and `setIcon` are not modelled; the model's sequences are always present.
- The `Log` tag and message strings are reduced to a level, the builder's tag and a `Note`.
- `SheetBuilder.BottomSheetBuilder.ClickItem` and `DismissFromOutside` require that the UI could deliver the event: the sheet is showing and the row exists. The Android event loop, and the asynchronous delivery of `onDismiss`, are reduced to these explicit calls.
- Row ids and positions are unbounded integers. A layout with more than 2^31 children is not modelled.
- The demo activity's toasts are not modelled; `DeleteDemo` replays its calls and adds a tap on Delete.
