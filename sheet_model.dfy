/** The state a BottomSheetBuilder keeps, as values.

    The builder owns a vertical layout whose child 0 is the title view and whose
    children 1..n are the item rows, plus a handful of style fields, two listener
    slots, the dialog it creates on show() and the flag that suppresses the
    dismissal listener.  Every function here is the reference definition of one
    builder call: it maps the builder state before the call to the state after.
    Widget calls are reduced to the abstract field they set. */
module SheetModel {

  /** Java's `int`: every number the builder stores or receives is 32 bits wide. */
  type i32 = x: int | -0x8000_0000 <= x < 0x8000_0000

  /** The id a view carries when none was assigned (Android's View.NO_ID). */
  const NO_ID: int := -1

  datatype Option<T> = None | Some(value: T)

  /** A row's or the title's text: a literal string, or the text a string resource
      resolves to (the resource lookup itself is opaque). */
  datatype Text = Literal(s: string) | Resource(res: i32)

  datatype Visibility = Visible | Gone

  /** The text appearance last applied to a view with setTextAppearance. */
  datatype Appearance = NoAppearance | DeviceDefaultMedium | PopupMenu | StyleRes(style: i32)

  datatype Padding = Padding(left: i32, top: i32, right: i32, bottom: i32)

  /** One child of the layout: the title view or an item row. */
  datatype Child = Child(
    text: Text,
    icon: i32,              // drawable resource of the leading icon, 0 for none
    color: Option<i32>,     // text colour; None keeps the theme's
    tint: Option<i32>,      // icon tint; None keeps the drawable's own colours
    height: Option<i32>,    // fixed height in px; None until show() sizes it
    padding: Padding,
    drawablePadding: i32,   // gap between icon and text
    visibility: Visibility,
    appearance: Appearance,
    id: int,
    clickable: bool)        // whether the row's click handler is installed

  datatype Level = Debug | Error

  /** What a log line reports; the message text is left out. */
  datatype Note = DefaultIconApplied | NotEnoughIcons | NonexistentItem | AlreadyShown

  /** One Log.d/Log.e call: its level, the builder's tag at that moment (None for
      the untagged variant) and what it reports. */
  datatype Diagnostic = Diagnostic(level: Level, tag: Option<string>, note: Note)

  /** A listener invocation, with the arguments the builder passes. */
  datatype Event = ItemClicked(which: int, tag: Option<string>) | Dismissed(tag: Option<string>)

  /** Which BottomSheetDialog constructor show() used. */
  datatype Theme = DefaultTheme | Themed(style: i32)

  datatype Dialog = NoDialog | SheetDialog(theme: Theme, showing: bool)

  /** The builder's fields, plus the diagnostics and listener calls it has emitted. */
  datatype Sheet = Sheet(
    children: seq<Child>,
    log: seq<Diagnostic>,
    events: seq<Event>,
    defaultColor: i32,
    defaultIcon: i32,
    itemHeight: i32,
    itemPadding: i32,
    drawablePadding: i32,
    sheetStyle: i32,
    tag: Option<string>,
    clickListener: bool,
    dismissListener: bool,
    dialog: Dialog,
    attached: bool,
    dismissedByAction: bool)

  /** What every builder state satisfies: the title is child 0, has no id and no
      click handler; every later child is a clickable row whose id is its position
      among the rows; and the layout is attached exactly when a dialog exists. */
  predicate WellFormed(s: Sheet)
  {
    |s.children| > 0 &&
    s.children[0].id == NO_ID && !s.children[0].clickable &&
    (forall k :: 1 <= k < |s.children| ==> s.children[k].id == k - 1 && s.children[k].clickable) &&
    (s.attached <==> s.dialog.SheetDialog?)
  }

  /** Java's 32-bit wrap-around of an int result. */
  function Wrap32(x: int): (r: i32)
    ensures -0x8000_0000 <= x < 0x8000_0000 ==> r == x
    ensures (x - r) % 0x1_0000_0000 == 0
  {
    var m := (x + 0x8000_0000) % 0x1_0000_0000;
    assert x + 0x8000_0000 == ((x + 0x8000_0000) / 0x1_0000_0000) * 0x1_0000_0000 + m;
    m - 0x8000_0000
  }

  /** Java's `p / 2`, which truncates toward zero. */
  function Half(p: i32): (r: i32)
    ensures p >= 0 ==> 0 <= p - 2 * r <= 1
    ensures p < 0 ==> -1 <= p - 2 * r <= 0
  {
    if p >= 0 then p / 2 else -((-(p as int)) / 2)
  }

  /* ---------------------------------------------------------------- setup */

  /** The title view setup() creates: empty, hidden, medium device-default text. */
  function TitleView(): Child
  {
    Child(Literal(""), 0, None, None, None, Padding(0, 0, 0, 0), 0, Gone, DeviceDefaultMedium, NO_ID, false)
  }

  /** setup() followed by the constructor's own assignments.  The density-scaled
      48dp and 16dp and the primary text colour arrive already resolved; a style of
      0 and an absent tag stand for the constructors that take neither. */
  function Setup(style: i32, tag: Option<string>, heightPx: i32, paddingPx: i32, primaryTextColor: i32): Sheet
  {
    Sheet([TitleView()], [], [], primaryTextColor, 0, heightPx, paddingPx, paddingPx,
          style, tag, false, false, NoDialog, false, false)
  }

  /* ---------------------------------------------------------------- title */

  function WithTitle(s: Sheet, title: Child): Sheet
    requires |s.children| > 0
  {
    s.(children := s.children[0 := title])
  }

  /** setTitle(String): null hides the title, any text shows it with that text. */
  function SetTitle(s: Sheet, text: Option<string>): Sheet
    requires |s.children| > 0
  {
    var t := s.children[0];
    if text.None? then WithTitle(s, t.(visibility := Gone))
    else WithTitle(s, t.(visibility := Visible, text := Literal(text.value)))
  }

  /** setTitle(@StringRes int): sets the text and leaves the visibility alone. */
  function SetTitleRes(s: Sheet, res: i32): Sheet
    requires |s.children| > 0
  {
    WithTitle(s, s.children[0].(text := Resource(res)))
  }

  /** setTitle(String, int): setTitle(text), then the given text appearance. */
  function SetTitleStyled(s: Sheet, text: Option<string>, style: i32): Sheet
    requires |s.children| > 0
  {
    var t := SetTitle(s, text);
    WithTitle(t, t.children[0].(appearance := StyleRes(style)))
  }

  function SetTitleColor(s: Sheet, color: i32): Sheet
    requires |s.children| > 0
  {
    WithTitle(s, s.children[0].(color := Some(color)))
  }

  /* ------------------------------------------------------------ row creation */

  /** createItem resets the TITLE's text appearance (not the new row's). */
  function RestyleTitle(s: Sheet): Sheet
    requires |s.children| > 0
  {
    WithTitle(s, s.children[0].(appearance := PopupMenu))
  }

  /** The row createItem(text) builds with the given id: the default colour, the
      default icon (0 when none is set) untinted, horizontal item padding. */
  function PlainRow(s: Sheet, text: Text, id: int): Child
  {
    Child(text, s.defaultIcon, Some(s.defaultColor), None, None,
          Padding(s.itemPadding, 0, s.itemPadding, 0), s.drawablePadding,
          Visible, NoAppearance, id, true)
  }

  /** The row createItem(text, drawable) builds: the passed icon unless a default
      icon is set, which wins; either way tinted with the default colour. */
  function IconRow(s: Sheet, text: Text, drawable: i32, id: int): Child
  {
    PlainRow(s, text, id).(icon := if s.defaultIcon != 0 then s.defaultIcon else drawable,
                           tint := Some(s.defaultColor))
  }

  /** The debug note createItem(text, drawable) logs when the default icon overrides. */
  function IconNote(s: Sheet): seq<Diagnostic>
  {
    if s.defaultIcon != 0 then [Diagnostic(Debug, s.tag, DefaultIconApplied)] else []
  }

  /** One iteration of addItems(String...): createItem, then addView at the end. */
  function AddPlain(s: Sheet, text: Text): Sheet
    requires |s.children| > 0
  {
    var t := RestyleTitle(s);
    t.(children := t.children + [PlainRow(s, text, |s.children| - 1)])
  }

  /** One iteration of the paired addItems when there are enough icons. */
  function AddWithIcon(s: Sheet, text: Text, drawable: i32): Sheet
    requires |s.children| > 0
  {
    var t := RestyleTitle(s);
    t.(children := t.children + [IconRow(s, text, drawable, |s.children| - 1)],
       log := s.log + IconNote(s))
  }

  /** addItems(String...) and addItems(@StringRes int...). */
  function AddItems(s: Sheet, texts: seq<Text>): (r: Sheet)
    requires |s.children| > 0
    ensures |r.children| == |s.children| + |texts|
    decreases |texts|
  {
    if texts == [] then s
    else AddPlain(AddItems(s, texts[..|texts| - 1]), texts[|texts| - 1])
  }

  /** The loop of the paired addItems in its "enough icons" branch. */
  function AddIconItems(s: Sheet, texts: seq<Text>, icons: seq<i32>): (r: Sheet)
    requires |s.children| > 0 && |texts| <= |icons|
    ensures |r.children| == |s.children| + |texts|
    decreases |texts|
  {
    if texts == [] then s
    else AddWithIcon(AddIconItems(s, texts[..|texts| - 1], icons), texts[|texts| - 1], icons[|texts| - 1])
  }

  /** addItems(String[], int[]) and addItems(int[], int[]): with fewer icons than
      texts, one error is logged and every row is made without icons. */
  function AddItemsWithIcons(s: Sheet, texts: seq<Text>, icons: seq<i32>): Sheet
    requires |s.children| > 0
  {
    if |texts| > |icons| then
      AddItems(s.(log := s.log + [Diagnostic(Error, s.tag, NotEnoughIcons)]), texts)
    else AddIconItems(s, texts, icons)
  }

  /** addItem(String, int) and addItem(@StringRes int, int): createItem, then the
      explicit colour. */
  function AddItem(s: Sheet, text: Text, color: i32): Sheet
    requires |s.children| > 0
  {
    var t := RestyleTitle(s);
    t.(children := t.children + [PlainRow(s, text, |s.children| - 1).(color := Some(color))])
  }

  /* ------------------------------------------------------------- re-icon */

  /** What setIcon does to one child. */
  function Iconed(c: Child, icon: i32, tint: i32): Child
  {
    c.(icon := icon, tint := Some(tint))
  }

  /** setIcon(icon) with no positions: every row gets the icon, tinted with the
      default colour; the default icon is assigned inside the loop. */
  function SetIconAll(s: Sheet, icon: i32): Sheet
    requires |s.children| > 0
  {
    s.(children := [s.children[0]] +
                   seq(|s.children| - 1, k requires 0 <= k < |s.children| - 1 =>
                         Iconed(s.children[k + 1], icon, s.defaultColor)),
       defaultIcon := if |s.children| > 1 then icon else s.defaultIcon)
  }

  /** The children after a positional setIcon, and the position whose
      getChildAt(pos) returned null, if any: the call then throws a
      NullPointerException, after the earlier positions were applied. */
  datatype Applied = Applied(children: seq<Child>, thrown: Option<i32>)

  /** The loop of setIcon(icon, positions...): getChildAt(pos), no +1 offset. */
  function IconAt(cs: seq<Child>, icon: i32, tint: i32, ps: seq<i32>): (a: Applied)
    ensures |a.children| == |cs|
    decreases |ps|
  {
    if ps == [] then Applied(cs, None)
    else
      var a := IconAt(cs, icon, tint, ps[..|ps| - 1]);
      var p := ps[|ps| - 1];
      if a.thrown.Some? then a
      else if 0 <= p < |a.children| then Applied(a.children[p := Iconed(a.children[p], icon, tint)], None)
      else Applied(a.children, Some(p))
  }

  /** setIcon(icon, positions...): the new state and the position it threw at. */
  function SetIcon(s: Sheet, icon: i32, ps: seq<i32>): (Sheet, Option<i32>)
    requires |s.children| > 0
  {
    if ps == [] then (SetIconAll(s, icon), None)
    else
      var a := IconAt(s.children, icon, s.defaultColor, ps);
      (s.(children := a.children), a.thrown)
  }

  /* ------------------------------------------------------------ recolour */

  /** What setItemColor does to one child: text colour and icon tint. */
  function Painted(c: Child, color: i32): Child
  {
    c.(color := Some(color), tint := Some(color))
  }

  /** setItemColor(color) with no positions: every row is painted; the default
      colour is assigned inside the loop. */
  function RecolorAll(s: Sheet, color: i32): Sheet
    requires |s.children| > 0
  {
    s.(children := [s.children[0]] +
                   seq(|s.children| - 1, k requires 0 <= k < |s.children| - 1 => Painted(s.children[k + 1], color)),
       defaultColor := if |s.children| > 1 then color else s.defaultColor)
  }

  /** The loop of setItemColor(color, positions...): child pos + 1 is painted; a
      missing child is caught, logged and skipped. */
  function ColorAt(cs: seq<Child>, color: i32, tag: Option<string>, ps: seq<i32>): (r: (seq<Child>, seq<Diagnostic>))
    ensures |r.0| == |cs|
    decreases |ps|
  {
    if ps == [] then (cs, [])
    else
      var r := ColorAt(cs, color, tag, ps[..|ps| - 1]);
      var k: int := ps[|ps| - 1] as int + 1;
      if 0 <= k < |r.0| then (r.0[k := Painted(r.0[k], color)], r.1)
      else (r.0, r.1 + [Diagnostic(Error, tag, NonexistentItem)])
  }

  function SetItemColor(s: Sheet, color: i32, ps: seq<i32>): Sheet
    requires |s.children| > 0
  {
    if ps == [] then RecolorAll(s, color)
    else
      var r := ColorAt(s.children, color, s.tag, ps);
      s.(children := r.0, log := s.log + r.1)
  }

  /* ------------------------------------------------------------- setters */

  function SetOnItemClickListener(s: Sheet, present: bool): Sheet { s.(clickListener := present) }
  function SetOnSheetDismissedListener(s: Sheet, present: bool): Sheet { s.(dismissListener := present) }
  function SetStyle(s: Sheet, style: i32): Sheet { s.(sheetStyle := style) }
  function SetTag(s: Sheet, tag: Option<string>): Sheet { s.(tag := tag) }
  function SetItemHeightPx(s: Sheet, height: i32): Sheet { s.(itemHeight := height) }
  function SetItemPaddingPx(s: Sheet, padding: i32): Sheet { s.(itemPadding := padding) }

  /* ---------------------------------------------------- show and dismiss */

  /** The sizing loop of show() and its treatment of the last child. */
  function Sized(cs: seq<Child>, height: i32, padding: i32): seq<Child>
    requires |cs| > 0
  {
    var uniform := seq(|cs|, k requires 0 <= k < |cs| =>
                         cs[k].(height := Some(height), padding := Padding(padding, 0, padding, 0)));
    var last := |cs| - 1;
    uniform[last := uniform[last].(padding := Padding(padding, 0, padding, Half(padding)),
                                   height := Some(Wrap32(height + Half(padding))))]
  }

  /** The BottomSheetDialog constructor show() picks. */
  function ThemeFor(style: i32): Theme
  {
    if style != 0 then Themed(style) else DefaultTheme
  }

  /** show(): once the layout is attached, every later call only logs. */
  function Show(s: Sheet): Sheet
    requires |s.children| > 0
  {
    if !s.attached then
      s.(children := Sized(s.children, s.itemHeight, s.itemPadding),
         dialog := SheetDialog(ThemeFor(s.sheetStyle), true),
         attached := true)
    else s.(log := s.log + [Diagnostic(Error, s.tag, AlreadyShown)])
  }

  function Showing(s: Sheet): bool
  {
    s.dialog.SheetDialog? && s.dialog.showing
  }

  /** mBottomSheet.dismiss() with the bridge show() registered: a showing dialog
      closes, and the dismissal listener hears of it unless the flag is set. */
  function CloseDialog(s: Sheet): Sheet
  {
    if Showing(s) then
      var closed := s.(dialog := s.dialog.(showing := false));
      if s.dismissListener && !s.dismissedByAction then closed.(events := s.events + [Dismissed(s.tag)])
      else closed
    else s
  }

  /** dismiss(): without a dialog nothing happens; otherwise the flag is set first. */
  function Dismiss(s: Sheet): Sheet
  {
    if s.dialog.SheetDialog? then CloseDialog(s.(dismissedByAction := true)) else s
  }

  /** The environment can tap child k only while the dialog shows and k is a row. */
  predicate CanClick(s: Sheet, k: int)
  {
    Showing(s) && 1 <= k < |s.children|
  }

  /** The click handler createItem installs on child k. */
  function ClickItem(s: Sheet, k: int): Sheet
    requires CanClick(s, k)
  {
    if s.clickListener then
      CloseDialog(s.(events := s.events + [ItemClicked(s.children[k].id, s.tag)], dismissedByAction := true))
    else s
  }

  /** A tap outside the sheet or a back press, which closes the dialog. */
  function DismissFromOutside(s: Sheet): Sheet
    requires Showing(s)
  {
    CloseDialog(s)
  }
}
