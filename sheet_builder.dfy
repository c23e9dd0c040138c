/** The builder object: the fields BottomSheetBuilder updates in place, and one
    method per public call (plus the two createItem helpers, the dialog's
    dismissal bridge and the UI events that reach the builder).  Each method is
    proved to move the fields exactly as the matching SheetModel function says. */
module SheetBuilder {
  import opened SheetModel
  import opened SheetProperties

  class BottomSheetBuilder {
    var children: seq<Child>       // mLayout's children; child 0 is titleTextView
    var log: seq<Diagnostic>       // the Log calls made so far
    var events: seq<Event>         // the listener calls made so far
    var defaultColor: i32
    var defaultIcon: i32
    var itemHeight: i32
    var itemPadding: i32
    var drawablePadding: i32
    var sheetStyle: i32
    var tag: Option<string>
    var clickListener: bool        // mItemClickListener != null
    var dismissListener: bool      // mDismissedListener != null
    var dialog: Dialog             // mBottomSheet
    var attached: bool             // mLayout.getParent() != null
    var dismissedByAction: bool

    /** The fields as one value. */
    function State(): Sheet
      reads this
    {
      Sheet(children, log, events, defaultColor, defaultIcon, itemHeight, itemPadding, drawablePadding,
            sheetStyle, tag, clickListener, dismissListener, dialog, attached, dismissedByAction)
    }

    ghost predicate Valid()
      reads this
    {
      WellFormed(State())
    }

    /** The four constructors: setup(context), then the style and the tag (0 and
        None for the overloads that take neither). */
    constructor (style: i32, tag: Option<string>, heightPx: i32, paddingPx: i32, primaryTextColor: i32)
      ensures Valid()
      ensures State() == Setup(style, tag, heightPx, paddingPx, primaryTextColor)
    {
      children := [TitleView()];
      log, events := [], [];
      itemHeight, itemPadding := heightPx, paddingPx;
      drawablePadding := paddingPx;
      defaultColor, defaultIcon := primaryTextColor, 0;
      clickListener, dismissListener := false, false;
      dialog, attached, dismissedByAction := NoDialog, false, false;
      sheetStyle := style;
      this.tag := tag;
    }

    /* -------------------------------------------------------------- title */

    method SetTitle(text: Option<string>)
      requires Valid()
      modifies this
      ensures Valid()
      ensures State() == SheetModel.SetTitle(old(State()), text)
    {
      if text.None? {
        children := children[0 := children[0].(visibility := Gone)];
      } else {
        children := children[0 := children[0].(visibility := Visible)];
        children := children[0 := children[0].(text := Literal(text.value))];
      }
    }

    method SetTitleRes(res: i32)
      requires Valid()
      modifies this
      ensures Valid()
      ensures State() == SheetModel.SetTitleRes(old(State()), res)
    {
      children := children[0 := children[0].(text := Resource(res))];
    }

    method SetTitleStyled(text: Option<string>, style: i32)
      requires Valid()
      modifies this
      ensures Valid()
      ensures State() == SheetModel.SetTitleStyled(old(State()), text, style)
    {
      SetTitle(text);
      children := children[0 := children[0].(appearance := StyleRes(style))];
    }

    method SetTitleColor(color: i32)
      requires Valid()
      modifies this
      ensures Valid()
      ensures State() == SheetModel.SetTitleColor(old(State()), color)
    {
      children := children[0 := children[0].(color := Some(color))];
    }

    /* -------------------------------------------------------------- items */

    /** createItem(String): the new row, not yet added; restyles the title. */
    method CreateItem(text: Text) returns (row: Child)
      requires Valid()
      modifies this
      ensures Valid()
      ensures State() == RestyleTitle(old(State()))
      ensures row == PlainRow(old(State()), text, |old(children)| - 1)
    {
      row := Child(text, 0, None, None, None, Padding(0, 0, 0, 0), 0, Visible, NoAppearance, NO_ID, false);
      row := row.(padding := Padding(itemPadding, 0, itemPadding, 0));
      row := row.(drawablePadding := drawablePadding);
      children := children[0 := children[0].(appearance := PopupMenu)];
      row := row.(color := Some(defaultColor));
      row := row.(id := |children| - 1);
      row := row.(clickable := true);
      if defaultIcon != 0 {
        row := row.(icon := defaultIcon);
      }
    }

    /** createItem(String, int): the passed icon, or the default icon with a
        debug note; tinted with the default colour either way. */
    method CreateIconItem(text: Text, drawable: i32) returns (row: Child)
      requires Valid()
      modifies this
      ensures Valid()
      ensures State() == RestyleTitle(old(State())).(log := old(log) + IconNote(old(State())))
      ensures row == IconRow(old(State()), text, drawable, |old(children)| - 1)
    {
      row := CreateItem(text);
      if defaultIcon == 0 {
        row := row.(icon := drawable, tint := Some(defaultColor));
      } else {
        row := row.(icon := defaultIcon, tint := Some(defaultColor));
        log := log + [Diagnostic(Debug, tag, DefaultIconApplied)];
      }
    }

    /** addItems(String...) and addItems(@StringRes int...). */
    method AddItems(texts: seq<Text>)
      requires Valid()
      modifies this
      ensures Valid()
      ensures State() == SheetModel.AddItems(old(State()), texts)
    {
      var i := 0;
      while i < |texts|
        invariant 0 <= i <= |texts|
        invariant Valid()
        invariant State() == SheetModel.AddItems(old(State()), texts[..i])
      {
        assert texts[..i + 1][..i] == texts[..i];
        AddPlainItem(texts[i]);
        i := i + 1;
      }
      assert texts[..|texts|] == texts;
    }

    /** One pass of that loop: createItem(text), then addView. */
    method AddPlainItem(text: Text)
      requires Valid()
      modifies this
      ensures Valid()
      ensures State() == AddPlain(old(State()), text)
    {
      var row := CreateItem(text);
      children := children + [row];
    }

    /** addItems(String[], int[]) and addItems(int[], int[]). */
    method AddItemsWithIcons(texts: seq<Text>, icons: seq<i32>)
      requires Valid()
      modifies this
      ensures Valid()
      ensures State() == SheetModel.AddItemsWithIcons(old(State()), texts, icons)
    {
      if |texts| > |icons| {
        log := log + [Diagnostic(Error, tag, NotEnoughIcons)];
        AddItems(texts);
      } else {
        AddIconItems(texts, icons);
      }
    }

    /** The paired loop of addItems(String[], int[]): row i gets icon i. */
    method AddIconItems(texts: seq<Text>, icons: seq<i32>)
      requires Valid() && |texts| <= |icons|
      modifies this
      ensures Valid()
      ensures State() == SheetModel.AddIconItems(old(State()), texts, icons)
    {
      var i := 0;
      while i < |texts|
        invariant 0 <= i <= |texts|
        invariant Valid()
        invariant State() == SheetModel.AddIconItems(old(State()), texts[..i], icons)
      {
        assert texts[..i + 1][..i] == texts[..i];
        AddIconItem(texts[i], icons[i]);
        i := i + 1;
      }
      assert texts[..|texts|] == texts;
    }

    /** One pass of that loop: createItem(text, icon), then addView. */
    method AddIconItem(text: Text, drawable: i32)
      requires Valid()
      modifies this
      ensures Valid()
      ensures State() == AddWithIcon(old(State()), text, drawable)
    {
      var row := CreateIconItem(text, drawable);
      children := children + [row];
    }

    /** addItem(String, int) and addItem(@StringRes int, int). */
    method AddItem(text: Text, color: i32)
      requires Valid()
      modifies this
      ensures Valid()
      ensures State() == SheetModel.AddItem(old(State()), text, color)
    {
      var row := CreateItem(text);
      row := row.(color := Some(color));
      children := children + [row];
    }

    /** setIcon(int, int...).  With positions, getChildAt(pos) is used with no
        offset; a missing child makes the call throw a NullPointerException,
        reported here as the position it threw at, after the earlier positions
        were applied. */
    method SetIcon(icon: i32, positions: seq<i32>) returns (thrown: Option<i32>)
      requires Valid()
      modifies this
      ensures Valid()
      ensures (State(), thrown) == SheetModel.SetIcon(old(State()), icon, positions)
    {
      if |positions| == 0 {
        SetIconAllRows(icon);
        thrown := None;
      } else {
        thrown := SetIconAtPositions(icon, positions);
      }
    }

    /** setIcon(icon) without positions: every row, and the default icon. */
    method SetIconAllRows(icon: i32)
      requires Valid()
      modifies this
      ensures Valid()
      ensures State() == SetIconAll(old(State()), icon)
    {
      var cs := children;
      var i := 1;
      while i < |cs|
        invariant 1 <= i <= |cs| == |children|
        invariant cs[0] == children[0]
        invariant forall k :: 1 <= k < i ==> cs[k] == Iconed(children[k], icon, defaultColor)
        invariant forall k :: i <= k < |cs| ==> cs[k] == children[k]
      {
        cs := cs[i := Iconed(cs[i], icon, defaultColor)];
        i := i + 1;
      }
      assert cs == SetIconAll(State(), icon).children;
      children := cs;
      if |cs| > 1 {
        defaultIcon := icon;   // set on every pass of the loop
      }
    }

    /** The positional loop of setIcon. */
    method SetIconAtPositions(icon: i32, positions: seq<i32>) returns (thrown: Option<i32>)
      requires Valid()
      modifies this
      ensures Valid()
      ensures var a := IconAt(old(children), icon, old(defaultColor), positions);
        State() == old(State()).(children := a.children) && thrown == a.thrown
    {
      var cs := children;
      thrown := None;
      var j := 0;
      while j < |positions| && thrown.None?
        invariant 0 <= j <= |positions|
        invariant IconAt(children, icon, defaultColor, positions[..j]) == Applied(cs, thrown)
      {
        var pos := positions[j];
        assert positions[..j + 1][..j] == positions[..j];
        if 0 <= pos < |cs| {
          cs := cs[pos := Iconed(cs[pos], icon, defaultColor)];
        } else {
          thrown := Some(pos);   // getChildAt(pos) is null: the call throws here
        }
        j := j + 1;
      }
      if thrown.Some? {
        IconAtAfterThrow(children, icon, defaultColor, positions, j);
      } else {
        assert positions[..j] == positions;
      }
      forall k | 0 <= k < |cs| {
        IconAtShape(children, icon, defaultColor, positions, k);
      }
      children := cs;
    }

    /** setItemColor(int, int...).  With positions, child pos + 1 is painted; a
        missing child is caught and logged, and the loop goes on. */
    method SetItemColor(color: i32, positions: seq<i32>)
      requires Valid()
      modifies this
      ensures Valid()
      ensures State() == SheetModel.SetItemColor(old(State()), color, positions)
    {
      if |positions| == 0 {
        RecolorAllRows(color);
      } else {
        RecolorAtPositions(color, positions);
      }
    }

    /** setItemColor(color) without positions: every row, and the default colour. */
    method RecolorAllRows(color: i32)
      requires Valid()
      modifies this
      ensures Valid()
      ensures State() == RecolorAll(old(State()), color)
    {
      var cs := children;
      var i := 1;
      while i < |cs|
        invariant 1 <= i <= |cs| == |children|
        invariant cs[0] == children[0]
        invariant forall k :: 1 <= k < i ==> cs[k] == Painted(children[k], color)
        invariant forall k :: i <= k < |cs| ==> cs[k] == children[k]
      {
        cs := cs[i := Painted(cs[i], color)];
        i := i + 1;
      }
      assert cs == RecolorAll(State(), color).children;
      children := cs;
      if |cs| > 1 {
        defaultColor := color;   // set on every pass of the loop
      }
    }

    /** The positional loop of setItemColor. */
    method RecolorAtPositions(color: i32, positions: seq<i32>)
      requires Valid()
      modifies this
      ensures Valid()
      ensures var r := ColorAt(old(children), color, old(tag), positions);
        State() == old(State()).(children := r.0, log := old(log) + r.1)
    {
      var cs, notes := children, [];
      var j := 0;
      while j < |positions|
        invariant 0 <= j <= |positions|
        invariant ColorAt(children, color, tag, positions[..j]) == (cs, notes)
      {
        assert positions[..j + 1][..j] == positions[..j];
        var k: int := positions[j] as int + 1;
        if 0 <= k < |cs| {
          cs := cs[k := Painted(cs[k], color)];
        } else {
          notes := notes + [Diagnostic(Error, tag, NonexistentItem)];   // the caught NullPointerException
        }
        j := j + 1;
      }
      assert positions[..|positions|] == positions;
      forall k | 0 <= k < |cs| {
        ColorAtEffect(children, color, tag, positions, k);
      }
      children, log := cs, log + notes;
    }

    /* ------------------------------------------------ listeners and style */

    method SetOnItemClickListener(present: bool)
      requires Valid()
      modifies this
      ensures Valid()
      ensures State() == SheetModel.SetOnItemClickListener(old(State()), present)
    {
      clickListener := present;
    }

    method SetOnSheetDismissedListener(present: bool)
      requires Valid()
      modifies this
      ensures Valid()
      ensures State() == SheetModel.SetOnSheetDismissedListener(old(State()), present)
    {
      dismissListener := present;
    }

    method SetStyle(style: i32)
      requires Valid()
      modifies this
      ensures Valid()
      ensures State() == SheetModel.SetStyle(old(State()), style)
    {
      sheetStyle := style;
    }

    method SetTag(tag: Option<string>)
      requires Valid()
      modifies this
      ensures Valid()
      ensures State() == SheetModel.SetTag(old(State()), tag)
    {
      this.tag := tag;
    }

    method SetItemHeightPx(height: i32)
      requires Valid()
      modifies this
      ensures Valid()
      ensures State() == SheetModel.SetItemHeightPx(old(State()), height)
    {
      itemHeight := height;
    }

    method SetItemPaddingPx(padding: i32)
      requires Valid()
      modifies this
      ensures Valid()
      ensures State() == SheetModel.SetItemPaddingPx(old(State()), padding)
    {
      itemPadding := padding;
    }

    /* ---------------------------------------------------- show and dismiss */

    method Show()
      requires Valid()
      modifies this
      ensures Valid()
      ensures State() == SheetModel.Show(old(State()))
    {
      if !attached {
        SizeRows();
        if sheetStyle != 0 {
          dialog := SheetDialog(Themed(sheetStyle), false);
        } else {
          dialog := SheetDialog(DefaultTheme, false);
        }
        attached := true;                      // setContentView(mLayout)
        dialog := dialog.(showing := true);    // mBottomSheet.show()
      } else {
        log := log + [Diagnostic(Error, tag, AlreadyShown)];
      }
    }

    /** The layout pass of show(): every child gets the item height and padding,
        then the last one the extra bottom padding and height. */
    method SizeRows()
      requires Valid()
      modifies this
      ensures Valid()
      ensures State() == old(State()).(children := Sized(old(children), itemHeight, itemPadding))
    {
      var cs := children;
      var c := 0;
      while c < |cs|
        invariant 0 <= c <= |cs| == |children|
        invariant forall k :: 0 <= k < c ==>
                    cs[k] == children[k].(height := Some(itemHeight), padding := Padding(itemPadding, 0, itemPadding, 0))
        invariant forall k :: c <= k < |cs| ==> cs[k] == children[k]
      {
        cs := cs[c := cs[c].(height := Some(itemHeight))];
        cs := cs[c := cs[c].(padding := Padding(itemPadding, 0, itemPadding, 0))];
        c := c + 1;
      }
      var last := |cs| - 1;
      cs := cs[last := cs[last].(padding := Padding(itemPadding, 0, itemPadding, Half(itemPadding)))];
      cs := cs[last := cs[last].(height := Some(Wrap32(itemHeight + Half(itemPadding))))];
      assert cs == Sized(children, itemHeight, itemPadding);
      children := cs;
    }

    /** mBottomSheet.dismiss(), and the OnDismissListener that show() registers. */
    method CloseDialog()
      requires Valid()
      modifies this
      ensures Valid()
      ensures State() == SheetModel.CloseDialog(old(State()))
    {
      if dialog.SheetDialog? && dialog.showing {
        dialog := dialog.(showing := false);
        if dismissListener && !dismissedByAction {
          events := events + [Dismissed(tag)];
        }
      }
    }

    method Dismiss()
      requires Valid()
      modifies this
      ensures Valid()
      ensures State() == SheetModel.Dismiss(old(State()))
    {
      if dialog.SheetDialog? {
        dismissedByAction := true;
        CloseDialog();
      }
    }

    /** The user taps child k: the click handler createItem installed. */
    method ClickItem(k: int)
      requires Valid() && CanClick(State(), k)
      modifies this
      ensures Valid()
      ensures State() == SheetModel.ClickItem(old(State()), k)
    {
      if clickListener {
        events := events + [ItemClicked(children[k].id, tag)];
        dismissedByAction := true;
        CloseDialog();
      }
    }

    /** The user taps outside the sheet or presses back. */
    method DismissFromOutside()
      requires Valid() && Showing(State())
      modifies this
      ensures Valid()
      ensures State() == SheetModel.DismissFromOutside(old(State()))
    {
      CloseDialog();
    }
  }

  /* ------------------------------------------------------------ clients */

  const COLOR_RED: i32 := -0x1_0000        // android.graphics.Color.RED, 0xFFFF0000 as a Java int
  const PRIMARY_TEXT: i32 := -0x2000_0000  // a stand-in for the resolved primary text colour
  const ICON_DELETE: i32 := 0x7f07_0001    // stand-ins for the demo's drawable resource ids
  const ICON_CANCEL: i32 := 0x7f07_0002

  /** The demo activity's sheet: a title, two rows with icons, the first one
      recoloured red, both listeners; then the user taps "Delete". */
  method DeleteDemo() returns (events: seq<Event>, log: seq<Diagnostic>, delete: Child, cancel: Child)
    ensures events == [ItemClicked(0, None)]
    ensures log == []
    ensures delete.text == Literal("Delete") && delete.icon == ICON_DELETE
    ensures delete.color == Some(COLOR_RED) && delete.tint == Some(COLOR_RED)
    ensures cancel.text == Literal("Cancel") && cancel.icon == ICON_CANCEL
    ensures cancel.color == Some(PRIMARY_TEXT) && cancel.tint == Some(PRIMARY_TEXT)
  {
    var b := new BottomSheetBuilder(0, None, 144, 48, PRIMARY_TEXT);
    b.SetTitle(Some("Demo - Delete"));
    assert |b.children| == 1 && b.defaultIcon == 0 && b.log == [] && b.tag == None;
    ghost var s0 := b.State();
    b.AddItemsWithIcons([Literal("Delete"), Literal("Cancel")], [ICON_DELETE, ICON_CANCEL]);
    AddIconItemsAppends(s0, [Literal("Delete"), Literal("Cancel")], [ICON_DELETE, ICON_CANCEL]);
    AddIconItemsKeeps(s0, [Literal("Delete"), Literal("Cancel")], [ICON_DELETE, ICON_CANCEL]);
    assert seq(0, _ => Diagnostic(Debug, None, DefaultIconApplied)) == [];
    assert b.State().(children := s0.children, log := s0.log) == s0;
    assert |b.children| == 3 && b.log == [] && b.events == [];
    assert b.children[1].text == Literal("Delete") && b.children[1].icon == ICON_DELETE;
    assert b.children[2].text == Literal("Cancel") && b.children[2].icon == ICON_CANCEL;
    assert b.children[2].color == Some(PRIMARY_TEXT) && b.children[2].tint == Some(PRIMARY_TEXT);
    ghost var s1 := b.State();
    b.SetItemColor(COLOR_RED, [0]);
    ColorAtOne(s1.children, COLOR_RED, None, 0);
    assert b.children == s1.children[1 := Painted(s1.children[1], COLOR_RED)] && b.log == [];
    b.SetOnItemClickListener(true);
    b.SetOnSheetDismissedListener(true);
    ghost var s2 := b.State();
    b.Show();
    FirstShow(s2);
    assert b.children[1] == s2.children[1].(height := Some(144), padding := Padding(48, 0, 48, 0));
    assert b.children[2].text == s2.children[2].text && b.children[2].icon == ICON_CANCEL;
    assert b.children[2].color == Some(PRIMARY_TEXT) && b.children[2].tint == Some(PRIMARY_TEXT);
    assert Showing(b.State()) && b.clickListener && b.events == [] && b.log == [];
    ghost var s3 := b.State();
    b.ClickItem(1);
    ClickReportsPosition(s3, 1);
    events, log := b.events, b.log;
    delete, cancel := b.children[1], b.children[2];
  }

  /** show() twice: one dialog, with the sheet's style, and one error logged under
      the tag; dismissing and showing again creates nothing either. */
  method ShowTwiceDemo() returns (dialog: Dialog, log: seq<Diagnostic>)
    ensures dialog == SheetDialog(Themed(7), false)
    ensures log == [Diagnostic(Error, Some("menu"), AlreadyShown), Diagnostic(Error, Some("menu"), AlreadyShown)]
  {
    var b := new BottomSheetBuilder(7, Some("menu"), 144, 48, PRIMARY_TEXT);
    b.AddItems([Literal("Only")]);
    b.Show();
    b.Show();
    b.Dismiss();
    b.Show();
    dialog, log := b.dialog, b.log;
  }

  /** A tap outside notifies the dismissal listener once with the tag; dismiss()
      on another sheet notifies nobody. */
  method DismissDemo() returns (outside: seq<Event>, programmatic: seq<Event>)
    ensures outside == [Dismissed(Some("a"))]
    ensures programmatic == []
  {
    var a := new BottomSheetBuilder(0, Some("a"), 144, 48, PRIMARY_TEXT);
    a.SetOnSheetDismissedListener(true);
    a.Show();
    a.DismissFromOutside();
    a.Dismiss();
    outside := a.events;
    var b := new BottomSheetBuilder(0, Some("b"), 144, 48, PRIMARY_TEXT);
    b.SetOnSheetDismissedListener(true);
    b.Show();
    b.Dismiss();
    programmatic := b.events;
  }
}
