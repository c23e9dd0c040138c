/** What each builder call does to the sheet, stated against the reference
    definitions of SheetModel. */
module SheetProperties {
  import opened SheetModel

  /* ------------------------------------------------------------------ title */

  /** The title calls change child 0 only.  setTitle(null) hides the title and
      keeps its text; setTitle(text) shows it with that text; setTitle(res)
      replaces the text and leaves the visibility as it was; setTitle(text,
      style) is setTitle(text) plus the appearance; setTitleColor sets the text
      colour. */
  lemma TitleCallsTouchOnlyTitle(s: Sheet, text: Option<string>, res: i32, style: i32, color: i32)
    requires |s.children| > 0
    ensures SetTitle(s, None).children[0] == s.children[0].(visibility := Gone)
    ensures text.Some? ==> SetTitle(s, text).children[0] == s.children[0].(visibility := Visible, text := Literal(text.value))
    ensures SetTitleRes(s, res).children[0] == s.children[0].(text := Resource(res))
    ensures SetTitleStyled(s, text, style).children[0] == SetTitle(s, text).children[0].(appearance := StyleRes(style))
    ensures SetTitleColor(s, color).children[0] == s.children[0].(color := Some(color))
    ensures SetTitle(s, text).(children := s.children) == s && |SetTitle(s, text).children| == |s.children|
    ensures SetTitleStyled(s, text, style).(children := s.children) == s
    ensures SetTitleRes(s, res).(children := s.children) == s && SetTitleColor(s, color).(children := s.children) == s
    ensures forall k :: 1 <= k < |s.children| ==>
              SetTitle(s, text).children[k] == s.children[k] && SetTitleStyled(s, text, style).children[k] == s.children[k] &&
              SetTitleRes(s, res).children[k] == s.children[k] && SetTitleColor(s, color).children[k] == s.children[k]
  {
  }

  /** createItem restyles the title, not the new row: a title style set before
      rows are added is replaced by the popup-menu appearance, and one set after
      them stays. */
  lemma StyledTitleThenRows(s: Sheet, text: Option<string>, style: i32, texts: seq<Text>)
    requires |s.children| > 0 && texts != []
    ensures AddItems(SetTitleStyled(s, text, style), texts).children[0].appearance == PopupMenu
    ensures SetTitleStyled(AddItems(s, texts), text, style).children[0].appearance == StyleRes(style)
  {
    AddItemsAppends(SetTitleStyled(s, text, style), texts);
  }

  /* ------------------------------------------------------------ row creation */

  /** addItems appends one row per text, in argument order, after the children
      already there.  Row i carries texts[i], id |s.children| - 1 + i (its
      position among the rows) and the default colour and icon as they are when
      the call is made; earlier rows are untouched, the title only gets the
      popup-menu appearance, and no other field changes. */
  lemma {:induction false} AddItemsAppends(s: Sheet, texts: seq<Text>)
    requires |s.children| > 0
    ensures forall k :: 1 <= k < |s.children| ==> AddItems(s, texts).children[k] == s.children[k]
    ensures forall k :: |s.children| <= k < |s.children| + |texts| ==>
              AddItems(s, texts).children[k] == PlainRow(s, texts[k - |s.children|], k - 1)
    ensures AddItems(s, texts).children[0] ==
              if texts == [] then s.children[0] else s.children[0].(appearance := PopupMenu)
    ensures AddItems(s, texts).(children := s.children) == s
  {
    if texts != [] {
      var n := |texts| - 1;
      AddItemsAppends(s, texts[..n]);
      var m := AddItems(s, texts[..n]);
      var r := AddItems(s, texts);
      assert r == AddPlain(m, texts[n]);
      assert m.(children := s.children) == s;
      assert |m.children| == |s.children| + n;
      assert r.children == m.children[0 := m.children[0].(appearance := PopupMenu)] + [PlainRow(m, texts[n], |m.children| - 1)];
      forall k | |s.children| <= k < |s.children| + |texts|
        ensures r.children[k] == PlainRow(s, texts[k - |s.children|], k - 1)
      {
        if k < |m.children| {
          assert r.children[k] == m.children[k];
          assert texts[..n][k - |s.children|] == texts[k - |s.children|];
        }
      }
    }
  }

  /** The "enough icons" loop of the paired addItems: row i carries texts[i] and
      icons[i], unless a default icon is set, which replaces every passed icon;
      earlier rows are untouched and the title only gets the popup-menu
      appearance. */
  lemma {:induction false} AddIconItemsAppends(s: Sheet, texts: seq<Text>, icons: seq<i32>)
    requires |s.children| > 0 && |texts| <= |icons|
    ensures forall k :: 1 <= k < |s.children| ==> AddIconItems(s, texts, icons).children[k] == s.children[k]
    ensures forall k :: |s.children| <= k < |s.children| + |texts| ==>
              AddIconItems(s, texts, icons).children[k] ==
                IconRow(s, texts[k - |s.children|], icons[k - |s.children|], k - 1)
    ensures AddIconItems(s, texts, icons).children[0] ==
              if texts == [] then s.children[0] else s.children[0].(appearance := PopupMenu)
  {
    if texts != [] {
      var n := |texts| - 1;
      AddIconItemsAppends(s, texts[..n], icons);
      AddIconItemsKeeps(s, texts[..n], icons);
      var m := AddIconItems(s, texts[..n], icons);
      var r := AddIconItems(s, texts, icons);
      assert r == AddWithIcon(m, texts[n], icons[n]);
      assert |m.children| == |s.children| + n;
      assert r.children == m.children[0 := m.children[0].(appearance := PopupMenu)] + [IconRow(m, texts[n], icons[n], |m.children| - 1)];
      forall k | |s.children| <= k < |s.children| + |texts|
        ensures r.children[k] == IconRow(s, texts[k - |s.children|], icons[k - |s.children|], k - 1)
      {
        if k < |m.children| {
          assert r.children[k] == m.children[k];
          assert texts[..n][k - |s.children|] == texts[k - |s.children|];
        }
      }
    }
  }

  /** The same loop logs one debug note per row when a default icon is set and
      nothing otherwise, and changes no field but the children and the log. */
  lemma {:induction false} AddIconItemsKeeps(s: Sheet, texts: seq<Text>, icons: seq<i32>)
    requires |s.children| > 0 && |texts| <= |icons|
    ensures AddIconItems(s, texts, icons).log ==
              s.log + seq(if s.defaultIcon != 0 then |texts| else 0, _ => Diagnostic(Debug, s.tag, DefaultIconApplied))
    ensures AddIconItems(s, texts, icons).(children := s.children, log := s.log) == s
  {
    if texts != [] {
      var n := |texts| - 1;
      AddIconItemsKeeps(s, texts[..n], icons);
      var m := AddIconItems(s, texts[..n], icons);
      assert AddIconItems(s, texts, icons) == AddWithIcon(m, texts[n], icons[n]);
      var d := Diagnostic(Debug, s.tag, DefaultIconApplied);
      if s.defaultIcon != 0 {
        assert seq(n, _ => d) + [d] == seq(n + 1, _ => d);
      } else {
        assert IconNote(m) == [];
      }
    }
  }

  /** The paired addItems: either way the row count grows by |texts| and row i
      carries texts[i] with the current default colour.  With fewer icons than
      texts exactly one error is logged and no passed icon is used on any row;
      otherwise row i gets icons[i] (tinted with the default colour) unless the
      default icon overrides it, and icons past |texts| are ignored. */
  lemma AddItemsWithIconsRows(s: Sheet, texts: seq<Text>, icons: seq<i32>)
    requires |s.children| > 0
    ensures var r := AddItemsWithIcons(s, texts, icons);
      var n := |s.children|;
      |r.children| == n + |texts| &&
      (forall k :: 1 <= k < n ==> r.children[k] == s.children[k]) &&
      (forall k :: n <= k < n + |texts| ==>
         r.children[k].text == texts[k - n] && r.children[k].id == k - 1 &&
         r.children[k].color == Some(s.defaultColor)) &&
      (|texts| > |icons| ==>
         r.log == s.log + [Diagnostic(Error, s.tag, NotEnoughIcons)] &&
         forall k :: n <= k < n + |texts| ==> r.children[k].icon == s.defaultIcon && r.children[k].tint == None) &&
      (|texts| <= |icons| ==>
         (s.defaultIcon == 0 ==> r.log == s.log) &&
         forall k :: n <= k < n + |texts| ==>
           r.children[k].icon == (if s.defaultIcon != 0 then s.defaultIcon else icons[k - n]) &&
           r.children[k].tint == Some(s.defaultColor))
  {
    if |texts| > |icons| {
      AddItemsAppends(s.(log := s.log + [Diagnostic(Error, s.tag, NotEnoughIcons)]), texts);
    } else {
      AddIconItemsAppends(s, texts, icons);
      AddIconItemsKeeps(s, texts, icons);
    }
  }

  /** addItem(text, color): one row at the end with the explicit colour instead of
      the default, otherwise a plain row. */
  lemma AddItemExplicitColor(s: Sheet, text: Text, color: i32)
    requires |s.children| > 0
    ensures var r := AddItem(s, text, color);
      |r.children| == |s.children| + 1 &&
      r.children[|s.children|] == PlainRow(s, text, |s.children| - 1).(color := Some(color)) &&
      (forall k :: 1 <= k < |s.children| ==> r.children[k] == s.children[k]) &&
      r.defaultColor == s.defaultColor
  {
  }

  /** A recolour without positions repaints every row, explicit-colour rows
      included, and becomes the colour of rows added later; a row added later
      with an explicit colour keeps that colour. */
  lemma RecolorBecomesDefault(s: Sheet, color: i32, later: Text, explicit: i32)
    requires |s.children| > 1
    ensures var t := RecolorAll(s, color);
      (forall k :: 1 <= k < |s.children| ==> t.children[k].color == Some(color)) &&
      AddItems(t, [later]).children[|s.children|].color == Some(color) &&
      AddItem(t, later, explicit).children[|s.children|].color == Some(explicit)
  {
    RecolorAllEffect(s, color);
    AddItemsAppends(RecolorAll(s, color), [later]);
  }

  /* ---------------------------------------------------- re-icon, re-colour */

  /** setIcon(icon) without positions: every row gets the icon tinted with the
      default colour, the title is untouched, and the default icon changes only
      when there is at least one row. */
  lemma SetIconAllEffect(s: Sheet, icon: i32)
    requires |s.children| > 0
    ensures var r := SetIconAll(s, icon);
      |r.children| == |s.children| && r.children[0] == s.children[0] &&
      (forall k :: 1 <= k < |s.children| ==> r.children[k] == Iconed(s.children[k], icon, s.defaultColor)) &&
      r.defaultIcon == (if |s.children| > 1 then icon else s.defaultIcon) &&
      r.(children := s.children, defaultIcon := s.defaultIcon) == s
  {
  }

  /** setItemColor(color) without positions: every row is painted, the title is
      untouched, and the default colour changes only when there is a row. */
  lemma RecolorAllEffect(s: Sheet, color: i32)
    requires |s.children| > 0
    ensures var r := RecolorAll(s, color);
      |r.children| == |s.children| && r.children[0] == s.children[0] &&
      (forall k :: 1 <= k < |s.children| ==> r.children[k] == Painted(s.children[k], color)) &&
      r.defaultColor == (if |s.children| > 1 then color else s.defaultColor) &&
      r.(children := s.children, defaultColor := s.defaultColor) == s
  {
  }

  /** Positional setItemColor: child k is painted exactly when k - 1 is one of the
      positions; every other child, the title included unless -1 is given, keeps
      its value. */
  lemma {:induction false} ColorAtEffect(cs: seq<Child>, color: i32, tag: Option<string>, ps: seq<i32>, k: int)
    requires 0 <= k < |cs|
    ensures ColorAt(cs, color, tag, ps).0[k] == if k - 1 in ps then Painted(cs[k], color) else cs[k]
  {
    if ps != [] {
      var init := ps[..|ps| - 1];
      assert ps == init + [ps[|ps| - 1]];
      ColorAtEffect(cs, color, tag, init, k);
    }
  }

  /** Positional setItemColor logs only NonexistentItem errors, at most one per
      position, and none at all exactly when every position names a row. */
  lemma {:induction false} ColorAtLog(cs: seq<Child>, color: i32, tag: Option<string>, ps: seq<i32>)
    ensures var d := ColorAt(cs, color, tag, ps).1;
      |d| <= |ps| &&
      (forall i :: 0 <= i < |d| ==> d[i] == Diagnostic(Error, tag, NonexistentItem)) &&
      (|d| == 0 <==> forall i :: 0 <= i < |ps| ==> 0 <= ps[i] as int + 1 < |cs|)
  {
    if ps != [] {
      var init := ps[..|ps| - 1];
      ColorAtLog(cs, color, tag, init);
      assert forall i :: 0 <= i < |init| ==> init[i] == ps[i];
    }
  }

  /** A missing position does not stop the positions after it: recolouring at
      ps + qs is recolouring at ps, then at qs, with both logs in order. */
  lemma {:induction false} ColorAtSplit(cs: seq<Child>, color: i32, tag: Option<string>, ps: seq<i32>, qs: seq<i32>)
    ensures var first := ColorAt(cs, color, tag, ps);
      var second := ColorAt(first.0, color, tag, qs);
      ColorAt(cs, color, tag, ps + qs) == (second.0, first.1 + second.1)
    decreases |qs|
  {
    if qs == [] {
      assert ps + qs == ps;
      assert ColorAt(cs, color, tag, ps).1 + [] == ColorAt(cs, color, tag, ps).1;
    } else {
      var init := qs[..|qs| - 1];
      assert (ps + qs)[..|ps + qs| - 1] == ps + init;
      assert (ps + qs)[|ps + qs| - 1] == qs[|qs| - 1];
      ColorAtSplit(cs, color, tag, ps, init);
      var first := ColorAt(cs, color, tag, ps);
      var mid := ColorAt(first.0, color, tag, init);
      var e := [Diagnostic(Error, tag, NonexistentItem)];
      assert (first.1 + mid.1) + e == first.1 + (mid.1 + e);
    }
  }

  /** A single position: a missing child logs exactly one error and changes nothing. */
  lemma ColorAtOne(cs: seq<Child>, color: i32, tag: Option<string>, p: i32)
    ensures var r, k := ColorAt(cs, color, tag, [p]), p as int + 1;
      if 0 <= k < |cs| then r == (cs[k := Painted(cs[k], color)], [])
      else r == (cs, [Diagnostic(Error, tag, NonexistentItem)])
  {
    assert [p][..0] == [];
    assert ColorAt(cs, color, tag, []) == (cs, []);
    assert [] + [Diagnostic(Error, tag, NonexistentItem)] == [Diagnostic(Error, tag, NonexistentItem)];
  }

  /** Positional setIcon changes a child only by giving it the icon and tint:
      every child is either untouched or Iconed. */
  lemma {:induction false} IconAtShape(cs: seq<Child>, icon: i32, tint: i32, ps: seq<i32>, k: int)
    requires 0 <= k < |cs|
    ensures var c := IconAt(cs, icon, tint, ps).children[k];
      c == cs[k] || c == Iconed(cs[k], icon, tint)
  {
    if ps != [] {
      IconAtShape(cs, icon, tint, ps[..|ps| - 1], k);
    }
  }

  /** With every position naming an existing child, positional setIcon does not
      throw ... */
  lemma {:induction false} IconAtNoThrow(cs: seq<Child>, icon: i32, tint: i32, ps: seq<i32>)
    requires forall i :: 0 <= i < |ps| ==> 0 <= ps[i] < |cs|
    ensures IconAt(cs, icon, tint, ps).thrown == None
  {
    if ps != [] {
      IconAtNoThrow(cs, icon, tint, ps[..|ps| - 1]);
    }
  }

  /** ... and sets the icon on exactly the children at those positions, counted
      from the title (position 0 is the title). */
  lemma {:induction false} IconAtInRange(cs: seq<Child>, icon: i32, tint: i32, ps: seq<i32>, k: int)
    requires forall i :: 0 <= i < |ps| ==> 0 <= ps[i] < |cs|
    requires 0 <= k < |cs|
    ensures IconAt(cs, icon, tint, ps).children[k] == if k in ps then Iconed(cs[k], icon, tint) else cs[k]
  {
    if ps != [] {
      var init := ps[..|ps| - 1];
      assert ps == init + [ps[|ps| - 1]];
      IconAtInRange(cs, icon, tint, init, k);
      IconAtNoThrow(cs, icon, tint, init);
    }
  }

  /** Once a position has thrown, the positions after it are never reached. */
  lemma {:induction false} IconAtAfterThrow(cs: seq<Child>, icon: i32, tint: i32, ps: seq<i32>, j: nat)
    requires j <= |ps|
    requires IconAt(cs, icon, tint, ps[..j]).thrown.Some?
    ensures IconAt(cs, icon, tint, ps) == IconAt(cs, icon, tint, ps[..j])
    decreases |ps| - j
  {
    if j < |ps| {
      var init := ps[..|ps| - 1];
      assert init[..j] == ps[..j];
      IconAtAfterThrow(cs, icon, tint, init, j);
    } else {
      assert ps[..j] == ps;
    }
  }

  /** Positional setIcon at its first missing position ps[j]: the call throws
      there, the positions before it have been applied and none after it. */
  lemma IconAtThrows(cs: seq<Child>, icon: i32, tint: i32, ps: seq<i32>, j: nat)
    requires j < |ps| && !(0 <= ps[j] < |cs|)
    requires forall i :: 0 <= i < j ==> 0 <= ps[i] < |cs|
    ensures IconAt(cs, icon, tint, ps) == Applied(IconAt(cs, icon, tint, ps[..j]).children, Some(ps[j]))
  {
    var pre := ps[..j];
    IconAtNoThrow(cs, icon, tint, pre);
    assert ps[..j + 1][..j] == pre;
    IconAtAfterThrow(cs, icon, tint, ps, j + 1);
  }

  /** The two positional calls count differently: setIcon(icon, 0) changes the
      title, setItemColor(color, 0) changes the first row. */
  lemma PositionZeroDiffers(s: Sheet, icon: i32, color: i32)
    requires |s.children| > 1
    ensures SetIcon(s, icon, [0]).0.children[0] == Iconed(s.children[0], icon, s.defaultColor)
    ensures SetIcon(s, icon, [0]).1 == None
    ensures SetItemColor(s, color, [0]).children[0] == s.children[0]
    ensures SetItemColor(s, color, [0]).children[1] == Painted(s.children[1], color)
  {
    assert [0 as i32][..0] == [];
  }

  /* ---------------------------------------------------- show and dismiss */

  /** The first show() gives every child the item height and horizontal padding;
      the last child additionally gets half the padding (rounded toward zero) as
      bottom padding and the same amount added to its height; the dialog is
      created with the sheet style only when that is non-zero. */
  lemma FirstShow(s: Sheet)
    requires |s.children| > 0 && !s.attached
    ensures var r := Show(s);
      var n, h, p := |s.children|, s.itemHeight, s.itemPadding;
      |r.children| == n &&
      (forall k :: 0 <= k < n - 1 ==>
         r.children[k] == s.children[k].(height := Some(h), padding := Padding(p, 0, p, 0))) &&
      r.children[n - 1] == s.children[n - 1].(height := Some(Wrap32(h + Half(p))), padding := Padding(p, 0, p, Half(p))) &&
      r.attached && Showing(r) &&
      (r.dialog.theme == DefaultTheme <==> s.sheetStyle == 0) &&
      (s.sheetStyle != 0 ==> r.dialog.theme == Themed(s.sheetStyle)) &&
      r.log == s.log && r.events == s.events
  {
  }

  /** show() never creates a second dialog: after the first one, every call only
      logs one error, also after the dialog was dismissed. */
  lemma ShowOnlyOnce(s: Sheet)
    requires WellFormed(s) && s.attached
    ensures Show(s) == s.(log := s.log + [Diagnostic(Error, s.tag, AlreadyShown)])
  {
  }

  /** A row click with a click listener reports the row's position and the tag,
      sets the flag and closes the dialog without notifying the dismissal
      listener. */
  lemma ClickReportsPosition(s: Sheet, k: int)
    requires WellFormed(s) && CanClick(s, k) && s.clickListener
    ensures var r := ClickItem(s, k);
      r.events == s.events + [ItemClicked(k - 1, s.tag)] && r.dismissedByAction && !Showing(r)
  {
  }

  /** Without a click listener a click does nothing at all. */
  lemma ClickWithoutListener(s: Sheet, k: int)
    requires CanClick(s, k) && !s.clickListener
    ensures ClickItem(s, k) == s
  {
  }

  /** An outside dismissal closes the dialog and notifies the dismissal listener
      exactly once, when one is set and the flag is clear. */
  lemma DismissFromOutsideNotifies(s: Sheet)
    requires Showing(s)
    ensures var r := DismissFromOutside(s);
      !Showing(r) &&
      r.events == s.events + (if s.dismissListener && !s.dismissedByAction then [Dismissed(s.tag)] else [])
  {
  }

  /** dismiss() never notifies: without a dialog it changes nothing, with one it
      sets the flag and closes the dialog. */
  lemma DismissIsSilent(s: Sheet)
    ensures Dismiss(s).events == s.events
    ensures s.dialog.NoDialog? ==> Dismiss(s) == s
    ensures s.dialog.SheetDialog? ==> Dismiss(s).dismissedByAction && !Showing(Dismiss(s))
  {
  }
}
