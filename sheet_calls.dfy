/** Arbitrary sequences of builder calls and environment events (row taps,
    outside dismissals), and what no sequence of them can undo. */
module SheetCalls {
  import opened SheetModel
  import opened SheetProperties

  /** One public builder call, or one event the UI delivers. */
  datatype Call =
    | SetTitleCall(title: Option<string>)
    | SetTitleResCall(titleRes: i32)
    | SetStyledTitleCall(styledTitle: Option<string>, titleStyle: i32)
    | SetTitleColorCall(titleColor: i32)
    | AddItemsCall(texts: seq<Text>)
    | AddItemsWithIconsCall(pairedTexts: seq<Text>, icons: seq<i32>)
    | AddItemCall(text: Text, color: i32)
    | SetIconCall(icon: i32, iconPositions: seq<i32>)
    | SetItemColorCall(itemColor: i32, colorPositions: seq<i32>)
    | SetOnItemClickListenerCall(clickSet: bool)
    | SetOnSheetDismissedListenerCall(dismissSet: bool)
    | SetStyleCall(style: i32)
    | SetTagCall(tag: Option<string>)
    | SetItemHeightPxCall(height: i32)
    | SetItemPaddingPxCall(padding: i32)
    | ShowCall
    | DismissCall
    | ClickItemCall(child: int)
    | DismissFromOutsideCall

  /** The state after one call; a tap or an outside dismissal that the UI could
      not deliver (no dialog showing, no such row) leaves the state alone.  No
      call removes a child. */
  function Step(s: Sheet, c: Call): (r: Sheet)
    requires |s.children| > 0
    ensures |r.children| >= |s.children|
  {
    match c
    case SetTitleCall(t) => SetTitle(s, t)
    case SetTitleResCall(res) => SetTitleRes(s, res)
    case SetStyledTitleCall(t, style) => SetTitleStyled(s, t, style)
    case SetTitleColorCall(color) => SetTitleColor(s, color)
    case AddItemsCall(texts) => AddItems(s, texts)
    case AddItemsWithIconsCall(texts, icons) => AddItemsWithIcons(s, texts, icons)
    case AddItemCall(text, color) => AddItem(s, text, color)
    case SetIconCall(icon, ps) => SetIcon(s, icon, ps).0
    case SetItemColorCall(color, ps) => SetItemColor(s, color, ps)
    case SetOnItemClickListenerCall(present) => SetOnItemClickListener(s, present)
    case SetOnSheetDismissedListenerCall(present) => SetOnSheetDismissedListener(s, present)
    case SetStyleCall(style) => SetStyle(s, style)
    case SetTagCall(tag) => SetTag(s, tag)
    case SetItemHeightPxCall(h) => SetItemHeightPx(s, h)
    case SetItemPaddingPxCall(p) => SetItemPaddingPx(s, p)
    case ShowCall => Show(s)
    case DismissCall => Dismiss(s)
    case ClickItemCall(k) => if CanClick(s, k) then ClickItem(s, k) else s
    case DismissFromOutsideCall => if Showing(s) then DismissFromOutside(s) else s
  }

  function Run(s: Sheet, calls: seq<Call>): (r: Sheet)
    requires |s.children| > 0
    ensures |r.children| >= |s.children|
    decreases |calls|
  {
    if calls == [] then s else Run(Step(s, calls[0]), calls[1..])
  }

  /** What a later state keeps of an earlier one: every child stays, with its
      text (rows are never moved or rewritten); diagnostics and listener calls
      are only appended; once set, the dismissal flag stays set and no
      dismissal notification follows; once created, the dialog is never
      replaced, and once closed it never shows again. */
  ghost predicate Evolves(s: Sheet, t: Sheet)
  {
    |s.children| <= |t.children| &&
    (forall k :: 1 <= k < |s.children| ==> t.children[k].text == s.children[k].text) &&
    s.log <= t.log && s.events <= t.events &&
    (s.dismissedByAction ==>
       t.dismissedByAction && forall i :: |s.events| <= i < |t.events| ==> t.events[i].ItemClicked?) &&
    (s.dialog.SheetDialog? ==>
       t.dialog.SheetDialog? && t.dialog.theme == s.dialog.theme && (!s.dialog.showing ==> !t.dialog.showing))
  }

  lemma EvolvesTransitive(s: Sheet, u: Sheet, t: Sheet)
    requires Evolves(s, u) && Evolves(u, t)
    ensures Evolves(s, t)
  {
    if s.dismissedByAction {
      forall i | |s.events| <= i < |t.events| ensures t.events[i].ItemClicked? {
        if i < |u.events| {
          assert t.events[i] == u.events[i];
        }
      }
    }
  }

  /** Before a dialog has been shown, and while it shows, no listener has been
      called; once it has closed, at most one has. */
  predicate Quiet(s: Sheet)
  {
    |s.events| <= if s.dialog.NoDialog? || Showing(s) then 0 else 1
  }

  /** What one call from a well-formed state guarantees about the next state. */
  ghost predicate Successor(s: Sheet, t: Sheet)
  {
    WellFormed(t) && Evolves(s, t) && (Quiet(s) ==> Quiet(t))
  }

  /** Replacing the title by a view that keeps its id and has no click handler. */
  lemma WithTitleSucceeds(s: Sheet, title: Child)
    requires WellFormed(s) && title.id == NO_ID && !title.clickable
    ensures Successor(s, WithTitle(s, title))
  {
  }

  lemma TitleCallSucceeds(s: Sheet, c: Call)
    requires WellFormed(s)
    requires c.SetTitleCall? || c.SetTitleResCall? || c.SetStyledTitleCall? || c.SetTitleColorCall?
    ensures Successor(s, Step(s, c))
  {
    var t := s.children[0];
    match c
    case SetTitleCall(text) =>
      var title := if text.None? then t.(visibility := Gone) else t.(visibility := Visible, text := Literal(text.value));
      assert Step(s, c) == WithTitle(s, title);
      WithTitleSucceeds(s, title);
    case SetTitleResCall(res) =>
      WithTitleSucceeds(s, t.(text := Resource(res)));
    case SetStyledTitleCall(text, style) =>
      var title := if text.None? then t.(visibility := Gone) else t.(visibility := Visible, text := Literal(text.value));
      assert Step(s, c) == WithTitle(s, title.(appearance := StyleRes(style)));
      WithTitleSucceeds(s, title.(appearance := StyleRes(style)));
    case SetTitleColorCall(color) =>
      WithTitleSucceeds(s, t.(color := Some(color)));
  }

  lemma SetterCallSucceeds(s: Sheet, c: Call)
    requires WellFormed(s)
    requires c.SetOnItemClickListenerCall? || c.SetOnSheetDismissedListenerCall? || c.SetStyleCall? ||
             c.SetTagCall? || c.SetItemHeightPxCall? || c.SetItemPaddingPxCall?
    ensures Successor(s, Step(s, c))
  {
  }

  lemma AddItemsSucceeds(s: Sheet, texts: seq<Text>)
    requires WellFormed(s)
    ensures Successor(s, AddItems(s, texts))
  {
    AddItemsAppends(s, texts);
  }

  lemma AddItemsWithIconsSucceeds(s: Sheet, texts: seq<Text>, icons: seq<i32>)
    requires WellFormed(s)
    ensures Successor(s, AddItemsWithIcons(s, texts, icons))
  {
    if |texts| > |icons| {
      var e := s.(log := s.log + [Diagnostic(Error, s.tag, NotEnoughIcons)]);
      AddItemsAppends(e, texts);
      assert Evolves(e, AddItems(e, texts));
    } else {
      AddIconItemsAppends(s, texts, icons);
      AddIconItemsKeeps(s, texts, icons);
    }
  }

  lemma AddItemSucceeds(s: Sheet, text: Text, color: i32)
    requires WellFormed(s)
    ensures Successor(s, AddItem(s, text, color))
  {
    AddItemExplicitColor(s, text, color);
  }

  lemma SetIconSucceeds(s: Sheet, icon: i32, ps: seq<i32>)
    requires WellFormed(s)
    ensures Successor(s, SetIcon(s, icon, ps).0)
  {
    var r := SetIcon(s, icon, ps).0;
    if ps != [] {
      forall k | 0 <= k < |s.children|
        ensures r.children[k].id == s.children[k].id && r.children[k].clickable == s.children[k].clickable
        ensures r.children[k].text == s.children[k].text
      {
        IconAtShape(s.children, icon, s.defaultColor, ps, k);
      }
    } else {
      SetIconAllEffect(s, icon);
    }
  }

  lemma SetItemColorSucceeds(s: Sheet, color: i32, ps: seq<i32>)
    requires WellFormed(s)
    ensures Successor(s, SetItemColor(s, color, ps))
  {
    var r := SetItemColor(s, color, ps);
    if ps != [] {
      forall k | 0 <= k < |s.children|
        ensures r.children[k].id == s.children[k].id && r.children[k].clickable == s.children[k].clickable
        ensures r.children[k].text == s.children[k].text
      {
        ColorAtEffect(s.children, color, s.tag, ps, k);
      }
    } else {
      RecolorAllEffect(s, color);
    }
  }

  lemma LifecycleCallSucceeds(s: Sheet, c: Call)
    requires WellFormed(s)
    requires c.ShowCall? || c.DismissCall? || c.ClickItemCall? || c.DismissFromOutsideCall?
    ensures Successor(s, Step(s, c))
  {
  }

  /** Every call from a well-formed state keeps what Successor names. */
  lemma StepSucceeds(s: Sheet, c: Call)
    requires WellFormed(s)
    ensures Successor(s, Step(s, c))
  {
    match c
    case AddItemsCall(texts) => AddItemsSucceeds(s, texts);
    case AddItemsWithIconsCall(texts, icons) => AddItemsWithIconsSucceeds(s, texts, icons);
    case AddItemCall(text, color) => AddItemSucceeds(s, text, color);
    case SetIconCall(icon, ps) => SetIconSucceeds(s, icon, ps);
    case SetItemColorCall(color, ps) => SetItemColorSucceeds(s, color, ps);
    case SetTitleCall(_) => TitleCallSucceeds(s, c);
    case SetTitleResCall(_) => TitleCallSucceeds(s, c);
    case SetStyledTitleCall(_, _) => TitleCallSucceeds(s, c);
    case SetTitleColorCall(_) => TitleCallSucceeds(s, c);
    case ShowCall => LifecycleCallSucceeds(s, c);
    case DismissCall => LifecycleCallSucceeds(s, c);
    case ClickItemCall(_) => LifecycleCallSucceeds(s, c);
    case DismissFromOutsideCall => LifecycleCallSucceeds(s, c);
    case _ => SetterCallSucceeds(s, c);
  }

  /** Every sequence of calls from a well-formed state keeps it well formed, and
      undoes nothing Evolves names: the title is never displaced, rows keep their
      place and text, the flag is never reset, a second dialog is never created
      and a closed one never shows again. */
  lemma {:induction false} RunSucceeds(s: Sheet, calls: seq<Call>)
    requires WellFormed(s)
    ensures Successor(s, Run(s, calls))
    decreases |calls|
  {
    if calls == [] {
      assert Run(s, calls) == s;
    } else {
      var t := Step(s, calls[0]);
      StepSucceeds(s, calls[0]);
      RunSucceeds(t, calls[1..]);
      EvolvesTransitive(s, t, Run(t, calls[1..]));
    }
  }

  /** A builder notifies its listeners at most once in its life: either the click
      listener for the row that closed the sheet, or the dismissal listener. */
  lemma NotifiedAtMostOnce(style: i32, tag: Option<string>, heightPx: i32, paddingPx: i32,
                           primaryTextColor: i32, calls: seq<Call>)
    ensures |Run(Setup(style, tag, heightPx, paddingPx, primaryTextColor), calls).events| <= 1
  {
    RunSucceeds(Setup(style, tag, heightPx, paddingPx, primaryTextColor), calls);
  }

  /** A freshly set-up builder has exactly one child, the hidden title, and is
      well formed. */
  lemma SetupHasOnlyTitle(style: i32, tag: Option<string>, heightPx: i32, paddingPx: i32, primaryTextColor: i32)
    ensures var s := Setup(style, tag, heightPx, paddingPx, primaryTextColor);
      WellFormed(s) && |s.children| == 1 && s.children[0].visibility == Gone &&
      s.dialog.NoDialog? && !s.dismissedByAction && s.events == [] && s.log == []
  {
  }
}
