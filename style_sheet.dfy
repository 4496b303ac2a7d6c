/** The stylesheet generator of the add-on: from the preferences it reads to
    the CSS text that hides the chosen items of the bookmarks menu, and from
    that text to the `data:` URI that is registered with the browser.

    The CSS text is a fixed namespace line and document header, one line per
    emitted rule, and a closing brace. Which rules are emitted is decided by
    guarded appends, most of them on a single boolean preference, two of them
    on a pair of preferences (a separator that is hidden only when the items
    on both of its sides are hidden), and one on a three-way integer. */
module StyleSheet {
  import opened Wrappers
  import opened UriEncoding

  const XulNamespace: string :=
    "@namespace url(\"http://www.mozilla.org/keymaster/gatekeeper/there.is.only.xul\");"
  const StylesheetHeader: string :=
    "@-moz-document url(\"chrome://browser/content/browser.xul\") {"
  const StylesheetFooter: string := "}"
  const DataUriPrefix: string := "data:text/css;charset=utf-8,"

  /** The first two lines of every stylesheet. */
  const Preamble: string := XulNamespace + "\n" + StylesheetHeader + "\n"

  /** The seven preferences the generator reads, with the types their getters
      return (`false` means "hide the item"). */
  datatype Options = Options(
    bookmarkThisPage: bool,
    viewBookmarksSidebar: bool,
    viewBookmarksToolbar: bool,
    subscribeToThisPage: bool,
    bookmarksToolbar: bool,
    unsortedBookmarks: bool,
    showAllBookmarks: int)

  /** One generated CSS rule, named by what it hides or adjusts. */
  datatype Rule =
    | BookmarkThisPageItem | BookmarkThisPageSeparator
    | SidebarMenuItem | SidebarMenuSeparator | SidebarPanelItem
    | ToolbarPanelItem
    | ToolbarPanelSeparator
    | SubscribeItem | SubscribeSeparator
    | BookmarksToolbarItem
    | UnsortedBookmarksItem
    | UnsortedMenuSeparator | UnsortedPanelSeparator
    | ShowAllItem | PanelPadding
    | ShowAllAccelerator | ShowAllCentering

  // The selectors and declarations the rules are written from.
  const DisplayNone: string := " {display: none !important;}"
  const ToolbarSeparatorAfter: string := " + toolbarseparator"
  const MenuSeparatorAfter: string := " + menuseparator"
  const BookmarkThisPagePanel: string := "#panelMenuBookmarkThisPage"
  const SidebarMenu: string := "#BMB_viewBookmarksSidebar"
  const SidebarPanel: string := "#panelMenu_viewBookmarksSidebar"
  const ToolbarPanel: string := "#panelMenu_viewBookmarksToolbar"
  const SubscribeMenuItem: string := "#BMB_subscribeToPageMenuitem"
  const SubscribeMenuPopup: string := "#BMB_subscribeToPageMenupopup"
  const BookmarksToolbarMenu: string := "#BMB_bookmarksToolbar"
  const BookmarksToolbarPanel: string := "#panelMenu_bookmarksToolbar"
  const UnsortedMenu: string := "#BMB_unsortedBookmarks"
  const UnsortedPanel: string := "#panelMenu_unsortedBookmarks"
  const ShowAllMenu: string := "#BMB_bookmarksShowAll"
  const ShowAllPanel: string := "#panelMenu_showAllBookmarks"
  const PanelContent: string :=
    ".cui-widget-panel" + " > .panel-arrowcontainer" + " > .panel-arrowcontent"
  const PaddingBottom: string := " {padding-bottom: 4px !important;}"
  const AccelContainer: string := " .menu-accel-container"
  const CenterText: string :=
    " { text-align: center;" + " -moz-margin-start: -18px !important;}"

  /** The CSS text of a rule, character for character the string the
      generator appends. */
  function Text(r: Rule): string {
    match r
    case BookmarkThisPageItem => BookmarkThisPagePanel + DisplayNone
    case BookmarkThisPageSeparator => BookmarkThisPagePanel + ToolbarSeparatorAfter + DisplayNone
    case SidebarMenuItem => SidebarMenu + DisplayNone
    case SidebarMenuSeparator => SidebarMenu + MenuSeparatorAfter + DisplayNone
    case SidebarPanelItem => SidebarPanel + DisplayNone
    case ToolbarPanelItem => ToolbarPanel + DisplayNone
    case ToolbarPanelSeparator => ToolbarPanel + ToolbarSeparatorAfter + DisplayNone
    case SubscribeItem => SubscribeMenuItem + ", " + SubscribeMenuPopup + DisplayNone
    case SubscribeSeparator =>
      ":-moz-any(" + SubscribeMenuItem + ", " + SubscribeMenuPopup + ")" + MenuSeparatorAfter + DisplayNone
    case BookmarksToolbarItem => BookmarksToolbarMenu + ", " + BookmarksToolbarPanel + DisplayNone
    case UnsortedBookmarksItem => UnsortedMenu + ", " + UnsortedPanel + DisplayNone
    case UnsortedMenuSeparator => UnsortedMenu + MenuSeparatorAfter + DisplayNone
    case UnsortedPanelSeparator => UnsortedPanel + ToolbarSeparatorAfter + DisplayNone
    case ShowAllItem => ShowAllMenu + ", " + ShowAllPanel + DisplayNone
    case PanelPadding => PanelContent + PaddingBottom
    case ShowAllAccelerator => ShowAllMenu + AccelContainer + DisplayNone
    case ShowAllCentering => ShowAllMenu + CenterText
  }

  /** The six boolean preferences. */
  datatype Toggle =
    | BookmarkThisPage | ViewBookmarksSidebar | ViewBookmarksToolbar
    | SubscribeToThisPage | BookmarksToolbar | UnsortedBookmarks

  function Flag(o: Options, t: Toggle): bool {
    match t
    case BookmarkThisPage => o.bookmarkThisPage
    case ViewBookmarksSidebar => o.viewBookmarksSidebar
    case ViewBookmarksToolbar => o.viewBookmarksToolbar
    case SubscribeToThisPage => o.subscribeToThisPage
    case BookmarksToolbar => o.bookmarksToolbar
    case UnsortedBookmarks => o.unsortedBookmarks
  }

  /** The condition of one `if` of the generator. */
  datatype Guard =
    | Unset(toggle: Toggle)                  // the preference is false
    | BothUnset(first: Toggle, second: Toggle)  // both preferences are false
    | ShowAllIs(value: int)                  // show-all-bookmarks has this value

  predicate Holds(g: Guard, o: Options) {
    match g
    case Unset(t) => !Flag(o, t)
    case BothUnset(t1, t2) => !Flag(o, t1) && !Flag(o, t2)
    case ShowAllIs(v) => o.showAllBookmarks == v
  }

  /** One guarded append: the rules added, in order, when the guard holds. */
  datatype Block = Block(guard: Guard, rules: seq<Rule>)

  /** The generator's guarded appends in the order it runs them. The final
      `if (sab === 2) ... else if (sab === 1) ...` is two blocks whose guards
      exclude each other. */
  const Generator: seq<Block> := [
    Block(Unset(BookmarkThisPage), [BookmarkThisPageItem, BookmarkThisPageSeparator]),
    Block(Unset(ViewBookmarksSidebar), [SidebarMenuItem, SidebarMenuSeparator, SidebarPanelItem]),
    Block(Unset(ViewBookmarksToolbar), [ToolbarPanelItem]),
    Block(BothUnset(ViewBookmarksSidebar, ViewBookmarksToolbar), [ToolbarPanelSeparator]),
    Block(Unset(SubscribeToThisPage), [SubscribeItem, SubscribeSeparator]),
    Block(Unset(BookmarksToolbar), [BookmarksToolbarItem]),
    Block(Unset(UnsortedBookmarks), [UnsortedBookmarksItem]),
    Block(BothUnset(BookmarksToolbar, UnsortedBookmarks), [UnsortedMenuSeparator, UnsortedPanelSeparator]),
    Block(ShowAllIs(2), [ShowAllItem, PanelPadding]),
    Block(ShowAllIs(1), [ShowAllAccelerator, ShowAllCentering])]

  /** Runs the guarded appends from the k-th on, in order. When every block
      holds rules of its own guard, only rules whose guard holds come out. */
  function Emit(bs: seq<Block>, o: Options, k: nat): (r: seq<Rule>)
    requires k <= |bs|
    decreases |bs| - k, o  // naming o keeps the verifier from unfolding the whole table
  {
    if k == |bs| then []
    else (if Holds(bs[k].guard, o) then bs[k].rules else []) + Emit(bs, o, k + 1)
  }

  /** The rules the generator emits, in the order it appends them; each of
      them is one whose guard holds. */
  function Rules(o: Options): (r: seq<Rule>)
    ensures forall x :: x in r ==> Enabled(x, o)
  {
    assert forall x | x in Emit(Generator, o, 0) :: Enabled(x, o) by {
      GeneratorConsistent();
      forall x | x in Emit(Generator, o, 0) ensures Enabled(x, o) {
        EmitMember(Generator, o, 0, x);
      }
    }
    Emit(Generator, o, 0)
  }

  /** Each rule on a line of its own: no rules, no text; otherwise the text
      ends with a line break. */
  function Lines(rs: seq<Rule>): (ls: string)
    ensures ls == [] <==> rs == []
    ensures rs != [] ==> ls[|ls| - 1] == '\n'
  {
    if rs == [] then [] else Text(rs[0]) + "\n" + Lines(rs[1..])
  }

  /** The CSS text before encoding: it opens with the namespace line and the
      document header and closes with the brace. */
  function Source(o: Options): (src: string)
    ensures |Preamble| + |StylesheetFooter| <= |src|
    ensures src[..|Preamble|] == Preamble
    ensures src[|src| - |StylesheetFooter|..] == StylesheetFooter
  {
    var body := Lines(Rules(o));
    assert Preamble + body + StylesheetFooter == Preamble + (body + StylesheetFooter);
    Preamble + body + StylesheetFooter
  }

  /** genStyleSheet: the CSS text, percent-encoded, as a `data:` URI. */
  function GenStyleSheet(o: Options): (uri: string)
    ensures |DataUriPrefix| <= |uri| && uri[..|DataUriPrefix|] == DataUriPrefix
  {
    DataUriPrefix + EncodeUriComponent(Source(o))
  }

  // ---------------------------------------------------------------------
  // An independent description of the same generator, rule by rule: the
  // full rule list in source order, and the guard of each rule.

  const RuleTable: seq<Rule> := [
    BookmarkThisPageItem, BookmarkThisPageSeparator,
    SidebarMenuItem, SidebarMenuSeparator, SidebarPanelItem,
    ToolbarPanelItem,
    ToolbarPanelSeparator,
    SubscribeItem, SubscribeSeparator,
    BookmarksToolbarItem,
    UnsortedBookmarksItem,
    UnsortedMenuSeparator, UnsortedPanelSeparator,
    ShowAllItem, PanelPadding,
    ShowAllAccelerator, ShowAllCentering]

  /** The place of a rule in the table. */
  function Position(r: Rule): (i: nat)
    ensures i < |RuleTable| && RuleTable[i] == r
  {
    match r
    case BookmarkThisPageItem => 0
    case BookmarkThisPageSeparator => 1
    case SidebarMenuItem => 2
    case SidebarMenuSeparator => 3
    case SidebarPanelItem => 4
    case ToolbarPanelItem => 5
    case ToolbarPanelSeparator => 6
    case SubscribeItem => 7
    case SubscribeSeparator => 8
    case BookmarksToolbarItem => 9
    case UnsortedBookmarksItem => 10
    case UnsortedMenuSeparator => 11
    case UnsortedPanelSeparator => 12
    case ShowAllItem => 13
    case PanelPadding => 14
    case ShowAllAccelerator => 15
    case ShowAllCentering => 16
  }

  /** The guard under which each rule is emitted. */
  function GuardOf(r: Rule): Guard {
    match r
    case BookmarkThisPageItem | BookmarkThisPageSeparator => Unset(BookmarkThisPage)
    case SidebarMenuItem | SidebarMenuSeparator | SidebarPanelItem => Unset(ViewBookmarksSidebar)
    case ToolbarPanelItem => Unset(ViewBookmarksToolbar)
    case ToolbarPanelSeparator => BothUnset(ViewBookmarksSidebar, ViewBookmarksToolbar)
    case SubscribeItem | SubscribeSeparator => Unset(SubscribeToThisPage)
    case BookmarksToolbarItem => Unset(BookmarksToolbar)
    case UnsortedBookmarksItem => Unset(UnsortedBookmarks)
    case UnsortedMenuSeparator | UnsortedPanelSeparator => BothUnset(BookmarksToolbar, UnsortedBookmarks)
    case ShowAllItem | PanelPadding => ShowAllIs(2)
    case ShowAllAccelerator | ShowAllCentering => ShowAllIs(1)
  }

  predicate Enabled(r: Rule, o: Options) {
    Holds(GuardOf(r), o)
  }

  /** All rules of the blocks from the k-th on, in order. */
  function Flatten(bs: seq<Block>, k: nat): seq<Rule>
    requires k <= |bs|
    decreases |bs| - k
  {
    if k == |bs| then [] else bs[k].rules + Flatten(bs, k + 1)
  }

  /** Every rule of rs has guard g. */
  predicate AllGuardedBy(rs: seq<Rule>, g: Guard) {
    forall r :: r in rs ==> GuardOf(r) == g
  }

  /** Each block holds rules whose own guard is the block's guard. */
  predicate Consistent(bs: seq<Block>) {
    forall i :: 0 <= i < |bs| ==> AllGuardedBy(bs[i].rules, bs[i].guard)
  }

  /** Rules appear in table order, each at most once. */
  predicate InTableOrder(rs: seq<Rule>) {
    forall i, j :: 0 <= i < j < |rs| ==> Position(rs[i]) < Position(rs[j])
  }

  // ---------------------------------------------------------------------
  // Properties

  lemma {:induction false} TablePosition(i: nat)
    requires i < |RuleTable|
    ensures Position(RuleTable[i]) == i
  {
  }

  /** The blocks list every rule of the table once, in table order. */
  lemma {:induction false} GeneratorCoversTable()
    ensures Flatten(Generator, 0) == RuleTable
  {
  }

  /** Every rule sits in a block guarded by its own guard. */
  lemma {:induction false} GeneratorConsistent()
    ensures Consistent(Generator)
  {
    forall i | 0 <= i < |Generator| ensures AllGuardedBy(Generator[i].rules, Generator[i].guard) {
      BlockConsistent(i);
    }
  }

  lemma {:induction false} BlockConsistent(i: nat)
    requires i < |Generator|
    ensures AllGuardedBy(Generator[i].rules, Generator[i].guard)
  {
    var b := Generator[i];
    forall r | r in b.rules ensures GuardOf(r) == b.guard {
      var j :| 0 <= j < |b.rules| && b.rules[j] == r;
    }
  }

  lemma {:induction false} TableInOrder()
    ensures InTableOrder(RuleTable)
  {
    forall i, j | 0 <= i < j < |RuleTable| ensures Position(RuleTable[i]) < Position(RuleTable[j]) {
      TablePosition(i);
      TablePosition(j);
    }
  }

  lemma {:induction false} EmitMember(bs: seq<Block>, o: Options, k: nat, r: Rule)
    requires k <= |bs| && Consistent(bs)
    ensures r in Emit(bs, o, k) <==> r in Flatten(bs, k) && Enabled(r, o)
    decreases |bs| - k
  {
    if k < |bs| {
      EmitMember(bs, o, k + 1, r);
      assert AllGuardedBy(bs[k].rules, bs[k].guard);
    }
  }

  lemma {:induction false} EmitWithin(bs: seq<Block>, o: Options, k: nat, r: Rule)
    requires k <= |bs| && r in Emit(bs, o, k)
    ensures r in Flatten(bs, k)
    decreases |bs| - k
  {
    if r !in bs[k].rules {
      EmitWithin(bs, o, k + 1, r);
    }
  }

  lemma {:induction false} OrderedParts(a: seq<Rule>, b: seq<Rule>)
    requires InTableOrder(a + b)
    ensures InTableOrder(a) && InTableOrder(b)
    ensures forall x, y :: x in a && y in b ==> Position(x) < Position(y)
  {
    var ab := a + b;
    forall i, j | 0 <= i < j < |a| ensures Position(a[i]) < Position(a[j]) {
      assert a[i] == ab[i] && a[j] == ab[j];
    }
    forall i, j | 0 <= i < j < |b| ensures Position(b[i]) < Position(b[j]) {
      assert b[i] == ab[|a| + i] && b[j] == ab[|a| + j];
    }
    forall x, y | x in a && y in b ensures Position(x) < Position(y) {
      var i :| 0 <= i < |a| && a[i] == x;
      var j :| 0 <= j < |b| && b[j] == y;
      assert ab[i] == x && ab[|a| + j] == y;
    }
  }

  lemma {:induction false} OrderedConcat(a: seq<Rule>, b: seq<Rule>)
    requires InTableOrder(a) && InTableOrder(b)
    requires forall x, y :: x in a && y in b ==> Position(x) < Position(y)
    ensures InTableOrder(a + b)
  {
    var ab := a + b;
    forall i, j | 0 <= i < j < |ab| ensures Position(ab[i]) < Position(ab[j]) {
      if j < |a| {
        assert ab[i] == a[i] && ab[j] == a[j];
      } else if i >= |a| {
        assert ab[i] == b[i - |a|] && ab[j] == b[j - |a|];
      } else {
        assert ab[i] in a && ab[j] in b;
      }
    }
  }

  lemma {:induction false} EmitOrdered(bs: seq<Block>, o: Options, k: nat)
    requires k <= |bs| && InTableOrder(Flatten(bs, k))
    ensures InTableOrder(Emit(bs, o, k))
    decreases |bs| - k
  {
    if k < |bs| {
      var head := bs[k].rules;
      var part := if Holds(bs[k].guard, o) then head else [];
      var tail := Emit(bs, o, k + 1);
      OrderedParts(head, Flatten(bs, k + 1));
      EmitOrdered(bs, o, k + 1);
      forall x, y | x in part && y in tail ensures Position(x) < Position(y) {
        EmitWithin(bs, o, k + 1, y);
      }
      OrderedConcat(part, tail);
    }
  }

  /** A rule is emitted exactly when its condition holds. */
  lemma {:induction false} EmittedIff(o: Options, r: Rule)
    ensures r in Rules(o) <==> Enabled(r, o)
  {
    GeneratorCoversTable();
    GeneratorConsistent();
    EmitMember(Generator, o, 0, r);
    assert RuleTable[Position(r)] == r;
  }

  /** Emitted rules keep the fixed source order, and none is emitted twice. */
  lemma {:induction false} EmittedInOrder(o: Options)
    ensures InTableOrder(Rules(o))
    ensures forall i, j :: 0 <= i < j < |Rules(o)| ==> Rules(o)[i] != Rules(o)[j]
  {
    GeneratorCoversTable();
    TableInOrder();
    EmitOrdered(Generator, o, 0);
  }

  /** Rules that share a guard are emitted together or not at all: every
      block is all or nothing. */
  lemma {:induction false} SameGuardTogether(o: Options, r1: Rule, r2: Rule)
    requires GuardOf(r1) == GuardOf(r2)
    ensures r1 in Rules(o) <==> r2 in Rules(o)
  {
    EmittedIff(o, r1);
    EmittedIff(o, r2);
  }

  /** The bookmark-this-page and sidebar blocks: each of their rules is
      emitted exactly when its preference is false. */
  lemma {:induction false} UpperBlocks(o: Options)
    ensures BookmarkThisPageItem in Rules(o) <==> !o.bookmarkThisPage
    ensures BookmarkThisPageSeparator in Rules(o) <==> !o.bookmarkThisPage
    ensures SidebarMenuItem in Rules(o) <==> !o.viewBookmarksSidebar
    ensures SidebarMenuSeparator in Rules(o) <==> !o.viewBookmarksSidebar
    ensures SidebarPanelItem in Rules(o) <==> !o.viewBookmarksSidebar
  {
    assert Enabled(BookmarkThisPageItem, o) <==> !o.bookmarkThisPage;
    EmittedIff(o, BookmarkThisPageItem);
    assert Enabled(BookmarkThisPageSeparator, o) <==> !o.bookmarkThisPage;
    EmittedIff(o, BookmarkThisPageSeparator);
    assert Enabled(SidebarMenuItem, o) <==> !o.viewBookmarksSidebar;
    EmittedIff(o, SidebarMenuItem);
    assert Enabled(SidebarMenuSeparator, o) <==> !o.viewBookmarksSidebar;
    EmittedIff(o, SidebarMenuSeparator);
    assert Enabled(SidebarPanelItem, o) <==> !o.viewBookmarksSidebar;
    EmittedIff(o, SidebarPanelItem);
  }

  /** The toolbar, subscribe, bookmarks-toolbar and unsorted-bookmarks
      items: each is emitted exactly when its preference is false. */
  lemma {:induction false} LowerBlocks(o: Options)
    ensures ToolbarPanelItem in Rules(o) <==> !o.viewBookmarksToolbar
    ensures SubscribeItem in Rules(o) <==> !o.subscribeToThisPage
    ensures SubscribeSeparator in Rules(o) <==> !o.subscribeToThisPage
    ensures BookmarksToolbarItem in Rules(o) <==> !o.bookmarksToolbar
    ensures UnsortedBookmarksItem in Rules(o) <==> !o.unsortedBookmarks
  {
    assert Enabled(ToolbarPanelItem, o) <==> !o.viewBookmarksToolbar;
    EmittedIff(o, ToolbarPanelItem);
    assert Enabled(SubscribeItem, o) <==> !o.subscribeToThisPage;
    EmittedIff(o, SubscribeItem);
    assert Enabled(SubscribeSeparator, o) <==> !o.subscribeToThisPage;
    EmittedIff(o, SubscribeSeparator);
    assert Enabled(BookmarksToolbarItem, o) <==> !o.bookmarksToolbar;
    EmittedIff(o, BookmarksToolbarItem);
    assert Enabled(UnsortedBookmarksItem, o) <==> !o.unsortedBookmarks;
    EmittedIff(o, UnsortedBookmarksItem);
  }

  /** The separators between two optional sections are hidden exactly when
      both sections are. */
  lemma {:induction false} CompoundSeparators(o: Options)
    ensures ToolbarPanelSeparator in Rules(o) <==> !o.viewBookmarksSidebar && !o.viewBookmarksToolbar
    ensures UnsortedMenuSeparator in Rules(o) <==> !o.bookmarksToolbar && !o.unsortedBookmarks
    ensures UnsortedPanelSeparator in Rules(o) <==> !o.bookmarksToolbar && !o.unsortedBookmarks
  {
    assert Enabled(ToolbarPanelSeparator, o) <==> !o.viewBookmarksSidebar && !o.viewBookmarksToolbar;
    EmittedIff(o, ToolbarPanelSeparator);
    assert Enabled(UnsortedMenuSeparator, o) <==> !o.bookmarksToolbar && !o.unsortedBookmarks;
    EmittedIff(o, UnsortedMenuSeparator);
    assert Enabled(UnsortedPanelSeparator, o) <==> !o.bookmarksToolbar && !o.unsortedBookmarks;
    EmittedIff(o, UnsortedPanelSeparator);
  }

  /** The three-way show-all-bookmarks preference: 2 hides the item and pads
      the panel, 1 hides the accelerator and centres the item, anything else
      adds nothing; the two non-trivial states never mix. */
  lemma {:induction false} ShowAllBranches(o: Options)
    ensures o.showAllBookmarks == 2 ==>
      && ShowAllItem in Rules(o) && PanelPadding in Rules(o)
      && ShowAllAccelerator !in Rules(o) && ShowAllCentering !in Rules(o)
    ensures o.showAllBookmarks == 1 ==>
      && ShowAllAccelerator in Rules(o) && ShowAllCentering in Rules(o)
      && ShowAllItem !in Rules(o) && PanelPadding !in Rules(o)
    ensures o.showAllBookmarks != 1 && o.showAllBookmarks != 2 ==>
      && ShowAllItem !in Rules(o) && PanelPadding !in Rules(o)
      && ShowAllAccelerator !in Rules(o) && ShowAllCentering !in Rules(o)
  {
    assert Enabled(ShowAllItem, o) <==> o.showAllBookmarks == 2;
    EmittedIff(o, ShowAllItem);
    assert Enabled(PanelPadding, o) <==> o.showAllBookmarks == 2;
    EmittedIff(o, PanelPadding);
    assert Enabled(ShowAllAccelerator, o) <==> o.showAllBookmarks == 1;
    EmittedIff(o, ShowAllAccelerator);
    assert Enabled(ShowAllCentering, o) <==> o.showAllBookmarks == 1;
    EmittedIff(o, ShowAllCentering);
  }

  /** Two option sets that disagree on whether some rule is enabled emit
      different rules, and so get different stylesheets. */
  lemma {:induction false} RuleSeparates(o1: Options, o2: Options, r: Rule)
    requires Enabled(r, o1) && !Enabled(r, o2)
    ensures Rules(o1) != Rules(o2)
    ensures GenStyleSheet(o1) != GenStyleSheet(o2)
  {
    EmittedIff(o1, r);
    EmittedIff(o2, r);
    RulesDetermineSheet(o1, o2);
  }

  /** o with one boolean preference set to v. */
  function WithFlag(o: Options, t: Toggle, v: bool): (p: Options)
    ensures Flag(p, t) == v
    ensures forall u :: u != t ==> Flag(p, u) == Flag(o, u)
    ensures p.showAllBookmarks == o.showAllBookmarks
  {
    match t
    case BookmarkThisPage => o.(bookmarkThisPage := v)
    case ViewBookmarksSidebar => o.(viewBookmarksSidebar := v)
    case ViewBookmarksToolbar => o.(viewBookmarksToolbar := v)
    case SubscribeToThisPage => o.(subscribeToThisPage := v)
    case BookmarksToolbar => o.(bookmarksToolbar := v)
    case UnsortedBookmarks => o.(unsortedBookmarks := v)
  }

  /** The rule that hides the item a boolean preference stands for. */
  function ItemOf(t: Toggle): (r: Rule)
    ensures GuardOf(r) == Unset(t)
  {
    match t
    case BookmarkThisPage => BookmarkThisPageItem
    case ViewBookmarksSidebar => SidebarMenuItem
    case ViewBookmarksToolbar => ToolbarPanelItem
    case SubscribeToThisPage => SubscribeItem
    case BookmarksToolbar => BookmarksToolbarItem
    case UnsortedBookmarks => UnsortedBookmarksItem
  }

  /** Every boolean preference is wired into the generator: flipping any one
      of them changes the stylesheet URI. */
  lemma {:induction false} ToggleMatters(o: Options, t: Toggle)
    ensures GenStyleSheet(WithFlag(o, t, false)) != GenStyleSheet(WithFlag(o, t, true))
  {
    RuleSeparates(WithFlag(o, t, false), WithFlag(o, t, true), ItemOf(t));
  }

  /** Setting show-all-bookmarks to 1 or 2 gives a stylesheet different from
      the one any other value gives. */
  lemma {:induction false} ShowAllMatters(o: Options, v1: int, v2: int)
    requires v1 != v2 && (v1 == 1 || v1 == 2)
    ensures GenStyleSheet(o.(showAllBookmarks := v1)) != GenStyleSheet(o.(showAllBookmarks := v2))
  {
    var r := if v1 == 2 then ShowAllItem else ShowAllAccelerator;
    RuleSeparates(o.(showAllBookmarks := v1), o.(showAllBookmarks := v2), r);
  }

  /** All values of show-all-bookmarks other than 1 and 2 give the same
      stylesheet. */
  lemma {:induction false} ShowAllOtherValuesAlike(o: Options, v1: int, v2: int)
    requires v1 != 1 && v1 != 2 && v2 != 1 && v2 != 2
    ensures GenStyleSheet(o.(showAllBookmarks := v1)) == GenStyleSheet(o.(showAllBookmarks := v2))
  {
    SameEnabledSameRules(o.(showAllBookmarks := v1), o.(showAllBookmarks := v2));
    RulesDetermineSheet(o.(showAllBookmarks := v1), o.(showAllBookmarks := v2));
  }

  /** Two option sets get the same stylesheet exactly when they enable the
      same rules. */
  lemma {:induction false} SameSheetIff(o1: Options, o2: Options)
    ensures GenStyleSheet(o1) == GenStyleSheet(o2) <==> forall r :: Enabled(r, o1) <==> Enabled(r, o2)
  {
    if forall r :: Enabled(r, o1) <==> Enabled(r, o2) {
      SameEnabledSameRules(o1, o2);
      RulesDetermineSheet(o1, o2);
    } else {
      var r :| Enabled(r, o1) != Enabled(r, o2);
      if Enabled(r, o1) {
        RuleSeparates(o1, o2, r);
      } else {
        RuleSeparates(o2, o1, r);
      }
    }
  }

  lemma {:induction false} HeadIsMember(s: seq<Rule>)
    requires s != []
    ensures s[0] in s
  {
  }

  /** A sequence without members is empty. */
  lemma {:induction false} NoMembersEmpty(s: seq<Rule>)
    requires forall r :: r !in s
    ensures s == []
  {
    if s != [] {
      HeadIsMember(s);
      assert false;
    }
  }

  /** The tail of a list in table order is in table order, and holds every
      member but the head. */
  lemma {:induction false} OrderedTail(a: seq<Rule>)
    requires a != [] && InTableOrder(a)
    ensures InTableOrder(a[1..])
    ensures forall r :: r in a[1..] <==> r in a && r != a[0]
  {
    var t := a[1..];
    forall p, q | 0 <= p < q < |t| ensures Position(t[p]) < Position(t[q]) {
      assert t[p] == a[p + 1] && t[q] == a[q + 1];
    }
    forall r | r in a && r != a[0] ensures r in t {
      var k :| 0 <= k < |a| && a[k] == r;
      assert t[k - 1] == r;
    }
    forall r | r in t ensures r in a && r != a[0] {
      var k :| 0 <= k < |t| && t[k] == r;
      assert a[k + 1] == r;
    }
  }

  /** Two rule lists in table order with the same members are equal. */
  lemma {:induction false} OrderedSameMembers(a: seq<Rule>, b: seq<Rule>)
    requires InTableOrder(a) && InTableOrder(b)
    requires forall r :: r in a <==> r in b
    ensures a == b
    decreases |a|
  {
    if a == [] {
      NoMembersEmpty(b);
    } else if b == [] {
      NoMembersEmpty(a);
    } else {
      HeadIsMember(a);
      HeadIsMember(b);
      var i :| 0 <= i < |a| && a[i] == b[0];
      var j :| 0 <= j < |b| && b[j] == a[0];
      assert Position(a[0]) <= Position(a[i]) && Position(b[0]) <= Position(b[j]);
      assert RuleTable[Position(a[0])] == a[0] && RuleTable[Position(b[0])] == b[0];
      OrderedTail(a);
      OrderedTail(b);
      OrderedSameMembers(a[1..], b[1..]);
      assert a == [a[0]] + a[1..] && b == [b[0]] + b[1..];
    }
  }

  /** Option sets that enable the same rules emit the same rule list. */
  lemma {:induction false} SameEnabledSameRules(o1: Options, o2: Options)
    requires forall r :: Enabled(r, o1) <==> Enabled(r, o2)
    ensures Rules(o1) == Rules(o2)
  {
    EmittedInOrder(o1);
    EmittedInOrder(o2);
    forall r ensures r in Rules(o1) <==> r in Rules(o2) {
      EmittedIff(o1, r);
      EmittedIff(o2, r);
    }
    OrderedSameMembers(Rules(o1), Rules(o2));
  }

  /** The URI is the `data:` prefix followed by an encoding that decodes to
      the CSS text, which starts with the namespace and document header and
      ends with the closing brace. */
  lemma {:induction false} StyleSheetFrame(o: Options)
    ensures var uri := GenStyleSheet(o);
      && uri[..|DataUriPrefix|] == DataUriPrefix
      && DecodeUriComponent(uri[|DataUriPrefix|..]) == Some(Source(o))
    ensures var src := Source(o);
      && |Preamble| + |StylesheetFooter| <= |src|
      && src[..|Preamble|] == Preamble
      && src[|src| - |StylesheetFooter|..] == StylesheetFooter
  {
    var uri := GenStyleSheet(o);
    assert uri[|DataUriPrefix|..] == EncodeUriComponent(Source(o));
    DecodeEncode(Source(o));
    var body := Lines(Rules(o));
    assert Source(o) == Preamble + (body + StylesheetFooter);
  }

  /** Two option sets give the same URI only if they give the same CSS text:
      the encoding step loses nothing. */
  lemma {:induction false} GenStyleSheetFaithful(o1: Options, o2: Options)
    requires GenStyleSheet(o1) == GenStyleSheet(o2)
    ensures Source(o1) == Source(o2)
  {
    StyleSheetFrame(o1);
    StyleSheetFrame(o2);
  }

  // ---------------------------------------------------------------------
  // The CSS text can be read back line by line, so the rule list is
  // recoverable from it, and from the URI.

  /** A text without a line break. */
  predicate OneLine(s: string) {
    '\n' !in s
  }

  lemma {:induction false} PanelSelectorsOneLine()
    ensures OneLine(BookmarkThisPagePanel) && OneLine(SidebarMenu) && OneLine(SidebarPanel) && OneLine(ToolbarPanel)
  {
  }

  lemma {:induction false} SubscribeSelectorsOneLine()
    ensures OneLine(SubscribeMenuItem) && OneLine(SubscribeMenuPopup) && OneLine(BookmarksToolbarMenu) && OneLine(BookmarksToolbarPanel)
  {
  }

  lemma {:induction false} UnsortedSelectorsOneLine()
    ensures OneLine(UnsortedMenu) && OneLine(UnsortedPanel) && OneLine(ShowAllMenu) && OneLine(ShowAllPanel)
  {
  }

  lemma {:induction false} CombinatorsOneLine()
    ensures OneLine(DisplayNone) && OneLine(ToolbarSeparatorAfter) && OneLine(MenuSeparatorAfter) && OneLine(AccelContainer)
  {
  }

  lemma {:induction false} PaddingOneLine()
    ensures OneLine(PanelContent) && OneLine(PaddingBottom)
  {
  }

  lemma {:induction false} CenteringOneLine()
    ensures OneLine(CenterText)
  {
  }

  /** No rule's text contains a line break: every rule is one line. */
  lemma {:induction false} TextIsOneLine(r: Rule)
    ensures OneLine(Text(r))
  {
    PanelSelectorsOneLine();
    SubscribeSelectorsOneLine();
    UnsortedSelectorsOneLine();
    CombinatorsOneLine();
    PaddingOneLine();
    CenteringOneLine();
  }

  /** The length of each rule's text. */
  function TextLength(r: Rule): nat {
    match r
    case BookmarkThisPageItem => 54
    case BookmarkThisPageSeparator => 73
    case SidebarMenuItem => 53
    case SidebarMenuSeparator => 69
    case SidebarPanelItem => 59
    case ToolbarPanelItem => 59
    case ToolbarPanelSeparator => 78
    case SubscribeItem => 87
    case SubscribeSeparator => 114
    case BookmarksToolbarItem => 78
    case UnsortedBookmarksItem => 80
    case UnsortedMenuSeparator => 66
    case UnsortedPanelSeparator => 75
    case ShowAllItem => 78
    case PanelPadding => 97
    case ShowAllAccelerator => 71
    case ShowAllCentering => 81
  }

  lemma {:induction false} TextLengthOf(r: Rule)
    ensures |Text(r)| == TextLength(r)
  {
  }

  /** Different rules have different texts: most differ in length, and the
      rest at one character of their selectors. */
  lemma {:induction false} TextInjective(r1: Rule, r2: Rule)
    requires Text(r1) == Text(r2)
    ensures r1 == r2
  {
    TextLengthOf(r1);
    TextLengthOf(r2);
    if TextLength(r1) == 59 {
      assert Text(SidebarPanelItem)[24] != Text(ToolbarPanelItem)[24];
    } else if TextLength(r1) == 78 {
      assert Text(ToolbarPanelSeparator)[1] != Text(BookmarksToolbarItem)[1];
      assert Text(ToolbarPanelSeparator)[1] != Text(ShowAllItem)[1];
      assert Text(BookmarksToolbarItem)[14] != Text(ShowAllItem)[14];
    }
  }

  /** The line break after a line sits just past the line's text. */
  lemma {:induction false} BreakAfter(x: string, u: string)
    ensures var s := x + "\n" + u;
      && s[|x|] == '\n'
      && s[..|x|] == x
      && s[|x| + 1..] == u
      && forall i :: 0 <= i < |x| ==> s[i] == x[i]
  {
  }

  /** Two texts that each start with a line without a break agree on that
      line and on the rest. */
  lemma {:induction false} SplitLine(x: string, u: string, y: string, v: string)
    requires '\n' !in x && '\n' !in y
    requires x + "\n" + u == y + "\n" + v
    ensures x == y && u == v
  {
    BreakAfter(x, u);
    BreakAfter(y, v);
    assert |x| == |y|;
  }

  /** The lines determine the rules they were written from. */
  lemma {:induction false} LinesInjective(a: seq<Rule>, b: seq<Rule>)
    requires Lines(a) == Lines(b)
    ensures a == b
    decreases |a|
  {
    if a != [] {
      TextIsOneLine(a[0]);
      TextIsOneLine(b[0]);
      SplitLine(Text(a[0]), Lines(a[1..]), Text(b[0]), Lines(b[1..]));
      TextInjective(a[0], b[0]);
      LinesInjective(a[1..], b[1..]);
      assert a == [a[0]] + a[1..] && b == [b[0]] + b[1..];
    }
  }

  /** The CSS text determines the emitted rules. */
  lemma {:induction false} SourceDeterminesRules(o1: Options, o2: Options)
    requires Source(o1) == Source(o2)
    ensures Rules(o1) == Rules(o2)
  {
    var l1, l2 := Lines(Rules(o1)), Lines(Rules(o2));
    var n := |Preamble|;
    var f := |StylesheetFooter|;
    assert Source(o1) == Preamble + l1 + StylesheetFooter;
    assert Source(o2) == Preamble + l2 + StylesheetFooter;
    assert l1 == Source(o1)[n..|Source(o1)| - f];
    assert l2 == Source(o2)[n..|Source(o2)| - f];
    LinesInjective(Rules(o1), Rules(o2));
  }

  /** Different rule lists give different stylesheet URIs: neither the line
      layout nor the encoding merges two outcomes of the generator. */
  lemma {:induction false} RulesDetermineSheet(o1: Options, o2: Options)
    ensures GenStyleSheet(o1) == GenStyleSheet(o2) <==> Rules(o1) == Rules(o2)
  {
    if GenStyleSheet(o1) == GenStyleSheet(o2) {
      GenStyleSheetFaithful(o1, o2);
      SourceDeterminesRules(o1, o2);
    }
  }
}
