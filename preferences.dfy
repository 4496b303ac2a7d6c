/** The add-on's preferences: the table of defaults, the two layers of a
    preference branch (defaults seeded by the add-on, values the user set),
    and the typed reads through which the stylesheet generator sees them. */
module Preferences {
  import opened Wrappers
  import opened StyleSheet

  /** The eight preferences under the add-on's branch. */
  datatype Key =
    | BookmarkThisPageKey | ViewBookmarksSidebarKey | ViewBookmarksToolbarKey
    | SubscribeToThisPageKey | BookmarksToolbarKey | UnsortedBookmarksKey
    | ShowAllBookmarksKey | KeyboardShortcutsKey

  /** The name of a preference under the add-on's branch. */
  function Name(k: Key): string {
    match k
    case BookmarkThisPageKey => "bookmark-this-page"
    case ViewBookmarksSidebarKey => "view-bookmarks-sidebar"
    case ViewBookmarksToolbarKey => "view-bookmarks-toolbar"
    case SubscribeToThisPageKey => "subscribe-to-this-page"
    case BookmarksToolbarKey => "bookmarks-toolbar"
    case UnsortedBookmarksKey => "unsorted-bookmarks"
    case ShowAllBookmarksKey => "show-all-bookmarks"
    case KeyboardShortcutsKey => "keyboard-shortcuts"
  }

  /** A stored preference value; the add-on only has boolean and integer
      preferences. */
  datatype PrefValue = BoolPref(b: bool) | IntPref(i: int)

  type Layer = map<Key, PrefValue>

  /** The defaults, in the order they are declared. */
  const DefaultPrefs: seq<(Key, PrefValue)> := [
    (BookmarkThisPageKey, BoolPref(true)),
    (ViewBookmarksSidebarKey, BoolPref(false)),
    (ViewBookmarksToolbarKey, BoolPref(false)),
    (SubscribeToThisPageKey, BoolPref(false)),
    (BookmarksToolbarKey, BoolPref(false)),
    (UnsortedBookmarksKey, BoolPref(false)),
    (ShowAllBookmarksKey, IntPref(1)),
    (KeyboardShortcutsKey, BoolPref(false))]

  function KeysOf(es: seq<(Key, PrefValue)>): set<Key> {
    set e | e in es :: e.0
  }

  /** No key is listed twice. */
  predicate UniqueKeys(es: seq<(Key, PrefValue)>) {
    forall i, j :: 0 <= i < j < |es| ==> es[i].0 != es[j].0
  }

  /** The layer after writing the entries into it one after the other. */
  function Seed(layer: Layer, es: seq<(Key, PrefValue)>): (r: Layer)
    ensures r.Keys == layer.Keys + KeysOf(es)
    ensures forall k :: k in layer && k !in KeysOf(es) ==> r[k] == layer[k]
    decreases |es|, layer  // naming layer keeps the verifier from unfolding the whole table
  {
    if es == [] then layer
    else
      var last := es[|es| - 1];
      assert es == es[..|es| - 1] + [last];
      Seed(layer, es[..|es| - 1])[last.0 := last.1]
  }

  /** A preference branch: the default layer and the user layer. */
  datatype Branch = Branch(defaults: Layer, user: Layer)

  /** The value a read sees: the user's, else the default, else none. */
  function Effective(b: Branch, k: Key): (r: Option<PrefValue>)
    ensures k in b.user ==> r == Some(b.user[k])
    ensures k !in b.user && k in b.defaults ==> r == Some(b.defaults[k])
    ensures r == None <==> k !in b.user && k !in b.defaults
  {
    if k in b.user then Some(b.user[k])
    else if k in b.defaults then Some(b.defaults[k])
    else None
  }

  /** getBoolPref: fails when the preference is missing or not a boolean. */
  function GetBoolPref(b: Branch, k: Key): (r: Option<bool>)
    ensures r.Some? <==> Effective(b, k).Some? && Effective(b, k).value.BoolPref?
    ensures r.Some? ==> Effective(b, k) == Some(BoolPref(r.value))
  {
    match Effective(b, k)
    case Some(BoolPref(v)) => Some(v)
    case _ => None
  }

  /** getIntPref: fails when the preference is missing or not an integer. */
  function GetIntPref(b: Branch, k: Key): (r: Option<int>)
    ensures r.Some? <==> Effective(b, k).Some? && Effective(b, k).value.IntPref?
    ensures r.Some? ==> Effective(b, k) == Some(IntPref(r.value))
  {
    match Effective(b, k)
    case Some(IntPref(v)) => Some(v)
    case _ => None
  }

  /** The seven reads the stylesheet generator makes; the first failing read
      aborts it. A successful read returns, for each option, the value the
      branch holds for its preference. */
  function ReadOptions(b: Branch): (r: Option<Options>)
    ensures r.Some? ==>
      && Effective(b, BookmarkThisPageKey) == Some(BoolPref(r.value.bookmarkThisPage))
      && Effective(b, ViewBookmarksSidebarKey) == Some(BoolPref(r.value.viewBookmarksSidebar))
      && Effective(b, ViewBookmarksToolbarKey) == Some(BoolPref(r.value.viewBookmarksToolbar))
      && Effective(b, SubscribeToThisPageKey) == Some(BoolPref(r.value.subscribeToThisPage))
      && Effective(b, BookmarksToolbarKey) == Some(BoolPref(r.value.bookmarksToolbar))
      && Effective(b, UnsortedBookmarksKey) == Some(BoolPref(r.value.unsortedBookmarks))
      && Effective(b, ShowAllBookmarksKey) == Some(IntPref(r.value.showAllBookmarks))
  {
    var bookmarkThisPage :- GetBoolPref(b, BookmarkThisPageKey);
    var viewBookmarksSidebar :- GetBoolPref(b, ViewBookmarksSidebarKey);
    var viewBookmarksToolbar :- GetBoolPref(b, ViewBookmarksToolbarKey);
    var subscribeToThisPage :- GetBoolPref(b, SubscribeToThisPageKey);
    var bookmarksToolbar :- GetBoolPref(b, BookmarksToolbarKey);
    var unsortedBookmarks :- GetBoolPref(b, UnsortedBookmarksKey);
    var showAllBookmarks :- GetIntPref(b, ShowAllBookmarksKey);
    Some(Options(bookmarkThisPage, viewBookmarksSidebar, viewBookmarksToolbar,
                 subscribeToThisPage, bookmarksToolbar, unsortedBookmarks,
                 showAllBookmarks))
  }

  /** The type the generator reads each preference with: show-all-bookmarks
      as an integer, keyboard-shortcuts not at all, the rest as booleans. */
  predicate Typed(k: Key, v: PrefValue) {
    match k
    case ShowAllBookmarksKey => v.IntPref?
    case KeyboardShortcutsKey => true
    case _ => v.BoolPref?
  }

  /** Every preference the generator reads, other than keyboard-shortcuts. */
  predicate IsRead(k: Key) {
    k != KeyboardShortcutsKey
  }

  // ---------------------------------------------------------------------
  // Properties

  lemma {:induction false} DefaultPrefsUnique()
    ensures UniqueKeys(DefaultPrefs)
    ensures forall i :: 0 <= i < |DefaultPrefs| ==> Typed(DefaultPrefs[i].0, DefaultPrefs[i].1)
  {
  }

  /** Distinct keys name distinct preferences, so a layer keyed by `Key` is
      a layer keyed by preference name. */
  lemma {:induction false} NameInjective(k1: Key, k2: Key)
    requires Name(k1) == Name(k2)
    ensures k1 == k2
  {
    assert Name(k1)[0] == Name(k2)[0];
    assert Name(ViewBookmarksSidebarKey)[15] != Name(ViewBookmarksToolbarKey)[15];
  }

  /** A value the user set hides the default: rewriting the default layer
      never changes what a read of that preference sees. */
  lemma {:induction false} UserValueHidesDefault(b: Branch, defaults: Layer, k: Key)
    requires k in b.user
    ensures Effective(b.(defaults := defaults), k) == Effective(b, k) == Some(b.user[k])
  {
  }

  /** After seeding, a key listed once holds the value listed for it. */
  lemma {:induction false} SeedLookup(layer: Layer, es: seq<(Key, PrefValue)>, i: nat)
    requires UniqueKeys(es) && i < |es|
    ensures Seed(layer, es)[es[i].0] == es[i].1
    decreases |es|
  {
    var n := |es| - 1;
    if i < n {
      var init := es[..n];
      assert UniqueKeys(init) by {
        forall p, q | 0 <= p < q < |init| ensures init[p].0 != init[q].0 {
          assert init[p] == es[p] && init[q] == es[q];
        }
      }
      assert init[i] == es[i];
      SeedLookup(layer, init, i);
      assert es[i].0 != es[n].0;
    }
  }

  /** The table has an entry for every key. */
  lemma {:induction false} DefaultPrefsComplete(k: Key)
    ensures k in KeysOf(DefaultPrefs)
  {
    var i := match k
      case BookmarkThisPageKey => 0
      case ViewBookmarksSidebarKey => 1
      case ViewBookmarksToolbarKey => 2
      case SubscribeToThisPageKey => 3
      case BookmarksToolbarKey => 4
      case UnsortedBookmarksKey => 5
      case ShowAllBookmarksKey => 6
      case KeyboardShortcutsKey => 7;
    assert DefaultPrefs[i].0 == k;
    assert DefaultPrefs[i] in DefaultPrefs;
  }

  /** Seeding writes the default of every key, whatever the layer held. */
  lemma {:induction false} SeededDefaults(layer: Layer)
    ensures forall k: Key :: k in Seed(layer, DefaultPrefs)
    ensures var d := Seed(layer, DefaultPrefs);
      && d[BookmarkThisPageKey] == BoolPref(true)
      && d[ViewBookmarksSidebarKey] == BoolPref(false)
      && d[ViewBookmarksToolbarKey] == BoolPref(false)
      && d[SubscribeToThisPageKey] == BoolPref(false)
      && d[BookmarksToolbarKey] == BoolPref(false)
      && d[UnsortedBookmarksKey] == BoolPref(false)
      && d[ShowAllBookmarksKey] == IntPref(1)
      && d[KeyboardShortcutsKey] == BoolPref(false)
  {
    forall k: Key ensures k in Seed(layer, DefaultPrefs) {
      DefaultPrefsComplete(k);
    }
    DefaultPrefsUnique();
    var es := DefaultPrefs;
    SeedLookup(layer, es, 0);
    SeedLookup(layer, es, 1);
    SeedLookup(layer, es, 2);
    SeedLookup(layer, es, 3);
    SeedLookup(layer, es, 4);
    SeedLookup(layer, es, 5);
    SeedLookup(layer, es, 6);
    SeedLookup(layer, es, 7);
  }

  /** The reads succeed exactly when every preference read has a value of
      the type it is read with. */
  lemma {:induction false} ReadSucceedsIff(b: Branch)
    ensures ReadOptions(b).Some? <==>
      forall k :: IsRead(k) ==> Effective(b, k).Some? && Typed(k, Effective(b, k).value)
  {
    if ReadOptions(b).Some? {
      forall k | IsRead(k) ensures Effective(b, k).Some? && Typed(k, Effective(b, k).value) {
        match k
        case ShowAllBookmarksKey =>
        case _ =>
      }
    } else {
      var ks := [BookmarkThisPageKey, ViewBookmarksSidebarKey, ViewBookmarksToolbarKey,
                 SubscribeToThisPageKey, BookmarksToolbarKey, UnsortedBookmarksKey,
                 ShowAllBookmarksKey];
      var k :| k in ks && !(Effective(b, k).Some? && Typed(k, Effective(b, k).value));
      assert IsRead(k);
    }
  }

  /** Once the defaults are seeded, the reads fail only because of a user
      value of the wrong type. */
  lemma {:induction false} SeededReadSucceedsIff(layer: Layer, user: Layer)
    ensures ReadOptions(Branch(Seed(layer, DefaultPrefs), user)).Some? <==>
      forall k :: k in user && IsRead(k) ==> Typed(k, user[k])
  {
    var b := Branch(Seed(layer, DefaultPrefs), user);
    ReadSucceedsIff(b);
    forall k | IsRead(k)
      ensures Effective(b, k).Some?
      ensures Typed(k, Effective(b, k).value) <==> (k in user ==> Typed(k, user[k]))
    {
      SeededDefaultTyped(layer, k);
    }
  }

  /** Every seeded default has the type its preference is read with. */
  lemma {:induction false} SeededDefaultTyped(layer: Layer, k: Key)
    ensures k in Seed(layer, DefaultPrefs) && Typed(k, Seed(layer, DefaultPrefs)[k])
  {
    SeededDefaults(layer);
  }

  /** With the defaults seeded, every option is the user's value when the
      user set one and the default otherwise. */
  lemma {:induction false} SeededReadValues(layer: Layer, user: Layer)
    requires forall k :: k in user && IsRead(k) ==> Typed(k, user[k])
    ensures var r := ReadOptions(Branch(Seed(layer, DefaultPrefs), user));
      && r.Some?
      && r.value.bookmarkThisPage ==
           (if BookmarkThisPageKey in user then user[BookmarkThisPageKey].b else true)
      && r.value.viewBookmarksSidebar ==
           (if ViewBookmarksSidebarKey in user then user[ViewBookmarksSidebarKey].b else false)
      && r.value.viewBookmarksToolbar ==
           (if ViewBookmarksToolbarKey in user then user[ViewBookmarksToolbarKey].b else false)
      && r.value.subscribeToThisPage ==
           (if SubscribeToThisPageKey in user then user[SubscribeToThisPageKey].b else false)
      && r.value.bookmarksToolbar ==
           (if BookmarksToolbarKey in user then user[BookmarksToolbarKey].b else false)
      && r.value.unsortedBookmarks ==
           (if UnsortedBookmarksKey in user then user[UnsortedBookmarksKey].b else false)
      && r.value.showAllBookmarks ==
           (if ShowAllBookmarksKey in user then user[ShowAllBookmarksKey].i else 1)
  {
    SeededReadSucceedsIff(layer, user);
    SeededDefaults(layer);
  }

  /** With the defaults seeded and nothing set by the user, the options are
      the declared defaults. */
  lemma {:induction false} PristineOptions(layer: Layer)
    ensures ReadOptions(Branch(Seed(layer, DefaultPrefs), map[])) ==
      Some(Options(true, false, false, false, false, false, 1))
  {
    SeededReadValues(layer, map[]);
  }

  /** The reads see nothing but the effective values of the seven keys they
      name. */
  lemma {:induction false} ReadDependsOnlyOnReadKeys(b1: Branch, b2: Branch)
    requires forall k :: IsRead(k) ==> Effective(b1, k) == Effective(b2, k)
    ensures ReadOptions(b1) == ReadOptions(b2)
  {
    assert Effective(b1, BookmarkThisPageKey) == Effective(b2, BookmarkThisPageKey);
    assert Effective(b1, ViewBookmarksSidebarKey) == Effective(b2, ViewBookmarksSidebarKey);
    assert Effective(b1, ViewBookmarksToolbarKey) == Effective(b2, ViewBookmarksToolbarKey);
    assert Effective(b1, SubscribeToThisPageKey) == Effective(b2, SubscribeToThisPageKey);
    assert Effective(b1, BookmarksToolbarKey) == Effective(b2, BookmarksToolbarKey);
    assert Effective(b1, UnsortedBookmarksKey) == Effective(b2, UnsortedBookmarksKey);
    assert Effective(b1, ShowAllBookmarksKey) == Effective(b2, ShowAllBookmarksKey);
  }

  /** keyboard-shortcuts is seeded but never read: no value of it, in either
      layer or missing, changes what the generator sees. */
  lemma {:induction false} KeyboardShortcutsNeverRead(b: Branch, v: PrefValue)
    ensures ReadOptions(b.(user := b.user[KeyboardShortcutsKey := v])) == ReadOptions(b)
    ensures ReadOptions(b.(defaults := b.defaults[KeyboardShortcutsKey := v])) == ReadOptions(b)
    ensures ReadOptions(b.(user := b.user - {KeyboardShortcutsKey})) == ReadOptions(b)
    ensures ReadOptions(b.(defaults := b.defaults - {KeyboardShortcutsKey})) == ReadOptions(b)
  {
    ReadDependsOnlyOnReadKeys(b.(user := b.user[KeyboardShortcutsKey := v]), b);
    ReadDependsOnlyOnReadKeys(b.(defaults := b.defaults[KeyboardShortcutsKey := v]), b);
    ReadDependsOnlyOnReadKeys(b.(user := b.user - {KeyboardShortcutsKey}), b);
    ReadDependsOnlyOnReadKeys(b.(defaults := b.defaults - {KeyboardShortcutsKey}), b);
  }

  /** The worked example: with bookmark-this-page off and show-all-bookmarks
      at 2 (everything else at its default), the sheet hides the
      bookmark-this-page item and its separator and the show-all item, pads
      the panel, and does not centre the show-all item. */
  lemma {:induction false} ExampleScenario(layer: Layer)
    ensures var user := map[BookmarkThisPageKey := BoolPref(false), ShowAllBookmarksKey := IntPref(2)];
      var r := ReadOptions(Branch(Seed(layer, DefaultPrefs), user));
      && r.Some?
      && BookmarkThisPageItem in Rules(r.value)
      && BookmarkThisPageSeparator in Rules(r.value)
      && ShowAllItem in Rules(r.value)
      && PanelPadding in Rules(r.value)
      && ShowAllCentering !in Rules(r.value)
      && ShowAllAccelerator !in Rules(r.value)
  {
    var user := map[BookmarkThisPageKey := BoolPref(false), ShowAllBookmarksKey := IntPref(2)];
    SeededReadValues(layer, user);
    var o := ReadOptions(Branch(Seed(layer, DefaultPrefs), user)).value;
    assert !o.bookmarkThisPage && o.showAllBookmarks == 2;
    ExampleRules(o);
  }

  lemma {:induction false} ExampleRules(o: Options)
    requires !o.bookmarkThisPage && o.showAllBookmarks == 2
    ensures && BookmarkThisPageItem in Rules(o)
            && BookmarkThisPageSeparator in Rules(o)
            && ShowAllItem in Rules(o)
            && PanelPadding in Rules(o)
            && ShowAllCentering !in Rules(o)
            && ShowAllAccelerator !in Rules(o)
  {
    UpperBlocks(o);
    ShowAllBranches(o);
  }
}
