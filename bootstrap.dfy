/** The add-on's lifecycle: seeding the default preferences, registering the
    generated stylesheet with the browser's style-sheet service, regenerating
    it when a preference changes, and withdrawing it on shutdown. */
module Bootstrap {
  import opened Wrappers
  import StyleSheet
  import opened Preferences

  /** The topic the preference service notifies observers with. */
  const PrefChangedTopic: string := "nsPref:changed"

  // ---------------------------------------------------------------------
  // The style-sheet service, as the set of registered user sheets.

  /** The registered set after loadStyle: the URI is in, nothing else moved. */
  function Loaded(registered: set<string>, uri: string): (r: set<string>)
    ensures uri in r
    ensures forall u :: u != uri ==> (u in r <==> u in registered)
  {
    registered + {uri}
  }

  /** The registered set after unloadStyle: the URI is out, nothing else
      moved. */
  function Unloaded(registered: set<string>, uri: string): (r: set<string>)
    ensures uri !in r
    ensures forall u :: u != uri ==> (u in r <==> u in registered)
  {
    registered - {uri}
  }

  /** Loading or unloading the same sheet twice is the same as once. */
  lemma {:induction false} LoadUnloadIdempotent(registered: set<string>, uri: string)
    ensures Loaded(Loaded(registered, uri), uri) == Loaded(registered, uri)
    ensures Unloaded(Unloaded(registered, uri), uri) == Unloaded(registered, uri)
  {
  }

  /** Unloading a sheet that loading added restores the set, and the other
      way round. */
  lemma {:induction false} LoadUnloadInverse(registered: set<string>, uri: string)
    ensures uri !in registered ==> Unloaded(Loaded(registered, uri), uri) == registered
    ensures uri in registered ==> Loaded(Unloaded(registered, uri), uri) == registered
  {
  }

  /** The browser's style-sheet service, reduced to its user sheets. */
  class StyleSheetService {
    var registered: set<string>

    constructor ()
      ensures registered == {}
    {
      registered := {};
    }

    predicate SheetRegistered(uri: string)
      reads this
    {
      uri in registered
    }

    method LoadAndRegisterSheet(uri: string)
      modifies this
      ensures registered == old(registered) + {uri}
    {
      registered := registered + {uri};
    }

    method UnregisterSheet(uri: string)
      modifies this
      ensures registered == old(registered) - {uri}
    {
      registered := registered - {uri};
    }
  }

  // ---------------------------------------------------------------------
  // The preference service, reduced to the add-on's branch.

  class PrefService {
    var defaults: Layer
    var user: Layer

    /** The browser starts with the values the user saved, and with whatever
        defaults an earlier run of the add-on left in this session. */
    constructor (earlier: Layer, saved: Layer)
      ensures defaults == earlier && user == saved
    {
      defaults := earlier;
      user := saved;
    }

    function Current(): Branch
      reads this
    {
      Branch(defaults, user)
    }

    /** setBoolPref on the default branch. */
    method SetDefaultBoolPref(k: Key, v: bool)
      modifies this
      ensures defaults == old(defaults)[k := BoolPref(v)] && user == old(user)
    {
      defaults := defaults[k := BoolPref(v)];
    }

    /** setIntPref on the default branch. */
    method SetDefaultIntPref(k: Key, v: int)
      modifies this
      ensures defaults == old(defaults)[k := IntPref(v)] && user == old(user)
    {
      defaults := defaults[k := IntPref(v)];
    }

    /** The user changing a preference, the event the add-on observes. */
    method SetUserPref(k: Key, v: PrefValue)
      modifies this
      ensures user == old(user)[k := v] && defaults == old(defaults)
    {
      user := user[k := v];
    }
  }

  /** What genStyleSheet yields on a branch: the `data:` URI, or `None` when
      one of its reads throws. */
  function SheetFor(b: Branch): (r: Option<string>)
    ensures r.Some? <==> ReadOptions(b).Some?
  {
    match ReadOptions(b)
    case None => None
    case Some(o) => Some(StyleSheet.GenStyleSheet(o))
  }

  /** Only the seven preferences read decide the sheet; keyboard-shortcuts
      does not. */
  lemma {:induction false} SheetIgnoresKeyboardShortcuts(b: Branch, v: PrefValue)
    ensures SheetFor(b.(user := b.user[KeyboardShortcutsKey := v])) == SheetFor(b)
    ensures SheetFor(b.(defaults := b.defaults[KeyboardShortcutsKey := v])) == SheetFor(b)
  {
    KeyboardShortcutsNeverRead(b, v);
  }

  /** With the defaults seeded, generation fails only on a user value of the
      wrong type, and otherwise yields a `data:` URI that decodes to the CSS
      text of the options read. */
  lemma {:induction false} SeededSheet(layer: Layer, user: Layer)
    ensures var r := SheetFor(Branch(Seed(layer, DefaultPrefs), user));
      && (r.Some? <==> forall k :: k in user && IsRead(k) ==> Typed(k, user[k]))
      && (r.Some? ==>
            var o := ReadOptions(Branch(Seed(layer, DefaultPrefs), user)).value;
            r.value == StyleSheet.GenStyleSheet(o))
  {
    SeededReadSucceedsIff(layer, user);
  }

  // ---------------------------------------------------------------------
  // The add-on object.

  class SimpleBookmarksMenu {
    /** The browser's preference service and style-sheet service. */
    const service: PrefService
    const sss: StyleSheetService

    /** The add-on's branch, null until init. */
    var prefs: PrefService?
    /** The URI of the sheet last generated, empty until then. */
    var stylesheet: string
    /** Whether the object is registered as an observer of its branch. */
    var observing: bool

    constructor (service: PrefService, sss: StyleSheetService)
      ensures this.service == service && this.sss == sss
      ensures prefs == null && stylesheet == "" && !observing
    {
      this.service := service;
      this.sss := sss;
      prefs := null;
      stylesheet := "";
      observing := false;
    }

    /** The current sheet is in force: observed and registered. */
    predicate Active()
      reads this, sss
    {
      observing && stylesheet in sss.registered
    }

    /** setDefaultPrefs: writes every entry of the defaults table into the
        default branch, in table order. */
    method SetDefaultPrefs()
      modifies service
      ensures service.defaults == Seed(old(service.defaults), DefaultPrefs)
      ensures service.user == old(service.user)
    {
      var i := 0;
      while i < |DefaultPrefs|
        invariant 0 <= i <= |DefaultPrefs|
        invariant service.defaults == Seed(old(service.defaults), DefaultPrefs[..i])
        invariant service.user == old(service.user)
        decreases |DefaultPrefs| - i
      {
        var (key, val) := DefaultPrefs[i];
        match val {
          case BoolPref(v) => service.SetDefaultBoolPref(key, v);
          case IntPref(v) => service.SetDefaultIntPref(key, v);
        }
        assert DefaultPrefs[..i + 1][..i] == DefaultPrefs[..i];
        i := i + 1;
      }
      assert DefaultPrefs[..i] == DefaultPrefs;
    }

    /** loadStyle: registers the sheet unless it already is. */
    method LoadStyle(uri: string)
      modifies sss
      ensures sss.registered == Loaded(old(sss.registered), uri)
    {
      if !sss.SheetRegistered(uri) {
        sss.LoadAndRegisterSheet(uri);
      }
    }

    /** unloadStyle: unregisters the sheet if it is registered. */
    method UnloadStyle(uri: string)
      modifies sss
      ensures sss.registered == Unloaded(old(sss.registered), uri)
    {
      if sss.SheetRegistered(uri) {
        sss.UnregisterSheet(uri);
      }
    }

    /** genStyleSheet: reads the branch and builds the sheet; `None` when a
        read throws. */
    method GenStyleSheet() returns (r: Option<string>)
      requires prefs != null
      ensures r == SheetFor(prefs.Current())
    {
      r := SheetFor(prefs.Current());
    }

    /** init: seeds the defaults, takes the branch, starts observing it, and
        registers the generated sheet; `ok` is false when generation threw,
        which leaves the sheet field and the registered set as they were. */
    method Init() returns (ok: bool)
      modifies this, service, sss
      ensures prefs == service && observing
      ensures service.defaults == Seed(old(service.defaults), DefaultPrefs)
      ensures service.user == old(service.user)
      ensures ok <==> SheetFor(service.Current()).Some?
      ensures ok ==> stylesheet == SheetFor(service.Current()).value
      ensures ok ==> sss.registered == Loaded(old(sss.registered), stylesheet) && Active()
      ensures !ok ==> stylesheet == old(stylesheet) && sss.registered == old(sss.registered)
    {
      SetDefaultPrefs();
      prefs := service;
      observing := true;
      var sheet := GenStyleSheet();
      ok := sheet.Some?;
      if ok {
        stylesheet := sheet.value;
        LoadStyle(stylesheet);
      }
    }

    /** observe: on a preference change, swaps the registered sheet for a
        freshly generated one; any other topic is ignored. When generation
        throws, the old sheet is already unregistered and the field keeps its
        old value. */
    method Observe(topic: string) returns (ok: bool)
      requires prefs != null
      modifies this, sss
      ensures prefs == old(prefs) && observing == old(observing)
      ensures topic != PrefChangedTopic ==>
        ok && stylesheet == old(stylesheet) && sss.registered == old(sss.registered)
      ensures topic == PrefChangedTopic ==>
        && (ok <==> SheetFor(prefs.Current()).Some?)
        && (ok ==> stylesheet == SheetFor(prefs.Current()).value)
        && (ok ==> sss.registered == Loaded(Unloaded(old(sss.registered), old(stylesheet)), stylesheet))
        && (!ok ==> stylesheet == old(stylesheet) && sss.registered == Unloaded(old(sss.registered), old(stylesheet)))
      ensures topic == PrefChangedTopic && ok && observing ==> Active()
    {
      if topic != PrefChangedTopic {
        return true;
      }
      UnloadStyle(stylesheet);
      var sheet := GenStyleSheet();
      ok := sheet.Some?;
      if ok {
        stylesheet := sheet.value;
        LoadStyle(stylesheet);
      }
    }

    /** uninit: unregisters the current sheet and stops observing. */
    method Uninit()
      requires prefs != null
      modifies this, sss
      ensures prefs == old(prefs) && stylesheet == old(stylesheet) && !observing
      ensures sss.registered == Unloaded(old(sss.registered), stylesheet)
      ensures !Active() && stylesheet !in sss.registered
    {
      UnloadStyle(stylesheet);
      observing := false;
    }
  }

  // ---------------------------------------------------------------------
  // The bootstrap entry points.

  /** Why the browser starts or stops the add-on. */
  datatype Reason =
    | AppStartup | AppShutdown
    | AddonEnable | AddonDisable
    | AddonInstall | AddonUninstall
    | AddonUpgrade | AddonDowngrade

  /** startup: init, whatever the reason. */
  method Startup(menu: SimpleBookmarksMenu, reason: Reason) returns (ok: bool)
    modifies menu, menu.service, menu.sss
    ensures menu.prefs == menu.service && menu.observing
    ensures menu.service.defaults == Seed(old(menu.service.defaults), DefaultPrefs)
    ensures menu.service.user == old(menu.service.user)
    ensures ok <==> SheetFor(menu.service.Current()).Some?
    ensures ok ==> menu.stylesheet == SheetFor(menu.service.Current()).value && menu.Active()
    ensures ok ==> menu.sss.registered == Loaded(old(menu.sss.registered), menu.stylesheet)
    ensures !ok ==> menu.stylesheet == old(menu.stylesheet) && menu.sss.registered == old(menu.sss.registered)
  {
    ok := menu.Init();
  }

  /** shutdown: nothing when the whole browser is closing; otherwise uninit. */
  method Shutdown(menu: SimpleBookmarksMenu, reason: Reason)
    requires reason != AppShutdown ==> menu.prefs != null
    modifies menu, menu.sss
    ensures menu.prefs == old(menu.prefs) && menu.stylesheet == old(menu.stylesheet)
    ensures reason == AppShutdown ==>
      menu.observing == old(menu.observing) && menu.sss.registered == old(menu.sss.registered)
    ensures reason != AppShutdown ==>
      && !menu.observing
      && menu.sss.registered == Unloaded(old(menu.sss.registered), menu.stylesheet)
  {
    if reason == AppShutdown {
      return;
    }
    menu.Uninit();
  }

  // ---------------------------------------------------------------------
  // Whole sessions.

  /** The add-on enabled on a browser with no sheets and then disabled: while
      it runs exactly its own sheet is registered, and afterwards none is. */
  method EnableThenDisable(earlier: Layer, saved: Layer)
    returns (ok: bool, whileOn: set<string>, afterOff: set<string>)
    ensures ok <==> forall k :: k in saved && IsRead(k) ==> Typed(k, saved[k])
    ensures whileOn ==
      match SheetFor(Branch(Seed(earlier, DefaultPrefs), saved))
      case Some(sheet) => {sheet}
      case None => {}
    ensures afterOff == {}
  {
    var service := new PrefService(earlier, saved);
    var sss := new StyleSheetService();
    var menu := new SimpleBookmarksMenu(service, sss);
    ok := Startup(menu, AddonEnable);
    SeededSheet(earlier, saved);
    whileOn := sss.registered;
    Shutdown(menu, AddonDisable);
    afterOff := sss.registered;
  }

  /** The user changing one preference of a running add-on: the branch
      notifies the add-on, which swaps its sheet for one generated from the
      new values. A change of keyboard-shortcuts leaves the sheet as it was. */
  method UserChangesPref(menu: SimpleBookmarksMenu, k: Key, v: PrefValue) returns (ok: bool)
    requires menu.prefs == menu.service
    modifies menu, menu.service, menu.sss
    ensures menu.service.user == old(menu.service.user)[k := v]
    ensures menu.service.defaults == old(menu.service.defaults)
    ensures menu.prefs == old(menu.prefs) && menu.observing == old(menu.observing)
    ensures ok <==> SheetFor(menu.service.Current()).Some?
    ensures ok ==> menu.stylesheet == SheetFor(menu.service.Current()).value
    ensures ok ==>
      menu.sss.registered == Loaded(Unloaded(old(menu.sss.registered), old(menu.stylesheet)), menu.stylesheet)
    ensures !ok ==> menu.sss.registered == Unloaded(old(menu.sss.registered), old(menu.stylesheet))
    ensures ok && menu.observing ==> menu.Active()
    ensures k == KeyboardShortcutsKey ==>
      SheetFor(menu.service.Current()) == SheetFor(old(menu.service.Current()))
  {
    ghost var before := menu.service.Current();
    menu.service.SetUserPref(k, v);
    ok := menu.Observe(PrefChangedTopic);
    if k == KeyboardShortcutsKey {
      SheetIgnoresKeyboardShortcuts(before, v);
    }
  }

  /** The add-on started with the browser, then the browser closing: the
      sheet stays registered, since the whole process is going away. */
  method StartThenQuit(earlier: Layer, saved: Layer)
    returns (ok: bool, afterQuit: set<string>)
    ensures ok <==> SheetFor(Branch(Seed(earlier, DefaultPrefs), saved)).Some?
    ensures afterQuit ==
      match SheetFor(Branch(Seed(earlier, DefaultPrefs), saved))
      case Some(sheet) => {sheet}
      case None => {}
  {
    var service := new PrefService(earlier, saved);
    var sss := new StyleSheetService();
    var menu := new SimpleBookmarksMenu(service, sss);
    ok := Startup(menu, AppStartup);
    Shutdown(menu, AppShutdown);
    afterQuit := sss.registered;
  }
}
