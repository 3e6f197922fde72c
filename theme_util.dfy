/**
 * The theme-preference synchroniser of the site's client script.
 *
 * The browser environment it touches is one persisted key-value store
 * (`localStorage`), the platform's "prefers dark colour scheme" flag, the
 * `data-theme` attribute of the document root, and the `checked` flags of the
 * theme toggle checkboxes on the current page.
 *
 * `Page` is a value snapshot of that environment; the functions over it
 * (`AfterSync`, `AfterSetPreference`, `AfterToggle`, `AfterSystemChange`)
 * specify what each operation does, and the class `ThemeEnv` holds the same
 * state as mutable fields and is proved to update it exactly as specified.
 */
module ThemeUtil {

  datatype Option<T> = None | Some(value: T)

  /** The key under which the preference is persisted. */
  const StorageKey: string := "theme-preference"

  const Light: string := "light"
  const Dark: string := "dark"

  predicate IsTheme(s: string) {
    s == Light || s == Dark
  }

  // ---------------------------------------------------------------------------
  // Storage
  // ---------------------------------------------------------------------------

  /** `localStorage.getItem`: the stored string, or nothing (null) when absent. */
  function GetItem(storage: map<string, string>, key: string): (item: Option<string>)
    ensures item.Some? <==> key in storage
    ensures item.Some? ==> item.value == storage[key]
  {
    if key in storage then Some(storage[key]) else None
  }

  /**
   * A preference counts as stored when `getItem` yields a truthy string:
   * an absent key (null) and an empty string both mean "no preference".
   */
  predicate HasPreference(storage: map<string, string>) {
    match GetItem(storage, StorageKey)
    case None => false
    case Some(v) => v != ""
  }

  /** The theme the platform reports when nothing is stored. */
  function SystemTheme(systemDark: bool): (theme: string)
    ensures IsTheme(theme)
    ensures theme == Dark <==> systemDark
  {
    if systemDark then Dark else Light
  }

  // ---------------------------------------------------------------------------
  // getColorPreference
  // ---------------------------------------------------------------------------

  /**
   * The resolved preference: the stored string as it is, when one is stored,
   * otherwise the system's colour scheme.
   */
  function ColorPreference(storage: map<string, string>, systemDark: bool): (theme: string)
    ensures theme != ""
    ensures HasPreference(storage) ==> theme == storage[StorageKey]
    ensures !HasPreference(storage) ==> theme == SystemTheme(systemDark)
  {
    var preference := GetItem(storage, StorageKey);
    if preference.None? || preference.value == "" then SystemTheme(systemDark)
    else preference.value
  }

  /** The stored string is passed through unchecked, so the resolved
      preference is "light" or "dark" exactly when nothing is stored or what is
      stored is one of those two. */
  lemma ColorPreferenceIsTheme(storage: map<string, string>, systemDark: bool)
    ensures IsTheme(ColorPreference(storage, systemDark))
        <==> (!HasPreference(storage) || IsTheme(storage[StorageKey]))
  {
  }

  /** With a preference stored, the system flag has no influence. */
  lemma StoredPreferenceIgnoresSystem(storage: map<string, string>)
    ensures HasPreference(storage) <==> ColorPreference(storage, true) == ColorPreference(storage, false)
  {
  }

  /** The new theme `togglePreference` picks: "light" after "dark", and "dark"
      after anything else, including a stored string that is not a theme. */
  function Opposite(theme: string): (other: string)
    ensures IsTheme(other)
    ensures other != theme
    ensures other == Light <==> theme == Dark
  {
    if theme == Dark then Light else Dark
  }

  lemma OppositeInvolutive(theme: string)
    ensures Opposite(Opposite(theme)) == theme <==> IsTheme(theme)
  {
  }

  // ---------------------------------------------------------------------------
  // The environment as a value, and what each operation does to it
  // ---------------------------------------------------------------------------

  /**
   * storage: the whole local storage; systemDark: the platform flag;
   * dataTheme: the root's `data-theme` attribute ("" when the root has none);
   * toggles: the `checked` flag of every theme checkbox, in document order.
   */
  datatype Page = Page(storage: map<string, string>, systemDark: bool, dataTheme: string, toggles: seq<bool>)

  function Resolved(p: Page): (theme: string) {
    ColorPreference(p.storage, p.systemDark)
  }

  /** The consistency the synchroniser maintains: the root attribute is the
      resolved preference and every checkbox is checked iff it is "dark". */
  predicate Synced(p: Page) {
    && p.dataTheme == Resolved(p)
    && forall i :: 0 <= i < |p.toggles| ==> p.toggles[i] == (Resolved(p) == Dark)
  }

  /** syncThemeAndToggles */
  function AfterSync(p: Page): (q: Page)
    ensures Synced(q)
    ensures Resolved(q) == Resolved(p)
    ensures q.storage == p.storage && q.systemDark == p.systemDark
    ensures |q.toggles| == |p.toggles|
  {
    var theme := Resolved(p);
    p.(dataTheme := theme, toggles := seq(|p.toggles|, _ => theme == Dark))
  }

  /** setPreference(themeName) */
  function AfterSetPreference(p: Page, themeName: string): (q: Page)
    ensures Synced(q)
    ensures StorageKey in q.storage && q.storage[StorageKey] == themeName
    ensures forall k :: k in p.storage && k != StorageKey ==> k in q.storage && q.storage[k] == p.storage[k]
    ensures q.storage.Keys == p.storage.Keys + {StorageKey}
    ensures q.systemDark == p.systemDark && |q.toggles| == |p.toggles|
    ensures themeName != "" ==> q.dataTheme == themeName
    ensures themeName != "" ==> forall i :: 0 <= i < |q.toggles| ==> q.toggles[i] == (themeName == Dark)
    ensures themeName == "" ==> q.dataTheme == SystemTheme(p.systemDark)
  {
    AfterSync(p.(storage := p.storage[StorageKey := themeName]))
  }

  /** togglePreference */
  function AfterToggle(p: Page): (q: Page)
    ensures Synced(q)
    ensures HasPreference(q.storage) && IsTheme(q.storage[StorageKey])
    ensures q.storage[StorageKey] == Light <==> Resolved(p) == Dark
    ensures forall k :: k in p.storage && k != StorageKey ==> k in q.storage && q.storage[k] == p.storage[k]
    ensures q.storage.Keys == p.storage.Keys + {StorageKey}
    ensures Resolved(q) != Resolved(p)
    ensures q.systemDark == p.systemDark && |q.toggles| == |p.toggles|
  {
    AfterSetPreference(p, Opposite(Resolved(p)))
  }

  /** The handler of the platform's colour-scheme change event. */
  function AfterSystemChange(p: Page): (q: Page)
    ensures HasPreference(p.storage) ==> q == p
    ensures !HasPreference(p.storage) ==> Synced(q) && q.dataTheme == SystemTheme(p.systemDark)
    ensures q.storage == p.storage && q.systemDark == p.systemDark && |q.toggles| == |p.toggles|
  {
    if HasPreference(p.storage) then p else AfterSync(p)
  }

  // ---------------------------------------------------------------------------
  // Properties relating several operations
  // ---------------------------------------------------------------------------

  /** Syncing only reads storage and the system flag, so a second sync
      changes nothing. */
  lemma SyncIdempotent(p: Page)
    ensures AfterSync(AfterSync(p)) == AfterSync(p)
  {
  }

  /** A page that is already in sync is a fixed point of sync. */
  lemma SyncedIsFixedPoint(p: Page)
    ensures Synced(p) <==> AfterSync(p) == p
  {
  }

  /** With no checkboxes on the page, sync only sets the root attribute. */
  lemma SyncWithoutToggles(p: Page)
    requires |p.toggles| == 0
    ensures AfterSync(p) == p.(dataTheme := Resolved(p))
  {
  }

  /** Toggling twice from a "light" or "dark" resolution comes back to it, and
      leaves it stored explicitly; when it was stored already, the whole page
      ends exactly as a plain sync would leave it. */
  lemma ToggleTwice(p: Page)
    requires IsTheme(Resolved(p))
    ensures AfterToggle(AfterToggle(p)) == AfterSetPreference(p, Resolved(p))
    ensures Resolved(AfterToggle(AfterToggle(p))) == Resolved(p)
    ensures HasPreference(p.storage) ==> AfterToggle(AfterToggle(p)) == AfterSync(p)
  {
  }

  /** A stored string other than "light" or "dark" is not restored by two
      toggles: it becomes "dark", then "light". */
  lemma ToggleTwiceFromOtherValue(p: Page)
    requires HasPreference(p.storage) && !IsTheme(p.storage[StorageKey])
    ensures Resolved(AfterToggle(p)) == Dark
    ensures Resolved(AfterToggle(AfterToggle(p))) == Light != Resolved(p)
  {
  }

  /** A change of the system flag followed by the change handler keeps a
      synced page synced, whether or not a preference is stored. */
  lemma SystemChangeKeepsSynced(p: Page, nowDark: bool)
    requires Synced(p)
    ensures Synced(AfterSystemChange(p.(systemDark := nowDark)))
  {
  }

  /** The script does not listen for writes to the same storage made by another
      tab of the same origin. Such a write leaves a synced page synced exactly
      when it does not change the resolved preference. */
  lemma ForeignWriteKeepsSyncedIff(p: Page, value: string)
    requires Synced(p)
    ensures Synced(p.(storage := p.storage[StorageKey := value]))
        <==> ColorPreference(p.storage[StorageKey := value], p.systemDark) == Resolved(p)
  {
  }

  /** Two tabs synced on "dark"; the other tab stores "light". This page is
      then out of sync, and a click here stores "dark" again, so its root
      attribute and checkboxes do not change. The next navigation re-syncs. */
  lemma ForeignWriteExample()
    ensures var p := Page(map[StorageKey := Dark], false, Dark, [true]);
            var stale := p.(storage := map[StorageKey := Light]);
            && Synced(p) && !Synced(stale)
            && AfterToggle(stale) == p
            && Synced(Step(stale, Swap([true])))
  {
  }

  /** Storing the empty string is the same as storing nothing: the page
      follows the system flag again. */
  lemma EmptyPreferenceFollowsSystem(p: Page)
    ensures !HasPreference(AfterSetPreference(p, "").storage)
    ensures Resolved(AfterSetPreference(p, "")) == SystemTheme(p.systemDark)
  {
  }

  // ---------------------------------------------------------------------------
  // Event traces: the two listeners the script installs and the click handler
  // the page templates attach, as a sequence of events
  // ---------------------------------------------------------------------------

  /**
   * Swap: client-side navigation replaced the page content, bringing
   * checkboxes in whatever state the new markup has, and the after-swap
   * listener ran sync. Click: a theme checkbox's click handler ran
   * togglePreference. SystemChange: the platform flag became `nowDark` and the
   * colour-scheme listener ran.
   */
  datatype Event = Swap(toggles: seq<bool>) | Click | SystemChange(nowDark: bool)

  function Step(p: Page, e: Event): (q: Page)
    ensures e.Swap? ==> Synced(q) && q.storage == p.storage && q.systemDark == p.systemDark
    ensures e.Swap? ==> Resolved(q) == Resolved(p) && q.toggles == seq(|e.toggles|, _ => Resolved(p) == Dark)
    ensures e.Click? ==> q == AfterToggle(p)
    ensures e.SystemChange? ==> q.storage == p.storage && q.systemDark == e.nowDark && |q.toggles| == |p.toggles|
    ensures e.SystemChange? && HasPreference(p.storage) ==> q == p.(systemDark := e.nowDark)
    ensures e.SystemChange? && !HasPreference(p.storage) ==> Synced(q) && q.dataTheme == SystemTheme(e.nowDark)
  {
    match e
    case Swap(toggles) => AfterSync(p.(toggles := toggles))
    case Click => AfterToggle(p)
    case SystemChange(nowDark) => AfterSystemChange(p.(systemDark := nowDark))
  }

  /** The page after `events`, taken one at a time from `p`. */
  function Run(p: Page, events: seq<Event>): (q: Page)
    decreases |events|
  {
    if events == [] then p else Run(Step(p, events[0]), events[1..])
  }

  /** Every single event keeps a synced page synced. */
  lemma StepKeepsSynced(p: Page, e: Event)
    requires Synced(p)
    ensures Synced(Step(p, e))
  {
  }

  /** Once the script has run its initial sync, the root attribute and every
      checkbox agree with the resolved preference after any sequence of
      navigations, clicks and system colour-scheme changes. */
  lemma {:induction false} SyncedAfterAnyEvents(initial: Page, events: seq<Event>)
    ensures Synced(Run(AfterSync(initial), events))
  {
    RunKeepsSynced(AfterSync(initial), events);
  }

  lemma {:induction false} RunKeepsSynced(p: Page, events: seq<Event>)
    requires Synced(p)
    ensures Synced(Run(p, events))
    decreases |events|
  {
    if events != [] {
      StepKeepsSynced(p, events[0]);
      RunKeepsSynced(Step(p, events[0]), events[1..]);
    }
  }

  /** Until the user clicks a toggle, nothing is stored, and the page follows
      the system colour scheme live. */
  lemma {:induction false} UnsetPreferenceTracksSystem(p: Page, events: seq<Event>)
    requires !HasPreference(p.storage)
    requires forall i :: 0 <= i < |events| ==> !events[i].Click?
    ensures !HasPreference(Run(p, events).storage)
    ensures Run(p, events).storage == p.storage
    ensures |events| > 0 ==> Run(p, events).dataTheme == SystemTheme(Run(p, events).systemDark)
    decreases |events|
  {
    if events != [] {
      var q := Step(p, events[0]);
      UnsetPreferenceTracksSystem(q, events[1..]);
    }
  }

  // ---------------------------------------------------------------------------
  // The environment as mutable state
  // ---------------------------------------------------------------------------

  class ThemeEnv {
    var storage: map<string, string>
    var systemDark: bool
    var dataTheme: string
    var toggles: array<bool>

    /** The page as it is found on load, before the script first runs; the
        markup may or may not carry a `data-theme` attribute already ("" for
        none). */
    constructor (storage: map<string, string>, systemDark: bool, dataTheme: string, toggles: array<bool>)
      ensures this.storage == storage && this.systemDark == systemDark
      ensures this.dataTheme == dataTheme && this.toggles == toggles
    {
      this.storage := storage;
      this.systemDark := systemDark;
      this.toggles := toggles;
      this.dataTheme := dataTheme;
    }

    function State(): (p: Page)
      reads this, toggles
    {
      Page(storage, systemDark, dataTheme, toggles[..])
    }

    /** syncThemeAndToggles */
    method SyncThemeAndToggles()
      modifies this`dataTheme, toggles
      ensures State() == AfterSync(old(State()))
      ensures Synced(State())
    {
      ghost var before := State();
      var theme := ColorPreference(storage, systemDark);
      dataTheme := theme;
      for i := 0 to toggles.Length
        invariant dataTheme == theme
        invariant forall k :: 0 <= k < i ==> toggles[k] == (theme == Dark)
      {
        toggles[i] := theme == Dark;
      }
      assert toggles[..] == AfterSync(before).toggles;
    }

    /** setPreference */
    method SetPreference(themeName: string)
      modifies this`storage, this`dataTheme, toggles
      ensures State() == AfterSetPreference(old(State()), themeName)
    {
      storage := storage[StorageKey := themeName];
      SyncThemeAndToggles();
    }

    /** togglePreference */
    method TogglePreference()
      modifies this`storage, this`dataTheme, toggles
      ensures State() == AfterToggle(old(State()))
    {
      var newTheme := Opposite(ColorPreference(storage, systemDark));
      SetPreference(newTheme);
    }

    /** The colour-scheme change listener: re-sync only when nothing is stored. */
    method OnSystemSchemeChange()
      modifies this`dataTheme, toggles
      ensures State() == AfterSystemChange(old(State()))
    {
      var preference := GetItem(storage, StorageKey);
      if preference.None? || preference.value == "" {
        SyncThemeAndToggles();
      }
    }
  }

  /** Load with nothing stored and a dark system, then click a toggle: the
      choice "light" is persisted and every checkbox ends unchecked. */
  method LoadThenToggle(toggles: array<bool>) returns (stored: string, theme: string)
    modifies toggles
    ensures stored == Light && theme == Light
    ensures forall i :: 0 <= i < toggles.Length ==> !toggles[i]
  {
    var env := new ThemeEnv(map[], true, "", toggles);
    env.SyncThemeAndToggles();
    assert env.dataTheme == Dark;
    assert forall i :: 0 <= i < toggles.Length ==> toggles[i];
    env.TogglePreference();
    assert env.storage[StorageKey] == Light && env.dataTheme == Light;
    stored, theme := env.storage[StorageKey], env.dataTheme;
  }
}
