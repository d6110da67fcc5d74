/** The navigation bar: the theme switch and its persistence, the language and
    sound buttons, the mobile menu, the scroll state and the highlighting of
    the link whose section is on screen. Sounds the bar asks for are recorded,
    in order, as requests. */
module Navigation {
  import opened Prelude
  import opened Storage
  import opened Audio
  import opened Language
  import opened SoundContext

  /** The storage key of the theme. */
  const ThemeKey: string := "theme"

  /** Work a handler leaves to a timer. A deferred sound remembers the
      preference of the render whose `playSound` the callback closes over. */
  datatype DeferredAction =
    | PlayLater(sound: SoundType, enabledAtRender: bool)
    | ScrollIntoView(href: string)

  /** What a handler does beyond its own fields, in the order it does it. */
  datatype NavEvent =
    | SoundRequested(sound: SoundType)
    | LanguageToggled
    | SoundPreferenceToggled
    | TimerSet(delayMs: nat, action: DeferredAction)

  datatype NavLink = NavLink(href: string, labelKey: string)

  /** One notification of the section observer. */
  datatype SectionEntry = SectionEntry(targetId: string, isIntersecting: bool)

  const NavLinks: seq<NavLink> := [
    NavLink("#home", "nav.home"),
    NavLink("#projects", "nav.projects"),
    NavLink("#skills", "nav.skills"),
    NavLink("#services", "nav.services"),
    NavLink("#about", "nav.about"),
    NavLink("#contact", "nav.contact")
  ]

  /** The theme on first render: a stored "dark" wins; with no stored theme
      (absent or empty) the system preference decides; any other stored
      value means light. */
  function InitialDark(stored: Option<string>, prefersDark: bool): bool
  {
    stored == Some("dark") || ((stored == None || stored == Some("")) && prefersDark)
  }

  /** The stored name of a theme. */
  function ThemeName(dark: bool): string
  {
    if dark then "dark" else "light"
  }

  /** A stored theme is read back unchanged, whatever the system prefers. */
  lemma ThemeRoundTrip(dark: bool, prefersDark: bool)
    ensures InitialDark(Some(ThemeName(dark)), prefersDark) == dark
  {
  }

  /** The three ways the first render can be dark. */
  lemma InitialDarkCases(stored: Option<string>, prefersDark: bool)
    ensures InitialDark(None, prefersDark) == prefersDark
    ensures InitialDark(Some("light"), prefersDark) == false
    ensures stored != None && stored != Some("") ==> (InitialDark(stored, prefersDark) <==> stored == Some("dark"))
  {
  }

  /** `activeSection === href.slice(1)`. */
  predicate IsLinkActive(activeSection: string, href: string)
  {
    activeSection == DropFirst(href)
  }

  /** A link `#id` is active exactly when the section on screen is `id`. */
  lemma LinkActiveIffSection(activeSection: string, id: string)
    ensures IsLinkActive(activeSection, "#" + id) <==> activeSection == id
  {
    assert ("#" + id)[0] == '#';
    assert DropFirst("#" + id) == id by {
      assert [("#" + id)[0]] + DropFirst("#" + id) == "#" + id;
    }
  }

  /** Whatever the active section, at most one navigation link is highlighted. */
  lemma AtMostOneLinkActive(activeSection: string, i: int, j: int)
    requires 0 <= i < |NavLinks| && 0 <= j < |NavLinks|
    requires IsLinkActive(activeSection, NavLinks[i].href) && IsLinkActive(activeSection, NavLinks[j].href)
    ensures i == j
  {
    var ids := ["home", "projects", "skills", "services", "about", "contact"];
    forall k | 0 <= k < |NavLinks|
      ensures DropFirst(NavLinks[k].href) == ids[k]
    {
      assert NavLinks[k].href == "#" + ids[k];
      LinkActiveIffSection(ids[k], ids[k]);
    }
  }

  /** The navigation labels come from the tables, not from the fall-back. */
  lemma NavLabelsTranslated(lang: Lang, i: int)
    requires 0 <= i < |NavLinks|
    ensures Truthy(Dictionary(lang), NavLinks[i].labelKey)
    ensures Translate(lang, NavLinks[i].labelKey) == Dictionary(lang)[NavLinks[i].labelKey]
  {
  }

  /** The active section after a batch of observer entries: the id of the last
      entry that is on screen, or the previous value when none is. */
  function ActiveAfter(current: string, entries: seq<SectionEntry>): string
  {
    if entries == [] then current
    else
      var last := entries[|entries| - 1];
      if last.isIntersecting then last.targetId else ActiveAfter(current, entries[..|entries| - 1])
  }

  /** With no entry on screen the active section does not move. */
  lemma {:induction false} ActiveAfterUnchanged(current: string, entries: seq<SectionEntry>)
    requires forall j :: 0 <= j < |entries| ==> !entries[j].isIntersecting
    ensures ActiveAfter(current, entries) == current
  {
    if entries != [] {
      ActiveAfterUnchanged(current, entries[..|entries| - 1]);
    }
  }

  /** Otherwise it is the id of the last entry on screen. */
  lemma {:induction false} ActiveAfterLastIntersecting(current: string, entries: seq<SectionEntry>, k: int)
    requires 0 <= k < |entries| && entries[k].isIntersecting
    requires forall j :: k < j < |entries| ==> !entries[j].isIntersecting
    ensures ActiveAfter(current, entries) == entries[k].targetId
  {
    if k < |entries| - 1 {
      ActiveAfterLastIntersecting(current, entries[..|entries| - 1], k);
    }
  }

  /** The bar's state, with the providers and the storage it talks to. */
  class NavigationBar {
    var isScrolled: bool
    var isMobileMenuOpen: bool
    var isDark: bool
    var activeSection: string
    /** Whether the document root carries the `dark` class. */
    var darkClass: bool
    var events: seq<NavEvent>
    const language: LanguageProvider
    const sound: SoundProvider
    const storage: LocalStorage

    constructor (language: LanguageProvider, sound: SoundProvider, storage: LocalStorage, darkClass: bool)
      ensures !isScrolled && !isMobileMenuOpen && !isDark && activeSection == "home"
      ensures this.darkClass == darkClass && events == []
      ensures this.language == language && this.sound == sound && this.storage == storage
    {
      isScrolled, isMobileMenuOpen, isDark, activeSection := false, false, false, "home";
      this.darkClass, events := darkClass, [];
      this.language, this.sound, this.storage := language, sound, storage;
    }

    /** The mount effect: picks the theme from storage and the system
        preference and puts the document root in step. */
    method InitTheme(prefersDark: bool)
      modifies this`isDark, this`darkClass
      ensures isDark == InitialDark(storage.GetItem(ThemeKey), prefersDark)
      ensures darkClass == isDark
    {
      var stored := storage.GetItem(ThemeKey);
      isDark := stored == Some("dark") || ((stored == None || stored == Some("")) && prefersDark);
      darkClass := isDark;
    }

    /** Asks for the toggle sound, flips the theme, stores it and updates the document root. */
    method ToggleTheme()
      modifies this`isDark, this`darkClass, this`events, storage
      ensures events == old(events) + [SoundRequested(Toggle)]
      ensures isDark == !old(isDark) && darkClass == isDark
      ensures storage.items == old(storage.items)[ThemeKey := ThemeName(isDark)]
      ensures forall prefersDark :: InitialDark(storage.GetItem(ThemeKey), prefersDark) == isDark
    {
      events := events + [SoundRequested(Toggle)];
      var newTheme := !isDark;
      isDark := newTheme;
      storage.SetItem(ThemeKey, ThemeName(newTheme));
      darkClass := newTheme;
      forall prefersDark: bool ensures InitialDark(storage.GetItem(ThemeKey), prefersDark) == isDark {
        ThemeRoundTrip(isDark, prefersDark);
      }
    }

    /** Asks for the toggle sound, then flips the language once. */
    method HandleLanguageToggle()
      modifies this`events, language
      ensures events == old(events) + [SoundRequested(Toggle), LanguageToggled]
      ensures language.language == Toggled(old(language.language))
    {
      events := events + [SoundRequested(Toggle)];
      language.ToggleLanguage();
      events := events + [LanguageToggled];
    }

    /** Flips the sound preference; a confirmation tone is scheduled 50 ms later
        only when sound was off before the click. The callback closes over the
        `playSound` of this render, whose flag is the one before the toggle. */
    method HandleSoundToggle()
      modifies this`events, sound`isSoundEnabled, storage
      ensures sound.isSoundEnabled == !old(sound.isSoundEnabled)
      ensures sound.audioContext == old(sound.audioContext)
      ensures storage.items == old(storage.items)[SoundKey := BoolToString(sound.isSoundEnabled)]
      ensures events == old(events) + [SoundPreferenceToggled] +
        (if old(sound.isSoundEnabled) then [] else [TimerSet(50, PlayLater(Toggle, old(sound.isSoundEnabled)))])
    {
      var wasEnabled := sound.isSoundEnabled;
      sound.ToggleSound(storage);
      events := events + [SoundPreferenceToggled];
      if !wasEnabled {
        events := events + [TimerSet(50, PlayLater(Toggle, wasEnabled))];
      }
    }

    /** A deferred sound firing, as written: the callback runs the `playSound`
        it closed over, which checks the flag of the render that set the timer. */
    method RunSoundTimerAsWritten(action: DeferredAction, supported: bool, initialState: ContextState)
      requires action.PlayLater?
      modifies sound`audioContext, sound.audioContext
      ensures !action.enabledAtRender ==> sound.audioContext == old(sound.audioContext)
      ensures !action.enabledAtRender && old(sound.audioContext) != null ==>
        sound.audioContext.calls == old(sound.audioContext.calls)
      ensures action.enabledAtRender && old(sound.audioContext) == null && supported ==>
        sound.audioContext != null &&
        sound.audioContext.calls == PlaybackCalls(initialState == Suspended, ContextPreset(action.sound), 0.0)
    {
      sound.PlaySoundFromRender(action.enabledAtRender, action.sound, supported, initialState);
    }

    /** A deferred sound firing as intended: it checks the preference in force
        when the timer fires. */
    method RunSoundTimer(action: DeferredAction, supported: bool, initialState: ContextState)
      requires action.PlayLater?
      modifies sound`audioContext, sound.audioContext
      ensures !sound.isSoundEnabled ==> sound.audioContext == old(sound.audioContext)
      ensures sound.isSoundEnabled && old(sound.audioContext) == null && supported ==>
        sound.audioContext != null &&
        sound.audioContext.calls == PlaybackCalls(initialState == Suspended, ContextPreset(action.sound), 0.0)
      ensures sound.isSoundEnabled && old(sound.audioContext) == null && !supported ==> sound.audioContext == null
    {
      sound.PlaySound(action.sound, supported, initialState);
    }

    /** Asks for the click sound and closes the mobile menu, open or not. */
    method HandleLinkClick()
      modifies this`events, this`isMobileMenuOpen
      ensures events == old(events) + [SoundRequested(Click)]
      ensures !isMobileMenuOpen
    {
      events := events + [SoundRequested(Click)];
      isMobileMenuOpen := false;
    }

    method HandleLinkHover()
      modifies this`events
      ensures events == old(events) + [SoundRequested(Hover)]
    {
      events := events + [SoundRequested(Hover)];
    }

    /** The logo and the desktop links only ask for the click sound. */
    method HandleDesktopClick()
      modifies this`events
      ensures events == old(events) + [SoundRequested(Click)]
    {
      events := events + [SoundRequested(Click)];
    }

    /** The menu button: a click sound and the menu flips. */
    method ToggleMobileMenu()
      modifies this`events, this`isMobileMenuOpen
      ensures events == old(events) + [SoundRequested(Click)]
      ensures isMobileMenuOpen == !old(isMobileMenuOpen)
    {
      events := events + [SoundRequested(Click)];
      isMobileMenuOpen := !isMobileMenuOpen;
    }

    /** A mobile link: the link click, then, when the target section exists,
        a smooth scroll to it 100 ms later. */
    method HandleMobileLinkClick(href: string, targetExists: bool)
      modifies this`events, this`isMobileMenuOpen
      ensures !isMobileMenuOpen
      ensures events == old(events) + [SoundRequested(Click)] +
        (if targetExists then [TimerSet(100, ScrollIntoView(href))] else [])
    {
      HandleLinkClick();
      if targetExists {
        events := events + [TimerSet(100, ScrollIntoView(href))];
      }
    }

    /** The scroll listener: the bar is `scrolled` strictly past 50 pixels. */
    method HandleScroll(scrollY: real)
      modifies this`isScrolled
      ensures isScrolled <==> scrollY > 50.0
    {
      isScrolled := scrollY > 50.0;
    }

    /** The observer callback: every entry on screen sets the active section,
        so the last one wins. */
    method HandleIntersection(entries: seq<SectionEntry>)
      modifies this`activeSection
      ensures activeSection == ActiveAfter(old(activeSection), entries)
    {
      var i := 0;
      while i < |entries|
        invariant 0 <= i <= |entries|
        invariant activeSection == ActiveAfter(old(activeSection), entries[..i])
      {
        assert entries[..i + 1][..i] == entries[..i];
        if entries[i].isIntersecting {
          activeSection := entries[i].targetId;
        }
        i := i + 1;
      }
      assert entries[..i] == entries;
    }

    /** Whether a link is highlighted. */
    function IsActive(href: string): bool
      reads this
    {
      IsLinkActive(activeSection, href)
    }
  }

  // ---- The 50 ms confirmation tone ----

  /** The calls an audio context received; none when there is no context. */
  function CallsOf(ctx: AudioContext?): seq<AudioCall>
    reads ctx
  {
    if ctx == null then [] else ctx.calls
  }

  /** The stored preference a fresh page starts from. */
  function StoredSound(saved: map<string, string>): Option<string>
  {
    if SoundKey in saved then Some(saved[SoundKey]) else None
  }

  /** A fresh page, the sound button in the bar, then the 50 ms timer firing
      with the callback as written. `played` is what the audio context
      received. Turning sound on sets the timer, yet the callback's
      `playSound` still sees sound off: nothing is played and no context is
      even created. */
  method EnableSoundAsWritten(saved: map<string, string>, supported: bool, initialState: ContextState)
    returns (enabledAfter: bool, timerSet: bool, played: seq<AudioCall>)
    ensures enabledAfter == !InitialSoundEnabled(StoredSound(saved))
    ensures timerSet <==> enabledAfter
    ensures played == []
  {
    var storage := new LocalStorage(saved);
    var sound := new SoundProvider(storage);
    var language := new LanguageProvider();
    var bar := new NavigationBar(language, sound, storage, false);
    bar.HandleSoundToggle();
    enabledAfter := sound.isSoundEnabled;
    var last := bar.events[|bar.events| - 1];
    timerSet := last.TimerSet?;
    if last.TimerSet? && last.action.PlayLater? {
      bar.RunSoundTimerAsWritten(last.action, supported, initialState);
    }
    played := CallsOf(sound.audioContext);
  }

  /** The same clicks with the callback reading the preference when it fires:
      every enabling toggle is confirmed by exactly the toggle tone, on a
      new context, and the timer is set only when sound is turned on. */
  method EnableSound(saved: map<string, string>, supported: bool, initialState: ContextState)
    returns (enabledAfter: bool, timerSet: bool, played: seq<AudioCall>)
    ensures enabledAfter == !InitialSoundEnabled(StoredSound(saved))
    ensures timerSet <==> enabledAfter
    ensures enabledAfter && supported ==>
      played == PlaybackCalls(initialState == Suspended, ContextPreset(Toggle), 0.0)
    ensures !enabledAfter || !supported ==> played == []
  {
    var storage := new LocalStorage(saved);
    var sound := new SoundProvider(storage);
    var language := new LanguageProvider();
    var bar := new NavigationBar(language, sound, storage, false);
    bar.HandleSoundToggle();
    enabledAfter := sound.isSoundEnabled;
    var last := bar.events[|bar.events| - 1];
    timerSet := last.TimerSet?;
    if last.TimerSet? && last.action.PlayLater? {
      bar.RunSoundTimer(last.action, supported, initialState);
    }
    played := CallsOf(sound.audioContext);
  }

  /** On first render, when the active section is "home", exactly the first
      link, `#home`, is highlighted. */
  lemma InitialHighlight(i: int)
    requires 0 <= i < |NavLinks|
    ensures IsLinkActive("home", NavLinks[i].href) <==> i == 0
  {
    var id := ["home", "projects", "skills", "services", "about", "contact"][i];
    assert NavLinks[i].href == "#" + id;
    LinkActiveIffSection("home", id);
  }
}
