/** The colour-theme changer of the example application: the document element
    carries the class `dark` or not, the dark-scheme and light-scheme icons are
    shown or hidden to match, and the scheme is remembered in browser storage
    under the key `scheme`. */
module Theme {
  import opened Wrappers

  /** What the theme changer touches: the document element's classes, the
      classes of every `.color-scheme-dark-icon` and `.color-scheme-light-icon`
      element in document order, and the stored scheme (`None` when the
      storage has no `scheme` key). */
  datatype Page = Page(
    docClasses: set<string>, darkIcons: seq<set<string>>, lightIcons: seq<set<string>>,
    stored: Option<string>)

  predicate IsDark(p: Page) {
    "dark" in p.docClasses
  }

  /** The page agrees with itself: a scheme is stored, the document is dark
      unless that scheme is "light", and exactly the icons of the other scheme
      are hidden. */
  predicate Synced(p: Page) {
    && p.stored.Some?
    && (IsDark(p) <==> p.stored != Some("light"))
    && (forall i :: 0 <= i < |p.darkIcons| ==> ("hidden" in p.darkIcons[i] <==> !IsDark(p)))
    && (forall i :: 0 <= i < |p.lightIcons| ==> ("hidden" in p.lightIcons[i] <==> IsDark(p)))
  }

  /** The scheme `toggleTheme` applies: the given one, or, when it is absent or
      empty, the opposite of the document's current one. */
  function Resolve(scheme: Option<string>, dark: bool): (s: string)
    ensures s != ""
    ensures (scheme.None? || scheme == Some("")) ==> (s == "light" || s == "dark") && (s == "light" <==> dark)
    ensures scheme.Some? && scheme.value != "" ==> s == scheme.value
  {
    if scheme.None? || scheme.value == "" then (if dark then "light" else "dark") else scheme.value
  }

  /** Every icon with the class `hidden` added (`makeHidden`) or removed. */
  function WithHidden(icons: seq<set<string>>, makeHidden: bool): (r: seq<set<string>>)
    ensures |r| == |icons|
    ensures forall i :: 0 <= i < |r| ==>
      ("hidden" in r[i] <==> makeHidden) && r[i] - {"hidden"} == icons[i] - {"hidden"}
  {
    seq(|icons|, i requires 0 <= i < |icons| =>
      if makeHidden then icons[i] + {"hidden"} else icons[i] - {"hidden"})
  }

  /** `toggleTheme(scheme)`: apply the resolved scheme and store it. The result
      is synced, stores what was applied, and leaves every other class alone. */
  function Toggle(p: Page, scheme: Option<string>): (p': Page)
    ensures Synced(p')
    ensures p'.stored == Some(Resolve(scheme, IsDark(p)))
    ensures p'.docClasses - {"dark"} == p.docClasses - {"dark"}
    ensures |p'.darkIcons| == |p.darkIcons| && |p'.lightIcons| == |p.lightIcons|
    ensures forall i :: 0 <= i < |p.darkIcons| ==> p'.darkIcons[i] - {"hidden"} == p.darkIcons[i] - {"hidden"}
    ensures forall i :: 0 <= i < |p.lightIcons| ==> p'.lightIcons[i] - {"hidden"} == p.lightIcons[i] - {"hidden"}
  {
    var s := Resolve(scheme, IsDark(p));
    if s == "light" then
      Page(p.docClasses - {"dark"}, WithHidden(p.darkIcons, true), WithHidden(p.lightIcons, false), Some(s))
    else
      Page(p.docClasses + {"dark"}, WithHidden(p.darkIcons, false), WithHidden(p.lightIcons, true), Some(s))
  }

  /** Setting `hidden` twice keeps only the second setting. */
  lemma WithHiddenTwice(icons: seq<set<string>>, first: bool, second: bool)
    ensures WithHidden(WithHidden(icons, first), second) == WithHidden(icons, second)
  {
    var once := WithHidden(icons, first);
    forall i | 0 <= i < |icons|
      ensures WithHidden(once, second)[i] == WithHidden(icons, second)[i]
    {
    }
  }

  /** Setting `hidden` as every icon already has it changes nothing. */
  lemma WithHiddenAlready(icons: seq<set<string>>, makeHidden: bool)
    requires forall i :: 0 <= i < |icons| ==> ("hidden" in icons[i] <==> makeHidden)
    ensures WithHidden(icons, makeHidden) == icons
  {
    forall i | 0 <= i < |icons|
      ensures WithHidden(icons, makeHidden)[i] == icons[i]
    {
    }
  }

  /** The click handler (no scheme) flips the document between dark and light. */
  lemma ClickFlips(p: Page)
    ensures IsDark(Toggle(p, None)) == !IsDark(p)
  {
  }

  /** Re-applying the stored scheme to a synced page changes nothing: this is
      what `mounted` and `updated` do after the page has been set up. */
  lemma {:induction false} ReapplyStored(p: Page)
    requires Synced(p) && p.stored.value != ""
    ensures Toggle(p, p.stored) == p
  {
    if p.stored == Some("light") {
      WithHiddenAlready(p.darkIcons, true);
      WithHiddenAlready(p.lightIcons, false);
    } else {
      WithHiddenAlready(p.darkIcons, false);
      WithHiddenAlready(p.lightIcons, true);
    }
  }

  /** Applying the same non-empty scheme twice is applying it once. */
  lemma {:induction false} SetTwice(p: Page, s: string)
    requires s != ""
    ensures Toggle(Toggle(p, Some(s)), Some(s)) == Toggle(p, Some(s))
  {
    ReapplyStored(Toggle(p, Some(s)));
  }

  /** Two clicks restore a synced page whose stored scheme is "light" or
      "dark": classes, icons and storage. */
  lemma {:induction false} ClickTwice(p: Page)
    requires Synced(p) && (p.stored == Some("light") || p.stored == Some("dark"))
    ensures Toggle(Toggle(p, None), None) == p
  {
    var once := Toggle(p, None);
    WithHiddenTwice(p.darkIcons, IsDark(p), !IsDark(p));
    WithHiddenTwice(p.lightIcons, !IsDark(p), IsDark(p));
    WithHiddenAlready(p.darkIcons, !IsDark(p));
    WithHiddenAlready(p.lightIcons, IsDark(p));
    if IsDark(p) {
      assert once.docClasses + {"dark"} == p.docClasses;
    } else {
      assert once.docClasses - {"dark"} == p.docClasses;
    }
  }

  /** The scheme chosen when the page loads: "dark" when "dark" is stored, or
      when nothing is stored and the system prefers dark; "light" otherwise. */
  function StartupScheme(stored: Option<string>, prefersDark: bool): (s: string)
    ensures s == "dark" || s == "light"
    ensures s == "dark" <==> stored == Some("dark") || (stored.None? && prefersDark)
  {
    var found := stored.Some?;
    if stored == Some("dark") || (!found && prefersDark) then "dark" else "light"
  }

  /** After the first load the stored scheme alone decides the next: it is
      "dark" or "light", and choosing again from it gives the same scheme
      whatever the system preference is then. */
  lemma StartupStable(p: Page, prefersDark: bool, prefersDarkLater: bool)
    ensures var p' := Toggle(p, Some(StartupScheme(p.stored, prefersDark)));
      && (p'.stored == Some("dark") || p'.stored == Some("light"))
      && StartupScheme(p'.stored, prefersDarkLater) == StartupScheme(p.stored, prefersDark)
      && IsDark(p') == (StartupScheme(p.stored, prefersDark) == "dark")
  {
  }

  /** The live page. The two icon lists are distinct arrays: an element
      carrying both icon classes is not modelled. */
  class ThemeChanger {
    var docClasses: set<string>
    const darkIcons: array<set<string>>
    const lightIcons: array<set<string>>
    var stored: Option<string>

    ghost predicate Valid()
      reads this
    {
      darkIcons != lightIcons
    }

    /** The page as a value. */
    function View(): Page
      reads this, darkIcons, lightIcons
    {
      Page(docClasses, darkIcons[..], lightIcons[..], stored)
    }

    constructor(docClasses: set<string>, darkIcons: array<set<string>>,
                lightIcons: array<set<string>>, stored: Option<string>)
      requires darkIcons != lightIcons
      ensures Valid()
      ensures this.docClasses == docClasses && this.stored == stored
      ensures this.darkIcons == darkIcons && this.lightIcons == lightIcons
    {
      this.docClasses, this.stored := docClasses, stored;
      this.darkIcons, this.lightIcons := darkIcons, lightIcons;
    }

    /** The `forEach` over one icon list: add or remove `hidden` on each. */
    static method SetHidden(icons: array<set<string>>, makeHidden: bool)
      modifies icons
      ensures icons[..] == WithHidden(old(icons[..]), makeHidden)
    {
      var i := 0;
      while i < icons.Length
        invariant 0 <= i <= icons.Length
        invariant forall j :: 0 <= j < i ==>
          icons[j] == if makeHidden then old(icons[j]) + {"hidden"} else old(icons[j]) - {"hidden"}
        invariant forall j :: i <= j < icons.Length ==> icons[j] == old(icons[j])
      {
        if makeHidden {
          icons[i] := icons[i] + {"hidden"};
        } else {
          icons[i] := icons[i] - {"hidden"};
        }
        i := i + 1;
      }
      assert icons[..] == WithHidden(old(icons[..]), makeHidden);
    }

    /** `toggleTheme(scheme)`. */
    method ToggleTheme(scheme: Option<string>)
      requires Valid()
      modifies this`docClasses, this`stored, darkIcons, lightIcons
      ensures View() == Toggle(old(View()), scheme)
    {
      var s := if scheme.Some? then scheme.value else "";
      if s == "" {
        s := if "dark" in docClasses then "light" else "dark";
      }
      if s == "light" {
        docClasses := docClasses - {"dark"};
        SetHidden(darkIcons, true);
        SetHidden(lightIcons, false);
      } else {
        docClasses := docClasses + {"dark"};
        SetHidden(darkIcons, false);
        SetHidden(lightIcons, true);
      }
      stored := Some(s);
    }

    /** A click on the switch: toggle without a scheme, flipping dark and
        light. */
    method OnClick()
      requires Valid()
      modifies this`docClasses, this`stored, darkIcons, lightIcons
      ensures View() == Toggle(old(View()), None)
      ensures ("dark" in docClasses) == ("dark" !in old(docClasses))
    {
      ToggleTheme(None);
      ClickFlips(old(View()));
    }

    /** `mounted` and `updated`: `init(localStorage.scheme)`. On a synced page
        with a non-empty stored scheme this changes nothing. */
    method Init()
      requires Valid()
      modifies this`docClasses, this`stored, darkIcons, lightIcons
      ensures View() == Toggle(old(View()), old(stored))
      ensures old(Synced(View())) && old(stored).value != "" ==> View() == old(View())
    {
      ghost var before := View();
      ToggleTheme(stored);
      if Synced(before) && before.stored.value != "" {
        ReapplyStored(before);
      }
    }

    /** The script's start-up code: choose the scheme from storage and the
        system preference, and apply it. */
    method Startup(prefersDark: bool)
      requires Valid()
      modifies this`docClasses, this`stored, darkIcons, lightIcons
      ensures View() == Toggle(old(View()), Some(StartupScheme(old(stored), prefersDark)))
      ensures stored == Some("dark") || stored == Some("light")
    {
      var found := stored.Some?;
      var scheme := if stored == Some("dark") || (!found && prefersDark) then "dark" else "light";
      ToggleTheme(Some(scheme));
    }
  }
}
