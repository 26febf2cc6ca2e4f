/**
 * The theme context: a `darkMode` flag resolved once from local storage or the
 * system colour-scheme preference, persisted back to storage and mirrored as
 * the `dark` class on the document's root element whenever it changes.
 */
module ThemeContext {
  import opened Wrappers

  /** The storage key and the root-element class. */
  const ThemeKey: string := "theme"
  const DarkClass: string := "dark"

  /** `localStorage.getItem`: the stored string, or `null` when the key is absent. */
  function GetItem(storage: map<string, string>, key: string): (item: Option<string>)
    ensures item.Some? <==> key in storage
    ensures key in storage ==> item.value == storage[key]
  {
    if key in storage then Some(storage[key]) else None
  }

  /** JavaScript truthiness of `getItem`'s result: `null` and the empty string are falsy. */
  function Truthy(saved: Option<string>): (truthy: bool)
    ensures truthy <==> saved != None && saved != Some("")
  {
    saved.Some? && saved.value != ""
  }

  /** The `useState` initialiser. */
  function InitialDarkMode(saved: Option<string>, systemPrefersDark: bool): (dark: bool)
    ensures saved == Some("dark") ==> dark
    ensures saved.Some? && saved.value != "" && saved.value != "dark" ==> !dark
    ensures (saved == None || saved == Some("")) ==> dark == systemPrefersDark
  {
    if Truthy(saved) then saved.value == "dark" else systemPrefersDark
  }

  /** The theme name the effect stores. */
  function ThemeName(dark: bool): (name: string)
    ensures dark ==> name == "dark"
    ensures !dark ==> name == "light"
    ensures name != ""
  {
    if dark then "dark" else "light"
  }

  /** The effect's `localStorage.setItem('theme', …)`: only the theme key changes. */
  function PersistTheme(storage: map<string, string>, dark: bool): (r: map<string, string>)
    ensures GetItem(r, ThemeKey) == Some(ThemeName(dark))
    ensures forall key :: key != ThemeKey ==> GetItem(r, key) == GetItem(storage, key)
  {
    storage[ThemeKey := ThemeName(dark)]
  }

  /** The effect's `classList.add('dark')` / `classList.remove('dark')`. */
  function ApplyDarkClass(classes: set<string>, dark: bool): (r: set<string>)
    ensures DarkClass in r <==> dark
    ensures forall c :: c != DarkClass ==> (c in r <==> c in classes)
  {
    if dark then classes + {DarkClass} else classes - {DarkClass}
  }

  /** Re-initialising from what the effect stored gives back the same `darkMode`, whatever the system prefers. */
  lemma PersistRoundTrip(storage: map<string, string>, dark: bool, systemPrefersDark: bool)
    ensures InitialDarkMode(GetItem(PersistTheme(storage, dark), ThemeKey), systemPrefersDark) == dark
  {
  }

  /** Once a theme has been stored, the system preference no longer matters. */
  lemma StoredThemeOverridesSystem(storage: map<string, string>, dark: bool, p1: bool, p2: bool)
    ensures InitialDarkMode(GetItem(PersistTheme(storage, dark), ThemeKey), p1)
         == InitialDarkMode(GetItem(PersistTheme(storage, dark), ThemeKey), p2)
  {
    PersistRoundTrip(storage, dark, p1);
    PersistRoundTrip(storage, dark, p2);
  }

  /** `toggleTheme`. */
  function Toggle(dark: bool): (r: bool)
    ensures r != dark
  {
    !dark
  }

  lemma ToggleTwice(dark: bool)
    ensures Toggle(Toggle(dark)) == dark
  {
  }

  /** Browser state the provider writes to: local storage and the root element's class list. */
  class Document {
    var storage: map<string, string>
    var rootClasses: set<string>

    constructor (storage: map<string, string>, rootClasses: set<string>)
      ensures this.storage == storage && this.rootClasses == rootClasses
    {
      this.storage := storage;
      this.rootClasses := rootClasses;
    }
  }

  /** The provider component's state. */
  class ThemeProvider {
    var darkMode: bool
    const doc: Document

    /** Storage and the class list agree with `darkMode`: what the effect establishes. */
    ghost predicate Synced()
      reads this, doc
    {
      GetItem(doc.storage, ThemeKey) == Some(ThemeName(darkMode))
      && (DarkClass in doc.rootClasses <==> darkMode)
    }

    constructor (doc: Document, systemPrefersDark: bool)
      ensures this.doc == doc
      ensures darkMode == InitialDarkMode(GetItem(doc.storage, ThemeKey), systemPrefersDark)
    {
      this.doc := doc;
      var savedTheme := if ThemeKey in doc.storage then Some(doc.storage[ThemeKey]) else None;
      if savedTheme.Some? && savedTheme.value != "" {
        darkMode := savedTheme.value == "dark";
      } else {
        darkMode := systemPrefersDark;
      }
    }

    /** The effect run after mount and after every change of `darkMode`. */
    method SyncEffect()
      modifies doc
      ensures doc.storage == PersistTheme(old(doc.storage), darkMode)
      ensures doc.rootClasses == ApplyDarkClass(old(doc.rootClasses), darkMode)
      ensures Synced()
    {
      var theme := if darkMode then "dark" else "light";
      doc.storage := doc.storage[ThemeKey := theme];
      if darkMode {
        doc.rootClasses := doc.rootClasses + {DarkClass};
      } else {
        doc.rootClasses := doc.rootClasses - {DarkClass};
      }
    }

    method ToggleTheme()
      modifies this`darkMode
      ensures darkMode == Toggle(old(darkMode))
    {
      darkMode := !darkMode;
    }
  }

  /** A page load that reads back what an earlier effect stored starts in the same mode. */
  method Reload(previous: ThemeProvider, systemPrefersDark: bool) returns (next: ThemeProvider)
    requires previous.Synced()
    ensures next.doc == previous.doc && next.darkMode == previous.darkMode
  {
    next := new ThemeProvider(previous.doc, systemPrefersDark);
  }
}
