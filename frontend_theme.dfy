/**
 * The light/dark theme of frontend/script.js: a click handler that flips the
 * document's `data-theme` attribute and records the new theme in local
 * storage, and a start-up step that re-applies a saved dark theme.
 */
module Theme {
  import opened Wrappers

  const ThemeKey: string := "theme"

  /** The toggle button's icon: a moon offers dark mode, a sun offers light. */
  datatype Icon = Moon | Sun

  /** Whether a storage snapshot asks for the dark theme at load: only the exact
      value "dark" under the theme key does. */
  predicate SavedDark(storage: map<string, string>) {
    ThemeKey in storage && storage[ThemeKey] == "dark"
  }

  /** The value the toggle stores: the theme it switches to. */
  function StoredAfterToggle(wasDark: bool): string {
    if wasDark then "light" else "dark"
  }

  class Document {
    var dataTheme: Option<string>       // the root element's data-theme attribute
    var storage: map<string, string>    // localStorage
    var icon: Icon                      // the toggle button's content

    /** Dark exactly when the attribute holds "dark". */
    predicate IsDark()
      reads this
    {
      dataTheme == Some("dark")
    }

    /** A freshly loaded document, before the saved theme is applied; its
        markup sets no theme attribute. */
    constructor (storage: map<string, string>, icon: Icon)
      ensures dataTheme == None && this.storage == storage && this.icon == icon
    {
      dataTheme := None;
      this.storage := storage;
      this.icon := icon;
    }

    /** The start-up step: a stored "dark" applies the dark theme; any other
        stored value, or none, leaves the document as it is. */
    method LoadSaved()
      modifies this
      ensures storage == old(storage)
      ensures SavedDark(storage) ==> IsDark() && icon == Sun
      ensures !SavedDark(storage) ==> dataTheme == old(dataTheme) && icon == old(icon)
    {
      if ThemeKey in storage && storage[ThemeKey] == "dark" {
        dataTheme := Some("dark");
        icon := Sun;
      }
    }

    /** The toggle's click handler: flips between dark and light and stores the
        theme it switched to, so that storage and attribute agree afterwards. */
    method Toggle()
      modifies this
      ensures old(IsDark()) ==> dataTheme == None && icon == Moon
      ensures !old(IsDark()) ==> IsDark() && icon == Sun
      ensures storage == old(storage)[ThemeKey := StoredAfterToggle(old(IsDark()))]
      ensures IsDark() <==> SavedDark(storage)
    {
      var isDark := dataTheme == Some("dark");
      if isDark {
        dataTheme := None;
        icon := Moon;
      } else {
        dataTheme := Some("dark");
        icon := Sun;
      }
      storage := storage[ThemeKey := if isDark then "light" else "dark"];
    }
  }

  /** Two clicks restore the theme attribute exactly when it held no theme or
      "dark", the only values this script writes (any other value is dropped),
      and leave in storage the value that names the original theme; that equals
      the original stored value exactly when the two agreed to begin with. */
  method ToggleTwice(d: Document)
    modifies d
    ensures old(d.dataTheme) in {None, Some("dark")} ==> d.dataTheme == old(d.dataTheme)
    ensures old(d.dataTheme) !in {None, Some("dark")} ==> d.dataTheme == None
    ensures d.IsDark() == old(d.IsDark()) && d.icon == (if d.IsDark() then Sun else Moon)
    ensures d.storage == old(d.storage)[ThemeKey := if old(d.IsDark()) then "dark" else "light"]
    ensures ThemeKey in old(d.storage) && old(d.storage)[ThemeKey] == (if old(d.IsDark()) then "dark" else "light")
            ==> d.storage == old(d.storage)
  {
    d.Toggle();
    d.Toggle();
  }

  /** A theme chosen by the toggle survives a reload: the next page, loading
      the same storage, comes up in the same theme. */
  method ToggleThenReload(d: Document) returns (next: Document)
    modifies d
    ensures fresh(next) && next.storage == d.storage
    ensures next.IsDark() <==> d.IsDark()
  {
    d.Toggle();
    next := new Document(d.storage, Moon);
    next.LoadSaved();
  }
}
