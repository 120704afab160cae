/**
 * The browser's `localStorage` as a string-keyed map of strings, and the
 * conventions every page uses when reading from it.
 */
module Storage {
  import opened Wrappers

  type Store = map<string, string>

  /** `localStorage.getItem(key)`: the stored string, or `None` for `null`. */
  function GetItem(store: Store, key: string): Option<string> {
    if key in store then Some(store[key]) else None
  }

  /**
   * JavaScript truthiness of `getItem(key)`: `null` and the empty string are
   * both falsy, so `if (saved)` only passes a present, non-empty value.
   */
  predicate Truthy(store: Store, key: string) {
    key in store && store[key] != ""
  }

  /** The string a theme flag is persisted as. */
  function ThemeValue(isDark: bool): (v: string)
    ensures v == "dark" <==> isDark
    ensures v == "dark" || v == "light"
  {
    if isDark then "dark" else "light"
  }
}
