/**
 * The dark-mode toggle (src/components/DarkModeToggle.tsx): the mode is read
 * from the saved preference, or the system preference when nothing is saved;
 * toggling flips it, saves it and applies it to the document.
 */
module DarkMode {
  import opened Options

  const StorageKey := "darkMode"
  const DarkClass := "dark"

  /** `toString` of a boolean, as saved. */
  function BoolToString(b: bool): (s: string)
    ensures s == "true" || s == "false"
  {
    if b then "true" else "false"
  }

  /** What was saved is read back: saving and loading round-trips. */
  lemma BoolToStringRoundTrip(b: bool)
    ensures (BoolToString(b) == "true") == b
  {
  }

  /** The initial mode: a saved value decides (only "true" is dark), else the system preference. */
  function InitialMode(saved: Option<string>, prefersDark: bool): (dark: bool)
    ensures saved.Some? ==> (dark <==> saved.value == "true")
    ensures saved.None? ==> dark == prefersDark
  {
    match saved
    case Some(v) => v == "true"
    case None => prefersDark
  }

  /** The value applied to the document on mount, written as the separate expression it is. */
  function AppliedAtInit(saved: Option<string>, prefersDark: bool): bool
  {
    saved == Some("true") || (saved.None? && prefersDark)
  }

  /** The theme applied on mount agrees with the state set on mount. */
  lemma {:induction false} AppliedAtInitAgrees(saved: Option<string>, prefersDark: bool)
    ensures AppliedAtInit(saved, prefersDark) == InitialMode(saved, prefersDark)
  {
    match saved
    case None =>
    case Some(v) =>
      assert v == "true" <==> saved == Some("true");
  }

  function ToastMessage(dark: bool): (m: string)
    ensures dark ==> m == "Dark mode activated"
    ensures !dark ==> m == "Light mode activated"
  {
    (if dark then "Dark" else "Light") + " mode activated"
  }

  /**
   * The toggle's state together with the parts of the browser it touches: local storage,
   * the document element's classes, and the toasts shown.
   */
  class Toggle {
    var isDarkMode: bool
    var storage: map<string, string>
    var classes: set<string>
    var toasts: seq<string>

    /** The rendered state matches the document. */
    ghost predicate Applied()
      reads this
    {
      isDarkMode <==> DarkClass in classes
    }

    constructor (storage: map<string, string>, classes: set<string>)
      ensures !isDarkMode && this.storage == storage && this.classes == classes && toasts == []
    {
      isDarkMode := false;
      this.storage := storage;
      this.classes := classes;
      toasts := [];
    }

    /** `applyTheme`: add or remove the `dark` class and leave every other class alone. */
    method ApplyTheme(dark: bool)
      modifies this
      ensures classes == if dark then old(classes) + {DarkClass} else old(classes) - {DarkClass}
      ensures isDarkMode == old(isDarkMode) && storage == old(storage) && toasts == old(toasts)
    {
      if dark {
        classes := classes + {DarkClass};
      } else {
        classes := classes - {DarkClass};
      }
    }

    /** The mount effect; `prefersDark` is the result of the `prefers-color-scheme: dark` media query. */
    method Initialize(prefersDark: bool)
      modifies this
      ensures Applied()
      ensures isDarkMode == InitialMode(if StorageKey in old(storage) then Some(old(storage)[StorageKey]) else None, prefersDark)
      ensures classes - {DarkClass} == old(classes) - {DarkClass}
      ensures storage == old(storage) && toasts == old(toasts)
    {
      var saved := if StorageKey in storage then Some(storage[StorageKey]) else None;
      if saved.Some? {
        isDarkMode := saved.value == "true";
      } else {
        isDarkMode := prefersDark;
      }
      AppliedAtInitAgrees(saved, prefersDark);
      ApplyTheme(AppliedAtInit(saved, prefersDark));
    }

    /** `toggleDarkMode`: flip, save, apply and announce the new mode. */
    method ToggleDarkMode()
      modifies this
      ensures isDarkMode == !old(isDarkMode)
      ensures storage == old(storage)[StorageKey := BoolToString(isDarkMode)]
      ensures classes == if isDarkMode then old(classes) + {DarkClass} else old(classes) - {DarkClass}
      ensures Applied()
      ensures toasts == old(toasts) + [ToastMessage(isDarkMode)]
    {
      var newDarkMode := !isDarkMode;
      isDarkMode := newDarkMode;
      storage := storage[StorageKey := BoolToString(newDarkMode)];
      ApplyTheme(newDarkMode);
      toasts := toasts + [ToastMessage(newDarkMode)];
    }
  }

  /** Toggling twice restores the mode, the document and the saved value's meaning. */
  method ToggleTwice(t: Toggle)
    requires t.Applied()
    modifies t
    ensures t.isDarkMode == old(t.isDarkMode) && t.classes == old(t.classes)
    ensures StorageKey in t.storage && (t.storage[StorageKey] == "true") == t.isDarkMode
  {
    ghost var before := t.classes;
    t.ToggleDarkMode();
    t.ToggleDarkMode();
    BoolToStringRoundTrip(t.isDarkMode);
    assert t.classes == before by {
      if old(t.isDarkMode) {
        assert t.classes == ((before - {DarkClass}) + {DarkClass});
      } else {
        assert t.classes == ((before + {DarkClass}) - {DarkClass});
      }
    }
  }

  /** After a toggle, a fresh mount reads the saved value back into the same mode. */
  lemma ToggleThenReloadKeepsMode(storage: map<string, string>, dark: bool, prefersDark: bool)
    ensures var s := storage[StorageKey := BoolToString(dark)];
      InitialMode(Some(s[StorageKey]), prefersDark) == dark
  {
  }
}
