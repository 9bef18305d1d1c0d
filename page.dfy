/**
 * The two small page behaviours of js/main.js besides the menu and the
 * contact form: marking the navigation link of the current page, and the
 * message field's character counter.
 */
module Page {
  import opened Js

  /** A `.nav-link` anchor: the path of its `href`, and its `aria-current` attribute. */
  class NavLink {
    const path: string
    var ariaCurrent: Option<string>

    constructor (path: string, ariaCurrent: Option<string>)
      ensures this.path == path && this.ariaCurrent == ariaCurrent
    {
      this.path := path;
      this.ariaCurrent := ariaCurrent;
    }
  }

  /** The `aria-current` a link ends with: "page" on a link to the current path, none otherwise. */
  function CurrentMark(linkPath: string, currentPath: string): (r: Option<string>)
    ensures r.Some? <==> linkPath == currentPath
    ensures r.Some? ==> r.value == "page"
  {
    if linkPath == currentPath then Some("page") else None
  }

  /**
   * Marks the active navigation link: every link whose path is the current
   * page's gets `aria-current="page"` and every other link loses the
   * attribute, whatever it held before.
   */
  method MarkActiveLinks(links: seq<NavLink>, currentPath: string)
    modifies set l | l in links
    ensures forall l | l in links :: l.ariaCurrent == CurrentMark(l.path, currentPath)
  {
    for i := 0 to |links|
      invariant forall k | 0 <= k < i :: links[k].ariaCurrent == CurrentMark(links[k].path, currentPath)
    {
      var link := links[i];
      if link.path == currentPath {
        link.ariaCurrent := Some("page");
      } else {
        link.ariaCurrent := None;
      }
    }
  }

  /** The counter turns to a warning above this many code units. */
  const WarningThreshold: nat := 1900

  /** Whether a message of `length` code units shows the warning. */
  predicate Warns(length: nat) {
    length > WarningThreshold
  }

  /**
   * For a message without astral characters the warning shows exactly from
   * 1901 characters on; astral characters count twice, so beyond 1900
   * characters the warning always shows, and up to 950 it never does.
   */
  lemma WarningBoundary(s: string)
    ensures InBmp(s) ==> (Warns(Utf16Length(s)) <==> |s| > 1900)
    ensures |s| > 1900 ==> Warns(Utf16Length(s))
    ensures |s| <= 950 ==> !Warns(Utf16Length(s))
  {
    if InBmp(s) {
      Utf16LengthOfBmp(s);
    }
  }

  /** The `#char-count` element next to the message field. */
  class CharCounter {
    /** The number its text shows. */
    var shown: nat
    /** Whether it has the `warning` class. */
    var warning: bool

    constructor (shown: nat, warning: bool)
      ensures this.shown == shown && this.warning == warning
    {
      this.shown := shown;
      this.warning := warning;
    }

    /**
     * The message field's input listener: the counter shows the value's
     * length in UTF-16 code units and warns exactly when that is above the
     * threshold; the previous state plays no part.
     */
    method OnInput(value: string)
      modifies this
      ensures shown == Utf16Length(value)
      ensures warning <==> Warns(Utf16Length(value))
    {
      var currentLength := Utf16Length(value);
      shown := currentLength;
      if currentLength > 1900 {
        warning := true;
      } else {
        warning := false;
      }
    }
  }
}
