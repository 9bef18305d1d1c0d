/**
 * The few JavaScript primitives both scripts lean on: attribute reads that may
 * be null, the truthiness of `a || b`, `String.prototype.trim`, the `\s` class
 * of regular expressions, and `.length` counted in UTF-16 code units.
 * Strings are sequences of Unicode scalar values.
 */
module Js {

  /** An attribute or element that may be missing (`null` in the scripts). */
  datatype Option<+T> = None | Some(value: T)

  /** JavaScript truthiness of an attribute read: both null and "" are falsy. */
  predicate Truthy(a: Option<string>) {
    a.Some? && a.value != ""
  }

  /** `a || b` where both sides are attribute reads. */
  function Or(a: Option<string>, b: Option<string>): Option<string> {
    if Truthy(a) then a else b
  }

  /** `a || "fallback"`: the attribute when it is a non-empty string, else the fallback. */
  function OrDefault(a: Option<string>, fallback: string): string {
    if Truthy(a) then a.value else fallback
  }

  /**
   * The WhiteSpace and LineTerminator code points of ECMAScript: what `trim`
   * removes and what the regular-expression class `\s` matches.
   */
  predicate IsWhiteSpace(c: char) {
    var n := c as int;
    n == 0x09 || n == 0x0A || n == 0x0B || n == 0x0C || n == 0x0D || n == 0x20 ||
    n == 0xA0 || n == 0x1680 || (0x2000 <= n <= 0x200A) || n == 0x2028 || n == 0x2029 ||
    n == 0x202F || n == 0x205F || n == 0x3000 || n == 0xFEFF
  }

  /** Removes leading white space; what is left is a suffix of `s`. */
  function TrimStart(s: string): (r: string)
    ensures |r| <= |s|
    ensures r != [] ==> !IsWhiteSpace(r[0])
  {
    if s != [] && IsWhiteSpace(s[0]) then TrimStart(s[1..]) else s
  }

  /** What `TrimStart` keeps is a suffix of `s`. */
  lemma {:induction false} TrimStartIsSuffix(s: string)
    ensures TrimStart(s) == s[|s| - |TrimStart(s)|..]
  {
    if s != [] && IsWhiteSpace(s[0]) {
      TrimStartIsSuffix(s[1..]);
      assert s[1..][|s| - 1 - |TrimStart(s)|..] == s[|s| - |TrimStart(s)|..];
    }
  }

  /** Everything `TrimStart` drops is white space. */
  lemma {:induction false} TrimStartDropsWhiteSpace(s: string)
    ensures forall k :: 0 <= k < |s| - |TrimStart(s)| ==> IsWhiteSpace(s[k])
  {
    if s != [] && IsWhiteSpace(s[0]) {
      TrimStartDropsWhiteSpace(s[1..]);
      forall k | 1 <= k < |s| - |TrimStart(s)| ensures IsWhiteSpace(s[k]) {
        assert s[k] == s[1..][k - 1];
      }
    }
  }

  /** Removes trailing white space; what is left is a prefix of `s`. */
  function TrimEnd(s: string): (r: string)
    ensures |r| <= |s|
    ensures r != [] ==> !IsWhiteSpace(r[|r| - 1])
  {
    if s != [] && IsWhiteSpace(s[|s| - 1]) then TrimEnd(s[..|s| - 1]) else s
  }

  /** What `TrimEnd` keeps is a prefix of `s`. */
  lemma {:induction false} TrimEndIsPrefix(s: string)
    ensures TrimEnd(s) == s[..|TrimEnd(s)|]
  {
    if s != [] && IsWhiteSpace(s[|s| - 1]) {
      TrimEndIsPrefix(s[..|s| - 1]);
      assert s[..|s| - 1][..|TrimEnd(s)|] == s[..|TrimEnd(s)|];
    }
  }

  /** Everything `TrimEnd` drops is white space. */
  lemma {:induction false} TrimEndDropsWhiteSpace(s: string)
    ensures forall k :: |TrimEnd(s)| <= k < |s| ==> IsWhiteSpace(s[k])
  {
    if s != [] && IsWhiteSpace(s[|s| - 1]) {
      TrimEndDropsWhiteSpace(s[..|s| - 1]);
      forall k | |TrimEnd(s)| <= k < |s| - 1 ensures IsWhiteSpace(s[k]) {
        assert s[k] == s[..|s| - 1][k];
      }
    }
  }

  /** `r` is the slice `s[i..i + |r|]` and everything outside it is white space. */
  ghost predicate TrimmedAt(s: string, r: string, i: int) {
    0 <= i <= |s| - |r| && r == s[i..i + |r|] &&
    (forall k :: 0 <= k < i ==> IsWhiteSpace(s[k])) &&
    (forall k :: i + |r| <= k < |s| ==> IsWhiteSpace(s[k]))
  }

  /**
   * `s.trim()`: white space dropped at both ends. The result neither starts
   * nor ends with white space, and a string without white space at its ends
   * is its own trim.
   */
  function Trim(s: string): (r: string)
    ensures |r| <= |s|
    ensures r != [] ==> !IsWhiteSpace(r[0]) && !IsWhiteSpace(r[|r| - 1])
    ensures (s == [] || (!IsWhiteSpace(s[0]) && !IsWhiteSpace(s[|s| - 1]))) ==> r == s
  {
    var front := TrimStart(s);
    var r := TrimEnd(front);
    TrimEndIsPrefix(front);
    assert r != [] ==> r[0] == front[0];
    r
  }

  /** What `trim` keeps is one slice of `s`, with only white space around it. */
  lemma TrimIsSlice(s: string)
    ensures exists i :: TrimmedAt(s, Trim(s), i)
  {
    var front := TrimStart(s);
    var r := TrimEnd(front);
    var i := |s| - |front|;
    assert r == Trim(s);
    assert r == s[i..i + |r|] by {
      TrimStartIsSuffix(s);
      TrimEndIsPrefix(front);
      assert s[i..][..|r|] == s[i..i + |r|];
    }
    assert forall k :: 0 <= k < i ==> IsWhiteSpace(s[k]) by {
      TrimStartDropsWhiteSpace(s);
    }
    assert forall k :: i + |r| <= k < |s| ==> IsWhiteSpace(s[k]) by {
      TrimStartIsSuffix(s);
      TrimEndDropsWhiteSpace(front);
      forall k | i + |r| <= k < |s| ensures IsWhiteSpace(s[k]) {
        assert s[k] == front[k - i];
      }
    }
    assert TrimmedAt(s, r, i);
  }

  /** A leading white-space character is dropped by `trim`'s front half. */
  lemma TrimStartSkips(c: char, t: string)
    requires IsWhiteSpace(c)
    ensures TrimStart([c] + t) == TrimStart(t)
  {
    assert ([c] + t)[1..] == t;
  }

  /** A trailing white-space character is dropped by `trim`'s back half. */
  lemma TrimEndSkips(t: string, c: char)
    requires IsWhiteSpace(c)
    ensures TrimEnd(t + [c]) == TrimEnd(t)
  {
    assert (t + [c])[..|t|] == t;
  }

  /**
   * A white-space character appended to `s` survives `trim`'s front half
   * exactly when something of `s` does.
   */
  lemma {:induction false} TrimStartAppend(s: string, c: char)
    requires IsWhiteSpace(c)
    ensures TrimStart(s + [c]) == (if TrimStart(s) == [] then [] else TrimStart(s) + [c])
    decreases |s|
  {
    if s == [] {
      assert [] + [c] == [c];
      TrimStartSkips(c, []);
    } else if IsWhiteSpace(s[0]) {
      assert (s + [c])[1..] == s[1..] + [c];
      TrimStartAppend(s[1..], c);
    }
  }

  /** The number of UTF-16 code units a code point takes. */
  function CodeUnits(c: char): nat {
    if c as int < 0x1_0000 then 1 else 2
  }

  /** `s.length` in JavaScript: the length in UTF-16 code units. */
  function Utf16Length(s: string): (n: nat)
    ensures |s| <= n <= 2 * |s|
  {
    if s == [] then 0 else CodeUnits(s[0]) + Utf16Length(s[1..])
  }

  /** All code points in the Basic Multilingual Plane. */
  predicate InBmp(s: string) {
    forall k :: 0 <= k < |s| ==> s[k] as int < 0x1_0000
  }

  /** Without astral characters the UTF-16 length is the number of characters. */
  lemma {:induction false} Utf16LengthOfBmp(s: string)
    requires InBmp(s)
    ensures Utf16Length(s) == |s|
  {
    if s != [] {
      assert InBmp(s[1..]) by {
        forall k | 0 <= k < |s| - 1 ensures s[1..][k] as int < 0x1_0000 {
          assert s[1..][k] == s[k + 1];
        }
      }
      Utf16LengthOfBmp(s[1..]);
    }
  }
}
