/**
 * The few pieces of JavaScript string semantics the routes rely on:
 * truthiness of an optional string and `String.prototype.trim`.
 */
module JsText {
  import opened Wrappers

  /** `!!s` for a value that is either a string or absent (`undefined`/`null`):
      absent and the empty string are falsy. */
  predicate Truthy(s: Option<string>) {
    s.Some? && s.value != ""
  }

  /** `a || b` over values that are strings or absent. */
  function Or(a: Option<string>, b: Option<string>): Option<string> {
    if Truthy(a) then a else b
  }

  /** Code points of the ECMAScript WhiteSpace and LineTerminator productions
      (TAB, LF, VT, FF, CR, SP, NBSP, every Zs character, LS, PS and BOM). */
  const WHITESPACE: set<int> :=
    {0x09, 0x0A, 0x0B, 0x0C, 0x0D, 0x20, 0xA0, 0x1680,
     0x2000, 0x2001, 0x2002, 0x2003, 0x2004, 0x2005, 0x2006, 0x2007, 0x2008, 0x2009, 0x200A,
     0x2028, 0x2029, 0x202F, 0x205F, 0x3000, 0xFEFF}

  predicate IsSpace(c: char) {
    c as int in WHITESPACE
  }

  /** `s` with its leading white space dropped. */
  function TrimStart(s: string): string
    decreases |s|
  {
    if s != [] && IsSpace(s[0]) then TrimStart(s[1..]) else s
  }

  /** `s` with its trailing white space dropped. */
  function TrimEnd(s: string): string
    decreases |s|
  {
    if s != [] && IsSpace(s[|s| - 1]) then TrimEnd(s[..|s| - 1]) else s
  }

  /** `s.trim()` */
  function Trim(s: string): string {
    TrimEnd(TrimStart(s))
  }

  /** `TrimStart` gives a suffix of `s` that does not start with white space, and
      everything it dropped was white space. */
  lemma {:induction false} TrimStartSpec(s: string)
    ensures var r := TrimStart(s);
      && |r| <= |s| && r == s[|s| - |r|..]
      && (r == [] || !IsSpace(r[0]))
      && forall i :: 0 <= i < |s| - |r| ==> IsSpace(s[i])
    decreases |s|
  {
    if s != [] && IsSpace(s[0]) {
      TrimStartSpec(s[1..]);
      var r := TrimStart(s);
      forall i | 0 <= i < |s| - |r| ensures IsSpace(s[i]) {
        if i > 0 {
          assert s[i] == s[1..][i - 1];
        }
      }
    }
  }

  /** `TrimEnd` gives a prefix of `s` that does not end with white space, and
      everything it dropped was white space. */
  lemma {:induction false} TrimEndSpec(s: string)
    ensures var r := TrimEnd(s);
      && |r| <= |s| && r == s[..|r|]
      && (r == [] || !IsSpace(r[|r| - 1]))
      && forall i :: |r| <= i < |s| ==> IsSpace(s[i])
    decreases |s|
  {
    if s != [] && IsSpace(s[|s| - 1]) {
      TrimEndSpec(s[..|s| - 1]);
      var r := TrimEnd(s);
      forall i | |r| <= i < |s| ensures IsSpace(s[i]) {
        if i < |s| - 1 {
          assert s[i] == s[..|s| - 1][i];
        }
      }
    }
  }

  /** `r` occurs in `s` starting at index `lo`. */
  predicate OccursAt(r: string, s: string, lo: int) {
    0 <= lo && lo + |r| <= |s| && s[lo..lo + |r|] == r
  }

  /** `Trim(s)` starts where `TrimStart` left off and covers every position that
      holds a character other than white space. */
  lemma TrimBounds(s: string)
    ensures var lo := |s| - |TrimStart(s)|;
      var r := Trim(s);
      && OccursAt(r, s, lo)
      && forall i :: 0 <= i < |s| && !IsSpace(s[i]) ==> lo <= i < lo + |r|
  {
    var front := TrimStart(s);
    var r := TrimEnd(front);
    TrimStartSpec(s);
    TrimEndSpec(front);
    var lo := |s| - |front|;
    assert s[lo..lo + |r|] == front[..|r|];
    forall i | 0 <= i < |s| && !IsSpace(s[i]) ensures lo <= i < lo + |r| {
      assert lo <= i;
      assert front[i - lo] == s[i];
      assert i - lo < |r|;
    }
  }

  /** `s.trim()` is the slice of `s` that starts at some index `lo`, neither starts
      nor ends with white space, and covers every position of `s` that holds a
      character other than white space. */
  lemma TrimSpec(s: string)
    ensures var r := Trim(s);
      && (r == [] || (!IsSpace(r[0]) && !IsSpace(r[|r| - 1])))
      && exists lo :: OccursAt(r, s, lo) && forall i :: 0 <= i < |s| && !IsSpace(s[i]) ==> lo <= i < lo + |r|
  {
    var front := TrimStart(s);
    TrimStartSpec(s);
    TrimEndSpec(front);
    TrimBounds(s);
    var r := Trim(s);
    assert r != [] ==> r[0] == front[0];
    var lo := |s| - |front|;
    assert OccursAt(r, s, lo) && forall i :: 0 <= i < |s| && !IsSpace(s[i]) ==> lo <= i < lo + |r|;
  }

}
