/**
 * The two string operations the panel relies on: `String.prototype.trim`
 * (search input and required-field validation) and
 * `String.prototype.includes` (dispatch of a submitted form by its id).
 */
module Text {

  /** The code points ECMAScript's `trim` strips: WhiteSpace (TAB, VT, FF,
      SPACE, NBSP, ZWNBSP and category Zs) and LineTerminator (LF, CR, LS, PS). */
  predicate IsTrimmable(c: char) {
    || c == '\t' || c == '\n' || c == '\U{000B}' || c == '\U{000C}' || c == '\r'
    || c == ' ' || c == '\U{00A0}' || c == '\U{1680}'
    || ('\U{2000}' <= c <= '\U{200A}')
    || c == '\U{2028}' || c == '\U{2029}' || c == '\U{202F}' || c == '\U{205F}'
    || c == '\U{3000}' || c == '\U{FEFF}'
  }

  predicate AllTrimmable(s: string) {
    forall k :: 0 <= k < |s| ==> IsTrimmable(s[k])
  }

  function TrimStart(s: string): string
    decreases |s|
  {
    if |s| > 0 && IsTrimmable(s[0]) then TrimStart(s[1..]) else s
  }

  function TrimEnd(s: string): string
    decreases |s|
  {
    if |s| > 0 && IsTrimmable(s[|s| - 1]) then TrimEnd(s[..|s| - 1]) else s
  }

  /** `s.trim()` */
  function Trim(s: string): string {
    TrimEnd(TrimStart(s))
  }

  /** `!s.trim()`: the empty string is the only falsy string. */
  predicate IsBlank(s: string) {
    Trim(s) == ""
  }

  /** `sub` occurs in `s` starting at index `i`. */
  predicate OccursAt(s: string, sub: string, i: nat) {
    i + |sub| <= |s| && s[i..i + |sub|] == sub
  }

  /** `s.includes(sub)` */
  predicate Contains(s: string, sub: string) {
    exists i: nat | i <= |s| :: OccursAt(s, sub, i)
  }

  lemma {:induction false} TrimStartSlice(s: string) returns (i: nat)
    ensures i <= |s| && TrimStart(s) == s[i..]
    ensures AllTrimmable(s[..i])
    ensures i < |s| ==> !IsTrimmable(s[i])
    decreases |s|
  {
    if |s| > 0 && IsTrimmable(s[0]) {
      var j := TrimStartSlice(s[1..]);
      i := j + 1;
      assert s[1..][j..] == s[i..];
      assert s[..i] == [s[0]] + s[1..][..j];
    } else {
      i := 0;
    }
  }

  lemma {:induction false} TrimEndSlice(s: string) returns (j: nat)
    ensures j <= |s| && TrimEnd(s) == s[..j]
    ensures AllTrimmable(s[j..])
    ensures 0 < j ==> !IsTrimmable(s[j - 1])
    decreases |s|
  {
    if |s| > 0 && IsTrimmable(s[|s| - 1]) {
      var t := s[..|s| - 1];
      j := TrimEndSlice(t);
      assert t[..j] == s[..j];
      assert s[j..] == t[j..] + [s[|s| - 1]];
    } else {
      j := |s|;
    }
  }

  /** What `trim` means: the result is the slice of `s` left once every
      leading and trailing trimmable character is removed. */
  lemma TrimIsSlice(s: string) returns (i: nat, j: nat)
    ensures i <= j <= |s| && Trim(s) == s[i..j]
    ensures AllTrimmable(s[..i]) && AllTrimmable(s[j..])
    ensures i < j ==> !IsTrimmable(s[i]) && !IsTrimmable(s[j - 1])
    ensures i == j ==> AllTrimmable(s)
  {
    i := TrimStartSlice(s);
    var t := s[i..];
    var k := TrimEndSlice(t);
    j := i + k;
    assert t[..k] == s[i..j];
    assert t[k..] == s[j..];
    if i == j {
      assert s == s[..i] + s[j..];
    }
  }

  /** A required field is blank exactly when it holds trimmable characters only. */
  lemma {:induction false} TrimStartAll(s: string)
    requires AllTrimmable(s)
    ensures TrimStart(s) == ""
    decreases |s|
  {
    if |s| > 0 {
      assert IsTrimmable(s[0]);
      TrimStartAll(s[1..]);
    }
  }

  lemma BlankIff(s: string)
    ensures IsBlank(s) <==> AllTrimmable(s)
  {
    var i, j := TrimIsSlice(s);
    if AllTrimmable(s) {
      TrimStartAll(s);
    }
  }
}
