/** The few JavaScript string semantics the core relies on: what counts as white
    space for `trim()` and the regular-expression class `\s`, and the truthiness
    of a value that may be null, undefined or a string. */
module JsText {

  /** WhiteSpace and LineTerminator code points of ECMAScript: the set removed
      by `String.prototype.trim` and matched by `\s`. */
  predicate IsSpace(c: char) {
    c == '\t' || c == '\n' || c == '\U{000B}' || c == '\U{000C}' || c == '\r' || c == ' ' ||
    c == '\U{00A0}' || c == '\U{1680}' || ('\U{2000}' <= c <= '\U{200A}') ||
    c == '\U{2028}' || c == '\U{2029}' || c == '\U{202F}' || c == '\U{205F}' ||
    c == '\U{3000}' || c == '\U{FEFF}'
  }

  predicate AllSpace(s: string) {
    forall i :: 0 <= i < |s| ==> IsSpace(s[i])
  }

  /** The end of the run of white space that starts at `i`. */
  function SpaceRunFrom(s: string, i: nat): (j: nat)
    requires i <= |s|
    ensures i <= j <= |s|
    ensures forall k :: i <= k < j ==> IsSpace(s[k])
    ensures j == |s| || !IsSpace(s[j])
    decreases |s| - i
  {
    if i < |s| && IsSpace(s[i]) then SpaceRunFrom(s, i + 1) else i
  }

  /** The start of the run of white space that ends at `j`, not going below `lo`. */
  function SpaceRunBefore(s: string, j: nat, lo: nat): (i: nat)
    requires lo <= j <= |s|
    ensures lo <= i <= j
    ensures forall k :: i <= k < j ==> IsSpace(s[k])
    ensures i == lo || !IsSpace(s[i - 1])
    decreases j - lo
  {
    if lo < j && IsSpace(s[j - 1]) then SpaceRunBefore(s, j - 1, lo) else j
  }

  /** `String.prototype.trim`: `s` without its leading and trailing white space. */
  function Trim(s: string): string {
    var a := SpaceRunFrom(s, 0);
    s[a..SpaceRunBefore(s, |s|, a)]
  }

  /** Trimming gives a contiguous piece of the input with no white space at
      either end, and everything cut off is white space. */
  lemma TrimShape(s: string)
    ensures exists k :: 0 <= k <= |s| - |Trim(s)| && Trim(s) == s[k..k + |Trim(s)|]
                        && AllSpace(s[..k]) && AllSpace(s[k + |Trim(s)|..])
    ensures Trim(s) == [] || (!IsSpace(Trim(s)[0]) && !IsSpace(Trim(s)[|Trim(s)| - 1]))
  {
    var a := SpaceRunFrom(s, 0);
    var b := SpaceRunBefore(s, |s|, a);
    assert Trim(s) == s[a..b];
    assert AllSpace(s[..a]);
    assert AllSpace(s[b..]);
  }

  /** A string trims to the empty string exactly when it is all white space. */
  lemma TrimEmptyIffAllSpace(s: string)
    ensures Trim(s) == [] <==> AllSpace(s)
  {
    var a := SpaceRunFrom(s, 0);
    var b := SpaceRunBefore(s, |s|, a);
    if AllSpace(s) {
      assert a == |s|;
    }
  }

  /** A string with no white space at either end trims to itself. */
  lemma TrimKeepsTidy(s: string)
    requires s != [] && !IsSpace(s[0]) && !IsSpace(s[|s| - 1])
    ensures Trim(s) == s
  {
    assert SpaceRunFrom(s, 0) == 0;
    assert SpaceRunBefore(s, |s|, 0) == |s|;
  }

  /** Trimming twice is trimming once. */
  lemma TrimIdempotent(s: string)
    ensures Trim(Trim(s)) == Trim(s)
  {
    var t := Trim(s);
    TrimShape(s);
    if t != [] {
      assert SpaceRunFrom(t, 0) == 0;
      assert SpaceRunBefore(t, |t|, 0) == |t|;
    }
  }

  /** A JavaScript value that is null, undefined or a string, as a record field
      typed `name?: string` may be when it arrives from the backend. */
  datatype Nullable = Null | Undefined | Str(s: string) {
    /** JavaScript truthiness: only a non-empty string is truthy. */
    predicate Truthy() {
      Str? && s != ""
    }
  }
}
