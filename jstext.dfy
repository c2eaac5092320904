/** The two string primitives the form handlers rely on: `String.prototype.trim`
    and the `length` of a string, which counts UTF-16 code units. Characters
    here are Unicode scalar values. */
module JsText {

  /** ECMAScript's WhiteSpace and LineTerminator code points, the set that
      `trim` removes from both ends. */
  predicate IsJsWhitespace(c: char) {
    var n := c as int;
    n == 0x09 || n == 0x0A || n == 0x0B || n == 0x0C || n == 0x0D || n == 0x20 ||
    n == 0xA0 || n == 0x1680 || (0x2000 <= n <= 0x200A) || n == 0x2028 ||
    n == 0x2029 || n == 0x202F || n == 0x205F || n == 0x3000 || n == 0xFEFF
  }

  predicate AllJsWhitespace(s: string) {
    forall i | 0 <= i < |s| :: IsJsWhitespace(s[i])
  }

  /** `r` is the slice of `s` that starts at `i`, and everything of `s`
      before and after it is white space. */
  predicate SliceBetweenBlanks(s: string, i: int, r: string) {
    0 <= i <= |s| - |r| && r == s[i..i + |r|] && AllJsWhitespace(s[..i]) && AllJsWhitespace(s[i + |r|..])
  }

  /** Drops the leading white space: the result is the suffix of `s` that
      starts at its first non-white-space character. */
  function TrimStart(s: string): (r: string)
    ensures |r| <= |s| && r == s[|s| - |r|..]
    ensures AllJsWhitespace(s[..|s| - |r|])
    ensures r != [] ==> !IsJsWhitespace(r[0])
  {
    if s != [] && IsJsWhitespace(s[0]) then TrimStart(s[1..]) else s
  }

  /** Drops the trailing white space: the result is the prefix of `s` that
      ends at its last non-white-space character. */
  function TrimEnd(s: string): (r: string)
    ensures |r| <= |s| && r == s[..|r|]
    ensures AllJsWhitespace(s[|r|..])
    ensures r != [] ==> !IsJsWhitespace(r[|r| - 1])
  {
    if s != [] && IsJsWhitespace(s[|s| - 1]) then TrimEnd(s[..|s| - 1]) else s
  }

  /** `s.trim()`: the slice of `s` left once white space is removed from both
      ends. It is empty exactly when `s` is all white space. */
  function Trim(s: string): (r: string)
    ensures exists i :: SliceBetweenBlanks(s, i, r)
    ensures r != [] ==> !IsJsWhitespace(r[0]) && !IsJsWhitespace(r[|r| - 1])
    ensures r == [] <==> AllJsWhitespace(s)
  {
    var r := TrimEnd(TrimStart(s));
    TrimFacts(s, r);
    r
  }

  /** Everything `Trim` promises, gathered for the two passes it runs. */
  lemma {:induction false} TrimFacts(s: string, r: string)
    requires r == TrimEnd(TrimStart(s))
    ensures exists i :: SliceBetweenBlanks(s, i, r)
    ensures r != [] ==> !IsJsWhitespace(r[0]) && !IsJsWhitespace(r[|r| - 1])
    ensures r == [] <==> AllJsWhitespace(s)
  {
    TrimIsSlice(s, r);
    TrimKeepsFirst(s);
    TrimEmptyWhenBlank(s);
    TrimBlankWhenEmpty(s);
  }

  /** The two passes together cut a slice out of `s` with white space on
      either side of it. */
  lemma {:induction false} TrimIsSlice(s: string, r: string)
    requires r == TrimEnd(TrimStart(s))
    ensures exists i :: SliceBetweenBlanks(s, i, r)
  {
    var t := TrimStart(s);
    var i := |s| - |t|;
    assert r == s[i..i + |r|];
    assert s[i + |r|..] == t[|r|..];
    assert SliceBetweenBlanks(s, i, r);
  }

  lemma {:induction false} TrimKeepsFirst(s: string)
    ensures var r := TrimEnd(TrimStart(s)); r != [] ==> !IsJsWhitespace(r[0])
  {
    var t := TrimStart(s);
    var r := TrimEnd(t);
    if r != [] {
      assert r[0] == t[0];
    }
  }

  lemma {:induction false} TrimBlankWhenEmpty(s: string)
    ensures TrimEnd(TrimStart(s)) == [] ==> AllJsWhitespace(s)
  {
    var t := TrimStart(s);
    var r := TrimEnd(t);
    if r == [] {
      assert t[|r|..] == t;
      assert t == [];
      assert s[..|s|] == s;
    }
  }

  lemma {:induction false} TrimEmptyWhenBlank(s: string)
    ensures AllJsWhitespace(s) ==> TrimEnd(TrimStart(s)) == []
  {
    var t := TrimStart(s);
    assert forall k | 0 <= k < |t| :: t[k] == s[|s| - |t| + k];
    if AllJsWhitespace(s) {
      assert t == [];
    }
  }

  /** `s.length` in the page's script: characters outside the Basic
      Multilingual Plane take two UTF-16 code units. */
  function Utf16Length(s: string): (n: nat)
    ensures |s| <= n <= 2 * |s|
    ensures n == |s| <==> forall i | 0 <= i < |s| :: (s[i] as int) < 0x10000
  {
    if s == [] then 0
    else (if (s[0] as int) >= 0x10000 then 2 else 1) + Utf16Length(s[1..])
  }
}
