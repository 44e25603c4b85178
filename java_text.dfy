/**
 * The few pieces of java.lang.String and java.lang.Boolean that the adapter
 * relies on: `String.trim`, `String.equalsIgnoreCase` and
 * `Boolean.parseBoolean`.
 */
module JavaText {
  import opened Wrappers

  /** `String.trim` strips every character whose code is at most U+0020. */
  predicate Trimmable(c: char) {
    c <= ' '
  }

  /** A string that `trim` reduces to the empty string. */
  predicate IsBlank(s: string) {
    forall i :: 0 <= i < |s| ==> Trimmable(s[i])
  }

  function TrimLeading(s: string): (t: string)
    ensures t == [] || !Trimmable(t[0])
    decreases |s|
  {
    if s != [] && Trimmable(s[0]) then TrimLeading(s[1..]) else s
  }

  function TrimTrailing(s: string): string
    decreases |s|
  {
    if s != [] && Trimmable(s[|s| - 1]) then TrimTrailing(s[..|s| - 1]) else s
  }

  /** `String.trim()`: drop trimmable characters at both ends. */
  function Trim(s: string): string {
    TrimTrailing(TrimLeading(s))
  }

  lemma {:induction false} TrimLeadingEmpty(s: string)
    ensures TrimLeading(s) == [] <==> IsBlank(s)
    decreases |s|
  {
    if s != [] && Trimmable(s[0]) {
      TrimLeadingEmpty(s[1..]);
      assert IsBlank(s) <==> IsBlank(s[1..]) by {
        if IsBlank(s[1..]) {
          forall i | 0 <= i < |s| ensures Trimmable(s[i]) {
            if i > 0 { assert s[i] == s[1..][i - 1]; }
          }
        }
        if IsBlank(s) {
          forall i | 0 <= i < |s| - 1 ensures Trimmable(s[1..][i]) {
            assert s[1..][i] == s[i + 1];
          }
        }
      }
    } else if s != [] {
      assert !Trimmable(s[0]);
    }
  }

  lemma {:induction false} TrimTrailingEmpty(s: string)
    ensures TrimTrailing(s) == [] <==> IsBlank(s)
    decreases |s|
  {
    if s != [] && Trimmable(s[|s| - 1]) {
      var init := s[..|s| - 1];
      TrimTrailingEmpty(init);
      assert IsBlank(s) <==> IsBlank(init) by {
        if IsBlank(init) {
          forall i | 0 <= i < |s| ensures Trimmable(s[i]) {
            if i < |s| - 1 { assert s[i] == init[i]; }
          }
        }
        if IsBlank(s) {
          forall i | 0 <= i < |init| ensures Trimmable(init[i]) {
            assert init[i] == s[i];
          }
        }
      }
    } else if s != [] {
      assert !Trimmable(s[|s| - 1]);
    }
  }

  /** `s.trim().isEmpty()` holds exactly for strings made only of trimmable characters. */
  lemma TrimEmptyIffBlank(s: string)
    ensures Trim(s) == [] <==> IsBlank(s)
  {
    var t := TrimLeading(s);
    TrimLeadingEmpty(s);
    TrimTrailingEmpty(t);
    if t != [] {
      assert !Trimmable(t[0]);
      assert !IsBlank(t);
    }
  }

  /** ASCII case folding; no non-ASCII character folds to a letter of "true". */
  function ToLowerAscii(c: char): char {
    if 'A' <= c <= 'Z' then (c as int + 32) as char else c
  }

  function ToUpperAscii(c: char): char {
    if 'a' <= c <= 'z' then (c as int - 32) as char else c
  }

  /** `Character`-wise comparison of `String.equalsIgnoreCase`. */
  predicate CharEqualsIgnoreCase(a: char, b: char) {
    a == b || ToUpperAscii(a) == ToUpperAscii(b) || ToLowerAscii(a) == ToLowerAscii(b)
  }

  /** `a.equalsIgnoreCase(b)` for a non-null `b`. */
  predicate EqualsIgnoreCase(a: string, b: string) {
    |a| == |b| && forall i :: 0 <= i < |a| ==> CharEqualsIgnoreCase(a[i], b[i])
  }

  /**
   * `Boolean.parseBoolean(v)`: true exactly when `v` is non-null and equals
   * "true" ignoring case.
   */
  function ParseBoolean(v: Option<string>): (b: bool)
    ensures b <==> v.Some? && |v.value| == 4 &&
                   ToLowerAscii(v.value[0]) == 't' && ToLowerAscii(v.value[1]) == 'r' &&
                   ToLowerAscii(v.value[2]) == 'u' && ToLowerAscii(v.value[3]) == 'e'
  {
    v.Some? && EqualsIgnoreCase(v.value, "true")
  }

  /** Sample values: case does not matter, null and anything else read as false. */
  lemma ParseBooleanSamples()
    ensures ParseBoolean(Some("true")) && ParseBoolean(Some("TRUE")) && ParseBoolean(Some("tRuE"))
    ensures !ParseBoolean(None) && !ParseBoolean(Some("")) && !ParseBoolean(Some("yes"))
    ensures !ParseBoolean(Some("1")) && !ParseBoolean(Some(" true"))
  {
  }
}
