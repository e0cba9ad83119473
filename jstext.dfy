/**
  The JavaScript string built-ins that the assistant panel and the card ids use: `String.prototype.trim`,
  `String.prototype.toLowerCase` (ASCII letters only, see README) and
  `s.replace(/\s+/g, sep)` for a plain separator.  `trim` and the regular-expression class `\s` both use
  ECMAScript's WhiteSpace and LineTerminator code points, so one predicate
  serves both.
 */
module JsText {

  /** ECMAScript WhiteSpace or LineTerminator: what `trim` strips and `\s` matches. */
  predicate IsWhitespace(c: char) {
    var n := c as int;
    (9 <= n <= 13) || n == 0x20 || n == 0xA0 || n == 0x1680 ||
    (0x2000 <= n <= 0x200A) || n == 0x2028 || n == 0x2029 ||
    n == 0x202F || n == 0x205F || n == 0x3000 || n == 0xFEFF
  }

  predicate AllWhitespace(s: string) {
    forall i :: 0 <= i < |s| ==> IsWhitespace(s[i])
  }

  predicate NoWhitespace(s: string) {
    forall i :: 0 <= i < |s| ==> !IsWhitespace(s[i])
  }

  /** Drops the leading whitespace: the result is the suffix of `s` that starts at
      its first non-whitespace character (empty if there is none). */
  function TrimStart(s: string): (r: string)
    ensures |r| <= |s|
    ensures r == [] || !IsWhitespace(r[0])
    ensures s != [] && IsWhitespace(s[0]) ==> |r| < |s|
  {
    if s != [] && IsWhitespace(s[0]) then TrimStart(s[1..]) else s
  }

  /** Drops the trailing whitespace: the result is the prefix of `s` that ends at
      its last non-whitespace character (empty if there is none). */
  function TrimEnd(s: string): (r: string)
    ensures |r| <= |s| && r == s[..|r|]
    ensures AllWhitespace(s[|r|..])
    ensures r == [] || !IsWhitespace(r[|r| - 1])
  {
    if s != [] && IsWhitespace(s[|s| - 1]) then TrimEnd(s[..|s| - 1]) else s
  }

  /** `s.trim()` */
  function Trim(s: string): string {
    TrimEnd(TrimStart(s))
  }

  /** `!s.trim()`: the trimmed string is the empty, falsy string. */
  predicate IsBlank(s: string) {
    Trim(s) == ""
  }

  /** A string is blank exactly when every one of its characters is whitespace. */
  lemma BlankIffAllWhitespace(s: string)
    ensures IsBlank(s) <==> AllWhitespace(s)
  {
    TrimStartEmptyIff(s);
    if TrimStart(s) != [] {
      TrimEndKeepsFirst(TrimStart(s));
    }
  }

  /** What `TrimStart` removes: the result is a suffix of `s`, everything before it is
      whitespace, and it is empty or starts with a non-whitespace character.  (These
      facts are kept out of the function's own contract, which every use of `trim`
      would otherwise carry.) */
  lemma {:induction false} TrimStartSpec(s: string)
    ensures TrimStart(s) == s[|s| - |TrimStart(s)|..]
    ensures AllWhitespace(s[..|s| - |TrimStart(s)|])
    ensures TrimStart(s) == [] || !IsWhitespace(TrimStart(s)[0])
    decreases |s|
  {
    if s != [] && IsWhitespace(s[0]) {
      TrimStartSpec(s[1..]);
      var k := |s| - |TrimStart(s)|;
      forall i | 0 <= i < k ensures IsWhitespace(s[i]) {
        if i > 0 { assert s[i] == s[1..][..k - 1][i - 1]; }
      }
    }
  }

  /** Trimming the start leaves nothing exactly when everything is whitespace. */
  lemma {:induction false} TrimStartEmptyIff(s: string)
    ensures TrimStart(s) == [] <==> AllWhitespace(s)
    decreases |s|
  {
    if s != [] && IsWhitespace(s[0]) {
      TrimStartEmptyIff(s[1..]);
      assert AllWhitespace(s[1..]) ==> AllWhitespace(s) by {
        if AllWhitespace(s[1..]) {
          forall i | 1 <= i < |s| ensures IsWhitespace(s[i]) { assert s[i] == s[1..][i - 1]; }
        }
      }
    }
  }

  /** Trimming the end of a string that starts with a non-whitespace character keeps it. */
  lemma {:induction false} TrimEndKeepsFirst(t: string)
    requires t != [] && !IsWhitespace(t[0])
    ensures TrimEnd(t) != []
    decreases |t|
  {
    if IsWhitespace(t[|t| - 1]) {
      assert |t| > 1;
      TrimEndKeepsFirst(t[..|t| - 1]);
    }
  }

  /** A string whose last character is not whitespace is not blank. */
  lemma NotBlankWhenEndsSolid(s: string)
    requires s != [] && !IsWhitespace(s[|s| - 1])
    ensures !IsBlank(s)
  {
    BlankIffAllWhitespace(s);
  }

  function LowerChar(c: char): char {
    if 'A' <= c <= 'Z' then (c as int + 32) as char else c
  }

  /** `s.toLowerCase()`, restricted to the ASCII letters. */
  function Lower(s: string): (r: string)
    ensures |r| == |s|
    ensures forall i :: 0 <= i < |s| ==> r[i] == LowerChar(s[i])
    ensures IsLowerCase(r)
    ensures forall i :: 0 <= i < |s| ==> (IsWhitespace(r[i]) <==> IsWhitespace(s[i]))
  {
    seq(|s|, i requires 0 <= i < |s| => LowerChar(s[i]))
  }

  /** No upper-case ASCII letter in `s`. */
  predicate IsLowerCase(s: string) {
    forall i :: 0 <= i < |s| ==> !('A' <= s[i] <= 'Z')
  }

  /** `s.replace(/\s+/g, sep)` for a separator without `$` patterns (JavaScript would
      expand `$&`, `$$` and the like; the card ids use `"-"`): every maximal run of
      whitespace becomes one `sep`. */
  function ReplaceWhitespaceRuns(s: string, sep: string): string
    decreases |s|
  {
    if s == [] then []
    else if IsWhitespace(s[0]) then
      var rest := TrimStart(s);
      sep + ReplaceWhitespaceRuns(rest, sep)
    else [s[0]] + ReplaceWhitespaceRuns(s[1..], sep)
  }

  /** Every character of the result comes from `s` or from `sep`. */
  lemma {:induction false} ReplaceKeepsChars(s: string, sep: string, c: char)
    requires c in ReplaceWhitespaceRuns(s, sep)
    ensures c in s || c in sep
    decreases |s|
  {
    if s == [] {
    } else if IsWhitespace(s[0]) {
      var rest := TrimStart(s);
      if c !in sep {
        ReplaceKeepsChars(rest, sep, c);
        TrimStartSpec(s);
      }
    } else {
      if c != s[0] {
        ReplaceKeepsChars(s[1..], sep, c);
      }
    }
  }

  /** With a whitespace-free separator no whitespace survives the replacement. */
  lemma ReplaceRemovesWhitespace(s: string, sep: string)
    requires NoWhitespace(sep)
    ensures NoWhitespace(ReplaceWhitespaceRuns(s, sep))
  {
    var r := ReplaceWhitespaceRuns(s, sep);
    forall i | 0 <= i < |r| ensures !IsWhitespace(r[i]) {
      ReplaceKeepsChars(s, sep, r[i]);
      if r[i] in sep {
        var j :| 0 <= j < |sep| && sep[j] == r[i];
      } else {
        ReplaceWhitespaceFreeChars(s, sep, r[i]);
      }
    }
  }

  /** A character of the result that is not in `sep` is a non-whitespace character of `s`. */
  lemma {:induction false} ReplaceWhitespaceFreeChars(s: string, sep: string, c: char)
    requires c in ReplaceWhitespaceRuns(s, sep) && c !in sep
    ensures !IsWhitespace(c)
    decreases |s|
  {
    if s == [] {
    } else if IsWhitespace(s[0]) {
      var rest := TrimStart(s);
      ReplaceWhitespaceFreeChars(rest, sep, c);
    } else if c != s[0] {
      ReplaceWhitespaceFreeChars(s[1..], sep, c);
    }
  }

  /** A string without whitespace is left as it is. */
  lemma {:induction false} ReplaceIdentity(s: string, sep: string)
    requires NoWhitespace(s)
    ensures ReplaceWhitespaceRuns(s, sep) == s
    decreases |s|
  {
    if s != [] {
      assert !IsWhitespace(s[0]);
      ReplaceIdentity(s[1..], sep);
      assert s == [s[0]] + s[1..];
    }
  }

  /** Leading whitespace followed by a non-whitespace start is dropped exactly. */
  lemma {:induction false} TrimStartRun(run: string, y: string)
    requires AllWhitespace(run)
    requires y == [] || !IsWhitespace(y[0])
    ensures TrimStart(run + y) == y
    decreases |run|
  {
    if run == [] {
      assert run + y == y;
    } else {
      assert (run + y)[1..] == run[1..] + y;
      TrimStartRun(run[1..], y);
    }
  }

  /** Trimming the start of `x + z` only touches `x` when `x` has a non-whitespace character. */
  lemma {:induction false} TrimStartAppend(x: string, z: string)
    requires TrimStart(x) != []
    ensures TrimStart(x + z) == TrimStart(x) + z
    decreases |x|
  {
    if IsWhitespace(x[0]) {
      assert (x + z)[1..] == x[1..] + z;
      TrimStartAppend(x[1..], z);
    }
  }

  /** Trimming the start of a string that ends in a non-whitespace character keeps that end. */
  lemma {:induction false} TrimStartKeepsLast(x: string)
    requires x != [] && !IsWhitespace(x[|x| - 1])
    ensures TrimStart(x) != [] && TrimStart(x)[|TrimStart(x)| - 1] == x[|x| - 1]
    decreases |x|
  {
    if IsWhitespace(x[0]) {
      assert |x| > 1;
      TrimStartKeepsLast(x[1..]);
    }
  }

  lemma UnfoldWhitespaceStart(s: string, sep: string)
    requires s != [] && IsWhitespace(s[0])
    ensures ReplaceWhitespaceRuns(s, sep) == sep + ReplaceWhitespaceRuns(TrimStart(s), sep)
  {
  }

  lemma UnfoldSolidStart(s: string, sep: string)
    requires s != [] && !IsWhitespace(s[0])
    ensures ReplaceWhitespaceRuns(s, sep) == [s[0]] + ReplaceWhitespaceRuns(s[1..], sep)
  {
  }

  /** A whitespace run in front of a non-whitespace start becomes one `sep`. */
  lemma ReplaceLeadingRun(run: string, y: string, sep: string)
    requires run != [] && AllWhitespace(run)
    requires y == [] || !IsWhitespace(y[0])
    ensures ReplaceWhitespaceRuns(run + y, sep) == sep + ReplaceWhitespaceRuns(y, sep)
  {
    TrimStartRun(run, y);
    UnfoldWhitespaceStart(run + y, sep);
  }

  /** A non-whitespace first character is copied in front of the rest's replacement. */
  lemma ReplaceSolidHead(c: char, x: string, rest: string, sep: string, tail: string)
    requires !IsWhitespace(c)
    requires ReplaceWhitespaceRuns(x + rest, sep) == ReplaceWhitespaceRuns(x, sep) + tail
    ensures ReplaceWhitespaceRuns([c] + x + rest, sep) == ReplaceWhitespaceRuns([c] + x, sep) + tail
  {
    assert ([c] + x + rest)[1..] == x + rest;
    assert ([c] + x)[1..] == x;
    UnfoldSolidStart([c] + x + rest, sep);
    UnfoldSolidStart([c] + x, sep);
  }

  /** Leading whitespace of `x` is replaced the same way whatever follows `x`. */
  lemma ReplaceWhitespaceHead(x: string, rest: string, sep: string, tail: string)
    requires x != [] && IsWhitespace(x[0]) && TrimStart(x) != []
    requires ReplaceWhitespaceRuns(TrimStart(x) + rest, sep) == ReplaceWhitespaceRuns(TrimStart(x), sep) + tail
    ensures ReplaceWhitespaceRuns(x + rest, sep) == ReplaceWhitespaceRuns(x, sep) + tail
  {
    TrimStartAppend(x, rest);
    UnfoldWhitespaceStart(x + rest, sep);
    UnfoldWhitespaceStart(x, sep);
  }

  /** The replacement of a string that has a maximal whitespace run in the middle is
      the replacement of the part before the run, then `sep`, then the replacement of
      the part after it. */
  lemma {:induction false} ReplaceSplitsAtRun(x: string, run: string, y: string, sep: string)
    requires x == [] || !IsWhitespace(x[|x| - 1])
    requires run != [] && AllWhitespace(run)
    requires y == [] || !IsWhitespace(y[0])
    ensures ReplaceWhitespaceRuns(x + (run + y), sep)
         == ReplaceWhitespaceRuns(x, sep) + (sep + ReplaceWhitespaceRuns(y, sep))
    decreases |x|
  {
    if x == [] {
      assert x + (run + y) == run + y;
      ReplaceLeadingRun(run, y, sep);
    } else if !IsWhitespace(x[0]) {
      ReplaceSplitsAtRun(x[1..], run, y, sep);
      assert [x[0]] + x[1..] == x;
      ReplaceSolidHead(x[0], x[1..], run + y, sep, sep + ReplaceWhitespaceRuns(y, sep));
    } else {
      TrimStartKeepsLast(x);
      ReplaceSplitsAtRun(TrimStart(x), run, y, sep);
      ReplaceWhitespaceHead(x, run + y, sep, sep + ReplaceWhitespaceRuns(y, sep));
    }
  }
}
