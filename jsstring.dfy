/**
 * The JavaScript string operations the handlers rely on: `trim`, ASCII
 * `toLowerCase`/`toUpperCase`, `startsWith`, `endsWith`, `includes`,
 * `split`/`join` on one separator character, the `<` order on strings
 * and the decimal rendering of a counter.
 */
module JsString {
  import opened Wrappers

  /**
   * `String.prototype.length`: the number of UTF-16 code units, two for a
   * character outside the Basic Multilingual Plane and one for any other.
   */
  function Utf16Length(s: string): (n: nat)
    ensures |s| <= n <= 2 * |s|
    decreases |s|
  {
    if |s| == 0 then 0
    else Utf16Length(s[..|s| - 1]) + (if s[|s| - 1] as int >= 0x1_0000 then 2 else 1)
  }

  /** Text inside the Basic Multilingual Plane has one code unit per character. */
  lemma {:induction false} BmpLength(s: string)
    requires forall i :: 0 <= i < |s| ==> s[i] as int < 0x1_0000
    ensures Utf16Length(s) == |s|
    decreases |s|
  {
    if |s| > 0 {
      BmpLength(s[..|s| - 1]);
    }
  }

  /** Text made only of characters outside the Basic Multilingual Plane has two code units per character. */
  lemma {:induction false} AstralLength(s: string)
    requires forall i :: 0 <= i < |s| ==> s[i] as int >= 0x1_0000
    ensures Utf16Length(s) == 2 * |s|
    decreases |s|
  {
    if |s| > 0 {
      AstralLength(s[..|s| - 1]);
    }
  }

  /** The characters `String.prototype.trim` removes (white space and line terminators). */
  predicate IsTrimmable(c: char) {
    var n := c as int;
    n == 0x09 || n == 0x0A || n == 0x0B || n == 0x0C || n == 0x0D || n == 0x20
    || n == 0xA0 || n == 0x1680 || (0x2000 <= n <= 0x200A)
    || n == 0x2028 || n == 0x2029 || n == 0x202F || n == 0x205F
    || n == 0x3000 || n == 0xFEFF
  }

  function TrimStart(s: string): (r: string)
    ensures |r| <= |s| && r == s[|s| - |r|..]
    ensures r == [] || !IsTrimmable(r[0])
    ensures forall i :: 0 <= i < |s| - |r| ==> IsTrimmable(s[i])
  {
    if |s| > 0 && IsTrimmable(s[0]) then TrimStart(s[1..]) else s
  }

  function TrimEnd(s: string): (r: string)
    ensures |r| <= |s| && r == s[..|r|]
    ensures r == [] || !IsTrimmable(r[|r| - 1])
    ensures forall i :: |r| <= i < |s| ==> IsTrimmable(s[i])
  {
    if |s| > 0 && IsTrimmable(s[|s| - 1]) then TrimEnd(s[..|s| - 1]) else s
  }

  lemma TrimEndKeepsFirst(s: string)
    requires s != [] && !IsTrimmable(s[0])
    ensures TrimEnd(s) != [] && TrimEnd(s)[0] == s[0]
  {
  }

  /** `String.prototype.trim`: the middle of `s` between leading and trailing white space. */
  function Trim(s: string): (r: string)
    ensures |r| <= |s|
    ensures r == [] || (!IsTrimmable(r[0]) && !IsTrimmable(r[|r| - 1]))
    ensures r == [] <==> forall i :: 0 <= i < |s| ==> IsTrimmable(s[i])
  {
    var t := TrimStart(s);
    if t == [] then [] else TrimEndKeepsFirst(t); TrimEnd(t)
  }

  /** The trimmed text is the infix of `s` between its leading and its trailing white space. */
  lemma TrimIsInfix(s: string) returns (a: nat)
    ensures a + |Trim(s)| <= |s| && Trim(s) == s[a..a + |Trim(s)|]
    ensures forall i :: 0 <= i < a ==> IsTrimmable(s[i])
    ensures forall i :: a + |Trim(s)| <= i < |s| ==> IsTrimmable(s[i])
  {
    var t := TrimStart(s);
    a := |s| - |t|;
    assert t == s[a..] && Trim(s) == TrimEnd(t);
    PrefixOfSuffix(s, a, TrimEnd(t));
  }

  /** A prefix of `s[a..]` followed there only by white space sits in `s` with only white space after it. */
  lemma PrefixOfSuffix(s: string, a: nat, u: string)
    requires a <= |s| && |u| <= |s| - a && u == s[a..][..|u|]
    requires forall i :: |u| <= i < |s| - a ==> IsTrimmable(s[a..][i])
    ensures u == s[a..a + |u|]
    ensures forall i :: a + |u| <= i < |s| ==> IsTrimmable(s[i])
  {
    forall i | a + |u| <= i < |s|
      ensures IsTrimmable(s[i])
    {
      assert s[i] == s[a..][i - a];
    }
  }

  /**
   * Any infix of `s` that has only white space around it and none at its
   * own ends is the trimmed text: together with `Trim`'s contract and
   * `TrimIsInfix`, this determines `Trim(s)` completely.
   */
  lemma TrimUnique(s: string, a: nat, r: string)
    requires a + |r| <= |s| && r == s[a..a + |r|]
    requires forall i :: 0 <= i < a ==> IsTrimmable(s[i])
    requires forall i :: a + |r| <= i < |s| ==> IsTrimmable(s[i])
    requires r == [] || (!IsTrimmable(r[0]) && !IsTrimmable(r[|r| - 1]))
    ensures Trim(s) == r
  {
    var b := TrimIsInfix(s);
    var t := Trim(s);
    if r == [] {
      assert forall i :: 0 <= i < |s| ==> IsTrimmable(s[i]) by {
        forall i | 0 <= i < |s| ensures IsTrimmable(s[i]) {
          if i >= a { assert a + |r| <= i; }
        }
      }
    } else {
      assert t != [] by {
        assert !IsTrimmable(s[a]);
      }
      assert s[a] == r[0] && s[b] == t[0];
      assert a == b;
      assert s[a + |r| - 1] == r[|r| - 1] && s[b + |t| - 1] == t[|t| - 1];
      assert a + |r| == b + |t|;
    }
  }

  /** Trimming a string that already has no white space at either end changes nothing. */
  lemma TrimClean(s: string)
    requires s == [] || (!IsTrimmable(s[0]) && !IsTrimmable(s[|s| - 1]))
    ensures Trim(s) == s
  {
  }

  /** `s?.trim() || ''` for a string that may be missing. */
  function TrimmedOrEmpty(s: Option<string>): (r: string)
    ensures r == "" || (s.Some? && r == Trim(s.value))
    ensures s.Some? ==> r == Trim(s.value)
  {
    if s.Some? then Trim(s.value) else ""
  }

  /** Trimming removes characters and adds none. */
  lemma TrimKeepsChars(s: string, c: char)
    requires c in Trim(s)
    ensures c in s
  {
    var t := TrimStart(s);
    var r := Trim(s);
    var i :| 0 <= i < |r| && r[i] == c;
    assert r == TrimEnd(t);
    assert r[i] == t[i] == s[|s| - |t| + i];
  }

  lemma TrimIdempotent(s: string)
    ensures Trim(Trim(s)) == Trim(s)
  {
    TrimClean(Trim(s));
  }

  function LowerChar(c: char): char {
    if 'A' <= c <= 'Z' then (c as int + 32) as char else c
  }

  function UpperChar(c: char): char {
    if 'a' <= c <= 'z' then (c as int - 32) as char else c
  }

  /** `toLowerCase`, on the ASCII letters. */
  function Lower(s: string): (r: string)
    ensures |r| == |s|
    ensures forall i :: 0 <= i < |s| ==> r[i] == LowerChar(s[i])
  {
    if s == [] then [] else [LowerChar(s[0])] + Lower(s[1..])
  }

  /** `toUpperCase`, on the ASCII letters. */
  function Upper(s: string): (r: string)
    ensures |r| == |s|
    ensures forall i :: 0 <= i < |s| ==> r[i] == UpperChar(s[i])
  {
    if s == [] then [] else [UpperChar(s[0])] + Upper(s[1..])
  }

  lemma LowerIdempotent(s: string)
    ensures Lower(Lower(s)) == Lower(s)
  {
  }

  predicate StartsWith(s: string, prefix: string) {
    |prefix| <= |s| && s[..|prefix|] == prefix
  }

  predicate EndsWith(s: string, suffix: string) {
    |suffix| <= |s| && s[|s| - |suffix|..] == suffix
  }

  /** `String.prototype.includes`: `sub` occurs somewhere in `s`. */
  predicate Contains(s: string, sub: string)
    decreases |s|
  {
    StartsWith(s, sub) || (|s| > 0 && Contains(s[1..], sub))
  }

  lemma ContainsAt(s: string, sub: string, i: nat)
    requires i + |sub| <= |s| && s[i..i + |sub|] == sub
    ensures Contains(s, sub)
    decreases i
  {
    if i > 0 {
      assert s[1..][i - 1..i - 1 + |sub|] == s[i..i + |sub|];
      ContainsAt(s[1..], sub, i - 1);
    }
  }

  lemma ContainsEmpty(s: string)
    ensures Contains(s, "")
  {
  }

  // ---------------------------------------------------------------------
  // split / join on a single separator character

  /** `s.split(sep)`: the maximal runs of `s` between separators, never empty. */
  function Split(s: string, sep: char): (r: seq<string>)
    ensures |r| >= 1
    ensures forall k :: 0 <= k < |r| ==> sep !in r[k]
    decreases |s|
  {
    if |s| == 0 then [""]
    else if s[0] == sep then [""] + Split(s[1..], sep)
    else
      var rest := Split(s[1..], sep);
      [[s[0]] + rest[0]] + rest[1..]
  }

  /** `parts.join(sep)`. */
  function Join(parts: seq<string>, sep: char): string
    decreases |parts|
  {
    if |parts| == 0 then ""
    else if |parts| == 1 then parts[0]
    else parts[0] + [sep] + Join(parts[1..], sep)
  }

  /** Joining the pieces of a split restores the string. */
  lemma {:induction false} JoinSplit(s: string, sep: char)
    ensures Join(Split(s, sep), sep) == s
    decreases |s|
  {
    if |s| == 0 {
    } else if s[0] == sep {
      JoinSplit(s[1..], sep);
      assert s == [sep] + s[1..];
    } else {
      var rest := Split(s[1..], sep);
      JoinSplit(s[1..], sep);
      assert s == [s[0]] + s[1..];
      if |rest| == 1 {
      } else {
        assert ([[s[0]] + rest[0]] + rest[1..])[1..] == rest[1..];
        assert Join(rest, sep) == rest[0] + [sep] + Join(rest[1..], sep);
      }
    }
  }

  /** Every occurrence of `a` in `s` replaced by `b`. */
  function ReplaceChar(s: string, a: char, b: char): (r: string)
    ensures |r| == |s|
    ensures forall i :: 0 <= i < |s| ==> r[i] == (if s[i] == a then b else s[i])
  {
    if s == [] then [] else [if s[0] == a then b else s[0]] + ReplaceChar(s[1..], a, b)
  }

  /** `s.split(a).join(b)` replaces each `a` by `b`. */
  lemma {:induction false} SplitJoinReplaces(s: string, a: char, b: char)
    ensures Join(Split(s, a), b) == ReplaceChar(s, a, b)
    decreases |s|
  {
    if |s| > 0 {
      var rest := Split(s[1..], a);
      var tail := ReplaceChar(s[1..], a, b);
      SplitJoinReplaces(s[1..], a, b);
      assert Join(rest, b) == tail;
      if s[0] == a {
        var parts := [""] + rest;
        assert Split(s, a) == parts;
        assert parts[1..] == rest;
        assert Join(parts, b) == "" + [b] + tail;
        assert ReplaceChar(s, a, b) == [b] + tail;
      } else {
        var parts := [[s[0]] + rest[0]] + rest[1..];
        assert Split(s, a) == parts;
        assert ReplaceChar(s, a, b) == [s[0]] + tail;
        if |rest| > 1 {
          assert parts[1..] == rest[1..];
          assert Join(rest, b) == rest[0] + [b] + Join(rest[1..], b);
          assert Join(parts, b) == [s[0]] + rest[0] + [b] + Join(rest[1..], b);
        }
      }
    }
  }

  lemma {:induction false} JoinSnoc(parts: seq<string>, x: string, sep: char)
    requires |parts| >= 1
    ensures Join(parts + [x], sep) == Join(parts, sep) + [sep] + x
    decreases |parts|
  {
    if |parts| == 1 {
    } else {
      assert (parts + [x])[1..] == parts[1..] + [x];
      JoinSnoc(parts[1..], x, sep);
    }
  }

  /** Joining two non-empty lists of pieces puts one separator between their joins. */
  lemma {:induction false} JoinAppend(a: seq<string>, b: seq<string>, sep: char)
    requires |a| >= 1 && |b| >= 1
    ensures Join(a + b, sep) == Join(a, sep) + [sep] + Join(b, sep)
    decreases |a|
  {
    if |a| == 1 {
      assert (a + b)[1..] == b;
    } else {
      assert (a + b)[1..] == a[1..] + b;
      JoinAppend(a[1..], b, sep);
    }
  }

  /** Lowering the case keeps the positions of a separator that is not a letter. */
  lemma {:induction false} SplitLower(s: string, sep: char)
    requires !('A' <= sep <= 'Z') && !('a' <= sep <= 'z')
    ensures |Split(Lower(s), sep)| == |Split(s, sep)|
    ensures forall k :: 0 <= k < |Split(s, sep)| ==> Split(Lower(s), sep)[k] == Lower(Split(s, sep)[k])
    decreases |s|
  {
    if |s| > 0 {
      var l := Lower(s);
      assert l[0] == LowerChar(s[0]) && l[1..] == Lower(s[1..]);
      SplitLower(s[1..], sep);
      var rest, lrest := Split(s[1..], sep), Split(l[1..], sep);
      assert LoweredParts(lrest, rest);
      if s[0] == sep {
        LoweredCons(lrest, rest);
        assert Split(l, sep) == [""] + lrest;
      } else {
        LoweredHead(s[0], lrest, rest);
        assert Split(l, sep) == [[l[0]] + lrest[0]] + lrest[1..];
      }
      assert LoweredParts(Split(l, sep), Split(s, sep));
    }
  }

  /** Each piece of `lp` is the lowered piece of `p` at the same position. */
  predicate LoweredParts(lp: seq<string>, p: seq<string>) {
    |lp| == |p| && forall k :: 0 <= k < |p| ==> lp[k] == Lower(p[k])
  }

  lemma LoweredCons(lp: seq<string>, p: seq<string>)
    requires LoweredParts(lp, p)
    ensures LoweredParts([""] + lp, [""] + p)
  {
    forall k | 0 <= k < |p| + 1
      ensures ([""] + lp)[k] == Lower(([""] + p)[k])
    {
      if k > 0 {
        assert ([""] + lp)[k] == lp[k - 1] && ([""] + p)[k] == p[k - 1];
      }
    }
  }

  lemma LoweredHead(c: char, lp: seq<string>, p: seq<string>)
    requires LoweredParts(lp, p) && |p| >= 1
    ensures LoweredParts([[LowerChar(c)] + lp[0]] + lp[1..], [[c] + p[0]] + p[1..])
  {
    assert Lower([c] + p[0]) == [LowerChar(c)] + Lower(p[0]);
  }

  /** `s.split(sep).pop()` of the lowered string is the lowered last segment. */
  lemma LastSegmentLower(s: string, sep: char)
    requires !('A' <= sep <= 'Z') && !('a' <= sep <= 'z')
    ensures LastSegment(Lower(s), sep) == Lower(LastSegment(s, sep))
  {
    SplitLower(s, sep);
  }

  lemma JoinSingle(x: string, sep: char)
    ensures Join([x], sep) == x
  {
  }

  lemma {:induction false} JoinLength(parts: seq<string>, sep: char)
    requires |parts| >= 1
    ensures |Join(parts, sep)| >= |parts| - 1
    decreases |parts|
  {
    if |parts| > 1 {
      JoinLength(parts[1..], sep);
    }
  }

  /** The text after the last separator: `s.split(sep).pop()`. */
  function LastSegment(s: string, sep: char): string {
    var parts := Split(s, sep);
    parts[|parts| - 1]
  }

  /** Everything before the last separator: `s.split(sep).slice(0, -1).join(sep)`. */
  function DropLastSegment(s: string, sep: char): string {
    var parts := Split(s, sep);
    Join(parts[..|parts| - 1], sep)
  }

  /**
   * A string is its part before the last separator, the separator and its
   * last segment; without a separator it is its own last segment.
   */
  lemma SplitAtLast(s: string, sep: char)
    ensures sep !in LastSegment(s, sep)
    ensures sep in s ==> s == DropLastSegment(s, sep) + [sep] + LastSegment(s, sep)
    ensures sep !in s ==> DropLastSegment(s, sep) == "" && LastSegment(s, sep) == s
  {
    var parts := Split(s, sep);
    JoinSplit(s, sep);
    if |parts| == 1 {
      assert Join(parts, sep) == parts[0];
    } else {
      assert parts == parts[..|parts| - 1] + [parts[|parts| - 1]];
      JoinSnoc(parts[..|parts| - 1], parts[|parts| - 1], sep);
      var d := DropLastSegment(s, sep);
      assert s == d + [sep] + LastSegment(s, sep);
      assert s[|d|] == sep;
    }
  }

  /** Appending a separator and a separator-free tail adds the tail as the last piece. */
  lemma {:induction false} SplitSnoc(head: string, sep: char, tail: string)
    requires sep !in tail
    ensures Split(head + [sep] + tail, sep) == Split(head, sep) + [tail]
    decreases |head|
  {
    var s := head + [sep] + tail;
    if |head| == 0 {
      assert s[1..] == tail;
      SplitNoSep(tail, sep);
    } else {
      assert s[1..] == head[1..] + [sep] + tail;
      SplitSnoc(head[1..], sep, tail);
    }
  }

  /** A string written as a head, a separator and a tail without separators splits there. */
  lemma SplitAtLastUnique(s: string, sep: char, head: string, tail: string)
    requires s == head + [sep] + tail && sep !in tail
    ensures DropLastSegment(s, sep) == head && LastSegment(s, sep) == tail
  {
    SplitSnoc(head, sep, tail);
    JoinSplit(head, sep);
    assert (Split(head, sep) + [tail])[..|Split(head, sep)|] == Split(head, sep);
  }

  lemma DropLastSegmentShorter(s: string, sep: char)
    ensures |DropLastSegment(s, sep)| <= |s|
    ensures sep in s ==> |DropLastSegment(s, sep)| < |s|
  {
    SplitAtLast(s, sep);
  }

  /** Joining pieces that hold no separator and splitting again gives the pieces back. */
  lemma {:induction false} SplitJoin(parts: seq<string>, sep: char)
    requires |parts| >= 1
    requires forall k :: 0 <= k < |parts| ==> sep !in parts[k]
    ensures Split(Join(parts, sep), sep) == parts
    decreases |parts|, |parts[0]|
  {
    if |parts| == 1 {
      SplitNoSep(parts[0], sep);
    } else if |parts[0]| == 0 {
      SplitJoin(parts[1..], sep);
      assert Join(parts, sep) == [sep] + Join(parts[1..], sep);
      assert [sep] + Join(parts[1..], sep) != [];
      assert parts == [""] + parts[1..];
    } else {
      var c := parts[0][0];
      var shorter := [parts[0][1..]] + parts[1..];
      assert shorter[1..] == parts[1..];
      SplitJoin(shorter, sep);
      var j := Join(parts, sep);
      assert j == [c] + Join(shorter, sep);
      assert j[0] == c && j[1..] == Join(shorter, sep);
      assert parts[0] == [c] + parts[0][1..];
    }
  }

  lemma {:induction false} SplitNoSep(s: string, sep: char)
    requires sep !in s
    ensures Split(s, sep) == [s]
    decreases |s|
  {
    if |s| > 0 {
      SplitNoSep(s[1..], sep);
      assert s == [s[0]] + s[1..];
    }
  }

  // ---------------------------------------------------------------------
  // the `<` order of JavaScript strings

  /** `a <= b` on strings: character by character, a proper prefix first. */
  predicate LexLe(a: string, b: string)
    decreases |a|
  {
    |a| == 0 || (|b| > 0 && (a[0] < b[0] || (a[0] == b[0] && LexLe(a[1..], b[1..]))))
  }

  lemma {:induction false} LexLeTotal(a: string, b: string)
    ensures LexLe(a, b) || LexLe(b, a)
    decreases |a|
  {
    if |a| > 0 && |b| > 0 && a[0] == b[0] {
      LexLeTotal(a[1..], b[1..]);
    }
  }

  lemma {:induction false} LexLeTrans(a: string, b: string, c: string)
    requires LexLe(a, b) && LexLe(b, c)
    ensures LexLe(a, c)
    decreases |a|
  {
    if |a| > 0 && a[0] == b[0] && b[0] == c[0] {
      LexLeTrans(a[1..], b[1..], c[1..]);
    }
  }

  lemma {:induction false} LexLeAntisym(a: string, b: string)
    requires LexLe(a, b) && LexLe(b, a)
    ensures a == b
    decreases |a|
  {
    if |a| > 0 {
      LexLeAntisym(a[1..], b[1..]);
      assert a == [a[0]] + a[1..] && b == [b[0]] + b[1..];
    }
  }

  // ---------------------------------------------------------------------
  // decimal rendering of a counter, as in a template literal `${n}`

  function DigitChar(d: nat): char
    requires d < 10
  {
    ('0' as int + d) as char
  }

  function Decimal(n: nat): (r: string)
    ensures |r| >= 1
    ensures forall k :: 0 <= k < |r| ==> '0' <= r[k] <= '9'
    decreases n
  {
    if n < 10 then [DigitChar(n)] else Decimal(n / 10) + [DigitChar(n % 10)]
  }

  function DigitValue(c: char): nat
    requires '0' <= c <= '9'
  {
    c as int - '0' as int
  }

  function ParseDecimal(s: string): nat
    requires forall k :: 0 <= k < |s| ==> '0' <= s[k] <= '9'
    decreases |s|
  {
    if |s| == 0 then 0 else ParseDecimal(s[..|s| - 1]) * 10 + DigitValue(s[|s| - 1])
  }

  /** Parsing the rendering of `n` gives `n` back, so distinct counters render differently. */
  lemma {:induction false} DecimalRoundTrip(n: nat)
    ensures ParseDecimal(Decimal(n)) == n
    decreases n
  {
    if n >= 10 {
      DecimalRoundTrip(n / 10);
      var r := Decimal(n);
      assert r[..|r| - 1] == Decimal(n / 10);
    }
  }

  lemma DecimalInjective(m: nat, n: nat)
    requires Decimal(m) == Decimal(n)
    ensures m == n
  {
    DecimalRoundTrip(m);
    DecimalRoundTrip(n);
  }
}
