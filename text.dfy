/** The .NET string operations the bot relies on (`Split`, `StartsWith`,
    `Contains`, `Replace`, `TrimStart(char[])`, `Trim`, integer formatting),
    defined on `seq<char>`, with the facts about them that the rest of the
    model uses. */
module Text {

  // ---------------------------------------------------------------- prefixes

  predicate StartsWith(s: string, p: string) {
    |p| <= |s| && s[..|p|] == p
  }

  /** `s.Contains(p)`: `p` occurs somewhere in `s`. */
  predicate Contains(s: string, p: string)
    decreases |s|
  {
    StartsWith(s, p) || (|s| > 0 && Contains(s[1..], p))
  }

  lemma {:induction false} ContainsAt(s: string, p: string, k: nat)
    requires k + |p| <= |s| && s[k..k + |p|] == p
    ensures Contains(s, p)
    decreases k
  {
    if k > 0 {
      assert s[1..][k - 1..k - 1 + |p|] == s[k..k + |p|];
      ContainsAt(s[1..], p, k - 1);
    }
  }

  /** An occurrence of `p + q` is an occurrence of `p`. */
  lemma {:induction false} ContainsLonger(s: string, p: string, q: string)
    requires Contains(s, p + q)
    ensures Contains(s, p)
    decreases |s|
  {
    if StartsWith(s, p + q) {
      assert s[..|p|] == (p + q)[..|p|] == p;
    } else {
      ContainsLonger(s[1..], p, q);
    }
  }

  // --------------------------------------------------------------- splitting

  /** `s.Split(sep)` with the default options: every separator ends a part, so
      empty parts are kept and there is always at least one part. */
  function Split(s: string, sep: char): (r: seq<string>)
    ensures |r| >= 1
    ensures forall i :: 0 <= i < |r| ==> sep !in r[i]
    decreases |s|
  {
    if |s| == 0 then [""]
    else
      var rest := Split(s[1..], sep);
      if s[0] == sep then [""] + rest
      else [[s[0]] + rest[0]] + rest[1..]
  }

  /** `string.Join(sep, parts)`. */
  function Join(parts: seq<string>, sep: char): string
    decreases |parts|
  {
    if |parts| == 0 then ""
    else if |parts| == 1 then parts[0]
    else parts[0] + [sep] + Join(parts[1..], sep)
  }

  /** Splitting loses nothing: joining the parts with the separator gives the
      original text back. */
  lemma {:induction false} JoinSplit(s: string, sep: char)
    ensures Join(Split(s, sep), sep) == s
    decreases |s|
  {
    if |s| > 0 {
      var rest := Split(s[1..], sep);
      JoinSplit(s[1..], sep);
      if s[0] == sep {
        assert s == [sep] + s[1..];
      } else {
        var r := Split(s, sep);
        assert r[1..] == rest[1..];
        if |rest| == 1 {
          assert s == [s[0]] + rest[0];
        } else {
          assert Join(rest, sep) == rest[0] + [sep] + Join(rest[1..], sep);
          assert s == [s[0]] + rest[0] + [sep] + Join(rest[1..], sep);
        }
      }
    }
  }

  /** A separator-free head splits off as the first part. */
  lemma {:induction false} SplitAfter(a: string, b: string, sep: char)
    requires sep !in a
    ensures Split(a + [sep] + b, sep) == [a] + Split(b, sep)
    decreases |a|
  {
    if |a| == 0 {
      assert a + [sep] + b == [sep] + b;
      assert ([sep] + b)[1..] == b;
    } else {
      SplitAfter(a[1..], b, sep);
      assert (a + [sep] + b)[1..] == a[1..] + [sep] + b;
      assert [a[0]] + a[1..] == a;
    }
  }

  /** The first part is a prefix of the text. */
  lemma {:induction false} SplitHeadIsPrefix(s: string, sep: char)
    ensures StartsWith(s, Split(s, sep)[0])
    decreases |s|
  {
    if |s| > 0 && s[0] != sep {
      SplitHeadIsPrefix(s[1..], sep);
      var h := Split(s[1..], sep)[0];
      assert Split(s, sep)[0] == [s[0]] + h;
      assert s[..|h| + 1] == [s[0]] + s[1..][..|h|];
    }
  }

  /** A text without the separator is a single part. */
  lemma {:induction false} SplitNoSeparator(a: string, sep: char)
    requires sep !in a
    ensures Split(a, sep) == [a]
    decreases |a|
  {
    if |a| > 0 {
      SplitNoSeparator(a[1..], sep);
      assert [a[0]] + a[1..] == a;
    }
  }

  /** The non-empty parts, in order (`.Where(s => s.IsNotNullOrEmpty())`). */
  function NonEmpty(parts: seq<string>): (r: seq<string>)
    ensures forall i :: 0 <= i < |r| ==> r[i] != ""
    ensures forall x :: x in r ==> x in parts
    decreases |parts|
  {
    if |parts| == 0 then []
    else if parts[0] == "" then NonEmpty(parts[1..])
    else [parts[0]] + NonEmpty(parts[1..])
  }

  function Concat(parts: seq<string>): string
    decreases |parts|
  {
    if |parts| == 0 then "" else parts[0] + Concat(parts[1..])
  }

  /** `s` with every `c` taken out. */
  function Without(s: string, c: char): (r: string)
    ensures c !in r
    decreases |s|
  {
    if |s| == 0 then ""
    else if s[0] == c then Without(s[1..], c)
    else [s[0]] + Without(s[1..], c)
  }

  lemma {:induction false} ConcatNonEmpty(parts: seq<string>)
    ensures Concat(NonEmpty(parts)) == Concat(parts)
    decreases |parts|
  {
    if |parts| > 0 {
      ConcatNonEmpty(parts[1..]);
    }
  }

  lemma {:induction false} ConcatSplit(s: string, sep: char)
    ensures Concat(Split(s, sep)) == Without(s, sep)
    decreases |s|
  {
    if |s| > 0 {
      ConcatSplit(s[1..], sep);
      var rest := Split(s[1..], sep);
      if s[0] != sep {
        var r := Split(s, sep);
        assert r[1..] == rest[1..];
        assert Concat(rest) == rest[0] + Concat(rest[1..]);
      }
    }
  }

  // -------------------------------------------------------------- replacing

  /** `s.Replace(p, r)`: every occurrence of `p`, scanning left to right and
      without overlaps, becomes `r`. (.NET refuses an empty `p`.) */
  function Replace(s: string, p: string, r: string): (t: string)
    requires |p| > 0
    ensures StartsWith(s, p) ==> StartsWith(t, r)
    decreases |s|
  {
    if StartsWith(s, p) then r + Replace(s[|p|..], p, r)
    else if |s| == 0 then ""
    else [s[0]] + Replace(s[1..], p, r)
  }

  /** Replacing a pattern that does not occur changes nothing. */
  lemma {:induction false} ReplaceAbsent(s: string, p: string, r: string)
    requires |p| > 0 && !Contains(s, p)
    ensures Replace(s, p, r) == s
    decreases |s|
  {
    if |s| > 0 {
      ReplaceAbsent(s[1..], p, r);
      assert [s[0]] + s[1..] == s;
    }
  }

  /** A pattern whose first character is absent from `s` does not occur in it. */
  lemma {:induction false} NotContainsHead(s: string, p: string)
    requires |p| > 0 && p[0] !in s
    ensures !Contains(s, p)
    decreases |s|
  {
    if |s| > 0 {
      assert s[0] in s;
      NotContainsHead(s[1..], p);
    }
  }

  /** The first occurrence of `p` after a head free of `p[0]` is replaced. */
  lemma {:induction false} ReplaceAfterHead(a: string, p: string, b: string, r: string)
    requires |p| > 0 && p[0] !in a
    ensures Replace(a + p + b, p, r) == a + r + Replace(b, p, r)
    decreases |a|
  {
    if |a| == 0 {
      assert a + p + b == p + b;
      assert (p + b)[..|p|] == p && (p + b)[|p|..] == b;
    } else {
      assert a[0] in a;
      assert (a + p + b)[0] == a[0];
      ReplaceAfterHead(a[1..], p, b, r);
      assert (a + p + b)[1..] == a[1..] + p + b;
      assert [a[0]] + a[1..] == a;
    }
  }

  predicate Disjoint(a: string, b: string) {
    forall i, j :: 0 <= i < |a| && 0 <= j < |b| ==> a[i] != b[j]
  }

  lemma StartsWithFirst(s: string, q: string)
    requires StartsWith(s, q) && |q| > 0
    ensures |s| > 0 && s[0] == q[0]
  {
    assert s[..|q|][0] == s[0];
  }

  lemma StartsWithCons(s: string, q: string)
    requires |s| > 0 && |q| > 0
    ensures StartsWith(s, q) <==> s[0] == q[0] && StartsWith(s[1..], q[1..])
  {
    if s[0] == q[0] && StartsWith(s[1..], q[1..]) {
      assert s[..|q|] == [s[0]] + s[1..][..|q| - 1];
    }
  }

  /** A text that starts with none of `p`'s first letter keeps every
      occurrence of `p` in what follows it. */
  lemma {:induction false} ContainsAfterPrefix(a: string, b: string, p: string)
    requires |p| > 0 && p[0] !in a
    requires Contains(a + b, p)
    ensures Contains(b, p)
    decreases |a|
  {
    if |a| > 0 {
      assert (a + b)[0] == a[0];
      assert !StartsWith(a + b, p);
      assert (a + b)[1..] == a[1..] + b;
      ContainsAfterPrefix(a[1..], b, p);
    } else {
      assert a + b == b;
    }
  }

  /** A prefix free of `r`'s letters that the replaced text starts with was
      already there before replacing. */
  lemma {:induction false} ReplacePrefix(u: string, p: string, r: string, q: string)
    requires |p| > 0 && |r| > 0 && Disjoint(q, r)
    requires StartsWith(Replace(u, p, r), q)
    ensures StartsWith(u, q)
    decreases |u|
  {
    if |q| > 0 {
      if StartsWith(u, p) {
        StartsWithFirst(Replace(u, p, r), r);
        StartsWithFirst(Replace(u, p, r), q);
        assert false;
      } else if |u| > 0 {
        var t := Replace(u[1..], p, r);
        assert Replace(u, p, r) == [u[0]] + t;
        StartsWithCons([u[0]] + t, q);
        assert ([u[0]] + t)[1..] == t;
        ReplacePrefix(u[1..], p, r, q[1..]);
        StartsWithCons(u, q);
      }
    }
  }

  /** When the replacement shares no letter with the pattern, no occurrence
      of the pattern is left afterwards. */
  lemma {:induction false} ReplaceRemovesAll(s: string, p: string, r: string)
    requires |p| > 0 && |r| > 0 && Disjoint(p, r)
    ensures !Contains(Replace(s, p, r), p)
    decreases |s|
  {
    if StartsWith(s, p) {
      ReplaceRemovesAll(s[|p|..], p, r);
      if Contains(Replace(s, p, r), p) {
        ContainsAfterPrefix(r, Replace(s[|p|..], p, r), p);
      }
    } else if |s| > 0 {
      var t := Replace(s[1..], p, r);
      ReplaceRemovesAll(s[1..], p, r);
      assert Replace(s, p, r) == [s[0]] + t;
      if StartsWith([s[0]] + t, p) {
        StartsWithCons([s[0]] + t, p);
        assert ([s[0]] + t)[1..] == t;
        ReplacePrefix(s[1..], p, r, p[1..]);
        StartsWithCons(s, p);
        assert false;
      }
      assert ([s[0]] + t)[1..] == t;
    }
  }

  // --------------------------------------------------------------- trimming

  /** `char.IsWhiteSpace`: the Unicode space separators, line and paragraph
      separators, and the control characters U+0009..U+000D and U+0085. */
  predicate IsWhiteSpace(c: char) {
    c == ' ' || ('\t' <= c <= '\r') || c == '\U{0085}' || c == '\U{00A0}' || c == '\U{1680}'
    || ('\U{2000}' <= c <= '\U{200A}') || c == '\U{2028}' || c == '\U{2029}' || c == '\U{202F}'
    || c == '\U{205F}' || c == '\U{3000}'
  }

  /** `s.TrimStart(chars)`: drop leading characters that belong to the set. */
  function TrimStartChars(s: string, chars: set<char>): (r: string)
    ensures |r| <= |s| && r == s[|s| - |r|..]
    ensures forall i :: 0 <= i < |s| - |r| ==> s[i] in chars
    ensures r == "" || r[0] !in chars
    decreases |s|
  {
    if |s| > 0 && s[0] in chars then TrimStartChars(s[1..], chars) else s
  }

  function TrimStartSpace(s: string): (r: string)
    decreases |s|
  {
    if |s| > 0 && IsWhiteSpace(s[0]) then TrimStartSpace(s[1..]) else s
  }

  function TrimEndSpace(s: string): (r: string)
    decreases |s|
  {
    if |s| > 0 && IsWhiteSpace(s[|s| - 1]) then TrimEndSpace(s[..|s| - 1]) else s
  }

  /** `s.Trim()`: no white space at either end. */
  function Trim(s: string): string {
    TrimEndSpace(TrimStartSpace(s))
  }

  lemma {:induction false} TrimStartSpaceFacts(s: string)
    ensures var r := TrimStartSpace(s);
      |r| <= |s| && r == s[|s| - |r|..] && (r == "" || !IsWhiteSpace(r[0]))
      && forall i :: 0 <= i < |s| - |r| ==> IsWhiteSpace(s[i])
    decreases |s|
  {
    if |s| > 0 && IsWhiteSpace(s[0]) {
      TrimStartSpaceFacts(s[1..]);
    }
  }

  lemma {:induction false} TrimEndSpaceFacts(s: string)
    ensures var r := TrimEndSpace(s);
      |r| <= |s| && r == s[..|r|] && (r == "" || !IsWhiteSpace(r[|r| - 1]))
      && forall i :: |r| <= i < |s| ==> IsWhiteSpace(s[i])
    decreases |s|
  {
    if |s| > 0 && IsWhiteSpace(s[|s| - 1]) {
      TrimEndSpaceFacts(s[..|s| - 1]);
    }
  }

  /** `Trim` takes off only white space, and what it leaves neither starts nor
      ends with white space. */
  lemma TrimFacts(s: string)
    ensures var r := Trim(s);
      |r| <= |s| && (r == "" || (!IsWhiteSpace(r[0]) && !IsWhiteSpace(r[|r| - 1])))
  {
    var l := TrimStartSpace(s);
    TrimStartSpaceFacts(s);
    TrimEndSpaceFacts(l);
  }

  // -------------------------------------------------------------- title case

  function Upper(c: char): char {
    if 'a' <= c <= 'z' then (c as int - 32) as char else c
  }

  /** Title case as the bot's `ToTitleCase` produces it for the lower-case
      labels it is given: the first letter of every space-separated word is
      capitalised; every other character is kept. */
  function TitleCase(s: string): (r: string)
    ensures |r| == |s|
  {
    seq(|s|, i requires 0 <= i < |s| => if i == 0 || s[i - 1] == ' ' then Upper(s[i]) else s[i])
  }

  // ------------------------------------------------------- decimal numbers

  function DigitChar(d: nat): char
    requires d < 10
  {
    ('0' as int + d) as char
  }

  /** `n.ToString()` for a natural number. */
  function NatToString(n: nat): (r: string)
    ensures |r| >= 1 && (n >= 10 ==> |r| >= 2)
    ensures forall i :: 0 <= i < |r| ==> '0' <= r[i] <= '9'
    decreases n
  {
    if n < 10 then [DigitChar(n)] else NatToString(n / 10) + [DigitChar(n % 10)]
  }

  /** `n.ToString()` for a C# `long`: a minus sign before the digits of `-n`. */
  function IntToString(n: int): (r: string)
    ensures |r| >= 1 && (r[0] == '-' <==> n < 0)
  {
    if n < 0 then "-" + NatToString(-n) else NatToString(n)
  }

  lemma {:induction false} NatToStringInjective(a: nat, b: nat)
    requires NatToString(a) == NatToString(b)
    ensures a == b
    decreases a
  {
    var sa, sb := NatToString(a), NatToString(b);
    if a < 10 && b < 10 {
    } else if a >= 10 && b >= 10 {
      assert sa[|sa| - 1] == DigitChar(a % 10) && sb[|sb| - 1] == DigitChar(b % 10);
      assert sa[..|sa| - 1] == NatToString(a / 10);
      assert sb[..|sb| - 1] == NatToString(b / 10);
      NatToStringInjective(a / 10, b / 10);
    }
  }

  /** Different numbers print differently. */
  lemma IntToStringInjective(a: int, b: int)
    ensures IntToString(a) == IntToString(b) <==> a == b
  {
    if IntToString(a) == IntToString(b) {
      var sa, sb := IntToString(a), IntToString(b);
      if a < 0 && b < 0 {
        assert sa[1..] == NatToString(-a) && sb[1..] == NatToString(-b);
        NatToStringInjective(-a, -b);
      } else if a >= 0 && b >= 0 {
        NatToStringInjective(a, b);
      }
    }
  }
}
