/**
 * The .NET string operations the core relies on: `Trim`, `StartsWith`/`EndsWith`,
 * `Replace(pattern, "")`, `ToUpper`, `Split(char)` and the decimal rendering of a count.
 * `StartsWith(string)` and `EndsWith(string)` compare by the current culture in .NET; they
 * are modelled as ordinal comparisons, which is what they do under invariant globalization.
 */
module Text {

  /** `char.IsWhiteSpace`: the Unicode space separators plus the control and line/paragraph separators. */
  predicate IsWhiteSpace(c: char)
  {
    c == ' ' || ('\t' <= c <= '\r') || c == '\U{0085}' || c == '\U{00A0}' || c == '\U{1680}'
    || ('\U{2000}' <= c <= '\U{200A}') || c == '\U{2028}' || c == '\U{2029}'
    || c == '\U{202F}' || c == '\U{205F}' || c == '\U{3000}'
  }

  /** `TrimStart()`: drops the longest all-white prefix. */
  function TrimStart(s: string): (r: string)
    ensures |r| <= |s| && r == s[|s| - |r|..]
    ensures r == [] || !IsWhiteSpace(r[0])
    ensures forall i :: 0 <= i < |s| - |r| ==> IsWhiteSpace(s[i])
  {
    if |s| > 0 && IsWhiteSpace(s[0]) then TrimStart(s[1..]) else s
  }

  /** `TrimEnd()`: drops the longest all-white suffix. */
  function TrimEnd(s: string): (r: string)
    ensures |r| <= |s| && r == s[..|r|]
    ensures r == [] || !IsWhiteSpace(r[|r| - 1])
    ensures forall i :: |r| <= i < |s| ==> IsWhiteSpace(s[i])
  {
    if |s| > 0 && IsWhiteSpace(s[|s| - 1]) then TrimEnd(s[..|s| - 1]) else s
  }

  /** No white space at either end. */
  predicate Unpadded(s: string)
  {
    s == [] || (!IsWhiteSpace(s[0]) && !IsWhiteSpace(s[|s| - 1]))
  }

  /** Length of the white prefix that `TrimStart` drops. */
  function LeadingWhite(s: string): nat
  {
    |s| - |TrimStart(s)|
  }

  /** `Trim()`: the infix of `s` left once its white prefix and white suffix are dropped. */
  function Trim(s: string): (r: string)
    ensures Unpadded(r)
    ensures LeadingWhite(s) + |r| <= |s| && r == s[LeadingWhite(s)..LeadingWhite(s) + |r|]
    ensures forall i :: 0 <= i < LeadingWhite(s) ==> IsWhiteSpace(s[i])
    ensures forall i :: LeadingWhite(s) + |r| <= i < |s| ==> IsWhiteSpace(s[i])
  {
    TrimEnd(TrimStart(s))
  }

  /** Trimming a text that is already unpadded changes nothing. */
  lemma TrimUnpadded(s: string)
    requires Unpadded(s)
    ensures Trim(s) == s
  {
  }

  /** `Trim` is idempotent. */
  lemma TrimIdempotent(s: string)
    ensures Trim(Trim(s)) == Trim(s)
  {
    TrimUnpadded(Trim(s));
  }

  /** `StartsWith`, compared ordinally: `p` is a prefix of `s`. */
  predicate StartsWith(s: string, p: string)
  {
    |p| <= |s| && s[..|p|] == p
  }

  /** `EndsWith`, compared ordinally: `p` is a suffix of `s`. */
  predicate EndsWith(s: string, p: string)
  {
    |p| <= |s| && s[|s| - |p|..] == p
  }

  /** `s.Replace(p, "")`: removes the leftmost non-overlapping occurrences of `p`, scanning left to right. */
  function RemoveAll(s: string, p: string): string
    requires p != []
    decreases |s|
  {
    if s == [] then []
    else if StartsWith(s, p) then RemoveAll(s[|p|..], p)
    else [s[0]] + RemoveAll(s[1..], p)
  }

  /** A text shorter than the pattern holds no occurrence of it and is kept. */
  lemma {:induction false} RemoveAllShort(s: string, p: string)
    requires p != [] && |s| < |p|
    ensures RemoveAll(s, p) == s
  {
    if s != [] {
      RemoveAllShort(s[1..], p);
    }
  }

  /** A prefix free of the pattern's first character passes through `RemoveAll` unchanged. */
  lemma {:induction false} RemoveAllKeepsPrefix(a: string, b: string, p: string)
    requires p != [] && p[0] !in a
    ensures RemoveAll(a + b, p) == a + RemoveAll(b, p)
  {
    if a != [] {
      assert (a + b)[1..] == a[1..] + b;
      RemoveAllKeepsPrefix(a[1..], b, p);
      calc {
        RemoveAll(a + b, p);
        [a[0]] + RemoveAll(a[1..] + b, p);
        [a[0]] + (a[1..] + RemoveAll(b, p));
        { assert [a[0]] + a[1..] == a; }
        a + RemoveAll(b, p);
      }
    } else {
      assert a + b == b;
    }
  }

  /** A text that starts with the pattern loses that occurrence first. */
  lemma RemoveAllLeading(p: string, b: string)
    requires p != []
    ensures RemoveAll(p + b, p) == RemoveAll(b, p)
  {
    assert StartsWith(p + b, p);
    assert (p + b)[|p|..] == b;
  }

  /** `char.ToUpperInvariant` on the Basic Latin and Latin-1 letters. */
  function ToUpperChar(c: char): char
  {
    if 'a' <= c <= 'z' then (c as int - 32) as char
    else if ('\U{00E0}' <= c <= '\U{00FE}') && c != '\U{00F7}' then (c as int - 32) as char
    else c
  }

  /** `ToUpper()`, character by character. */
  function ToUpper(s: string): (r: string)
    ensures |r| == |s|
    ensures forall i :: 0 <= i < |s| ==> r[i] == ToUpperChar(s[i])
  {
    seq(|s|, i requires 0 <= i < |s| => ToUpperChar(s[i]))
  }

  /** Upper-casing twice is upper-casing once. */
  lemma ToUpperIdempotent(s: string)
    ensures ToUpper(ToUpper(s)) == ToUpper(s)
  {
  }

  /** Decimal digits of a count, as string interpolation renders an `int`. */
  function NatToString(n: nat): (r: string)
    ensures |r| >= 1
    ensures forall i :: 0 <= i < |r| ==> '0' <= r[i] <= '9'
  {
    if n < 10 then ["0123456789"[n]] else NatToString(n / 10) + ["0123456789"[n % 10]]
  }

  /** Number of occurrences of `c` in `s`. */
  function Count(s: string, c: char): nat
  {
    if s == [] then 0 else (if s[0] == c then 1 else 0) + Count(s[1..], c)
  }

  /** `s.Split(sep)` without options: every separator ends a part, empty parts are kept. */
  function Split(s: string, sep: char): (parts: seq<string>)
    ensures |parts| >= 1
  {
    if s == [] then [[]]
    else
      var rest := Split(s[1..], sep);
      if s[0] == sep then [[]] + rest else [[s[0]] + rest[0]] + rest[1..]
  }

  /** `string.Join(sep, parts)`. */
  function Join(parts: seq<string>, sep: char): string
  {
    if parts == [] then [] else if |parts| == 1 then parts[0] else parts[0] + [sep] + Join(parts[1..], sep)
  }

  /** `Split` yields one part more than there are separators, and none of them holds a separator. */
  lemma {:induction false} SplitShape(s: string, sep: char)
    ensures |Split(s, sep)| == Count(s, sep) + 1
    ensures forall i :: 0 <= i < |Split(s, sep)| ==> sep !in Split(s, sep)[i]
  {
    if s != [] {
      SplitShape(s[1..], sep);
      var rest := Split(s[1..], sep);
      if s[0] != sep {
        assert sep !in rest[0];
        assert forall i :: 1 <= i < |rest| ==> Split(s, sep)[i] == rest[i];
      } else {
        assert forall i :: 1 <= i < |rest| + 1 ==> Split(s, sep)[i] == rest[i - 1];
      }
    }
  }

  /** Joining the parts of a split with the same separator gives back the text. */
  lemma {:induction false} SplitJoin(s: string, sep: char)
    ensures Join(Split(s, sep), sep) == s
  {
    if s != [] {
      SplitJoin(s[1..], sep);
      var rest := Split(s[1..], sep);
      if s[0] == sep {
        assert Split(s, sep) == [[]] + rest;
        assert Join(Split(s, sep), sep) == [] + [sep] + Join(rest, sep);
      } else {
        var parts := Split(s, sep);
        assert parts == [[s[0]] + rest[0]] + rest[1..];
        if |rest| == 1 {
          assert Join(parts, sep) == [s[0]] + rest[0];
        } else {
          assert parts[1..] == rest[1..];
          assert Join(rest, sep) == rest[0] + [sep] + Join(rest[1..], sep);
          assert Join(parts, sep) == ([s[0]] + rest[0]) + [sep] + Join(rest[1..], sep);
        }
      }
    }
  }
}
