/** The string operations of Go's `strings`, `strconv`/`fmt` and `unicode` packages that the
    deployment engine relies on, over strings of Unicode code points. */
module Text {

  /** `p` is a prefix of `s` (strings.HasPrefix). */
  predicate HasPrefix(s: string, p: string)
  {
    |p| <= |s| && s[..|p|] == p
  }

  /** `p` is a suffix of `s` (strings.HasSuffix). */
  predicate HasSuffix(s: string, p: string)
  {
    |p| <= |s| && s[|s| - |p|..] == p
  }

  /** `t` occurs in `s` starting at some index (strings.Contains). */
  predicate Contains(s: string, t: string)
  {
    exists i :: 0 <= i <= |s| && HasPrefix(s[i..], t)
  }

  /** strings.TrimPrefix: drops `p` once from the front of `s` when it is there. */
  function TrimPrefix(s: string, p: string): (r: string)
    ensures HasPrefix(s, p) ==> p + r == s
    ensures !HasPrefix(s, p) ==> r == s
  {
    if HasPrefix(s, p) then s[|p|..] else s
  }

  /** Every character of an occurrence of `t` is a character of `s`. */
  lemma ContainsCharsOf(s: string, t: string, k: nat)
    requires Contains(s, t) && k < |t|
    ensures t[k] in s
  {
    var i :| 0 <= i <= |s| && HasPrefix(s[i..], t);
    assert s[i + k] == t[k];
  }

  /** A one-character pattern occurs exactly when that character does. */
  lemma ContainsSingle(s: string, c: char)
    ensures Contains(s, [c]) <==> c in s
  {
    if c in s {
      var i :| 0 <= i < |s| && s[i] == c;
      assert HasPrefix(s[i..], [c]);
    }
    if Contains(s, [c]) {
      ContainsCharsOf(s, [c], 0);
    }
  }

  /** Nothing but the empty string occurs in the empty string. */
  lemma ContainsInEmpty(t: string)
    ensures Contains("", t) <==> t == ""
  {
    if t == "" {
      assert HasPrefix(""[0..], t);
    }
  }

  // ---------------------------------------------------------------------------
  // Number of occurrences of a character, splitting and joining on it

  function Count(s: string, c: char): (n: nat)
    ensures n <= |s|
    ensures n == 0 <==> c !in s
  {
    if s == [] then 0 else (if s[0] == c then 1 else 0) + Count(s[1..], c)
  }

  /** Index of the last occurrence of `c` in `s`, or -1 when there is none. */
  function LastIndex(s: string, c: char): (r: int)
    ensures -1 <= r < |s|
    ensures r >= 0 ==> s[r] == c && c !in s[r + 1..]
    ensures r == -1 <==> c !in s
  {
    if s == [] then -1
    else if s[|s| - 1] == c then |s| - 1
    else
      assert s == s[..|s| - 1] + [s[|s| - 1]];
      LastIndex(s[..|s| - 1], c)
  }

  /** strings.Split(s, string(sep)): the pieces between occurrences of `sep`, in order;
      the empty string gives one empty piece. */
  function Split(s: string, sep: char): (parts: seq<string>)
    ensures |parts| >= 1
  {
    if s == [] then [""]
    else
      var rest := Split(s[1..], sep);
      if s[0] == sep then [""] + rest else [[s[0]] + rest[0]] + rest[1..]
  }

  /** strings.Join(parts, string(sep)). */
  function Join(parts: seq<string>, sep: char): string
  {
    if parts == [] then ""
    else if |parts| == 1 then parts[0]
    else parts[0] + [sep] + Join(parts[1..], sep)
  }

  /** Splitting then joining on the same separator gives the string back. */
  lemma {:induction false} JoinSplit(s: string, sep: char)
    ensures Join(Split(s, sep), sep) == s
  {
    if s != [] {
      JoinSplit(s[1..], sep);
      var rest := Split(s[1..], sep);
      if s[0] != sep {
        if |rest| == 1 {
          assert Split(s, sep) == [[s[0]] + rest[0]];
        } else {
          assert Split(s, sep) == [[s[0]] + rest[0]] + rest[1..];
          assert Join(rest, sep) == rest[0] + [sep] + Join(rest[1..], sep);
        }
      }
    }
  }

  /** Split gives one piece more than there are separators, and no piece holds a separator. */
  lemma {:induction false} SplitShape(s: string, sep: char)
    ensures |Split(s, sep)| == Count(s, sep) + 1
    ensures forall k :: 0 <= k < |Split(s, sep)| ==> sep !in Split(s, sep)[k]
  {
    if s != [] {
      SplitShape(s[1..], sep);
    }
  }

  /** One step of Split: a leading separator adds an empty first piece; any other character
      joins the first piece of the rest. */
  lemma SplitStep(s: string, sep: char)
    requires s != []
    ensures var rest := Split(s[1..], sep);
            var parts := Split(s, sep);
            |parts| == |rest| + (if s[0] == sep then 1 else 0)
            && parts[|parts| - 1] == (if s[0] != sep && |rest| == 1 then [s[0]] + rest[0] else rest[|rest| - 1])
  {
  }

  /** The last piece of a split is the part after the last separator: a suffix of `s`. */
  lemma {:induction false} SplitLast(s: string, sep: char)
    ensures HasSuffix(s, Split(s, sep)[|Split(s, sep)| - 1])
    ensures |Split(s, sep)| == 1 ==> Split(s, sep)[0] == s
  {
    if s != [] {
      SplitLast(s[1..], sep);
      SplitStep(s, sep);
      var rest := Split(s[1..], sep);
      var parts := Split(s, sep);
      if s[0] != sep && |rest| == 1 {
        ConsWhole(s);
      } else {
        assert |parts| >= 2;
        SuffixOfTail(s, rest[|rest| - 1]);
      }
    }
  }

  /** When there is more than one piece, the last piece follows a separator. */
  lemma {:induction false} SplitLastFollowsSep(s: string, sep: char)
    ensures |Split(s, sep)| >= 2 ==> HasSuffix(s, [sep] + Split(s, sep)[|Split(s, sep)| - 1])
  {
    if s != [] {
      var rest := Split(s[1..], sep);
      SplitLastFollowsSep(s[1..], sep);
      SplitLast(s[1..], sep);
      SplitStep(s, sep);
      if |rest| >= 2 {
        SuffixOfTail(s, [sep] + rest[|rest| - 1]);
      } else if s[0] == sep {
        assert s == [sep] + rest[0];
      }
    }
  }

  lemma ConsWhole(s: string)
    requires s != []
    ensures [s[0]] + s[1..] == s && HasSuffix(s, s)
  {
    assert s[|s| - |s|..] == s;
  }

  lemma SuffixOfTail(s: string, t: string)
    requires s != [] && HasSuffix(s[1..], t)
    ensures HasSuffix(s, t)
  {
    assert s[1..][|s| - 1 - |t|..] == s[|s| - |t|..];
  }

  // ---------------------------------------------------------------------------
  // Whitespace and strings.Fields

  /** unicode.IsSpace: the Latin-1 spaces plus the other White_Space code points. */
  predicate IsSpace(c: char)
  {
    c == '\t' || c == '\n' || c == '\U{000B}' || c == '\U{000C}' || c == '\r' || c == ' '
    || c == '\U{0085}' || c == '\U{00A0}' || c == '\U{1680}'
    || ('\U{2000}' <= c <= '\U{200A}')
    || c == '\U{2028}' || c == '\U{2029}' || c == '\U{202F}' || c == '\U{205F}' || c == '\U{3000}'
  }

  predicate AllSpace(s: string)
  {
    forall k :: 0 <= k < |s| ==> IsSpace(s[k])
  }

  predicate NoSpace(s: string)
  {
    forall k :: 0 <= k < |s| ==> !IsSpace(s[k])
  }

  /** Length of the run of non-space characters at the front of `s`. */
  function WordLength(s: string): (n: nat)
    ensures n <= |s| && NoSpace(s[..n]) && (n < |s| ==> IsSpace(s[n]))
  {
    if s == [] || IsSpace(s[0]) then 0 else 1 + WordLength(s[1..])
  }

  /** strings.Fields: the maximal runs of non-space characters, in order. */
  function Fields(s: string): (words: seq<string>)
    decreases |s|
  {
    if s == [] then []
    else if IsSpace(s[0]) then Fields(s[1..])
    else
      var n := WordLength(s);
      [s[..n]] + Fields(s[n..])
  }

  /** Every field is non-empty and holds no white space; there are none exactly when `s` is
      all white space. */
  lemma {:induction false} FieldsShape(s: string)
    ensures forall k :: 0 <= k < |Fields(s)| ==> Fields(s)[k] != [] && NoSpace(Fields(s)[k])
    ensures Fields(s) == [] <==> AllSpace(s)
    decreases |s|
  {
    if s != [] {
      if IsSpace(s[0]) {
        FieldsShape(s[1..]);
        assert AllSpace(s) <==> AllSpace(s[1..]) by {
          assert forall k :: 1 <= k < |s| ==> s[k] == s[1..][k - 1];
        }
      } else {
        var n := WordLength(s);
        FieldsShape(s[n..]);
        assert n > 0;
        assert !AllSpace(s);
      }
    }
  }

  // ---------------------------------------------------------------------------
  // Decimal rendering of integers (fmt's %d)

  function Digit(d: nat): (c: char)
    requires d < 10
    ensures '0' <= c <= '9' && c as int - '0' as int == d
  {
    ('0' as int + d) as char
  }

  function NatToString(n: nat): (r: string)
    ensures |r| >= 1
    ensures forall k :: 0 <= k < |r| ==> '0' <= r[k] <= '9'
  {
    if n < 10 then [Digit(n)] else NatToString(n / 10) + [Digit(n % 10)]
  }

  /** fmt's %d: a minus sign followed by the digits of the magnitude for negative numbers. */
  function IntToString(i: int): (r: string)
  {
    if i < 0 then "-" + NatToString(-i) else NatToString(i)
  }

  /** Different numbers have different decimal renderings. */
  lemma {:induction false} NatToStringInjective(a: nat, b: nat)
    requires NatToString(a) == NatToString(b)
    ensures a == b
  {
    var sa, sb := NatToString(a), NatToString(b);
    assert a >= 10 <==> |sa| >= 2;
    assert b >= 10 <==> |sb| >= 2;
    if a >= 10 && b >= 10 {
      assert sa[..|sa| - 1] == NatToString(a / 10);
      assert sb[..|sb| - 1] == NatToString(b / 10);
      NatToStringInjective(a / 10, b / 10);
      assert Digit(a % 10) == sa[|sa| - 1] == Digit(b % 10);
    } else if a < 10 && b < 10 {
      assert Digit(a) == sa[0] && Digit(b) == sb[0];
    }
  }

  lemma IntToStringInjective(a: int, b: int)
    requires IntToString(a) == IntToString(b)
    ensures a == b
  {
    var sa, sb := IntToString(a), IntToString(b);
    assert a < 0 <==> sa[0] == '-';
    assert b < 0 <==> sb[0] == '-';
    if a < 0 && b < 0 {
      assert sa[1..] == NatToString(-a) && sb[1..] == NatToString(-b);
      NatToStringInjective(-a, -b);
    } else if a >= 0 && b >= 0 {
      NatToStringInjective(a, b);
    }
  }

  // ---------------------------------------------------------------------------
  // Byte length (Go's len on a string counts UTF-8 bytes)

  function Utf8Width(c: char): (w: nat)
    ensures 1 <= w <= 4
  {
    if c as int < 0x80 then 1 else if c as int < 0x800 then 2 else if c as int < 0x10000 then 3 else 4
  }

  function Utf8Len(s: string): (n: nat)
    ensures |s| <= n <= 4 * |s|
  {
    if s == [] then 0 else Utf8Width(s[0]) + Utf8Len(s[1..])
  }

  /** Every character is a single UTF-8 byte. */
  predicate Ascii(s: string)
  {
    forall i :: 0 <= i < |s| ==> s[i] as int < 0x80
  }

  /** On ASCII text the byte length (Go's len) equals the character count. */
  lemma {:induction false} AsciiLen(s: string)
    requires Ascii(s)
    ensures Utf8Len(s) == |s|
  {
    if s != [] {
      assert Ascii(s[1..]) by {
        forall i | 0 <= i < |s[1..]| ensures s[1..][i] as int < 0x80 {
          assert s[1..][i] == s[i + 1];
        }
      }
      AsciiLen(s[1..]);
    }
  }
}
