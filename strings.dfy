/**
 * Text operations the Python code takes from its standard library: `str.split`
 * and `str.join` on a one-character separator, `str.strip`, `str.startswith`,
 * `str.endswith`, `str.replace` of one character, `str(int)` and `int(str)`.
 */
module Strings {

  import opened Wrappers

  // ---------------------------------------------------------------------------
  // split / join on a single character
  // ---------------------------------------------------------------------------

  /** Python's `s.split(c)`: the pieces between occurrences of `c`, always at least one. */
  function Split(s: string, c: char): (r: seq<string>)
    ensures |r| >= 1
    decreases |s|
  {
    if |s| == 0 then [""]
    else
      var rest := Split(s[1..], c);
      if s[0] == c then [""] + rest
      else [[s[0]] + rest[0]] + rest[1..]
  }

  /** No piece of a split holds the separator. */
  lemma {:induction false} SplitNoSeparator(s: string, c: char)
    ensures forall k :: 0 <= k < |Split(s, c)| ==> c !in Split(s, c)[k]
    decreases |s|
  {
    if |s| > 0 {
      SplitNoSeparator(s[1..], c);
      var rest := Split(s[1..], c);
      if s[0] != c {
        assert c !in [s[0]] + rest[0];
        assert forall k :: 1 <= k < |Split(s, c)| ==> Split(s, c)[k] == rest[k];
      } else {
        assert forall k :: 1 <= k < |Split(s, c)| ==> Split(s, c)[k] == rest[k - 1];
      }
    }
  }

  /** Python's `c.join(parts)`. */
  function Join(parts: seq<string>, c: char): string
  {
    if |parts| == 0 then ""
    else if |parts| == 1 then parts[0]
    else parts[0] + [c] + Join(parts[1..], c)
  }

  /** Joining the pieces of a split gives back the original text. */
  lemma {:induction false} JoinSplit(s: string, c: char)
    ensures Join(Split(s, c), c) == s
    decreases |s|
  {
    if |s| > 0 {
      JoinSplit(s[1..], c);
      var rest := Split(s[1..], c);
      if s[0] == c {
        assert Split(s, c) == [""] + rest;
        assert s == [c] + s[1..];
      } else {
        var r := Split(s, c);
        assert r == [[s[0]] + rest[0]] + rest[1..];
        if |rest| == 1 {
          assert rest == [rest[0]];
        } else {
          assert rest[1..][1..] == rest[2..];
          assert Join(rest, c) == rest[0] + [c] + Join(rest[1..], c);
          assert r[1..] == rest[1..];
        }
        assert s == [s[0]] + s[1..];
      }
    }
  }

  /** Splitting `a + t` where `a` holds no separator glues `a` onto the first piece of `t`. */
  lemma {:induction false} SplitPrefix(a: string, t: string, c: char)
    requires c !in a
    ensures Split(a + t, c) == [a + Split(t, c)[0]] + Split(t, c)[1..]
    decreases |a|
  {
    if |a| > 0 {
      SplitPrefix(a[1..], t, c);
      SplitPrefixStep(a, t, c);
    } else {
      var r := Split(t, c);
      assert a + t == t;
      assert a + r[0] == r[0];
    }
  }

  /** The inductive step of `SplitPrefix`: one more leading character joins the first piece. */
  lemma {:induction false} SplitPrefixStep(a: string, t: string, c: char)
    requires |a| > 0 && c !in a
    requires Split(a[1..] + t, c) == [a[1..] + Split(t, c)[0]] + Split(t, c)[1..]
    ensures Split(a + t, c) == [a + Split(t, c)[0]] + Split(t, c)[1..]
  {
    var r := Split(t, c);
    var rest := Split(a[1..] + t, c);
    assert (a + t)[0] == a[0] && (a + t)[1..] == a[1..] + t;
    assert Split(a + t, c) == [[a[0]] + rest[0]] + rest[1..];
    assert rest[0] == a[1..] + r[0] && rest[1..] == r[1..];
    assert [a[0]] + (a[1..] + r[0]) == a + r[0];
  }

  /** Splitting a join gives back the parts when no part holds the separator. */
  lemma {:induction false} SplitJoin(parts: seq<string>, c: char)
    requires |parts| >= 1
    requires forall k :: 0 <= k < |parts| ==> c !in parts[k]
    ensures Split(Join(parts, c), c) == parts
    decreases |parts|
  {
    if |parts| == 1 {
      SplitPrefix(parts[0], "", c);
      assert parts[0] + "" == parts[0];
      assert parts == [parts[0]];
    } else {
      var tail := Join(parts[1..], c);
      SplitJoin(parts[1..], c);
      assert Join(parts, c) == parts[0] + ([c] + tail);
      SplitPrefix(parts[0], [c] + tail, c);
      assert ([c] + tail)[1..] == tail;
      assert Split([c] + tail, c) == [""] + Split(tail, c);
      assert parts[0] + "" == parts[0];
      assert parts == [parts[0]] + parts[1..];
    }
  }

  // ---------------------------------------------------------------------------
  // strip
  // ---------------------------------------------------------------------------

  /** The characters Python's `str.isspace` accepts, which `str.strip()` removes. */
  predicate IsSpace(ch: char)
  {
    ch == ' ' || ('\t' <= ch <= '\r') || ('\U{1C}' <= ch <= '\U{1F}')
    || ch == '\U{85}' || ch == '\U{A0}' || ch == '\U{1680}'
    || ('\U{2000}' <= ch <= '\U{200A}') || ch == '\U{2028}' || ch == '\U{2029}'
    || ch == '\U{202F}' || ch == '\U{205F}' || ch == '\U{3000}'
  }

  function TrimLeft(s: string): (r: string)
    ensures |r| <= |s| && r == s[|s| - |r|..]
    ensures |r| > 0 ==> !IsSpace(r[0])
    ensures forall k :: 0 <= k < |s| - |r| ==> IsSpace(s[k])
  {
    if |s| > 0 && IsSpace(s[0]) then TrimLeft(s[1..]) else s
  }

  function TrimRight(s: string): (r: string)
    ensures |r| <= |s| && r == s[..|r|]
    ensures |r| > 0 ==> !IsSpace(r[|r| - 1])
    ensures forall k :: |r| <= k < |s| ==> IsSpace(s[k])
  {
    if |s| > 0 && IsSpace(s[|s| - 1]) then TrimRight(s[..|s| - 1]) else s
  }

  /**
   * Python's `s.strip()`: `s` without its leading and trailing white space.
   * The result neither starts nor ends with white space; `StripSlice` shows
   * it is a slice of `s` with only white space cut away.
   */
  function Strip(s: string): (r: string)
    ensures |r| <= |s|
    ensures |r| > 0 ==> !IsSpace(r[0]) && !IsSpace(r[|r| - 1])
  {
    TrimRight(TrimLeft(s))
  }

  /** What `Strip` keeps is a contiguous slice of `s`, and everything it cuts away is white space. */
  lemma StripSlice(s: string)
    ensures exists i, j :: 0 <= i <= j <= |s| && Strip(s) == s[i..j]
              && (forall k :: 0 <= k < i ==> IsSpace(s[k]))
              && (forall k :: j <= k < |s| ==> IsSpace(s[k]))
  {
    var l := TrimLeft(s);
    var r := TrimRight(l);
    var i := |s| - |l|;
    assert r == s[i..i + |r|];
    assert forall k :: i + |r| <= k < |s| ==> s[k] == l[k - i];
  }

  /** Text that is all white space strips to the empty string. */
  lemma {:induction false} StripAllSpace(s: string)
    requires forall k :: 0 <= k < |s| ==> IsSpace(s[k])
    ensures Strip(s) == ""
  {
  }

  // ---------------------------------------------------------------------------
  // prefixes, suffixes, replace
  // ---------------------------------------------------------------------------

  predicate StartsWith(s: string, p: string)
  {
    |p| <= |s| && s[..|p|] == p
  }

  predicate EndsWith(s: string, p: string)
  {
    |p| <= |s| && s[|s| - |p|..] == p
  }

  /** Python's `s.replace(a, b)` for single characters `a` and `b`. */
  function ReplaceChar(s: string, a: char, b: char): (r: string)
    ensures |r| == |s|
    ensures forall k :: 0 <= k < |s| ==> r[k] == if s[k] == a then b else s[k]
  {
    seq(|s|, k requires 0 <= k < |s| => if s[k] == a then b else s[k])
  }

  // ---------------------------------------------------------------------------
  // integers as decimal text
  // ---------------------------------------------------------------------------

  predicate IsDigit(ch: char)
  {
    '0' <= ch <= '9'
  }

  predicate AllDigits(s: string)
  {
    forall k :: 0 <= k < |s| ==> IsDigit(s[k])
  }

  function DigitChar(d: nat): (ch: char)
    requires d < 10
    ensures IsDigit(ch) && ch as int - '0' as int == d
  {
    ('0' as int + d) as char
  }

  /** Python's `str(n)` for a natural number. */
  function NatToString(n: nat): (s: string)
    ensures |s| >= 1 && AllDigits(s)
  {
    if n < 10 then [DigitChar(n)] else NatToString(n / 10) + [DigitChar(n % 10)]
  }

  /** Python's `str(i)` for any integer. */
  function IntToString(i: int): (s: string)
    ensures |s| >= 1
  {
    if i < 0 then "-" + NatToString(-i) else NatToString(i)
  }

  /** The value of a string of decimal digits, most significant first. */
  function DigitsValue(s: string): nat
    requires AllDigits(s)
  {
    if |s| == 0 then 0
    else DigitsValue(s[..|s| - 1]) * 10 + (s[|s| - 1] as int - '0' as int)
  }

  /** Reading back the decimal text of `n` gives `n`. */
  lemma {:induction false} DigitsValueOfNatToString(n: nat)
    ensures DigitsValue(NatToString(n)) == n
  {
    if n >= 10 {
      DigitsValueOfNatToString(n / 10);
      var s := NatToString(n);
      assert s[..|s| - 1] == NatToString(n / 10);
    }
  }

  /**
   * Python's `int(s)` on an optional sign followed by decimal digits; `None`
   * where Python raises `ValueError`. (Python also accepts surrounding white
   * space and `_` between digits; those forms read as `None` here.)
   */
  function ParseInt(s: string): (r: Option<int>)
    ensures r.Some? ==> |s| >= 1
    ensures AllDigits(s) && |s| >= 1 ==> r == Some(DigitsValue(s))
  {
    if |s| >= 1 && AllDigits(s) then Some(DigitsValue(s))
    else if |s| >= 2 && (s[0] == '+' || s[0] == '-') && AllDigits(s[1..]) then
      var v: int := DigitsValue(s[1..]);
      Some(if s[0] == '-' then -v else v)
    else None
  }

  /** Stripping keeps only characters of the text. */
  lemma StripChars(s: string)
    ensures forall ch :: ch in Strip(s) ==> ch in s
  {
    var l := TrimLeft(s);
    assert forall ch :: ch in l ==> ch in s;
  }

  /** `int(str(n)) == n` for every integer. */
  lemma ParseIntOfIntToString(i: int)
    ensures ParseInt(IntToString(i)) == Some(i)
  {
    if i < 0 {
      ParseIntOfNegative(i);
    } else {
      ParseIntOfNatToString(i);
    }
  }

  lemma ParseIntOfNatToString(n: nat)
    ensures ParseInt(IntToString(n)) == Some(n)
  {
    var digits := NatToString(n);
    assert IntToString(n) == digits;
    DigitsValueOfNatToString(n);
  }

  lemma ParseIntOfNegative(i: int)
    requires i < 0
    ensures ParseInt(IntToString(i)) == Some(i)
  {
    var n: nat := -i;
    var digits := NatToString(n);
    DigitsValueOfNatToString(n);
    ParseIntNegative(digits, n);
    assert IntToString(i) == "-" + digits;
  }

  lemma ParseIntNegative(digits: string, n: nat)
    requires |digits| >= 1 && AllDigits(digits) && DigitsValue(digits) == n
    ensures ParseInt("-" + digits) == Some(0 - n)
  {
    var s := "-" + digits;
    assert s[0] == '-' && s[1..] == digits;
    assert !IsDigit(s[0]);
  }
}
