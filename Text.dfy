/** The .NET string operations the core relies on, over `seq<char>`. */
module Text {
  import opened Wrappers
  import opened Faults

  /** char.IsWhiteSpace: the Unicode separators and the control characters it accepts. */
  predicate IsWhiteSpace(c: char) {
    || c == ' ' || ('\t' <= c <= '\r') || c == '\U{85}' || c == '\U{A0}' || c == '\U{1680}'
    || ('\U{2000}' <= c <= '\U{200A}') || c == '\U{2028}' || c == '\U{2029}' || c == '\U{202F}'
    || c == '\U{205F}' || c == '\U{3000}'
  }

  /** string.IsNullOrWhiteSpace, for a string that is present. */
  predicate IsBlank(s: string) {
    forall i :: 0 <= i < |s| ==> IsWhiteSpace(s[i])
  }

  /** string.StartsWith, compared character by character. */
  predicate StartsWith(s: string, prefix: string) {
    |prefix| <= |s| && s[..|prefix|] == prefix
  }

  /** A concatenation starts with its first part and continues with its second. */
  lemma ConcatParts(a: string, b: string)
    ensures StartsWith(a + b, a) && |a + b| == |a| + |b|
    ensures forall i :: |a| <= i < |a + b| ==> (a + b)[i] == b[i - |a|]
  {
    assert (a + b)[..|a|] == a;
  }

  /** Blank strings stay blank when joined. */
  lemma BlankConcat(a: string, b: string)
    requires IsBlank(a) && IsBlank(b)
    ensures IsBlank(a + b)
  {
  }

  /** string.TrimStart: the white space in front removed. */
  function TrimStart(s: string): (r: string)
    ensures |r| <= |s| && r == s[|s| - |r|..]
    ensures IsBlank(s[..|s| - |r|])
    ensures r == [] || !IsWhiteSpace(r[0])
  {
    if s != [] && IsWhiteSpace(s[0]) then
      var rest := TrimStart(s[1..]);
      assert s[..|s| - |rest|] == [s[0]] + s[1..][..|s| - 1 - |rest|];
      BlankConcat([s[0]], s[1..][..|s| - 1 - |rest|]);
      rest
    else s
  }

  /** string.TrimEnd: the white space at the back removed. */
  function TrimEnd(s: string): (r: string)
    ensures |r| <= |s| && r == s[..|r|]
    ensures IsBlank(s[|r|..])
    ensures r == [] || !IsWhiteSpace(r[|r| - 1])
  {
    if s != [] && IsWhiteSpace(s[|s| - 1]) then
      var rest := TrimEnd(s[..|s| - 1]);
      assert s[|rest|..] == s[..|s| - 1][|rest|..] + [s[|s| - 1]];
      BlankConcat(s[..|s| - 1][|rest|..], [s[|s| - 1]]);
      rest
    else s
  }

  /** string.Trim: the result neither starts nor ends with white space. */
  function Trim(s: string): (r: string)
    ensures r == [] || (!IsWhiteSpace(r[0]) && !IsWhiteSpace(r[|r| - 1]))
  {
    var t := TrimStart(s);
    var trimmed := TrimEnd(t);
    assert trimmed != [] ==> trimmed[0] == t[0];
    trimmed
  }

  /** What Trim removes is white space on either side: `s` is the result surrounded by blanks. */
  lemma TrimSurroundedByBlanks(s: string)
    ensures var r := Trim(s);
            exists i :: 0 <= i <= |s| - |r| && s[i..i + |r|] == r && IsBlank(s[..i]) && IsBlank(s[i + |r|..])
  {
    TrimmedWithin(s, TrimStart(s), Trim(s));
  }

  /** What is cut from either end of `s` is blank: the shape Trim's result has. */
  lemma TrimmedWithin(s: string, t: string, r: string)
    requires |t| <= |s| && t == s[|s| - |t|..] && IsBlank(s[..|s| - |t|])
    requires |r| <= |t| && r == t[..|r|] && IsBlank(t[|r|..])
    ensures exists i :: 0 <= i <= |s| - |r| && s[i..i + |r|] == r && IsBlank(s[..i]) && IsBlank(s[i + |r|..])
  {
    var i := |s| - |t|;
    assert s[i + |r|..] == t[|r|..];
    assert s[i..i + |r|] == r && IsBlank(s[..i]) && IsBlank(s[i + |r|..]);
  }

  /** ASCII lower-casing of one character (char.ToLowerInvariant restricted to ASCII). */
  function LowerChar(c: char): char {
    if 'A' <= c <= 'Z' then (c as int - 'A' as int + 'a' as int) as char else c
  }

  /** string.ToLower, for the ASCII letters. */
  function ToLower(s: string): (r: string)
    ensures |r| == |s|
    ensures forall i :: 0 <= i < |s| ==> r[i] == LowerChar(s[i])
  {
    seq(|s|, i requires 0 <= i < |s| => LowerChar(s[i]))
  }

  /** ASCII upper-casing of one character (char.ToUpperInvariant restricted to ASCII). */
  function UpperChar(c: char): char {
    if 'a' <= c <= 'z' then (c as int - 'a' as int + 'A' as int) as char else c
  }

  /** string.ToUpperInvariant, for the ASCII letters. */
  function ToUpper(s: string): (r: string)
    ensures |r| == |s|
    ensures forall i :: 0 <= i < |s| ==> r[i] == UpperChar(s[i])
  {
    seq(|s|, i requires 0 <= i < |s| => UpperChar(s[i]))
  }

  /** Two strings that differ only in the case of their ASCII letters upper-case alike. */
  lemma ToUpperIgnoresCase(a: string, b: string)
    requires |a| == |b| && forall i :: 0 <= i < |a| ==> LowerChar(a[i]) == LowerChar(b[i])
    ensures ToUpper(a) == ToUpper(b)
  {
    forall i | 0 <= i < |a| ensures UpperChar(a[i]) == UpperChar(b[i]) {
      assert LowerChar(a[i]) == LowerChar(b[i]);
    }
  }

  /** Lower-casing twice is lower-casing once. */
  lemma ToLowerIdempotent(s: string)
    ensures ToLower(ToLower(s)) == ToLower(s)
  {
    forall i | 0 <= i < |s| ensures LowerChar(LowerChar(s[i])) == LowerChar(s[i]) {
    }
  }

  /** string.Replace of one character by another. */
  function ReplaceChar(s: string, from: char, to: char): (r: string)
    ensures |r| == |s|
    ensures forall i :: 0 <= i < |s| ==> r[i] == if s[i] == from then to else s[i]
  {
    seq(|s|, i requires 0 <= i < |s| => if s[i] == from then to else s[i])
  }

  /** string.Replace of one character by the empty string. */
  function RemoveChar(s: string, c: char): (r: string)
    ensures forall i :: 0 <= i < |r| ==> r[i] != c && r[i] in s
    ensures |r| == |s| - multiset(s)[c]
    ensures multiset(r) == multiset(s)[c := 0]
    ensures c !in s ==> r == s
  {
    if s == [] then []
    else
      assert s == [s[0]] + s[1..];
      if s[0] == c then RemoveChar(s[1..], c) else [s[0]] + RemoveChar(s[1..], c)
  }

  /** Removal works piece by piece, so the characters that stay keep their order. */
  lemma {:induction false} RemoveCharConcat(a: string, b: string, c: char)
    ensures RemoveChar(a + b, c) == RemoveChar(a, c) + RemoveChar(b, c)
    decreases |a|
  {
    if a == [] {
      assert a + b == b;
    } else {
      var x, rest := a[0], a[1..];
      assert a == [x] + rest;
      assert a + b == [x] + (rest + b);
      RemoveCharConcat(rest, b, c);
      if x == c {
        calc {
          RemoveChar(a + b, c);
        == { RemoveCharCons(x, rest + b, c); }
          RemoveChar(rest + b, c);
        ==
          RemoveChar(rest, c) + RemoveChar(b, c);
        == { RemoveCharCons(x, rest, c); }
          RemoveChar(a, c) + RemoveChar(b, c);
        }
      } else {
        calc {
          RemoveChar(a + b, c);
        == { RemoveCharCons(x, rest + b, c); }
          [x] + RemoveChar(rest + b, c);
        ==
          [x] + (RemoveChar(rest, c) + RemoveChar(b, c));
        ==
          ([x] + RemoveChar(rest, c)) + RemoveChar(b, c);
        == { RemoveCharCons(x, rest, c); }
          RemoveChar(a, c) + RemoveChar(b, c);
        }
      }
    }
  }

  lemma RemoveCharCons(x: char, t: string, c: char)
    ensures RemoveChar([x] + t, c) == if x == c then RemoveChar(t, c) else [x] + RemoveChar(t, c)
  {
    assert ([x] + t)[0] == x && ([x] + t)[1..] == t;
  }

  /** `s.Substring(s.Length - n)`: the last `n` characters; a start index below 0 throws. */
  function LastChars(s: string, n: nat): (r: Result<string, Fault>)
    ensures r.Failure? <==> |s| < n
    ensures r.Failure? ==> r.error == ArgumentOutOfRange
    ensures r.Success? ==> |r.value| == n && s == s[..|s| - n] + r.value
  {
    if |s| < n then Failure(ArgumentOutOfRange) else Success(s[|s| - n..])
  }

  function DigitChar(d: int): char
    requires 0 <= d < 10
  {
    ('0' as int + d) as char
  }

  /** The number a string of decimal digits denotes, most significant digit first. */
  function DecimalValue(s: string): nat
    requires forall i :: 0 <= i < |s| ==> '0' <= s[i] <= '9'
  {
    if s == [] then 0 else 10 * DecimalValue(s[..|s| - 1]) + (s[|s| - 1] as int - '0' as int)
  }

  /** Decimal rendering of a natural number, as in string interpolation: the digits of `n`, without leading zeros. */
  function NatToString(n: nat): (r: string)
    ensures |r| > 0
    ensures forall i :: 0 <= i < |r| ==> '0' <= r[i] <= '9'
    ensures DecimalValue(r) == n
    ensures |r| > 1 ==> r[0] != '0'
  {
    if n < 10 then [DigitChar(n)]
    else
      var init := NatToString(n / 10);
      var r := init + [DigitChar(n % 10)];
      assert r[..|r| - 1] == init;
      r
  }

  /** Decimal rendering of an integer, with a leading '-' when negative. */
  function IntToString(n: int): (r: string)
    ensures n >= 0 ==> r == NatToString(n)
    ensures n < 0 ==> |r| > 1 && r[0] == '-' && r[1..] == NatToString(-n)
  {
    if n < 0 then "-" + NatToString(-n) else NatToString(n)
  }

  /** Different integers render differently, so the number can be read back from its text. */
  lemma IntToStringInjective(m: int, n: int)
    requires IntToString(m) == IntToString(n)
    ensures m == n
  {
    if m >= 0 && n >= 0 {
      assert DecimalValue(NatToString(m)) == m;
    } else if m < 0 && n < 0 {
      assert NatToString(-m) == IntToString(m)[1..];
      assert DecimalValue(NatToString(-m)) == -m;
    }
  }

  /** A string made of `c` only holds `c` as many times as it is long. */
  lemma {:induction false} CountOfRepeated(s: string, c: char)
    requires forall i :: 0 <= i < |s| ==> s[i] == c
    ensures multiset(s)[c] == |s|
  {
    if s != [] {
      assert s == [s[0]] + s[1..];
      CountOfRepeated(s[1..], c);
    }
  }

  /** string.Join(sep, parts). */
  function Join(sep: string, parts: seq<string>): (r: string)
    ensures parts == [] ==> r == ""
    ensures |parts| == 1 ==> r == parts[0]
    ensures |parts| > 0 ==> StartsWith(r, parts[0])
  {
    if parts == [] then ""
    else if |parts| == 1 then parts[0]
    else
      var init := Join(sep, parts[..|parts| - 1]);
      assert parts[..|parts| - 1][0] == parts[0];
      assert (init + sep + parts[|parts| - 1])[..|parts[0]|] == init[..|parts[0]|];
      init + sep + parts[|parts| - 1]
  }

  /** Appending a part appends the separator and that part. */
  lemma JoinAppend(sep: string, parts: seq<string>, p: string)
    requires parts != []
    ensures Join(sep, parts + [p]) == Join(sep, parts) + sep + p
  {
    assert (parts + [p])[..|parts|] == parts;
  }

  /** Read from the front: the first part, the separator, then the rest joined. */
  lemma {:induction false} JoinCons(sep: string, p: string, parts: seq<string>)
    requires parts != []
    ensures Join(sep, [p] + parts) == p + sep + Join(sep, parts)
    decreases |parts|
  {
    if |parts| == 1 {
      assert [p] + parts == [p] + [parts[0]];
      JoinAppend(sep, [p], parts[0]);
    } else {
      var init := parts[..|parts| - 1];
      var last := parts[|parts| - 1];
      calc {
        Join(sep, [p] + parts);
      == { assert [p] + parts == ([p] + init) + [last]; JoinAppend(sep, [p] + init, last); }
        Join(sep, [p] + init) + sep + last;
      == { JoinCons(sep, p, init); }
        (p + sep + Join(sep, init)) + sep + last;
      ==
        p + sep + (Join(sep, init) + sep + last);
      == { assert parts == init + [last]; JoinAppend(sep, init, last); }
        p + sep + Join(sep, parts);
      }
    }
  }
}
