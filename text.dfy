/** The JavaScript string operations the pages and handlers use: `trim`,
    `toLowerCase`, `includes`, `join`, `split`, `replace` (first occurrence),
    `padStart`, `slice(-n)`, and integer <-> decimal text. */
module Text {
  import opened Wrappers

  /** The characters `String.prototype.trim` removes: WhiteSpace and LineTerminator. */
  predicate IsSpace(c: char)
  {
    c == ' ' || c == '\t' || c == '\n' || c == '\r' || c == '\U{0B}' || c == '\U{0C}' ||
    c == '\U{A0}' || c == '\U{1680}' || ('\U{2000}' <= c <= '\U{200A}') ||
    c == '\U{2028}' || c == '\U{2029}' || c == '\U{202F}' || c == '\U{205F}' ||
    c == '\U{3000}' || c == '\U{FEFF}'
  }

  function TrimStart(s: string): (r: string)
    ensures |r| <= |s| && r == s[|s| - |r|..]
    ensures r != [] ==> !IsSpace(r[0])
  {
    if s != [] && IsSpace(s[0]) then TrimStart(s[1..]) else s
  }

  function TrimEnd(s: string): (r: string)
    ensures |r| <= |s| && r == s[..|r|]
    ensures r != [] ==> !IsSpace(r[|r| - 1])
  {
    if s != [] && IsSpace(s[|s| - 1]) then TrimEnd(s[..|s| - 1]) else s
  }

  /** `s.trim()`. */
  function Trim(s: string): string
  {
    TrimEnd(TrimStart(s))
  }

  /** Every character of `t` is white space. */
  predicate AllSpace(t: string)
  {
    forall i :: 0 <= i < |t| ==> IsSpace(t[i])
  }

  /** Every character of `s` outside `s[a..a + n]` is white space. */
  predicate SpaceAround(s: string, a: int, n: int)
  {
    0 <= a && 0 <= n && a + n <= |s| && AllSpace(s[..a]) && AllSpace(s[a + n..])
  }

  /** `trimStart` drops only white space. */
  lemma {:induction false} TrimStartDrops(s: string)
    ensures AllSpace(s[..|s| - |TrimStart(s)|])
  {
    if s != [] && IsSpace(s[0]) {
      TrimStartDrops(s[1..]);
      var k := |s| - |TrimStart(s)|;
      forall i | 0 <= i < k ensures IsSpace(s[..k][i]) {
        if i > 0 {
          assert s[..k][i] == s[1..][..k - 1][i - 1];
        }
      }
    }
  }

  /** `trimEnd` drops only white space. */
  lemma {:induction false} TrimEndDrops(s: string)
    ensures AllSpace(s[|TrimEnd(s)|..])
  {
    if s != [] && IsSpace(s[|s| - 1]) {
      var init := s[..|s| - 1];
      TrimEndDrops(init);
      var k := |TrimEnd(s)|;
      forall i | 0 <= i < |s| - k ensures IsSpace(s[k..][i]) {
        if k + i < |s| - 1 {
          assert s[k..][i] == init[k..][i];
        }
      }
    }
  }

  /** A suffix of `s` after white space, cut before more white space, is a middle of `s`
      with only white space around it. */
  lemma SpaceAroundOf(s: string, u: string, r: string)
    requires |u| <= |s| && u == s[|s| - |u|..] && |r| <= |u| && r == u[..|r|]
    requires AllSpace(s[..|s| - |u|]) && AllSpace(u[|r|..])
    ensures SpaceAround(s, |s| - |u|, |r|) && r == s[|s| - |u|..|s| - |u| + |r|]
  {
    assert s[|s| - |u| + |r|..] == u[|r|..];
  }

  /** `s.trim()` is the middle of `s`, starting where `trimStart` stopped: only white
      space lies before and after it. */
  lemma {:induction false} TrimSpan(s: string)
    ensures var a := |s| - |TrimStart(s)|;
      SpaceAround(s, a, |Trim(s)|) && Trim(s) == s[a..a + |Trim(s)|]
  {
    TrimStartDrops(s);
    TrimEndDrops(TrimStart(s));
    SpaceAroundOf(s, TrimStart(s), TrimEnd(TrimStart(s)));
  }

  /** Leading white space is dropped up to the first other character. */
  lemma {:induction false} TrimStartSpaces(pre: string, rest: string)
    requires AllSpace(pre)
    requires rest == [] || !IsSpace(rest[0])
    ensures TrimStart(pre + rest) == rest
  {
    if pre != [] {
      assert (pre + rest)[1..] == pre[1..] + rest;
      TrimStartSpaces(pre[1..], rest);
    }
  }

  /** Trailing white space is dropped back to the last other character. */
  lemma {:induction false} TrimEndSpaces(rest: string, post: string)
    requires AllSpace(post)
    requires rest == [] || !IsSpace(rest[|rest| - 1])
    ensures TrimEnd(rest + post) == rest
  {
    if post != [] {
      assert (rest + post)[..|rest + post| - 1] == rest + post[..|post| - 1];
      TrimEndSpaces(rest, post[..|post| - 1]);
    } else {
      assert rest + post == rest;
    }
  }

  /** Trimming a trimmed, non-empty text padded with white space gives the text back. */
  lemma {:induction false} TrimPadded(pre: string, core: string, post: string)
    requires AllSpace(pre) && AllSpace(post)
    requires core != [] && IsTrimmed(core)
    ensures Trim(pre + core + post) == core
  {
    assert pre + core + post == pre + (core + post);
    TrimStartSpaces(pre, core + post);
    TrimEndSpaces(core, post);
  }

  /** `s.trim().toLowerCase()` is the lower-cased middle of `s`. */
  lemma {:induction false} LowerTrimSpan(s: string)
    ensures exists a :: SpaceAround(s, a, |Lower(Trim(s))|) && Lower(Trim(s)) == Lower(s[a..a + |Lower(Trim(s))|])
  {
    TrimSpan(s);
    var r := Trim(s);
    var a := |s| - |TrimStart(s)|;
    var m := s[a..a + |r|];
    assert r == m;
    assert |Lower(r)| == |r|;
    assert SpaceAround(s, a, |Lower(r)|) && Lower(r) == Lower(m);
  }

  /** `s.trim().toLowerCase()` is trimmed and already lower-case. */
  lemma {:induction false} LowerTrimShape(s: string)
    ensures IsTrimmed(Lower(Trim(s))) && Lower(Lower(Trim(s))) == Lower(Trim(s))
  {
    var t := Trim(s);
    TrimIdempotent(s);
    TrimLower(t);
    assert Trim(Lower(t)) == Lower(t);
    TrimIdempotent(Lower(t));
    LowerIdempotent(t);
  }

  /** A string is trimmed when it neither starts nor ends with white space. */
  predicate IsTrimmed(s: string)
  {
    s == [] || (!IsSpace(s[0]) && !IsSpace(s[|s| - 1]))
  }

  lemma {:induction false} TrimEndKeepsStart(s: string)
    requires s == [] || !IsSpace(s[0])
    ensures TrimEnd(s) == [] || !IsSpace(TrimEnd(s)[0])
  {
    var r := TrimEnd(s);
    if r != [] {
      assert r[0] == s[0];
    }
  }

  lemma TrimmedIsFixed(s: string)
    requires IsTrimmed(s)
    ensures Trim(s) == s
  {
  }

  /** `trim` gives a trimmed string, so trimming twice is trimming once. */
  lemma TrimIdempotent(s: string)
    ensures IsTrimmed(Trim(s))
    ensures Trim(Trim(s)) == Trim(s)
  {
    TrimEndKeepsStart(TrimStart(s));
    TrimmedIsFixed(Trim(s));
  }

  /** `toLowerCase` on one character: ASCII and Latin-1 capitals. */
  function LowerChar(c: char): char
  {
    if 'A' <= c <= 'Z' then (c as int + 32) as char
    else if '\U{C0}' <= c <= '\U{DE}' && c != '\U{D7}' then (c as int + 32) as char
    else c
  }

  /** `s.toLowerCase()`. */
  function Lower(s: string): (r: string)
    ensures |r| == |s|
    ensures forall i :: 0 <= i < |s| ==> r[i] == LowerChar(s[i])
  {
    seq(|s|, i requires 0 <= i < |s| => LowerChar(s[i]))
  }

  /** Equality up to letter case, character by character: how a regular expression with the
      `i` flag compares a text with a pattern of ASCII characters (a non-ASCII character
      never matches an ASCII one). */
  predicate EqualFold(a: string, b: string)
  {
    |a| == |b| && forall i :: 0 <= i < |a| ==> LowerChar(a[i]) == LowerChar(b[i])
  }

  lemma LowerIdempotent(s: string)
    ensures Lower(Lower(s)) == Lower(s)
  {
  }

  lemma LowerSlice(s: string, a: nat, b: nat)
    requires a <= b <= |s|
    ensures Lower(s[a..b]) == Lower(s)[a..b]
  {
  }

  lemma LowerCharSpace(c: char)
    ensures IsSpace(LowerChar(c)) == IsSpace(c)
  {
  }

  /** Lower-casing never creates or removes white space, so it commutes with `trim`. */
  lemma {:induction false} TrimStartLower(s: string)
    ensures TrimStart(Lower(s)) == Lower(TrimStart(s))
  {
    if s != [] {
      LowerCharSpace(s[0]);
    }
    if s != [] && IsSpace(s[0]) {
      LowerSlice(s, 1, |s|);
      assert Lower(s)[1..] == Lower(s[1..]);
      TrimStartLower(s[1..]);
    }
  }

  lemma {:induction false} TrimEndLower(s: string)
    ensures TrimEnd(Lower(s)) == Lower(TrimEnd(s))
  {
    if s != [] {
      LowerCharSpace(s[|s| - 1]);
    }
    if s != [] && IsSpace(s[|s| - 1]) {
      LowerSlice(s, 0, |s| - 1);
      TrimEndLower(s[..|s| - 1]);
    }
  }

  lemma TrimLower(s: string)
    ensures Trim(Lower(s)) == Lower(Trim(s))
  {
    TrimStartLower(s);
    TrimEndLower(TrimStart(s));
  }

  /** `prefix` starts `s`. */
  predicate IsPrefix(prefix: string, s: string)
  {
    |prefix| <= |s| && s[..|prefix|] == prefix
  }

  /** `s.includes(q)`, scanning from the left. */
  predicate Includes(s: string, q: string)
    decreases |s|
  {
    IsPrefix(q, s) || (s != [] && Includes(s[1..], q))
  }

  /** A text never includes a longer one. */
  lemma {:induction false} IncludesLonger(s: string, q: string)
    requires |q| > |s|
    ensures !Includes(s, q)
    decreases |s|
  {
    if s != [] {
      IncludesLonger(s[1..], q);
    }
  }

  /** `q` occurs in `s` starting at position `i`. */
  predicate OccursAt(s: string, q: string, i: int)
  {
    0 <= i <= |s| - |q| && s[i..i + |q|] == q
  }

  /** `Includes` holds exactly when `q` occurs at some position of `s`. */
  lemma {:induction false} IncludesAt(s: string, q: string)
    ensures Includes(s, q) <==> exists i :: OccursAt(s, q, i)
    decreases |s|
  {
    if IsPrefix(q, s) {
      assert OccursAt(s, q, 0);
    } else if s != [] {
      IncludesAt(s[1..], q);
      if Includes(s[1..], q) {
        var i :| OccursAt(s[1..], q, i);
        assert s[i + 1..i + 1 + |q|] == s[1..][i..i + |q|];
        assert OccursAt(s, q, i + 1);
      }
      if exists i :: OccursAt(s, q, i) {
        var i :| OccursAt(s, q, i);
        assert i != 0;
        assert s[1..][i - 1..i - 1 + |q|] == s[i..i + |q|];
        assert OccursAt(s[1..], q, i - 1);
      }
    }
  }

  /** `parts.join(sep)`. */
  function Join(parts: seq<string>, sep: string): string
  {
    if parts == [] then ""
    else if |parts| == 1 then parts[0]
    else parts[0] + sep + Join(parts[1..], sep)
  }

  /** Every part occurs in the joined text. */
  lemma {:induction false} JoinHasPart(parts: seq<string>, sep: string, k: nat)
    requires k < |parts|
    ensures exists i :: OccursAt(Join(parts, sep), parts[k], i)
  {
    var j := Join(parts, sep);
    if |parts| == 1 {
      assert j[0..|parts[0]|] == parts[0];
      assert OccursAt(j, parts[k], 0);
    } else if k == 0 {
      assert j[0..|parts[0]|] == parts[0];
      assert OccursAt(j, parts[k], 0);
    } else {
      JoinHasPart(parts[1..], sep, k - 1);
      var rest := Join(parts[1..], sep);
      var i :| OccursAt(rest, parts[1..][k - 1], i);
      var off := |parts[0]| + |sep|;
      assert j == parts[0] + sep + rest;
      assert j[off + i..off + i + |parts[k]|] == rest[i..i + |parts[k]|];
      assert OccursAt(j, parts[k], off + i);
    }
  }

  /** An occurrence inside an occurrence is an occurrence. */
  lemma OccursWithin(s: string, part: string, i: int, q: string, j: int)
    requires OccursAt(s, part, i) && OccursAt(part, q, j)
    ensures OccursAt(s, q, i + j)
  {
    forall t | 0 <= t < |q| ensures s[i + j + t] == q[t] {
      assert q[t] == part[j + t] == s[i + j + t];
    }
    assert s[i + j..i + j + |q|] == q;
  }

  /** Lower-casing keeps occurrences where they are. */
  lemma LowerOccurs(s: string, part: string, i: int)
    requires OccursAt(s, part, i)
    ensures OccursAt(Lower(s), Lower(part), i)
  {
    LowerSlice(s, i, i + |part|);
  }

  /** `s.split(c)` for a one-character separator. */
  function Split(s: string, c: char): (r: seq<string>)
    ensures |r| >= 1
  {
    if s == [] then [""]
    else if s[0] == c then [""] + Split(s[1..], c)
    else
      var rest := Split(s[1..], c);
      [[s[0]] + rest[0]] + rest[1..]
  }

  /** Splitting a text with no separator in it gives the text back. */
  lemma {:induction false} SplitNone(a: string, c: char)
    requires c !in a
    ensures Split(a, c) == [a]
  {
    if a != [] {
      SplitNone(a[1..], c);
      assert [a[0]] + a[1..] == a;
    }
  }

  /** The piece in front of the first separator is split off unchanged. */
  lemma {:induction false} SplitFirst(a: string, c: char, b: string)
    requires c !in a
    ensures Split(a + [c] + b, c) == [a] + Split(b, c)
  {
    if a == [] {
      assert a + [c] + b == [c] + b;
      assert ([c] + b)[1..] == b;
    } else {
      assert (a + [c] + b)[1..] == a[1..] + [c] + b;
      SplitFirst(a[1..], c, b);
      assert [a[0]] + a[1..] == a;
    }
  }

  /** A leading separator and three pieces without one split into an empty piece and the three. */
  lemma SplitThree(a: string, b: string, x: string, c: char)
    requires c !in a && c !in b && c !in x
    ensures Split([c] + a + [c] + b + [c] + x, c) == ["", a, b, x]
  {
    var s3 := b + [c] + x;
    SplitFirst(b, c, x);
    SplitNone(x, c);
    var s2 := a + [c] + s3;
    SplitFirst(a, c, s3);
    SplitFirst([], c, s2);
    assert [c] + a + [c] + b + [c] + x == [] + [c] + s2;
  }

  /** The same with a separator after the third piece, which leaves an empty last piece. */
  lemma SplitThreeThenSeparator(a: string, b: string, x: string, c: char)
    requires c !in a && c !in b && c !in x
    ensures Split([c] + a + [c] + b + [c] + x + [c], c) == ["", a, b, x, ""]
  {
    var t := x + [c];
    SplitThenSeparator(x, c);
    var s3 := b + [c] + t;
    SplitFirst(b, c, t);
    var s2 := a + [c] + s3;
    SplitFirst(a, c, s3);
    SplitFirst([], c, s2);
    assert [c] + a + [c] + b + [c] + x + [c] == [] + [c] + s2;
  }

  /** A piece followed by the separator splits into the piece and an empty last piece. */
  lemma SplitThenSeparator(x: string, c: char)
    requires c !in x
    ensures Split(x + [c], c) == [x, ""]
  {
    SplitFirst(x, c, []);
    assert x + [c] + [] == x + [c];
  }

  /** `s.replace(from, to)` with a one-character pattern: only the first occurrence. */
  function ReplaceFirst(s: string, from: char, to: char): (r: string)
    ensures |r| == |s|
  {
    if s == [] then []
    else if s[0] == from then [to] + s[1..]
    else [s[0]] + ReplaceFirst(s[1..], from, to)
  }

  /** `ReplaceFirst` changes exactly the first occurrence of the pattern. */
  lemma {:induction false} ReplaceFirstSpec(s: string, from: char, to: char, k: nat)
    requires k < |s| && s[k] == from && from !in s[..k]
    ensures ReplaceFirst(s, from, to) == s[..k] + [to] + s[k + 1..]
  {
    if k > 0 {
      assert s[0] != from by { assert s[0] == s[..k][0]; }
      assert s[1..][..k - 1] == s[1..k];
      assert from !in s[1..][..k - 1];
      ReplaceFirstSpec(s[1..], from, to, k - 1);
      assert s[..k] == [s[0]] + s[1..k];
    }
  }

  /** `s.slice(-n)`: the last `n` characters, or all of `s` when it is shorter. */
  function LastN(s: string, n: nat): (r: string)
    ensures |r| == if |s| < n then |s| else n
    ensures r == s[|s| - |r|..]
  {
    if |s| <= n then s else s[|s| - n..]
  }

  /** `String(n).padStart(2, '0')`. */
  function Pad2(s: string): (r: string)
  {
    if |s| == 0 then "00" else if |s| == 1 then "0" + s else s
  }

  predicate IsDigit(c: char)
  {
    '0' <= c <= '9'
  }

  predicate AllDigits(s: string)
  {
    forall i :: 0 <= i < |s| ==> IsDigit(s[i])
  }

  function DigitChar(d: nat): (c: char)
    requires d < 10
    ensures IsDigit(c)
  {
    ('0' as int + d) as char
  }

  function DigitValue(c: char): (d: nat)
    requires IsDigit(c)
    ensures d < 10 && DigitChar(d) == c
  {
    c as int - '0' as int
  }

  /** Decimal text of a natural number, no leading zeros (`String(n)`). */
  function NatToString(n: nat): string
  {
    if n < 10 then [DigitChar(n)] else NatToString(n / 10) + [DigitChar(n % 10)]
  }

  /** The text of a number is a non-empty run of digits, one digit exactly below 10 and at
      most two below 100. */
  lemma {:induction false} NatToStringShape(n: nat)
    ensures var r := NatToString(n);
      r != [] && AllDigits(r) && (|r| == 1 <==> n < 10) && (n < 100 ==> |r| <= 2)
  {
    if n >= 10 {
      NatToStringShape(n / 10);
      var r := NatToString(n);
      assert r == NatToString(n / 10) + [DigitChar(n % 10)];
      assert forall i :: 0 <= i < |r| - 1 ==> r[i] == NatToString(n / 10)[i];
    }
  }

  /** `String(n)` for any integer. */
  function IntToString(n: int): string
  {
    if n < 0 then "-" + NatToString(-n) else NatToString(n)
  }

  /** The value of a non-empty run of decimal digits. */
  function DigitsValue(s: string): nat
    requires AllDigits(s)
  {
    if s == [] then 0 else DigitsValue(s[..|s| - 1]) * 10 + DigitValue(s[|s| - 1])
  }

  /** An optional sign followed by decimal digits; anything else does not parse. */
  function ParseSignedDecimal(s: string): (r: Option<int>)
  {
    if |s| >= 1 && (s[0] == '-' || s[0] == '+') then
      if |s| >= 2 && AllDigits(s[1..]) then
        var v: int := DigitsValue(s[1..]);
        Some(if s[0] == '-' then -v else v)
      else None
    else if s != [] && AllDigits(s) then Some(DigitsValue(s))
    else None
  }

  lemma {:induction false} NatToStringValue(n: nat)
    ensures AllDigits(NatToString(n)) && DigitsValue(NatToString(n)) == n
  {
    NatToStringShape(n);
    if n >= 10 {
      var t := NatToString(n);
      assert t[..|t| - 1] == NatToString(n / 10);
      NatToStringValue(n / 10);
    }
  }

  /** Printing an integer in decimal and parsing it back gives the integer. */
  lemma IntToStringRoundTrip(n: int)
    ensures ParseSignedDecimal(IntToString(n)) == Some(n)
  {
    if n < 0 {
      var u := NatToString(-n);
      NatToStringShape(-n);
      var t := "-" + u;
      assert t == IntToString(n);
      assert t[0] == '-' && t[1..] == u;
      NatToStringValue(-n);
      assert ParseSignedDecimal(t) == Some(0 - DigitsValue(u) as int);
    } else {
      var t := NatToString(n);
      NatToStringShape(n);
      assert IsDigit(t[0]);
      NatToStringValue(n);
      assert ParseSignedDecimal(t) == Some(DigitsValue(t));
    }
  }

  /** Two integers with the same decimal text are equal. */
  lemma IntToStringInjective(a: int, b: int)
    requires IntToString(a) == IntToString(b)
    ensures a == b
  {
    IntToStringRoundTrip(a);
    IntToStringRoundTrip(b);
  }

  /** Code-unit order on strings: a proper prefix comes first. */
  predicate StrLe(a: string, b: string)
  {
    if a == [] then true
    else if b == [] then false
    else if a[0] != b[0] then a[0] < b[0]
    else StrLe(a[1..], b[1..])
  }

  lemma {:induction false} StrLeTotal(a: string, b: string)
    ensures StrLe(a, b) || StrLe(b, a)
  {
    if a != [] && b != [] && a[0] == b[0] {
      StrLeTotal(a[1..], b[1..]);
    }
  }

  lemma {:induction false} StrLeTrans(a: string, b: string, c: string)
    requires StrLe(a, b) && StrLe(b, c)
    ensures StrLe(a, c)
  {
    if a != [] && b != [] && c != [] && a[0] == b[0] && b[0] == c[0] {
      StrLeTrans(a[1..], b[1..], c[1..]);
    }
  }

  lemma {:induction false} StrLeAntisym(a: string, b: string)
    requires StrLe(a, b) && StrLe(b, a)
    ensures a == b
  {
    if a != [] && b != [] {
      StrLeAntisym(a[1..], b[1..]);
      assert a == [a[0]] + a[1..] && b == [b[0]] + b[1..];
    }
  }
}
