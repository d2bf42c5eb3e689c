/**
 * Reading of an employee status code such as "C0" or "M08": the letter gives
 * the marital status (C single, M married) and the rest the number of
 * dependents. Both lookups of the engine (family charge reduction and family
 * allowance) read the code the same way: `code.upper().strip()`, the first
 * character as the letter and Python's `int()` of the remainder.
 */
module StatusCode {
  import opened Wrappers

  /** Python's `str.isspace`: the characters `strip()` skips. */
  predicate IsSpace(c: char) {
    var n := c as int;
    || 9 <= n <= 13 || 28 <= n <= 32 || n == 0x85 || n == 0xA0 || n == 0x1680
    || 0x2000 <= n <= 0x200A || n == 0x2028 || n == 0x2029 || n == 0x202F
    || n == 0x205F || n == 0x3000
  }

  predicate AllSpace(s: string) {
    forall i :: 0 <= i < |s| ==> IsSpace(s[i])
  }

  /**
   * The whitespace `int()` skips around a number: that of `str.isspace`
   * except the separators U+001C to U+001F, which CPython's integer parser
   * does not treat as whitespace.
   */
  predicate IntSpace(c: char) {
    IsSpace(c) && !(28 <= c as int <= 31)
  }

  predicate AllIntSpace(s: string) {
    forall i :: 0 <= i < |s| ==> IntSpace(s[i])
  }

  predicate IsDigit(c: char) {
    '0' <= c <= '9'
  }

  /** Upper-casing of one character (ASCII letters only). */
  function UpperChar(c: char): (u: char)
    ensures IsSpace(u) <==> IsSpace(c)
    ensures IsDigit(u) <==> IsDigit(c)
    ensures 'A' <= c <= 'Z' || !('a' <= c <= 'z') ==> u == c
    ensures 'a' <= c <= 'z' ==> 'A' <= u <= 'Z' && u as int == c as int - 32
  {
    if 'a' <= c <= 'z' then (c as int - 32) as char else c
  }

  /** `s.upper()` */
  function Upper(s: string): (u: string)
    ensures |u| == |s|
    ensures forall i :: 0 <= i < |s| ==> u[i] == UpperChar(s[i])
  {
    seq(|s|, i requires 0 <= i < |s| => UpperChar(s[i]))
  }

  /** `s.lstrip()` */
  function StripLeft(s: string): (r: string)
    ensures |r| <= |s| && r == s[|s| - |r|..]
    ensures forall i :: 0 <= i < |s| - |r| ==> IsSpace(s[i])
    ensures r != [] ==> !IsSpace(r[0])
  {
    if |s| > 0 && IsSpace(s[0]) then
      assert forall i :: 1 <= i < |s| ==> s[i] == s[1..][i - 1];
      StripLeft(s[1..])
    else s
  }

  /** `s.rstrip()` */
  function StripRight(s: string): (r: string)
    ensures |r| <= |s| && r == s[..|r|]
    ensures forall i :: |r| <= i < |s| ==> IsSpace(s[i])
    ensures r != [] ==> !IsSpace(r[|r| - 1])
  {
    if |s| > 0 && IsSpace(s[|s| - 1]) then StripRight(s[..|s| - 1]) else s
  }

  /** r is s[i..] up to whitespace that ends s: s with whitespace ends of lengths i and |s| - i - |r| cut off. */
  predicate CutFrom(s: string, r: string, i: int) {
    && 0 <= i <= |s| - |r|
    && r == s[i..i + |r|]
    && AllSpace(s[..i])
    && AllSpace(s[i + |r|..])
  }

  /** `s.strip()`: nothing is left exactly when the string is all whitespace. */
  function Strip(s: string): (r: string)
    ensures r == [] <==> AllSpace(s)
    ensures r != [] ==> !IsSpace(r[0]) && !IsSpace(r[|r| - 1])
  {
    var t := StripLeft(s);
    var r := StripRight(t);
    r
  }

  /** What `strip()` leaves is the middle of s, once whitespace ends are cut off on both sides. */
  lemma StripCutsWhitespace(s: string)
    ensures exists i :: CutFrom(s, Strip(s), i)
  {
    CutTwice(s, StripLeft(s), Strip(s));
  }

  /** Cutting whitespace off the left of s and then off the right of what remains cuts s at both ends. */
  lemma CutTwice(s: string, t: string, r: string)
    requires |t| <= |s| && t == s[|s| - |t|..] && forall j :: 0 <= j < |s| - |t| ==> IsSpace(s[j])
    requires |r| <= |t| && r == t[..|r|] && forall j :: |r| <= j < |t| ==> IsSpace(t[j])
    ensures CutFrom(s, r, |s| - |t|)
  {
    var i := |s| - |t|;
    assert r == s[i..i + |r|];
    var head, tail := s[..i], s[i + |r|..];
    forall j | 0 <= j < |head|
      ensures IsSpace(head[j])
    {
      assert head[j] == s[j];
    }
    forall j | 0 <= j < |tail|
      ensures IsSpace(tail[j])
    {
      assert tail[j] == t[|r| + j];
    }
  }

  /** A string with no whitespace at either end strips to itself. */
  lemma StripTrimmed(s: string)
    requires s != [] ==> !IsSpace(s[0]) && !IsSpace(s[|s| - 1])
    ensures Strip(s) == s
  {
  }

  // ---------------------------------------------------------------------------
  // The whitespace `int()` skips: like `strip()`, with the smaller set IntSpace

  /** The leading whitespace `int()` skips before a number. */
  function IntStripLeft(s: string): (r: string)
    ensures |r| <= |s| && r == s[|s| - |r|..]
    ensures forall i :: 0 <= i < |s| - |r| ==> IntSpace(s[i])
    ensures r != [] ==> !IntSpace(r[0])
  {
    if |s| > 0 && IntSpace(s[0]) then
      assert forall i :: 1 <= i < |s| ==> s[i] == s[1..][i - 1];
      IntStripLeft(s[1..])
    else s
  }

  /** The trailing whitespace `int()` skips after a number. */
  function IntStripRight(s: string): (r: string)
    ensures |r| <= |s| && r == s[..|r|]
    ensures forall i :: |r| <= i < |s| ==> IntSpace(s[i])
    ensures r != [] ==> !IntSpace(r[|r| - 1])
  {
    if |s| > 0 && IntSpace(s[|s| - 1]) then IntStripRight(s[..|s| - 1]) else s
  }

  /** The text `int()` reads as a number: nothing is left exactly when s is all such whitespace. */
  function IntStrip(s: string): (r: string)
    ensures r == [] <==> AllIntSpace(s)
    ensures r != [] ==> !IntSpace(r[0]) && !IntSpace(r[|r| - 1])
  {
    IntStripRight(IntStripLeft(s))
  }

  lemma IntStripTrimmed(s: string)
    requires s != [] ==> !IntSpace(s[0]) && !IntSpace(s[|s| - 1])
    ensures IntStrip(s) == s
  {
  }

  lemma {:induction false} IntStripLeftPadded(pre: string, m: string)
    requires AllIntSpace(pre) && (m != [] ==> !IntSpace(m[0]))
    ensures IntStripLeft(pre + m) == m
    decreases |pre|
  {
    if pre == [] {
      assert pre + m == m;
    } else {
      assert (pre + m)[0] == pre[0];
      assert (pre + m)[1..] == pre[1..] + m;
      assert AllIntSpace(pre[1..]) by {
        forall j | 0 <= j < |pre[1..]|
          ensures IntSpace(pre[1..][j])
        {
          assert pre[1..][j] == pre[j + 1];
        }
      }
      IntStripLeftPadded(pre[1..], m);
    }
  }

  lemma {:induction false} IntStripRightPadded(m: string, post: string)
    requires AllIntSpace(post) && (m != [] ==> !IntSpace(m[|m| - 1]))
    ensures IntStripRight(m + post) == m
    decreases |post|
  {
    if post == [] {
      assert m + post == m;
    } else {
      var z := m + post;
      var front := post[..|post| - 1];
      assert z[|z| - 1] == post[|post| - 1];
      assert z[..|z| - 1] == m + front;
      assert AllIntSpace(front) by {
        forall j | 0 <= j < |front|
          ensures IntSpace(front[j])
        {
          assert front[j] == post[j];
        }
      }
      IntStripRightPadded(m, front);
    }
  }

  /** The whitespace `int()` skips around text with other characters at both ends is exactly the padding. */
  lemma IntStripPadded(pre: string, m: string, post: string)
    requires AllIntSpace(pre) && AllIntSpace(post)
    requires m != [] && !IntSpace(m[0]) && !IntSpace(m[|m| - 1])
    ensures IntStrip(pre + m + post) == m
  {
    assert pre + m + post == pre + (m + post);
    assert (m + post)[0] == m[0];
    IntStripLeftPadded(pre, m + post);
    IntStripRightPadded(m, post);
  }

  /** A separator U+001C to U+001F is whitespace to `strip()` but a character `int()` cannot read. */
  lemma SeparatorNotAnInt()
    ensures IsSpace('\U{1C}') && !IntSpace('\U{1C}')
    ensures Strip("\U{1C}5") == "5" && ParseInt("\U{1C}5") == None
  {
    SeparatorStripped();
    var s := "\U{1C}5";
    assert s[0] == '\U{1C}';
    UnreadableStart(s);
  }

  /** Text starting with a character that is neither `int()` whitespace, a sign nor a digit is not a number. */
  lemma UnreadableStart(s: string)
    requires s != [] && !IntSpace(s[0]) && !IsDigit(s[0]) && s[0] != '+' && s[0] != '-'
    ensures ParseInt(s) == None
  {
    var t := IntStrip(s);
    assert IntStripLeft(s) == s;
    if t != [] {
      assert t[0] == s[0];
    }
  }

  lemma SeparatorStripped()
    ensures Strip("\U{1C}5") == "5"
  {
    var sep, m := "\U{1C}", "5";
    assert IsSpace(sep[0]) && !IsSpace(m[0]);
    StripPadded(sep, m, "");
    assert sep + m + "" == "\U{1C}5";
  }

  /** Digits with single underscores between them, as `int()` accepts in base 10. */
  predicate IsDigitRun(s: string) {
    && |s| > 0
    && IsDigit(s[0])
    && forall i :: 0 <= i < |s| ==> DigitOrJoin(s, i)
  }

  /** Position i of s holds a digit, or an underscore with a digit after it. */
  predicate DigitOrJoin(s: string, i: int)
    requires 0 <= i < |s|
  {
    IsDigit(s[i]) || (s[i] == '_' && i + 1 < |s| && IsDigit(s[i + 1]))
  }

  /** The decimal value of a digit run, underscores skipped. */
  function RunValue(s: string): int
  {
    if s == [] then 0
    else if s[|s| - 1] == '_' then RunValue(s[..|s| - 1])
    else 10 * RunValue(s[..|s| - 1]) + (s[|s| - 1] as int - '0' as int)
  }

  /**
   * Python's `int(s)` for base-10 text: `None` where it raises ValueError.
   * The whitespace `int()` skips is cut off first; a separator U+001C to
   * U+001F is then a character it cannot read.
   */
  function ParseInt(s: string): Option<int>
  {
    ReadNumber(IntStrip(s))
  }

  /** The number `int()` reads once the whitespace is skipped: an optional sign, then a digit run. */
  function ReadNumber(t: string): Option<int>
  {
    if |t| > 0 && (t[0] == '+' || t[0] == '-') then
      if IsDigitRun(t[1..]) then Some(if t[0] == '-' then -RunValue(t[1..]) else RunValue(t[1..]))
      else None
    else if IsDigitRun(t) then Some(RunValue(t))
    else None
  }

  function DigitChar(d: int): (c: char)
    requires 0 <= d < 10
    ensures IsDigit(c) && c as int - '0' as int == d
  {
    ('0' as int + d) as char
  }

  /** Decimal rendering of a natural number, no leading zeros. */
  function NatToString(n: nat): (s: string)
    decreases n
  {
    if n < 10 then [DigitChar(n)] else NatToString(n / 10) + [DigitChar(n % 10)]
  }

  /** Decimal rendering of an integer, as Python's `str(n)`. */
  function IntToString(n: int): string
  {
    if n < 0 then "-" + NatToString(-n) else NatToString(n)
  }

  lemma {:induction false} NatToStringDigits(n: nat)
    ensures |NatToString(n)| > 0
    ensures forall i :: 0 <= i < |NatToString(n)| ==> IsDigit(NatToString(n)[i])
    ensures RunValue(NatToString(n)) == n
    decreases n
  {
    if n >= 10 {
      NatToStringDigits(n / 10);
      var s := NatToString(n);
      assert s[..|s| - 1] == NatToString(n / 10);
    }
  }

  /** `int(str(n)) == n`: parsing inverts decimal rendering. */
  lemma ParseIntToString(n: int)
    ensures ParseInt(IntToString(n)) == Some(n)
  {
    var m: nat := if n < 0 then -n else n;
    var sign, digits := if n < 0 then "-" else "", NatToString(m);
    NatToStringRun(m);
    assert IntToString(n) == sign + digits;
    DigitRunEnds(digits);
    assert (sign + digits)[0] == if n < 0 then '-' else digits[0];
    assert (sign + digits)[|sign + digits| - 1] == digits[|digits| - 1];
    DigitRunEnds(digits);
    var x := sign + digits;
    assert x[0] == if n < 0 then '-' else digits[0];
    assert x[|x| - 1] == digits[|digits| - 1];
    IntStripTrimmed(x);
    ParseIntOfStripped(x, sign, digits);
  }

  /** The decimal rendering of a natural number is a digit run of that value. */
  lemma NatToStringRun(m: nat)
    ensures IsDigitRun(NatToString(m)) && RunValue(NatToString(m)) == m
  {
    NatToStringDigits(m);
    var digits := NatToString(m);
    forall i | 0 <= i < |digits|
      ensures DigitOrJoin(digits, i)
    {
      assert IsDigit(digits[i]);
    }
  }

  // ---------------------------------------------------------------------------
  // Padded counts: what `int()` accepts around the digits

  predicate IsSign(sign: string) {
    sign == "" || sign == "+" || sign == "-"
  }

  /** The value `int()` gives an optional sign followed by a digit run. */
  function SignedValue(sign: string, digits: string): int {
    if sign == "-" then -RunValue(digits) else RunValue(digits)
  }

  lemma {:induction false} StripLeftPadded(pre: string, m: string)
    requires AllSpace(pre) && (m != [] ==> !IsSpace(m[0]))
    ensures StripLeft(pre + m) == m
    decreases |pre|
  {
    if pre == [] {
      assert pre + m == m;
    } else {
      assert (pre + m)[0] == pre[0];
      assert (pre + m)[1..] == pre[1..] + m;
      assert AllSpace(pre[1..]) by {
        forall j | 0 <= j < |pre[1..]|
          ensures IsSpace(pre[1..][j])
        {
          assert pre[1..][j] == pre[j + 1];
        }
      }
      StripLeftPadded(pre[1..], m);
    }
  }

  lemma {:induction false} StripRightPadded(m: string, post: string)
    requires AllSpace(post) && (m != [] ==> !IsSpace(m[|m| - 1]))
    ensures StripRight(m + post) == m
    decreases |post|
  {
    if post == [] {
      assert m + post == m;
    } else {
      var z := m + post;
      var front := post[..|post| - 1];
      assert z[|z| - 1] == post[|post| - 1];
      assert z[..|z| - 1] == m + front;
      assert AllSpace(front) by {
        forall j | 0 <= j < |front|
          ensures IsSpace(front[j])
        {
          assert front[j] == post[j];
        }
      }
      StripRightPadded(m, front);
    }
  }

  /** Whitespace around a string with non-whitespace ends is exactly what `strip()` removes. */
  lemma StripPadded(pre: string, m: string, post: string)
    requires AllSpace(pre) && AllSpace(post)
    requires m != [] ==> !IsSpace(m[0]) && !IsSpace(m[|m| - 1])
    ensures Strip(pre + m + post) == m
  {
    if m == [] {
      var z := pre + m + post;
      forall j | 0 <= j < |z|
        ensures IsSpace(z[j])
      {
        if j < |pre| {
          assert z[j] == pre[j];
        } else {
          assert z[j] == post[j - |pre|];
        }
      }
    } else {
      assert pre + m + post == pre + (m + post);
      assert (m + post)[0] == m[0];
      StripLeftPadded(pre, m + post);
      StripRightPadded(m, post);
    }
  }

  /** A leading zero does not change the value of a digit run. */
  lemma {:induction false} RunValueLeadingZero(s: string)
    ensures RunValue(['0'] + s) == RunValue(s)
    decreases |s|
  {
    var z := ['0'] + s;
    if s == [] {
      assert z[..0] == [];
    } else {
      assert z[|z| - 1] == s[|s| - 1];
      assert z[..|z| - 1] == ['0'] + s[..|s| - 1];
      RunValueLeadingZero(s[..|s| - 1]);
    }
  }

  /** The last character of a digit run is a digit. */
  lemma DigitRunEnds(digits: string)
    requires IsDigitRun(digits)
    ensures IsDigit(digits[0]) && IsDigit(digits[|digits| - 1])
  {
    assert DigitOrJoin(digits, |digits| - 1);
  }

  /** `int()` reads the text left once its whitespace is skipped: an optional sign and a digit run give the signed value of the run. */
  lemma ParseIntOfStripped(x: string, sign: string, digits: string)
    requires IsSign(sign) && IsDigitRun(digits) && IntStrip(x) == sign + digits
    ensures ParseInt(x) == Some(SignedValue(sign, digits))
  {
    ReadSignedRun(sign, digits);
  }

  /** An optional sign followed by a digit run reads as the signed value of the run. */
  lemma ReadSignedRun(sign: string, digits: string)
    requires IsSign(sign) && IsDigitRun(digits)
    ensures ReadNumber(sign + digits) == Some(SignedValue(sign, digits))
  {
    var t := sign + digits;
    if sign == "" {
      assert t == digits;
      assert IsDigit(t[0]);
    } else {
      assert t[0] == sign[0];
      assert t[1..] == digits;
    }
  }

  /** `int()` skips surrounding whitespace and reads an optional sign and a digit run, underscores and leading zeros included. */
  lemma ParseIntPadded(pre: string, sign: string, digits: string, post: string)
    requires AllIntSpace(pre) && AllIntSpace(post) && IsSign(sign) && IsDigitRun(digits)
    ensures ParseInt(pre + sign + digits + post) == Some(SignedValue(sign, digits))
  {
    var m := sign + digits;
    DigitRunEnds(digits);
    assert m[|m| - 1] == digits[|digits| - 1];
    assert m[0] == if sign == "" then digits[0] else sign[0];
    assert pre + sign + digits + post == pre + m + post;
    IntStripPadded(pre, m, post);
    ParseIntOfStripped(pre + m + post, sign, digits);
  }

  lemma ParseIntLeftPadded(pre: string, sign: string, digits: string)
    requires AllIntSpace(pre) && IsSign(sign) && IsDigitRun(digits)
    ensures ParseInt(pre + sign + digits) == Some(SignedValue(sign, digits))
  {
    ParseIntPadded(pre, sign, digits, "");
    assert pre + sign + digits + "" == pre + sign + digits;
  }

  /** Python's `upper()` of a concatenation is the concatenation of the parts' upper cases. */
  lemma UpperConcat(a: string, b: string)
    ensures Upper(a + b) == Upper(a) + Upper(b)
  {
    assert forall i :: 0 <= i < |a + b| ==> Upper(a + b)[i] == (Upper(a) + Upper(b))[i];
  }

  /** No lower-case ASCII letter: what `upper()` leaves alone. */
  predicate NoLowerCase(s: string) {
    forall i :: 0 <= i < |s| ==> !('a' <= s[i] <= 'z')
  }

  lemma NoLowerCaseConcat(a: string, b: string)
    requires NoLowerCase(a) && NoLowerCase(b)
    ensures NoLowerCase(a + b)
  {
    forall i | 0 <= i < |a + b|
      ensures !('a' <= (a + b)[i] <= 'z')
    {
      if i >= |a| {
        assert (a + b)[i] == b[i - |a|];
      }
    }
  }

  /** Whitespace, signs and digit runs have no lower-case letters. */
  lemma SpaceNoLowerCase(s: string)
    requires AllSpace(s)
    ensures NoLowerCase(s)
  {
    forall i | 0 <= i < |s|
      ensures !('a' <= s[i] <= 'z')
    {
      assert IsSpace(s[i]);
    }
  }

  lemma CountNoLowerCase(sign: string, digits: string)
    requires IsSign(sign) && IsDigitRun(digits)
    ensures NoLowerCase(sign) && NoLowerCase(digits)
  {
    forall i | 0 <= i < |digits|
      ensures !('a' <= digits[i] <= 'z')
    {
      assert DigitOrJoin(digits, i);
    }
  }

  /** A string without lower-case ASCII letters is its own upper case. */
  lemma UpperUnchanged(s: string)
    requires NoLowerCase(s)
    ensures Upper(s) == s
  {
  }

  /** A status code written as a letter and a count, with the whitespace and sign `int()` accepts. */
  function PaddedCode(pre: string, letter: char, gap: string, sign: string, digits: string, post: string): string {
    pre + [letter] + (gap + sign + digits) + post
  }

  /** Upper-casing such a code touches only its letter. */
  lemma UpperPadded(pre: string, letter: char, rest: string, post: string)
    requires NoLowerCase(pre) && NoLowerCase(rest) && NoLowerCase(post)
    ensures Upper(pre + [letter] + rest + post) == pre + [UpperChar(letter)] + rest + post
  {
    var tail := rest + post;
    assert pre + [letter] + rest + post == pre + [letter] + tail;
    UpperConcat(pre + [letter], tail);
    UpperConcat(pre, [letter]);
    UpperUnchanged(pre);
    NoLowerCaseConcat(rest, post);
    UpperUnchanged(tail);
    assert Upper([letter]) == [UpperChar(letter)];
  }

  /** Normalising such a code upper-cases the letter and drops the outer whitespace. */
  lemma NormalizePadded(pre: string, letter: char, rest: string, post: string)
    requires AllSpace(pre) && AllSpace(post) && !IsSpace(letter)
    requires NoLowerCase(pre) && NoLowerCase(rest) && NoLowerCase(post)
    requires rest != [] ==> !IsSpace(rest[|rest| - 1])
    ensures Normalize(pre + [letter] + rest + post) == [UpperChar(letter)] + rest
  {
    UpperPadded(pre, letter, rest, post);
    var m := [UpperChar(letter)] + rest;
    assert pre + [UpperChar(letter)] + rest + post == pre + m + post;
    assert m[|m| - 1] == if rest == [] then UpperChar(letter) else rest[|rest| - 1];
    StripPadded(pre, m, post);
  }

  /** A letter with text free of lower-case letters after it, padded with whitespace, reads as the letter and `int()` of the text. */
  lemma ParseLetterAndRest(pre: string, letter: char, rest: string, post: string)
    requires AllSpace(pre) && AllSpace(post) && !IsSpace(letter)
    requires NoLowerCase(pre) && NoLowerCase(rest) && NoLowerCase(post)
    requires rest != [] ==> !IsSpace(rest[|rest| - 1])
    ensures ParseStatus(pre + [letter] + rest + post) == Ok(Some(Status(UpperChar(letter), ParseInt(rest))))
  {
    var code := pre + [letter] + rest + post;
    UpperAllSpace(code);
    NormalizePadded(pre, letter, rest, post);
    assert ([UpperChar(letter)] + rest)[1..] == rest;
  }

  /** Such a code reads as the letter, upper-cased, and the signed value of the digit run. */
  lemma ParsePaddedStatus(pre: string, letter: char, gap: string, sign: string, digits: string, post: string)
    requires AllSpace(pre) && !IsSpace(letter) && AllIntSpace(gap) && AllSpace(post)
    requires IsSign(sign) && IsDigitRun(digits)
    ensures ParseStatus(PaddedCode(pre, letter, gap, sign, digits, post))
         == Ok(Some(Status(UpperChar(letter), Some(SignedValue(sign, digits)))))
  {
    var rest := gap + sign + digits;
    SpaceNoLowerCase(pre);
    SpaceNoLowerCase(gap);
    SpaceNoLowerCase(post);
    CountNoLowerCase(sign, digits);
    NoLowerCaseConcat(gap, sign);
    NoLowerCaseConcat(gap + sign, digits);
    DigitRunEnds(digits);
    assert rest[|rest| - 1] == digits[|digits| - 1];
    ParseLetterAndRest(pre, letter, rest, post);
    ParseIntLeftPadded(gap, sign, digits);
  }

  /** The letter and the dependents count of a non-blank status code. */
  datatype Status = Status(letter: char, dependents: Option<int>)

  /** `code.upper().strip()` */
  function Normalize(code: string): string
  {
    Strip(Upper(code))
  }

  lemma UpperAllSpace(s: string)
    ensures AllSpace(Upper(s)) <==> AllSpace(s)
  {
  }

  /**
   * The shared prefix of both lookups. `Ok(None)` is the early return for an
   * empty code; a code made only of whitespace strips to "" and indexing its
   * first character raises (the indexing is outside the `try`); otherwise the
   * letter is the first character and the count is `int()` of the rest,
   * `None` when that raises ValueError (caught, so the lookup gives 0).
   */
  function ParseStatus(code: string): (r: Result<Option<Status>, PyError>)
    ensures r.Err? <==> code != "" && AllSpace(code)
    ensures r == Ok(None) <==> code == ""
    ensures r.Ok? && r.value.Some? ==>
      r.value.value.letter == Normalize(code)[0] &&
      r.value.value.dependents == ParseInt(Normalize(code)[1..])
  {
    UpperAllSpace(code);
    if code == "" then Ok(None)
    else
      var s := Normalize(code);
      if s == "" then Err(IndexError)
      else Ok(Some(Status(s[0], ParseInt(s[1..]))))
  }

  /** A code written as a letter followed by `str(n)` reads back as that letter, upper-cased, and n. */
  lemma ParseCanonicalStatus(letter: char, n: int)
    requires !IsSpace(letter)
    ensures ParseStatus([letter] + IntToString(n)) == Ok(Some(Status(UpperChar(letter), Some(n))))
  {
    var m: nat := if n < 0 then -n else n;
    var sign, digits := if n < 0 then "-" else "", NatToString(m);
    NatToStringRun(m);
    assert IntToString(n) == sign + digits;
    UnpaddedCode(letter, sign, digits);
    ParsePaddedStatus("", letter, "", sign, digits, "");
  }

  lemma UnpaddedCode(letter: char, sign: string, digits: string)
    ensures PaddedCode("", letter, "", sign, digits, "") == [letter] + (sign + digits)
  {
    assert "" + sign + digits == sign + digits;
    assert "" + [letter] == [letter];
  }
}
