/** The global `parseInt(string, 10)` of ECMAScript (section 19.2.5 of
    ECMA-262), restricted to radix 10, with NaN represented as `None`. */
module JsNumber {
  import opened Wrappers
  import opened Decimal

  /** StrWhiteSpaceChar: the WhiteSpace and LineTerminator code points. */
  predicate IsStrWhiteSpaceChar(c: char) {
    || c == '\U{0009}' || c == '\U{000B}' || c == '\U{000C}' || c == ' '
    || c == '\U{00A0}' || c == '\U{FEFF}'
    // the remaining Unicode "Zs" space separators
    || c == '\U{1680}' || ('\U{2000}' <= c <= '\U{200A}')
    || c == '\U{202F}' || c == '\U{205F}' || c == '\U{3000}'
    // line terminators
    || c == '\n' || c == '\r' || c == '\U{2028}' || c == '\U{2029}'
  }

  predicate AllWhiteSpace(s: string) {
    forall i :: 0 <= i < |s| ==> IsStrWhiteSpaceChar(s[i])
  }

  /** Step 2 of parseInt: the number of leading white-space characters. */
  function WhiteSpacePrefixLength(s: string): (k: nat)
    ensures k <= |s|
    ensures forall i :: 0 <= i < k ==> IsStrWhiteSpaceChar(s[i])
    ensures k == |s| || !IsStrWhiteSpaceChar(s[k])
  {
    if s != [] && IsStrWhiteSpaceChar(s[0]) then 1 + WhiteSpacePrefixLength(s[1..]) else 0
  }

  /** Step 2 of parseInt: the input with its leading white space removed. */
  function TrimStart(s: string): string {
    s[WhiteSpacePrefixLength(s)..]
  }

  /** Step 4 of parseInt: the sign is -1 exactly after a leading '-'. */
  predicate IsNegative(s: string) {
    s != [] && s[0] == '-'
  }

  /** Step 5 of parseInt: drop one leading '+' or '-'. */
  function DropSign(s: string): (r: string)
    ensures s != [] && (s[0] == '+' || s[0] == '-') ==> r == s[1..]
    ensures s == [] || (s[0] != '+' && s[0] != '-') ==> r == s
  {
    if s != [] && (s[0] == '+' || s[0] == '-') then s[1..] else s
  }

  /** Step 11 of parseInt: the length of the longest prefix made of radix-10 digits. */
  function DigitPrefixLength(s: string): (k: nat)
    ensures k <= |s|
    ensures forall i :: 0 <= i < k ==> IsDigit(s[i])
    ensures k == |s| || !IsDigit(s[k])
  {
    if s != [] && IsDigit(s[0]) then 1 + DigitPrefixLength(s[1..]) else 0
  }

  /** `parseInt(s, 10)`: `None` is NaN. With radix 10 given explicitly, a
      "0x" prefix is not stripped, so "0x1F" reads as 0. */
  function ParseInt(s: string): (r: Option<int>)
    ensures r.None? <==> var u := DropSign(TrimStart(s)); u == [] || !IsDigit(u[0])
    ensures r.Some? && r.value < 0 ==> IsNegative(TrimStart(s))
    ensures r.Some? && IsNegative(TrimStart(s)) ==> r.value <= 0
  {
    var trimmed := TrimStart(s);
    var unsigned := DropSign(trimmed);
    var n := DigitPrefixLength(unsigned);
    if n == 0 then None
    else
      // the sign times the mathematical value of the digits
      var magnitude: int := FromDigits(unsigned[..n]);
      Some(if IsNegative(trimmed) then -magnitude else magnitude)
  }

  /** Any index that ends a run of leading white space at a non-white-space
      character is the one the trimming step finds. */
  lemma WhiteSpacePrefixLengthUnique(s: string, k: nat)
    requires k <= |s|
    requires forall i :: 0 <= i < k ==> IsStrWhiteSpaceChar(s[i])
    requires k == |s| || !IsStrWhiteSpaceChar(s[k])
    ensures WhiteSpacePrefixLength(s) == k
  {
  }

  /** Likewise for the run of leading digits. */
  lemma DigitPrefixLengthUnique(s: string, k: nat)
    requires k <= |s|
    requires forall i :: 0 <= i < k ==> IsDigit(s[i])
    requires k == |s| || !IsDigit(s[k])
    ensures DigitPrefixLength(s) == k
  {
  }

  /** The sign and the text after it, as the steps after trimming see them. */
  lemma SignedText(sign: string, unsigned: string)
    requires |sign| <= 1 && (|sign| == 1 ==> sign[0] == '+' || sign[0] == '-')
    requires sign == [] && unsigned != [] ==> unsigned[0] != '+' && unsigned[0] != '-'
    ensures DropSign(sign + unsigned) == unsigned
    ensures IsNegative(sign + unsigned) <==> sign == ['-']
  {
    if sign != [] {
      assert (sign + unsigned)[0] == sign[0];
      assert (sign + unsigned)[1..] == unsigned;
    } else {
      assert sign + unsigned == unsigned;
    }
  }

  /** Trimming skips exactly a white-space prefix followed by a character that
      is not white space. */
  lemma {:induction false} TrimStartSkipsWhiteSpace(ws: string, s: string)
    requires AllWhiteSpace(ws)
    requires s == [] || !IsStrWhiteSpaceChar(s[0])
    ensures TrimStart(ws + s) == s
  {
    var t := ws + s;
    WhiteSpacePrefixLengthUnique(t, |ws|);
    assert t[|ws|..] == s;
  }

  /** The characterising property of parseInt: white space, an optional sign,
      one or more digits and then anything that does not continue the digits
      parse to the signed value of those digits. */
  lemma {:induction false} ParseIntOfNumeral(ws: string, sign: string, digits: string, rest: string)
    requires AllWhiteSpace(ws)
    requires |sign| <= 1 && (|sign| == 1 ==> sign[0] == '+' || sign[0] == '-')
    requires |digits| >= 1 && AllDigits(digits)
    requires rest == [] || !IsDigit(rest[0])
    ensures sign == ['-'] ==> ParseInt(ws + sign + digits + rest) == Some(-(FromDigits(digits) as int))
    ensures sign != ['-'] ==> ParseInt(ws + sign + digits + rest) == Some(FromDigits(digits))
  {
    var unsigned := digits + rest;
    var body := sign + unsigned;
    assert ws + sign + digits + rest == ws + body;
    assert body[0] == (if sign == [] then digits[0] else sign[0]);
    TrimStartSkipsWhiteSpace(ws, body);
    SignedText(sign, unsigned);
    DigitsThenNonDigit(digits, rest);
    ParseIntOfTrimmed(ws + body, body, |digits|);
  }

  /** The digit run of `digits + rest` is `digits` when `rest` does not continue it. */
  lemma DigitsThenNonDigit(digits: string, rest: string)
    requires AllDigits(digits)
    requires rest == [] || !IsDigit(rest[0])
    ensures DigitPrefixLength(digits + rest) == |digits|
    ensures (digits + rest)[..|digits|] == digits
  {
    DigitPrefixLengthUnique(digits + rest, |digits|);
  }

  /** Unfolds `ParseInt` once its trimmed text and digit count are known. */
  lemma ParseIntOfTrimmed(s: string, trimmed: string, n: nat)
    requires TrimStart(s) == trimmed
    requires DigitPrefixLength(DropSign(trimmed)) == n >= 1
    ensures var magnitude: int := FromDigits(DropSign(trimmed)[..n]);
      ParseInt(s) == Some(if IsNegative(trimmed) then -magnitude else magnitude)
  {
  }

  /** The NaN case: white space and an optional sign followed by anything
      that is not a digit (and, without a sign, is neither white space nor a
      sign, which would be consumed first) parse to NaN. */
  lemma {:induction false} ParseIntWithoutDigits(ws: string, sign: string, rest: string)
    requires AllWhiteSpace(ws)
    requires |sign| <= 1 && (|sign| == 1 ==> sign[0] == '+' || sign[0] == '-')
    requires rest != [] ==> !IsDigit(rest[0])
    requires rest != [] && sign == [] ==>
      !IsStrWhiteSpaceChar(rest[0]) && rest[0] != '+' && rest[0] != '-'
    ensures ParseInt(ws + sign + rest) == None
  {
    var body := sign + rest;
    assert ws + sign + rest == ws + body;
    if body != [] {
      assert body[0] == (if sign == [] then rest[0] else sign[0]);
    }
    TrimStartSkipsWhiteSpace(ws, body);
    SignedText(sign, rest);
  }

  /** Reading back a rendered non-negative integer gives that integer, even
      with a unit suffix such as the "s" of "30s". */
  lemma {:induction false} ParseIntOfRendering(n: nat, rest: string)
    requires rest == [] || !IsDigit(rest[0])
    ensures ParseInt(ToDigits(n) + rest) == Some(n)
  {
    FromToDigits(n);
    var empty: string := [];
    assert empty + empty + ToDigits(n) + rest == ToDigits(n) + rest;
    ParseIntOfNumeral(empty, empty, ToDigits(n), rest);
  }

  /** Reading back a rendered integer behind a minus sign gives its negation. */
  lemma {:induction false} ParseIntOfNegatedRendering(n: nat, rest: string)
    requires rest == [] || !IsDigit(rest[0])
    ensures ParseInt("-" + ToDigits(n) + rest) == Some(-(n as int))
  {
    FromToDigits(n);
    var empty: string := [];
    var minus: string := "-";
    assert empty + minus + ToDigits(n) + rest == minus + ToDigits(n) + rest;
    ParseIntOfNumeral(empty, minus, ToDigits(n), rest);
  }

  /** Leading white space never changes the result. */
  lemma {:induction false} LeadingWhiteSpaceIgnored(ws: string, s: string)
    requires AllWhiteSpace(ws)
    ensures ParseInt(ws + s) == ParseInt(s)
  {
    var k := WhiteSpacePrefixLength(s);
    var t := ws + s;
    assert TrimStart(t) == TrimStart(s) by {
      assert forall i :: 0 <= i < |ws| + k ==> IsStrWhiteSpaceChar(t[i]) by {
        forall i | 0 <= i < |ws| + k
          ensures IsStrWhiteSpaceChar(t[i])
        {
          if i >= |ws| {
            assert t[i] == s[i - |ws|];
          }
        }
      }
      assert |ws| + k == |t| || t[|ws| + k] == s[k];
      WhiteSpacePrefixLengthUnique(t, |ws| + k);
      assert t[|ws| + k..] == s[k..];
    }
  }

  /** A numeral followed by a unit suffix reads as the numeral: "30s" is 30. */
  lemma SuffixIgnoredExample()
    ensures ParseInt("30s") == Some(30)
  {
    assert TrimStart("30s") == "30s";
    assert DropSign("30s") == "30s";
    assert DigitPrefixLength("30s") == 2;
    assert FromDigits("30") == 30;
  }

  /** With radix 10 a hexadecimal prefix is not recognised: "0x1F" is 0. */
  lemma HexPrefixExample()
    ensures ParseInt("0x1F") == Some(0)
  {
    assert TrimStart("0x1F") == "0x1F";
    assert DropSign("0x1F") == "0x1F";
    assert DigitPrefixLength("0x1F") == 1;
    assert FromDigits("0") == 0;
  }

  /** Inputs without a digit after the white space and sign are NaN. */
  lemma NaNExamples()
    ensures ParseInt("") == None
    ensures ParseInt(" abc") == None
    ensures ParseInt("+-1") == None
  {
    assert TrimStart(" abc") == "abc";
    assert DropSign("abc") == "abc";
    assert DigitPrefixLength("abc") == 0;
    assert TrimStart("+-1") == "+-1";
    assert DropSign("+-1") == "-1";
    assert DigitPrefixLength("-1") == 0;
  }
}
