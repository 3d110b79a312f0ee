/**
 * The Australian phone-number validator (`validate_australian_phone.py`): the input is
 * reduced to its digits, a leading `+61` becomes `0`, and the ten digits are classified
 * as mobile, landline or toll-free and laid out in the class's format.
 */
module Phone {
  import opened Text

  datatype Kind = Mobile | Landline | TollFree | Unknown

  datatype Result = Result(valid: bool, formatted: string, kind: Kind)

  /** `re.sub(r'\D', '', s)`: the digits of `s`, in order. */
  function DigitsOnly(s: string): (r: string)
    ensures AllDigits(r) && |r| <= |s|
  {
    if s == [] then []
    else (if IsDigit(s[0]) then [s[0]] else []) + DigitsOnly(s[1..])
  }

  /** Deleting non-digits distributes over concatenation. */
  lemma {:induction false} DigitsOnlyAppend(a: string, b: string)
    ensures DigitsOnly(a + b) == DigitsOnly(a) + DigitsOnly(b)
    decreases |a|
  {
    if a != [] {
      var h := if IsDigit(a[0]) then [a[0]] else [];
      assert (a + b)[0] == a[0];
      assert (a + b)[1..] == a[1..] + b;
      assert DigitsOnly(a + b) == h + DigitsOnly(a[1..] + b);
      DigitsOnlyAppend(a[1..], b);
      assert DigitsOnly(a) == h + DigitsOnly(a[1..]);
    } else {
      assert a + b == b;
    }
  }

  /** A string of digits is left as it is. */
  lemma {:induction false} DigitsOnlyOfDigits(s: string)
    requires AllDigits(s)
    ensures DigitsOnly(s) == s
    decreases |s|
  {
    if s != [] {
      DigitsOnlyOfDigits(s[1..]);
    }
  }

  /** A string with no digit contributes nothing. */
  lemma {:induction false} DigitsOnlyOfNone(s: string)
    requires forall i :: 0 <= i < |s| ==> !IsDigit(s[i])
    ensures DigitsOnly(s) == ""
    decreases |s|
  {
    if s != [] {
      DigitsOnlyOfNone(s[1..]);
    }
  }

  /** `number.strip().startswith('+61')` */
  predicate HasCountryCode(number: string) {
    StartsWith(PyStrip(number), "+61")
  }

  /** The normalised digits: every non-digit deleted, and a stripped `+61` prefix turned into `0`. */
  function Normalize(number: string): (d: string)
    ensures AllDigits(d)
  {
    var digits := DigitsOnly(number);
    if HasCountryCode(number) then CodeToZero(digits) else digits
  }

  /** The two digits after a stripped `+61` prefix give way to a trunk `0`. */
  function CodeToZero(digits: string): (d: string)
    requires AllDigits(digits)
    ensures AllDigits(d) && |d| >= 1 && d[0] == '0'
    ensures |digits| >= 2 ==> d[1..] == digits[2..]
  {
    if |digits| >= 2 then
      ZeroThen(digits[2..]);
      "0" + digits[2..]
    else "0"
  }

  lemma ZeroThen(s: string)
    requires AllDigits(s)
    ensures AllDigits("0" + s)
  {
    assert forall i :: 1 <= i <= |s| ==> ("0" + s)[i] == s[i - 1];
  }

  predicate IsMobile(d: string) {
    |d| == 10 && d[..2] == "04"
  }

  predicate IsLandline(d: string) {
    |d| == 10 && d[0] == '0' && d[1] in {'2', '3', '7', '8'}
  }

  predicate IsTollFree(d: string) {
    |d| == 10 && (d[..4] == "1800" || d[..4] == "1300")
  }

  /** `dddd ddd ddd`, the mobile and toll-free layout. */
  function Grouped(d: string): string
    requires |d| == 10
  {
    d[..4] + " " + d[4..7] + " " + d[7..]
  }

  /** `(0X) XXXX XXXX`, the landline layout. */
  function AreaCoded(d: string): string
    requires |d| == 10
  {
    "(" + d[..2] + ") " + d[2..6] + " " + d[6..]
  }

  /** `validate_australian_phone(number)`. */
  function Validate(number: string): (r: Result)
    ensures r.valid <==> r.kind != Unknown
    ensures r.kind == Mobile <==> IsMobile(Normalize(number))
    ensures r.kind == Landline <==> IsLandline(Normalize(number))
    ensures r.kind == TollFree <==> IsTollFree(Normalize(number))
    // An invalid number is handed back untouched.
    ensures !r.valid ==> r.formatted == number
    // A valid number has ten digits, and its layout keeps exactly those digits.
    ensures r.valid ==> |Normalize(number)| == 10 && DigitsOnly(r.formatted) == Normalize(number)
  {
    var d := Normalize(number);
    if IsMobile(d) then
      GroupedDigits(d);
      Result(true, Grouped(d), Mobile)
    else if IsLandline(d) then
      AreaCodedDigits(d);
      Result(true, AreaCoded(d), Landline)
    else if IsTollFree(d) then
      GroupedDigits(d);
      Result(true, Grouped(d), TollFree)
    else Result(false, number, Unknown)
  }

  /** Digits either side of a separator without digits. */
  lemma DigitsOnlyAround(x: string, sep: string, y: string)
    requires forall i :: 0 <= i < |sep| ==> !IsDigit(sep[i])
    ensures DigitsOnly(x + sep + y) == DigitsOnly(x) + DigitsOnly(y)
  {
    var xs := x + sep;
    DigitsOnlyOfNone(sep);
    DigitsOnlyAppend(x, sep);
    assert DigitsOnly(xs) == DigitsOnly(x);
    DigitsOnlyAppend(xs, y);
  }

  /** The grouped layout only adds spaces. */
  lemma GroupedDigits(d: string)
    requires |d| == 10 && AllDigits(d)
    ensures DigitsOnly(Grouped(d)) == d
  {
    DigitsOnlyAround(d[..4] + " " + d[4..7], " ", d[7..]);
    DigitsOnlyAround(d[..4], " ", d[4..7]);
    DigitsOnlyOfDigits(d[..4]);
    DigitsOnlyOfDigits(d[4..7]);
    DigitsOnlyOfDigits(d[7..]);
    assert d[..4] + d[4..7] + d[7..] == d;
  }

  /** The area-code layout only adds brackets and spaces. */
  lemma AreaCodedDigits(d: string)
    requires |d| == 10 && AllDigits(d)
    ensures DigitsOnly(AreaCoded(d)) == d
  {
    DigitsOnlyAround("(" + d[..2] + ") " + d[2..6], " ", d[6..]);
    DigitsOnlyAround("(" + d[..2], ") ", d[2..6]);
    DigitsOnlyAround("", "(", d[..2]);
    assert "" + "(" + d[..2] == "(" + d[..2];
    DigitsOnlyOfNone("");
    DigitsOnlyOfDigits(d[..2]);
    DigitsOnlyOfDigits(d[2..6]);
    DigitsOnlyOfDigits(d[6..]);
    assert d[..2] + d[2..6] + d[6..] == d;
  }

  /** The three classes never overlap. */
  lemma ClassesDisjoint(d: string)
    ensures !(IsMobile(d) && IsLandline(d))
    ensures !(IsMobile(d) && IsTollFree(d))
    ensures !(IsLandline(d) && IsTollFree(d))
  {
  }

  /** When the stripped input starts with `+61`, its digits start with `61`, which become `0`. */
  lemma CountryCodeReplaced(number: string)
    requires HasCountryCode(number)
    ensures var digits := DigitsOnly(number);
      |digits| >= 2 && digits[..2] == "61" && Normalize(number) == "0" + digits[2..]
  {
    var rest := CodeDigitsFollow(number);
    var digits := DigitsOnly(number);
    assert digits[..2] == "61" && digits[2..] == DigitsOnly(rest);
  }

  /** The digits of an input carrying the country code: `61`, then those after the code. */
  lemma CodeDigitsFollow(number: string) returns (rest: string)
    requires HasCountryCode(number)
    ensures DigitsOnly(number) == "61" + DigitsOnly(rest)
  {
    var k := CountryCodeAt(number);
    var lead, code, r := CodeSplit(number, k);
    rest := r;
    DigitsAroundCode(lead, code, rest);
  }

  /** The input cut around the `+61` at `k`: only non-digits before it. */
  lemma CodeSplit(number: string, k: nat) returns (lead: string, code: string, rest: string)
    requires k + 3 <= |number| && number[k..k + 3] == "+61"
    requires forall i :: 0 <= i < k ==> !IsDigit(number[i])
    ensures number == lead + (code + rest) && code == "+61"
    ensures forall i :: 0 <= i < |lead| ==> !IsDigit(lead[i])
  {
    lead := number[..k];
    code := number[k..k + 3];
    rest := number[k + 3..];
    CutTwice(number, k, k + 3);
    assert forall i :: 0 <= i < |lead| ==> lead[i] == number[i];
  }

  lemma DigitsAroundCode(lead: string, code: string, rest: string)
    requires code == "+61" && forall i :: 0 <= i < |lead| ==> !IsDigit(lead[i])
    ensures DigitsOnly(lead + (code + rest)) == "61" + DigitsOnly(rest)
  {
    DigitsOnlyOfNone(lead);
    DigitsOnlyAppend(lead, code + rest);
    DigitsOnlyAppend(code, rest);
    CodeDigits();
  }

  lemma CodeDigits()
    ensures DigitsOnly("+61") == "61"
  {
    assert DigitsOnly("1") == "1";
    assert DigitsOnly("61") == "61";
  }

  /** Where the `+61` sits: after whitespace only. */
  lemma CountryCodeAt(number: string) returns (k: nat)
    requires HasCountryCode(number)
    ensures k + 3 <= |number| && number[k..k + 3] == "+61"
    ensures forall i :: 0 <= i < k ==> !IsDigit(number[i])
  {
    k := TrimPosition(number, PyWhitespace);
    var r := PyStrip(number);
    assert number[k..k + 3] == r[..3];
    NoDigitIn(number, k);
  }

  /** Whitespace is never a digit. */
  lemma NoDigitIn(s: string, k: nat)
    requires k <= |s| && forall i :: 0 <= i < k ==> s[i] in PyWhitespace
    ensures forall i :: 0 <= i < k ==> !IsDigit(s[i])
  {
  }

  /** A string whose first character is neither whitespace nor `+` does not strip to a `+61` prefix. */
  lemma NoCountryCode(s: string)
    requires |s| > 0 && s[0] !in PyWhitespace && s[0] != '+'
    ensures !HasCountryCode(s)
  {
    TrimNotStartsWith(s, PyWhitespace, "+61");
  }

  /** Validating a result's `formatted` string gives the same result back. */
  lemma ValidateIdempotent(number: string)
    ensures Validate(Validate(number).formatted) == Validate(number)
  {
    if Validate(number).valid {
      FormattedNormalizes(number);
    }
  }

  /** A valid result's `formatted` string starts with `(` or a digit, so it normalises to the same digits. */
  lemma FormattedNormalizes(number: string)
    requires Validate(number).valid
    ensures Normalize(Validate(number).formatted) == Normalize(number)
  {
    var f := Validate(number).formatted;
    var d := Normalize(number);
    assert f[0] == '(' || f[0] == d[0];
    PlainNormalize(f);
  }

  /** Without a leading `+` the digits are taken as they are. */
  lemma PlainNormalize(f: string)
    requires |f| > 0 && (f[0] == '(' || IsDigit(f[0]))
    ensures Normalize(f) == DigitsOnly(f)
  {
    NoCountryCode(f);
  }

  // ---------------------------------------------------------------------------
  // The cases listed beside the validator

  /** A string that neither starts nor ends with whitespace strips to itself. */
  lemma StripUnchanged(s: string)
    requires |s| > 0 && s[0] !in PyWhitespace && s[|s| - 1] !in PyWhitespace
    ensures PyStrip(s) == s
  {
    assert TrimStart(s, PyWhitespace) == s;
  }

  /** The digits of three digit groups joined by separators without digits. */
  lemma DigitsOfGroups(a: string, s1: string, b: string, s2: string, c: string)
    requires AllDigits(a) && AllDigits(b) && AllDigits(c)
    requires forall i :: 0 <= i < |s1| ==> !IsDigit(s1[i])
    requires forall i :: 0 <= i < |s2| ==> !IsDigit(s2[i])
    ensures DigitsOnly(a + s1 + b + s2 + c) == a + b + c
  {
    DigitsOnlyAround(a + s1 + b, s2, c);
    DigitsOnlyAround(a, s1, b);
    DigitsOnlyOfDigits(a);
    DigitsOnlyOfDigits(b);
    DigitsOnlyOfDigits(c);
  }

  /** The result for a number whose digits are a mobile number. */
  lemma ValidateMobile(n: string)
    requires IsMobile(Normalize(n))
    ensures Validate(n) == Result(true, Grouped(Normalize(n)), Mobile)
  {
  }

  /** The result for a number whose digits are a landline number. */
  lemma ValidateLandline(n: string)
    requires IsLandline(Normalize(n))
    ensures Validate(n) == Result(true, AreaCoded(Normalize(n)), Landline)
  {
    ClassesDisjoint(Normalize(n));
  }

  /** The result for a number whose digits are a 1800 or 1300 number: laid out `PPPP XXX XXX`. */
  lemma ValidateTollFree(n: string)
    requires IsTollFree(Normalize(n))
    ensures Validate(n) == Result(true, Grouped(Normalize(n)), TollFree)
    ensures var d := Normalize(n); Validate(n).formatted == d[..4] + " " + d[4..7] + " " + d[7..]
  {
    ClassesDisjoint(Normalize(n));
  }

  /** The unspaced toll-free number `1800123456` comes back as `1800 123 456`. */
  lemma TollFreeExample(n: string)
    requires n == "1800123456"
    ensures Validate(n) == Result(true, "1800 123 456", TollFree)
  {
    TollFreeNormal(n);
    TollFreeLayout(Normalize(n));
    ValidateTollFree(n);
  }

  lemma TollFreeNormal(n: string)
    requires n == "1800123456"
    ensures Normalize(n) == "1800123456"
  {
    DigitsOnlyOfDigits(n);
    NoCountryCode(n);
  }

  lemma TollFreeLayout(d: string)
    requires d == "1800123456"
    ensures IsTollFree(d) && Grouped(d) == "1800 123 456"
  {
    assert d[..4] == "1800" && d[4..7] == "123" && d[7..] == "456";
  }

  /** The result for a number whose digits fall in no class. */
  lemma ValidateUnknown(n: string)
    requires !IsMobile(Normalize(n)) && !IsLandline(Normalize(n)) && !IsTollFree(Normalize(n))
    ensures Validate(n) == Result(false, n, Unknown)
  {
  }

  /** The international form of a mobile number. */
  lemma InternationalMobileExample(n: string)
    requires n == "+61 412 345 678"
    ensures Validate(n) == Result(true, "0412 345 678", Mobile)
  {
    InternationalNormal(n);
    MobileLayout(Normalize(n));
    ValidateMobile(n);
  }

  lemma InternationalNormal(n: string)
    requires n == "+61 412 345 678"
    ensures Normalize(n) == "0412345678"
  {
    InternationalDigits(n);
    InternationalPrefix(n);
    CountryCodeReplaced(n);
    DropCode(DigitsOnly(n));
  }

  lemma DropCode(d: string)
    requires d == "61412345678"
    ensures "0" + d[2..] == "0412345678"
  {
    assert d[2..] == "412345678";
  }

  lemma MobileLayout(d: string)
    requires d == "0412345678"
    ensures IsMobile(d) && Grouped(d) == "0412 345 678"
  {
    assert d[..2] == "04";
    assert d[..4] == "0412" && d[4..7] == "345" && d[7..] == "678";
  }

  lemma InternationalDigits(n: string)
    requires n == "+61 412 345 678"
    ensures DigitsOnly(n) == "61412345678"
  {
    var body := n[1..];
    assert n == ['+'] + body;
    InternationalBody(body);
  }

  lemma InternationalBody(body: string)
    requires body == "61 412 345 678"
    ensures DigitsOnly(body) == "61412345678"
  {
    var head := body[..10];
    assert body == head + " " + "678";
    DigitsOnlyAround(head, " ", "678");
    DigitsOnlyOfDigits("678");
    InternationalHead(head);
  }

  lemma InternationalHead(head: string)
    requires head == "61 412 345"
    ensures DigitsOnly(head) == "61412345"
  {
    assert head == "61" + " " + "412" + " " + "345";
    DigitsOfGroups("61", " ", "412", " ", "345");
  }

  lemma InternationalPrefix(n: string)
    requires n == "+61 412 345 678"
    ensures HasCountryCode(n)
  {
    assert n[0] == '+' && n[|n| - 1] == '8';
    StripUnchanged(n);
  }

  /** A landline number in its own layout is returned unchanged. */
  lemma LandlineExample(n: string)
    requires n == "(02) 9876 5432"
    ensures Validate(n) == Result(true, "(02) 9876 5432", Landline)
  {
    LandlineNormal(n);
    LandlineLayout(Normalize(n));
    ValidateLandline(n);
  }

  lemma LandlineNormal(n: string)
    requires n == "(02) 9876 5432"
    ensures Normalize(n) == "0298765432"
  {
    LandlineDigits(n);
    NoCountryCode(n);
  }

  lemma LandlineLayout(d: string)
    requires d == "0298765432"
    ensures IsLandline(d) && AreaCoded(d) == "(02) 9876 5432"
  {
    assert d[..2] == "02" && d[2..6] == "9876" && d[6..] == "5432";
  }

  lemma LandlineDigits(n: string)
    requires n == "(02) 9876 5432"
    ensures DigitsOnly(n) == "0298765432"
  {
    var body := n[1..];
    assert n == ['('] + body;
    LandlineBody(body);
  }

  lemma LandlineBody(body: string)
    requires body == "02) 9876 5432"
    ensures DigitsOnly(body) == "0298765432"
  {
    assert body == "02" + ") " + "9876" + " " + "5432";
    DigitsOfGroups("02", ") ", "9876", " ", "5432");
  }

  /** Nine digits are too few. */
  lemma TooShortExample(n: string)
    requires n == "04 12 345"
    ensures Validate(n) == Result(false, n, Unknown)
  {
    DigitsOfGroups("04", " ", "12", " ", "345");
    NoCountryCode(n);
    ValidateUnknown(n);
  }

  /** Ten digits starting with `12` fall in no class. */
  lemma BadPrefixExample(n: string)
    requires n == "1234 567 890"
    ensures Validate(n) == Result(false, n, Unknown)
  {
    BadPrefixNormal(n);
    NoClass(Normalize(n));
    ValidateUnknown(n);
  }

  lemma BadPrefixNormal(n: string)
    requires n == "1234 567 890"
    ensures Normalize(n) == "1234567890"
  {
    BadPrefixDigits(n);
    NoCountryCode(n);
  }

  lemma BadPrefixDigits(n: string)
    requires n == "1234 567 890"
    ensures DigitsOnly(n) == "1234567890"
  {
    assert n == "1234" + " " + "567" + " " + "890";
    DigitsOfGroups("1234", " ", "567", " ", "890");
  }

  lemma NoClass(d: string)
    requires d == "1234567890"
    ensures !IsMobile(d) && !IsLandline(d) && !IsTollFree(d)
  {
    assert d[0] == '1' && d[..2][0] == '1' && d[..4][1] == '2';
  }
}
