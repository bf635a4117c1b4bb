/** JavaScript values as the screens see them: optional fields, truthiness,
    numbers that may be NaN, the unary `+` conversion of form input, and
    the `formData` objects that forms update one named field at a time. */
module Js {
  import opened Text

  datatype Option<T> = None | Some(value: T)
  {
    function GetOr(default: T): T
    {
      if Some? then value else default
    }
  }

  /** `x || ''` for an optional string field. */
  function OrEmpty(o: Option<string>): string
  {
    if o.Some? then o.value else ""
  }

  /** Truthiness of an optional string: present and not empty. */
  predicate Truthy(o: Option<string>)
  {
    o.Some? && o.value != ""
  }

  /** How an awaited API call ended: it resolved, or it threw an error
      whose response may carry a message (`""` when it has none). */
  datatype ApiOutcome = Resolved | Rejected(message: string)

  /** `err?.response?.data?.message || fallback`. */
  function ErrorText(message: string, fallback: string): string
  {
    if message != "" then message else fallback
  }

  /** How a POST that answers with `{ success, message }` ended: a reply
      with `success` set, a reply without it (with its `message`, `""` if
      none), or a thrown error (with the response's `message`, `""` if
      none). */
  datatype PostReply = Succeeded | NotSucceeded(message: string) | Threw(message: string)

  // ---------------------------------------------------------------------
  // Numbers
  // ---------------------------------------------------------------------

  /** A JavaScript number: NaN or a (finite) value. */
  datatype Number = NaN | Num(value: real)

  /** Truthiness of a number: neither NaN nor zero. */
  predicate NumberTruthy(n: Number)
  {
    n.Num? && n.value != 0.0
  }

  predicate IsDigit(c: char) { '0' <= c <= '9' }

  predicate AllDigits(s: string)
  {
    forall i :: 0 <= i < |s| ==> IsDigit(s[i])
  }

  function DigitsValue(s: string): nat
    requires AllDigits(s)
  {
    if s == [] then 0 else DigitsValue(s[..|s| - 1]) * 10 + (s[|s| - 1] as int - '0' as int)
  }

  function Pow10(n: nat): (r: nat)
    ensures r >= 1
  {
    if n == 0 then 1 else 10 * Pow10(n - 1)
  }

  /** The longest prefix of `s` made of decimal digits. */
  function DigitPrefix(s: string): (r: string)
    ensures |r| <= |s| && AllDigits(r) && r == s[..|r|]
    ensures |r| == |s| || !IsDigit(s[|r|])
  {
    if s != [] && IsDigit(s[0]) then [s[0]] + DigitPrefix(s[1..]) else ""
  }

  /** An unsigned decimal literal `digits`, `digits.digits`, `digits.` or
      `.digits`. */
  function UnsignedValue(s: string): Number
  {
    var whole := DigitPrefix(s);
    var rest := s[|whole|..];
    if rest == "" then
      if whole == "" then NaN else Num(DigitsValue(whole) as real)
    else if rest[0] == '.' && AllDigits(rest[1..]) && (whole != "" || |rest| > 1) then
      Num(DigitsValue(whole) as real + DigitsValue(rest[1..]) as real / Pow10(|rest| - 1) as real)
    else
      NaN
  }

  function Negate(n: Number): Number
  {
    if n.Num? then Num(-n.value) else NaN
  }

  /** Unary `+` on a string: surrounding white space is ignored, the empty
      string is 0, a signed decimal literal is its value, anything else is
      NaN. */
  function ToNumber(s: string): Number
  {
    var t := Trim(s);
    if t == "" then Num(0.0)
    else if t[0] == '-' then Negate(UnsignedValue(t[1..]))
    else if t[0] == '+' then UnsignedValue(t[1..])
    else UnsignedValue(t)
  }

  /** The decimal numeral of `n`, as a number input shows it. */
  function NatString(n: nat): (r: string)
    ensures r != [] && AllDigits(r)
  {
    if n < 10 then [('0' as int + n) as char]
    else NatString(n / 10) + [('0' as int + n % 10) as char]
  }

  lemma {:induction false} NatStringValue(n: nat)
    ensures DigitsValue(NatString(n)) == n
  {
    if n >= 10 {
      NatStringValue(n / 10);
      var s := NatString(n);
      assert s[..|s| - 1] == NatString(n / 10);
    }
  }

  lemma {:induction false} DigitPrefixOfDigits(s: string)
    requires AllDigits(s)
    ensures DigitPrefix(s) == s
  {
    if s != [] {
      DigitPrefixOfDigits(s[1..]);
    }
  }

  lemma UnsignedOfDigits(s: string)
    requires s != [] && AllDigits(s)
    ensures UnsignedValue(s) == Num(DigitsValue(s) as real)
  {
    DigitPrefixOfDigits(s);
    assert s[|s|..] == "";
  }

  /** Converting a whole number's numeral back gives the number. */
  lemma NumberOfNumeral(n: nat)
    ensures ToNumber(NatString(n)) == Num(n as real)
  {
    var s := NatString(n);
    assert IsDigit(s[0]) && IsDigit(s[|s| - 1]);
    assert !IsJsSpace(s[0]) && !IsJsSpace(s[|s| - 1]);
    TrimFixed(s);
    assert s[0] != '-' && s[0] != '+';
    UnsignedOfDigits(s);
    NatStringValue(n);
  }

  lemma EmptyIsZero()
    ensures ToNumber("") == Num(0.0)
  {
  }

  // ---------------------------------------------------------------------
  // Form state objects
  // ---------------------------------------------------------------------

  /** A field of a `formData` object: a string, or a number after
      conversion. */
  datatype FormValue = Text(text: string) | Numeric(number: Number)

  type FormData = map<string, FormValue>

  /** `!!formData[name]`: the field exists and is truthy. */
  predicate FieldTruthy(form: FormData, name: string)
  {
    name in form &&
    match form[name]
    case Text(t) => t != ""
    case Numeric(n) => NumberTruthy(n)
  }
}
