/** Result types and small helpers shared by the component models. */
module Wrappers {

  /** A value that may be absent: a null reference in the modelled languages. */
  datatype Option<+T> = None | Some(value: T) {
    function GetOrElse(fallback: T): T {
      if Some? then value else fallback
    }
  }

  /** The outcome of a call that may throw. */
  datatype Result<+T> = Ok(value: T) | Err(error: string)

  function Mapped<A, B>(f: A -> B, xs: seq<A>): seq<B> {
    seq(|xs|, i requires 0 <= i < |xs| => f(xs[i]))
  }

  function Decimal(n: nat): string {
    if n < 10 then ["0123456789"[n]] else Decimal(n / 10) + ["0123456789"[n % 10]]
  }

  function ValueOf(digits: string): int {
    if digits == "" then 0 else ValueOf(digits[..|digits| - 1]) * 10 + (digits[|digits| - 1] as int - '0' as int)
  }

  /** The decimal text of `n`, without leading zeros. */
  predicate IsDecimalOf(digits: string, n: nat) {
    && digits != "" && (forall c :: c in digits ==> '0' <= c <= '9')
    && (|digits| > 1 ==> digits[0] != '0')
    && ValueOf(digits) == n
  }

  lemma DigitOf(n: nat)
    requires n < 10
    ensures "0123456789"[n] as int == '0' as int + n
  {
  }

  lemma {:induction false} DecimalIsDecimal(n: nat)
    ensures IsDecimalOf(Decimal(n), n)
  {
    var digit := "0123456789"[n % 10];
    DigitOf(n % 10);
    if n < 10 {
      assert Decimal(n)[..0] == "";
    } else {
      var high := Decimal(n / 10);
      DecimalIsDecimal(n / 10);
      assert Decimal(n) == high + [digit] && (high + [digit])[..|high|] == high;
      LeadingDigit(n / 10);
    }
  }

  /** Only the text of 0 starts with the digit 0. */
  lemma {:induction false} LeadingDigit(n: nat)
    requires n > 0
    ensures Decimal(n)[0] != '0'
  {
    if n >= 10 { LeadingDigit(n / 10); }
  }

  lemma EmptyMeansNoMember<T>(s: set<T>)
    ensures s == {} <==> forall x :: x !in s
  {
    if forall x :: x !in s { assert s == {}; }
  }

  /** One step of an iteration over an unordered collection: whichever member comes next. */
  method AnyOf<T(==)>(s: set<T>) returns (x: T)
    requires s != {}
    ensures x in s
  {
    EmptyMeansNoMember(s);
    x :| x in s;
  }
}
