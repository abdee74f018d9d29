/** Small value-level building blocks shared by the component models:
    JavaScript's `null`/`undefined` as an Option, the "toggle an optional
    selection" update used by the FAQ accordion and the pricing feature
    lists, JavaScript's remainder operator, decimal rendering of numbers
    inside template literals, and the reading of a class attribute as a
    list of class names. */
module Common {

  datatype Option<T> = None | Some(value: T)

  /** The outcome of a call that may throw: its value, or the thrown error. */
  datatype Result<T, E> = Ok(value: T) | Err(error: E)

  /** `prev === x ? null : x`: selecting the open item closes it,
      selecting any other item opens that one instead. */
  function Toggle<T(==)>(prev: Option<T>, x: T): (r: Option<T>)
    ensures r.Some? ==> r.value == x
    ensures r.Some? <==> prev != Some(x)
  {
    if prev == Some(x) then None else Some(x)
  }

  /** Toggling the same item twice, from a state where it is not the
      selected one, leaves nothing selected. */
  lemma ToggleTwiceCloses<T>(prev: Option<T>, x: T)
    requires prev != Some(x)
    ensures Toggle(Toggle(prev, x), x) == None
  {
  }

  /** JavaScript's `%` on numbers: the result takes the sign of the
      dividend (truncating division), unlike Dafny's Euclidean `%`. */
  function JsRem(a: int, b: int): (r: int)
    requires b > 0
    ensures a >= 0 ==> 0 <= r < b && r == a % b
    ensures a < 0 ==> -b < r <= 0
  {
    if a >= 0 then a % b else -((-a) % b)
  }

  // ---------------------------------------------------------------------
  // Decimal rendering: what `${n}` produces for a non-negative integer.

  predicate IsDigit(c: char) { '0' <= c <= '9' }

  function DigitChar(d: nat): (c: char)
    requires d < 10
    ensures IsDigit(c) && c as int - '0' as int == d
  {
    "0123456789"[d]
  }

  function DigitValue(c: char): (d: nat)
    requires IsDigit(c)
    ensures d < 10
  {
    c as int - '0' as int
  }

  /** The decimal text of `n`, with no leading zeros. */
  function NatToString(n: nat): (s: string)
    ensures 1 <= |s|
    ensures forall i :: 0 <= i < |s| ==> IsDigit(s[i])
    ensures n < 10 <==> |s| == 1
    ensures |s| > 1 ==> s[0] != '0'
  {
    if n < 10 then [DigitChar(n)] else NatToString(n / 10) + [DigitChar(n % 10)]
  }

  /** The number a string of decimal digits denotes. */
  function DigitsValue(s: string): nat
    requires forall i :: 0 <= i < |s| ==> IsDigit(s[i])
  {
    if s == [] then 0 else DigitsValue(s[..|s| - 1]) * 10 + DigitValue(s[|s| - 1])
  }

  /** Reading the rendered digits back gives the number again. */
  lemma {:induction false} NatToStringRoundTrip(n: nat)
    ensures DigitsValue(NatToString(n)) == n
  {
    var s := NatToString(n);
    if n >= 10 {
      NatToStringRoundTrip(n / 10);
      assert s[..|s| - 1] == NatToString(n / 10);
    }
  }

  /** Leading zeros do not change the value of a digit string. */
  lemma {:induction false} LeadingZeroValue(s: string)
    requires forall i :: 0 <= i < |s| ==> IsDigit(s[i])
    ensures DigitsValue("0" + s) == DigitsValue(s)
  {
    if s != [] {
      assert ("0" + s)[..|"0" + s| - 1] == "0" + s[..|s| - 1];
      LeadingZeroValue(s[..|s| - 1]);
    }
  }

  // ---------------------------------------------------------------------
  // Strings

  predicate StartsWith(s: string, prefix: string)
  {
    |prefix| <= |s| && s[..|prefix|] == prefix
  }

  /** The characters HTML treats as separators inside a class attribute. */
  predicate IsSpace(c: char)
  {
    c == ' ' || c == '\t' || c == '\n' || c == '\r' || c == '\U{C}'
  }

  predicate AllSpace(s: string)
  {
    forall i :: 0 <= i < |s| ==> IsSpace(s[i])
  }

  predicate NoSpace(s: string)
  {
    forall i :: 0 <= i < |s| ==> !IsSpace(s[i])
  }

  /** The class names a class attribute denotes: the maximal runs of
      non-separator characters, in order. */
  function Tokens(s: string): (ts: seq<string>)
    ensures s != [] && !IsSpace(s[0]) ==> ts != []
  {
    if s == [] then []
    else if IsSpace(s[0]) then Tokens(s[1..])
    else
      var rest := Tokens(s[1..]);
      if |s| > 1 && !IsSpace(s[1]) then [[s[0]] + rest[0]] + rest[1..]
      else [[s[0]]] + rest
  }

  /** A single class name denotes itself. */
  lemma {:induction false} TokensWord(w: string)
    requires w != [] && NoSpace(w)
    ensures Tokens(w) == [w]
  {
    assert !IsSpace(w[0]);
    if |w| > 1 {
      assert NoSpace(w[1..]) && !IsSpace(w[1]);
      TokensWord(w[1..]);
      assert [w[0]] + w[1..] == w;
    } else {
      assert w[1..] == [] && [w[0]] == w;
    }
  }

  /** Leading separators contribute no class name. */
  lemma {:induction false} TokensSkipSpace(sep: string, b: string)
    requires AllSpace(sep)
    ensures Tokens(sep + b) == Tokens(b)
  {
    if sep != [] {
      assert (sep + b)[0] == sep[0] && IsSpace(sep[0]);
      assert AllSpace(sep[1..]);
      assert (sep + b)[1..] == sep[1..] + b;
      TokensSkipSpace(sep[1..], b);
    } else {
      assert sep + b == b;
    }
  }

  /** Joining two class attributes with a run of separators denotes the
      class names of the first followed by those of the second. */
  lemma {:induction false} TokensJoin(a: string, sep: string, b: string)
    requires sep != [] && AllSpace(sep)
    ensures Tokens(a + sep + b) == Tokens(a) + Tokens(b)
  {
    if a == [] {
      assert a + sep + b == sep + b;
      TokensSkipSpace(sep, b);
    } else {
      var s := a + sep + b;
      assert s[1..] == a[1..] + sep + b;
      TokensJoin(a[1..], sep, b);
      if !IsSpace(a[0]) {
        if |a| > 1 && !IsSpace(a[1]) {
          assert s[1] == a[1];
        } else {
          assert IsSpace(s[1]);
        }
      }
    }
  }

  /** Three class names joined by single spaces denote those three. */
  lemma TokensOfThreeWords(a: string, b: string, c: string)
    requires a != [] && NoSpace(a) && b != [] && NoSpace(b) && c != [] && NoSpace(c)
    ensures Tokens(a + " " + b + " " + c) == [a, b, c]
  {
    TokensJoin(a + " " + b, " ", c);
    TokensJoin(a, " ", b);
    TokensWord(a);
    TokensWord(b);
    TokensWord(c);
  }
}
