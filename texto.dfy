/**
 * Decimal rendering of integers, the model of Python's `str(int)` as it is
 * used by the f-strings of the process record and of the state history.
 */
module Texto {

  /** The character of one decimal digit. */
  function Digito(d: nat): (c: char)
    requires d < 10
    ensures '0' <= c <= '9'
  {
    (('0' as int) + d) as char
  }

  predicate EsDigito(c: char) {
    '0' <= c <= '9'
  }

  /** The decimal digits of a natural number, most significant first, with no leading zero. */
  function Digitos(n: nat): (s: string)
    ensures |s| >= 1
    ensures forall k :: 0 <= k < |s| ==> EsDigito(s[k])
    ensures n >= 10 ==> |s| >= 2
    ensures n > 0 ==> s[0] != '0'
    decreases n
  {
    if n < 10 then [Digito(n)] else Digitos(n / 10) + [Digito(n % 10)]
  }

  /** `str(i)` for a Python int: a minus sign before the digits of a negative number. */
  function Entero(i: int): (s: string)
    ensures |s| >= 1
    ensures forall k :: 0 <= k < |s| ==> EsDigito(s[k]) || s[k] == '-'
    ensures s[0] == '-' <==> i < 0
  {
    if i < 0 then "-" + Digitos(-i) else Digitos(i)
  }

  lemma DigitoInyectivo(a: nat, b: nat)
    requires a < 10 && b < 10 && Digito(a) == Digito(b)
    ensures a == b
  {
  }

  /** Different natural numbers have different decimal renderings. */
  lemma {:induction false} DigitosInyectivo(a: nat, b: nat)
    requires Digitos(a) == Digitos(b)
    ensures a == b
    decreases a
  {
    if a < 10 && b < 10 {
      DigitoInyectivo(a, b);
    } else if a >= 10 && b >= 10 {
      var sa, sb := Digitos(a), Digitos(b);
      assert sa == Digitos(a / 10) + [Digito(a % 10)];
      assert sb == Digitos(b / 10) + [Digito(b % 10)];
      assert Digitos(a / 10) == sa[..|sa| - 1];
      assert Digitos(b / 10) == sb[..|sb| - 1];
      DigitosInyectivo(a / 10, b / 10);
      assert sa[|sa| - 1] == Digito(a % 10) && sb[|sb| - 1] == Digito(b % 10);
      DigitoInyectivo(a % 10, b % 10);
    }
  }

  /** Different integers have different renderings, so `str` is a faithful key. */
  lemma EnteroInyectivo(a: int, b: int)
    requires Entero(a) == Entero(b)
    ensures a == b
  {
    if a < 0 && b < 0 {
      assert Digitos(-a) == Entero(a)[1..] && Digitos(-b) == Entero(b)[1..];
      DigitosInyectivo(-a, -b);
    } else if a >= 0 && b >= 0 {
      DigitosInyectivo(a, b);
    }
  }

  /**
   * Splitting at the first occurrence of a separator: two texts that both read
   * `x`, separator, rest agree on `x` and on the rest when `x` holds no separator.
   */
  lemma Separa(x: string, y: string, x2: string, y2: string, c: char)
    requires c !in x && c !in x2
    requires x + [c] + y == x2 + [c] + y2
    ensures x == x2 && y == y2
  {
    PrimerSeparador(x, y, c);
    PrimerSeparador(x2, y2, c);
    var s := x + [c] + y;
    assert |x| == |x2|;
    assert x == s[..|x|] && x2 == (x2 + [c] + y2)[..|x2|];
    assert y == s[|x| + 1..] && y2 == (x2 + [c] + y2)[|x2| + 1..];
  }

  /** In `x`, separator, rest, the first separator stands right after `x`. */
  lemma PrimerSeparador(x: string, y: string, c: char)
    requires c !in x
    ensures (x + [c] + y)[|x|] == c
    ensures forall k :: 0 <= k < |x| ==> (x + [c] + y)[k] != c
  {
    forall k | 0 <= k < |x| ensures (x + [c] + y)[k] != c {
      assert (x + [c] + y)[k] == x[k];
    }
  }
}
