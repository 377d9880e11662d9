/** Port and type-variable names: their sort order, and the indexed names of a variadic family. */
module PortNames {
  import opened Common

  type Name = string

  /* ---- Python's string order ---- */

  predicate NameLess(a: Name, b: Name) {
    b != [] && (a == [] || a[0] < b[0] || (a[0] == b[0] && NameLess(a[1..], b[1..])))
  }

  lemma {:induction false} NameOrderTotal(a: Name, b: Name)
    ensures !(NameLess(a, b) && NameLess(b, a))
    ensures NameLess(a, b) || NameLess(b, a) || a == b
    ensures !NameLess(a, a)
  {
    if a != [] {
      NameOrderTotal(a[1..], if b == [] then [] else b[1..]);
    }
    if a != [] && b != [] && a[1..] == b[1..] && a[0] == b[0] {
      assert a == [a[0]] + a[1..] && b == [b[0]] + b[1..];
    }
  }

  lemma {:induction false} NameOrderTransitive(a: Name, b: Name, c: Name)
    requires NameLess(a, b) && NameLess(b, c)
    ensures NameLess(a, c)
  {
    if a != [] && a[0] == b[0] && b[0] == c[0] {
      NameOrderTransitive(a[1..], b[1..], c[1..]);
    }
  }

  /* ---- decimal numerals ---- */

  predicate IsDigit(c: char) { '0' <= c <= '9' }

  predicate AllDigits(s: string) { forall i :: 0 <= i < |s| ==> IsDigit(s[i]) }

  /** The numerals `[1-9][0-9]*`. */
  predicate IsNumeral(s: string) { s != [] && AllDigits(s) && s[0] != '0' }

  function DigitChar(d: nat): (c: char)
    requires d < 10
    ensures IsDigit(c) && DigitValue(c) == d
  {
    ('0' as int + d) as char
  }

  function DigitValue(c: char): (d: nat)
    requires IsDigit(c)
    ensures d < 10 && ('0' as int + d) as char == c
  {
    (c as int) - ('0' as int)
  }

  /** `str(n)` of a positive number. */
  function Decimal(n: nat): (s: string)
    requires n > 0
    ensures IsNumeral(s)
  {
    var tail := [DigitChar(n % 10)];
    if n < 10 then tail else Decimal(n / 10) + tail
  }

  function NumeralValue(s: string): nat
    requires AllDigits(s)
  {
    if s == [] then 0 else 10 * NumeralValue(s[..|s| - 1]) + DigitValue(s[|s| - 1])
  }

  lemma {:induction false} DecimalValue(n: nat)
    requires n > 0
    ensures NumeralValue(Decimal(n)) == n
  {
    var s := Decimal(n);
    assert s[|s| - 1] == DigitChar(n % 10);
    if n >= 10 {
      DecimalValue(n / 10);
      assert s[..|s| - 1] == Decimal(n / 10);
    } else {
      assert s[..|s| - 1] == [];
    }
  }

  lemma DecimalStep(q: nat, d: nat)
    requires d < 10 && 10 * q + d > 0
    ensures Decimal(10 * q + d) == (if q == 0 then [] else Decimal(q)) + [DigitChar(d)]
  {
    var n := 10 * q + d;
    assert n / 10 == q && n % 10 == d;
  }

  lemma {:induction false} NumeralIsDecimal(s: string)
    requires IsNumeral(s)
    ensures NumeralValue(s) > 0 && Decimal(NumeralValue(s)) == s
  {
    var front, last := s[..|s| - 1], s[|s| - 1];
    LeadingNumeral(s);
    if front != [] { NumeralIsDecimal(front); }
    DecimalStep(NumeralValue(front), DigitValue(last));
    assert s == front + [last];
  }

  lemma LeadingNumeral(s: string)
    requires IsNumeral(s)
    ensures var front, last := s[..|s| - 1], s[|s| - 1];
            && AllDigits(front) && IsDigit(last) && NumeralValue(s) == 10 * NumeralValue(front) + DigitValue(last)
            && (front == [] ==> NumeralValue(front) == 0 && DigitValue(last) > 0)
            && (front != [] ==> IsNumeral(front))
            && DigitChar(DigitValue(last)) == last
  {
    assert s[..|s| - 1] != [] ==> s[..|s| - 1][0] == s[0];
  }

  /* ---- the names of a variadic family ---- */

  /** `family.port(index).id`. */
  function MemberName(prefix: Name, index: nat): Name
    requires index > 0
  {
    prefix + "_" + Decimal(index)
  }

  /** `family.index(port_id)`. */
  function MemberIndex(prefix: Name, name: Name): Option<nat> {
    if |name| > |prefix| + 1 && name[..|prefix|] == prefix && name[|prefix|] == '_' && IsNumeral(name[|prefix| + 1..])
    then Some(NumeralValue(name[|prefix| + 1..]))
    else None
  }

  lemma IndexOfMember(prefix: Name, index: nat)
    requires index > 0
    ensures MemberIndex(prefix, MemberName(prefix, index)) == Some(index)
  {
    var member := MemberName(prefix, index);
    DecimalValue(index);
    assert member[|prefix| + 1..] == Decimal(index);
    assert member[..|prefix|] == prefix;
  }

  /** A name has at most one index, and no other spelling of that index is a member. */
  lemma MemberOfIndex(prefix: Name, name: Name)
    requires MemberIndex(prefix, name).Some?
    ensures MemberIndex(prefix, name).value > 0
    ensures MemberName(prefix, MemberIndex(prefix, name).value) == name
  {
    NumeralIsDecimal(name[|prefix| + 1..]);
    assert name == name[..|prefix|] + [name[|prefix|]] + name[|prefix| + 1..];
  }
}
