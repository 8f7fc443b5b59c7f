/**
 * Rendezvous namespaces. Every context the runner creates is connected under
 * the name `<prefix>-<counter>`, where the counter is written in decimal the way
 * a C++ stream writes a non-negative integer.
 */
module Naming {

  /** The character of a decimal digit. */
  function DigitChar(d: nat): char
    requires d < 10
  {
    (48 + d) as char
  }

  /** The value of a decimal digit character. */
  function DigitValue(c: char): int
  {
    c as int - 48
  }

  /** The decimal numeral of `n`: digits only, most significant first, no leading zero. */
  function Decimal(n: nat): (s: string)
    ensures 1 <= |s|
    ensures forall i :: 0 <= i < |s| ==> '0' <= s[i] <= '9'
    ensures 0 < n ==> s[0] != '0'
  {
    if n < 10 then [DigitChar(n)] else Decimal(n / 10) + [DigitChar(n % 10)]
  }

  /** Reads a numeral back: the inverse of Decimal. */
  function ParseDecimal(s: string): int
  {
    if s == [] then 0 else 10 * ParseDecimal(s[..|s| - 1]) + DigitValue(s[|s| - 1])
  }

  lemma {:induction false} DecimalRoundTrip(n: nat)
    ensures ParseDecimal(Decimal(n)) == n
  {
    if 10 <= n {
      var s := Decimal(n);
      assert s[..|s| - 1] == Decimal(n / 10);
      DecimalRoundTrip(n / 10);
    }
  }

  /** Two counters give the same numeral only when they are equal. */
  lemma DecimalInjective(a: nat, b: nat)
    ensures Decimal(a) == Decimal(b) <==> a == b
  {
    if Decimal(a) == Decimal(b) {
      DecimalRoundTrip(a);
      DecimalRoundTrip(b);
    }
  }

  /** The namespace `newContext` derives from the prefix and the counter value. */
  function ContextName(prefix: string, counter: nat): string
  {
    prefix + "-" + Decimal(counter)
  }

  lemma ContextNameInjective(prefix: string, a: nat, b: nat)
    ensures ContextName(prefix, a) == ContextName(prefix, b) <==> a == b
  {
    if ContextName(prefix, a) == ContextName(prefix, b) {
      var k := |prefix| + 1;
      assert ContextName(prefix, a)[k..] == Decimal(a);
      assert ContextName(prefix, b)[k..] == Decimal(b);
      DecimalInjective(a, b);
    }
  }

  /** The names handed out by `count` successive calls, the first at counter value `first`. */
  function NamesFrom(prefix: string, first: nat, count: nat): seq<string>
  {
    seq(count, i requires 0 <= i < count => ContextName(prefix, first + i))
  }

  /** N successive calls produce N pairwise-distinct names. */
  lemma NamesFromDistinct(prefix: string, first: nat, count: nat)
    ensures |NamesFrom(prefix, first, count)| == count
    ensures forall i, j :: 0 <= i < j < count ==>
      NamesFrom(prefix, first, count)[i] != NamesFrom(prefix, first, count)[j]
  {
    forall i, j | 0 <= i < j < count
      ensures NamesFrom(prefix, first, count)[i] != NamesFrom(prefix, first, count)[j]
    {
      ContextNameInjective(prefix, first + i, first + j);
    }
  }

  /** The next name is new, and handing it out extends the list of names by exactly it. */
  lemma NextNameIsFresh(prefix: string, count: nat)
    ensures ContextName(prefix, count) !in NamesFrom(prefix, 0, count)
    ensures NamesFrom(prefix, 0, count + 1) == NamesFrom(prefix, 0, count) + [ContextName(prefix, count)]
  {
    if ContextName(prefix, count) in NamesFrom(prefix, 0, count) {
      var i :| 0 <= i < count && NamesFrom(prefix, 0, count)[i] == ContextName(prefix, count);
      ContextNameInjective(prefix, i, count);
    }
  }

  /** The first a + b names are the first a names followed by the b names after them. */
  lemma NamesFromSplit(prefix: string, a: nat, b: nat)
    ensures NamesFrom(prefix, 0, a + b) == NamesFrom(prefix, 0, a) + NamesFrom(prefix, a, b)
  {
    var whole, left, right := NamesFrom(prefix, 0, a + b), NamesFrom(prefix, 0, a), NamesFrom(prefix, a, b);
    assert |whole| == |left + right|;
    forall i | 0 <= i < a + b
      ensures whole[i] == (left + right)[i]
    {
      if a <= i {
        assert (left + right)[i] == right[i - a];
      }
    }
  }
}
