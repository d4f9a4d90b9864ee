/** What several parts of the model use: an optional value, sequences, and numbers in decimal. */
module Basics {
  datatype Option<+T> = None | Some(value: T)

  predicate NoDuplicate<T(==)>(q: seq<T>) { forall i, j | 0 <= i < j < |q| :: q[i] != q[j] }

  predicate IsPrefix<T(==)>(a: seq<T>, b: seq<T>) { |a| <= |b| && a == b[..|a|] }

  /** The parts one after the other. */
  function Chained<T>(parts: seq<seq<T>>): seq<T> { if parts == [] then [] else parts[0] + Chained(parts[1..]) }

  lemma {:induction false} ChainedSnoc<T>(parts: seq<seq<T>>, part: seq<T>)
    ensures Chained(parts + [part]) == Chained(parts) + part
  {
    if parts == [] {
      assert (parts + [part])[1..] == [];
    } else {
      ChainedSnoc(parts[1..], part);
      assert (parts + [part])[1..] == parts[1..] + [part];
    }
  }

  predicate IsDigit(c: char) { '0' <= c <= '9' }

  predicate AllDigits(s: string) { |s| > 0 && forall i | 0 <= i < |s| :: IsDigit(s[i]) }

  predicate StartsWith(s: string, prefix: string) { |prefix| <= |s| && s[..|prefix|] == prefix }

  /** The number a digit string denotes. */
  function ToNat(s: string): nat
    requires forall i | 0 <= i < |s| :: IsDigit(s[i])
  {
    if s == "" then 0 else
    assert IsDigit(s[|s| - 1]);
    10 * ToNat(s[..|s| - 1]) + (s[|s| - 1] as int - '0' as int)
  }

  /** Decimal notation, as a template literal prints an integer. */
  function Decimal(n: nat): (s: string)
    ensures AllDigits(s)
    ensures ToNat(s) == n
  {
    var d := [('0' as nat + n % 10) as char];
    if n < 10 then d else
    var front := Decimal(n / 10);
    assert (front + d)[..|front + d| - 1] == front;
    front + d
  }
}
