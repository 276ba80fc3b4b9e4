/** Small value-level helpers shared by the model: optional values, dictionaries kept as
    sequences of pairs in enumeration order, ASCII case mapping, and the C# integer
    semantics that the server relies on. */
module Common {

  datatype Option<T> = None | Some(value: T)

  /** The keys of a dictionary, in enumeration order. */
  function Keys<K, V>(m: seq<(K, V)>): (ks: seq<K>)
    ensures |ks| == |m|
    ensures forall i :: 0 <= i < |m| ==> ks[i] == m[i].0
  {
    seq(|m|, i requires 0 <= i < |m| => m[i].0)
  }

  /** The values of a dictionary, in enumeration order. */
  function Values<K, V>(m: seq<(K, V)>): (vs: seq<V>)
    ensures |vs| == |m|
    ensures forall i :: 0 <= i < |m| ==> vs[i] == m[i].1
  {
    seq(|m|, i requires 0 <= i < |m| => m[i].1)
  }

  /** No element occurs twice. */
  predicate NoDup<T(==)>(s: seq<T>) {
    forall i, j :: 0 <= i < j < |s| ==> s[i] != s[j]
  }

  /** A dictionary never holds the same key twice. */
  predicate UniqueKeys<K(==), V>(m: seq<(K, V)>) {
    NoDup(Keys(m))
  }

  /** Dictionary indexing `m[k]`; `None` stands for the KeyNotFoundException. */
  function Lookup<K(==), V>(m: seq<(K, V)>, k: K): (r: Option<V>)
    ensures r.None? <==> k !in Keys(m)
    ensures r.Some? ==> exists i :: 0 <= i < |m| && m[i] == (k, r.value)
    decreases |m|
  {
    if |m| == 0 then None
    else if m[0].0 == k then Some(m[0].1)
    else
      assert Keys(m) == [m[0].0] + Keys(m[1..]);
      var r := Lookup(m[1..], k);
      assert r.Some? ==> exists i :: 0 <= i < |m[1..]| && m[1..][i] == (k, r.value);
      r
  }

  lemma LookupUnique<K, V>(m: seq<(K, V)>, i: nat)
    requires UniqueKeys(m) && i < |m|
    ensures Lookup(m, m[i].0) == Some(m[i].1)
    decreases |m|
  {
    if i > 0 {
      assert Keys(m)[0] != Keys(m)[i];
      assert m[1..][i - 1] == m[i];
      assert Keys(m[1..]) == Keys(m)[1..];
      LookupUnique(m[1..], i - 1);
    }
  }

  lemma KeysAppend<K, V>(m: seq<(K, V)>, k: K, v: V)
    ensures Keys(m + [(k, v)]) == Keys(m) + [k]
    ensures Values(m + [(k, v)]) == Values(m) + [v]
  {
  }

  /** `char.ToUpper` restricted to ASCII letters. */
  function UpperChar(c: char): char {
    if 'a' <= c <= 'z' then (c as int - 32) as char else c
  }

  /** `char.ToLower` restricted to ASCII letters. */
  function LowerChar(c: char): char {
    if 'A' <= c <= 'Z' then (c as int + 32) as char else c
  }

  /** `string.ToUpper()`. */
  function Upper(s: string): string {
    seq(|s|, i requires 0 <= i < |s| => UpperChar(s[i]))
  }

  /** `string.ToLower()`. */
  function Lower(s: string): string {
    seq(|s|, i requires 0 <= i < |s| => LowerChar(s[i]))
  }

  /** `string.Replace(char, char)`: every occurrence of `a` becomes `b`. */
  function ReplaceChar(s: string, a: char, b: char): string {
    seq(|s|, i requires 0 <= i < |s| => if s[i] == a then b else s[i])
  }

  /** C# `/` on integers, which truncates toward zero (Dafny's `/` is Euclidean). */
  function TruncDiv(a: int, b: int): int
    requires b > 0
  {
    if a >= 0 then a / b else -((-a) / b)
  }

  const TWO_TO_31: int := 0x8000_0000
  const TWO_TO_32: int := 0x1_0000_0000

  /** The value of a C# `int` after unchecked wrap-around. */
  function Wrap32(x: int): int {
    (x + TWO_TO_31) % TWO_TO_32 - TWO_TO_31
  }
}
