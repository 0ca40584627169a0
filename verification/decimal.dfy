/** Rule ids as map keys: printed with fmt.Sprint, read back by the loop of PruneRealmPorts (storage.go). */
module Decimal {

  function DigitChar(d: nat): char
    requires d < 10
  {
    '0' + d as char
  }

  function Digits(n: nat): (s: string)
    ensures s != [] && forall i :: 0 <= i < |s| ==> '0' <= s[i] <= '9'
  {
    if n < 10 then [DigitChar(n)] else Digits(n / 10) + [DigitChar(n % 10)]
  }

  function Print(n: int): string {
    if n < 0 then "-" + Digits(-n) else Digits(n)
  }

  predicate AllDigits(k: string) {
    forall i :: 0 <= i < |k| ==> '0' <= k[i] <= '9'
  }

  function Value(k: string): int
    requires AllDigits(k)
  {
    if k == "" then 0 else Value(k[..|k| - 1]) * 10 + (k[|k| - 1] as int - '0' as int)
  }

  /** The number a key stands for; 0 for a key with any other character, and for the empty key. */
  function KeyId(k: string): int {
    if AllDigits(k) then Value(k) else 0
  }

  method ParseKey(k: string) returns (id: int)
    ensures id == KeyId(k)
  {
    id := 0;
    var i := 0;
    while i < |k|
      invariant 0 <= i <= |k| && AllDigits(k[..i]) && id == Value(k[..i])
    {
      var ch := k[i];
      if ch < '0' || '9' < ch {
        return 0;
      }
      assert k[..i + 1][..i] == k[..i];
      id := id * 10 + (ch as int - '0' as int);
      i := i + 1;
    }
    assert k[..|k|] == k;
  }

  /** Printing and parsing an id undo each other. */
  lemma {:induction false} PrintThenParse(n: nat)
    ensures KeyId(Print(n)) == n
  {
    if n >= 10 {
      PrintThenParse(n / 10);
      var s := Digits(n);
      assert s[..|s| - 1] == Digits(n / 10);
    } else {
      var s := Digits(n);
      assert s == [DigitChar(n)] && s[..|s| - 1] == [];
      assert Value(s) == Value(s[..|s| - 1]) * 10 + n;
    }
  }

  /** Two rules never share a key. */
  lemma PrintIsInjective(a: nat, b: nat)
    ensures Print(a) == Print(b) ==> a == b
  {
    PrintThenParse(a);
    PrintThenParse(b);
  }
}
