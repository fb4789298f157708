/**
 * Docstore identifiers of the per-user history: `str(n)` for the n-th stored message, read
 * back with `int(key)` when the history is put in order.
 */
module DocIds {

  predicate IsDigit(c: char) {
    '0' <= c <= '9'
  }

  predicate IsDecimal(s: string) {
    forall i :: 0 <= i < |s| ==> IsDigit(s[i])
  }

  function DigitChar(d: nat): (c: char)
    requires d < 10
    ensures IsDigit(c)
  {
    ('0' as int + d) as char
  }

  /** `int(s)` for a string of decimal digits. */
  function DecimalValue(s: string): nat
    requires IsDecimal(s)
  {
    if s == [] then 0 else DecimalValue(s[..|s| - 1]) * 10 + (s[|s| - 1] as int - '0' as int)
  }

  /** `str(n)` for a non-negative integer: its decimal digits, no leading zero; reading it back
      with `int` gives `n` again. */
  function IdOf(n: nat): (s: string)
    ensures |s| > 0 && IsDecimal(s)
    ensures s[0] == '0' ==> n == 0
    ensures DecimalValue(s) == n
  {
    if n < 10 then [DigitChar(n)]
    else
      var prefix := IdOf(n / 10);
      var s := prefix + [DigitChar(n % 10)];
      assert s[..|s| - 1] == prefix;
      s
  }

  /** `key` is `str(i)` for a position `i` below `n`: a decimal numeral in the form `str` writes
      it, whose value is below `n`. */
  predicate IsIdBelow(key: string, n: nat) {
    IsDecimal(key) && IdOf(DecimalValue(key)) == key && DecimalValue(key) < n
  }

  /** Every key is a decimal numeral and the integer values strictly increase along the list:
      what `sorted(keys, key=int)` returns when no two keys have the same value. */
  predicate SortedByValue(keys: seq<string>) {
    && (forall i :: 0 <= i < |keys| ==> IsDecimal(keys[i]))
    && (forall i, j :: 0 <= i < j < |keys| ==> DecimalValue(keys[i]) < DecimalValue(keys[j]))
  }

  /** Distinct positions get distinct ids. */
  lemma IdOfInjective(i: nat, j: nat)
    ensures IdOf(i) == IdOf(j) <==> i == j
  {
  }

  /** The ids below `n + 2` are those below `n` and the ids of `n` and `n + 1`. */
  lemma IdsBelowGrow(n: nat)
    ensures forall k :: IsIdBelow(k, n + 2) <==> IsIdBelow(k, n) || k == IdOf(n) || k == IdOf(n + 1)
    ensures !IsIdBelow(IdOf(n), n) && !IsIdBelow(IdOf(n + 1), n) && IdOf(n) != IdOf(n + 1)
  {
    forall k | IsIdBelow(k, n + 2) && !IsIdBelow(k, n) ensures k == IdOf(n) || k == IdOf(n + 1) {
      var v := DecimalValue(k);
      assert v == n || v == n + 1;
    }
  }

  /** The ids of positions 0 .. n - 1, listed in position order, are exactly the ids below `n`, each
      once, in increasing order of their integer values: the order `sorted(keys, key=int)`
      produces. */
  lemma IdRunSorted(keys: seq<string>)
    requires forall j :: 0 <= j < |keys| ==> keys[j] == IdOf(j)
    ensures forall k :: k in keys <==> IsIdBelow(k, |keys|)
    ensures SortedByValue(keys)
  {
    forall k | IsIdBelow(k, |keys|) ensures k in keys {
      assert keys[DecimalValue(k)] == k;
    }
  }
}
