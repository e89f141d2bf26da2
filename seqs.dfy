/** Python list and string operations the SDK relies on, over Dafny sequences. */
module Seqs {

  /** `sum(lists, [])` and `b''.join(chunks)`: the parts laid end to end, in order. */
  function Concat<T>(parts: seq<seq<T>>): seq<T>
  {
    if |parts| == 0 then [] else Concat(parts[..|parts| - 1]) + parts[|parts| - 1]
  }

  function Min(a: nat, b: nat): nat {
    if a <= b then a else b
  }

  /** Python's slice `s[i:j]` for non-negative bounds: both bounds are clamped to the length. */
  function Slice<T>(s: seq<T>, i: nat, j: nat): (r: seq<T>)
    ensures i <= j <= |s| ==> r == s[i..j]
    ensures |r| <= |s|
  {
    var a, b := Min(i, |s|), Min(j, |s|);
    if a <= b then s[a..b] else []
  }

  /** `' '.join(parts)`: the parts separated by single spaces. */
  function Join(parts: seq<string>): string
  {
    if |parts| == 0 then "" else if |parts| == 1 then parts[0] else parts[0] + " " + Join(parts[1..])
  }

  /** `s` laid end to end `k` times (what summing `k` references to one list yields). */
  function Repeat<T>(s: seq<T>, k: nat): (r: seq<T>)
    ensures |r| == k * |s|
  {
    if k == 0 then [] else Repeat(s, k - 1) + s
  }

  /** Concatenating one more part appends exactly that part. */
  lemma ConcatAppend<T>(parts: seq<seq<T>>, last: seq<T>)
    ensures Concat(parts + [last]) == Concat(parts) + last
  {
    assert (parts + [last])[..|parts|] == parts;
  }

  /** Joining one more part adds it after a single space (or alone, when nothing came before). */
  lemma {:induction false} JoinAppend(parts: seq<string>, last: string)
    ensures Join(parts + [last]) == if |parts| == 0 then last else Join(parts) + " " + last
  {
    if |parts| > 1 {
      assert (parts + [last])[1..] == parts[1..] + [last];
      JoinAppend(parts[1..], last);
    }
  }

  /** The decimal digit character for `d`. */
  function Digit(d: nat): char
    requires d < 10
  {
    ('0' as int + d) as char
  }

  /** `str(n)` for a non-negative integer: its decimal digits, most significant first. */
  function DecimalString(n: nat): (s: string)
    ensures |s| > 0
    ensures forall i :: 0 <= i < |s| ==> '0' <= s[i] <= '9'
  {
    if n < 10 then [Digit(n)] else DecimalString(n / 10) + [Digit(n % 10)]
  }

  /** `int(s)` for a string of decimal digits. */
  function ParseDecimal(s: string): nat
    requires forall i :: 0 <= i < |s| ==> '0' <= s[i] <= '9'
  {
    if |s| == 0 then 0 else 10 * ParseDecimal(s[..|s| - 1]) + (s[|s| - 1] as int - '0' as int)
  }

  /** Reading back what `str` printed gives the number again. */
  lemma {:induction false} ParseDecimalString(n: nat)
    ensures ParseDecimal(DecimalString(n)) == n
  {
    var s := DecimalString(n);
    if n >= 10 {
      ParseDecimalString(n / 10);
      assert s[..|s| - 1] == DecimalString(n / 10);
    }
  }

  /** Different numbers print differently, so different channels get different tags. */
  lemma DecimalStringInjective(m: nat, n: nat)
    requires m != n
    ensures DecimalString(m) != DecimalString(n)
  {
    ParseDecimalString(m);
    ParseDecimalString(n);
  }
}
