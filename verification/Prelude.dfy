/** Small value types shared by every component. */
module Prelude {

  datatype Option<+T> = None | Some(value: T)

  datatype Result<+T, +E> = Ok(value: T) | Err(error: E)

  function Max(a: int, b: int): int {
    if a < b then b else a
  }

  /** `str(n)`. */
  function Decimal(n: nat): (s: string)
    ensures |s| > 0
  {
    if n < 10 then [('0' as int + n) as char] else Decimal(n / 10) + [('0' as int + n % 10) as char]
  }

  /** The last n elements of s, or all of s when it is shorter. */
  function LastN<T>(s: seq<T>, n: nat): (r: seq<T>)
  {
    if |s| <= n then s else s[|s| - n..]
  }

  lemma {:induction false} DropOfAppend<T>(s: seq<T>, t: seq<T>, k: nat)
    requires k <= |s|
    ensures (s + t)[k..] == s[k..] + t
  {
  }

  lemma {:induction false} DropTwice<T>(s: seq<T>, a: nat, b: nat)
    requires a + b <= |s|
    ensures s[a..][b..] == s[a + b..]
  {
  }

  /** Keeping the last n of a kept tail is keeping the last n of the whole. */
  lemma {:induction false} LastNAppend<T>(s: seq<T>, t: seq<T>, n: nat)
    ensures LastN(LastN(s, n) + t, n) == LastN(s + t, n)
  {
    if |s| > n {
      var k := |s| - n;
      var kept := LastN(s, n);
      DropOfAppend(s, t, k);
      assert kept + t == (s + t)[k..];
      DropTwice(s + t, k, |t|);
      assert LastN(kept + t, n) == (kept + t)[|t|..];
    }
  }

  /** Maps that differ at one key at most agree at every other. */
  lemma {:induction false} SameElsewhere<K, V>(a: map<K, V>, b: map<K, V>, r: K, k: K)
    requires a - {r} == b - {r} && k != r
    ensures k in a <==> k in b
    ensures k in a ==> a[k] == b[k]
  {
    assert k in a <==> k in a - {r};
    assert k in b <==> k in b - {r};
    if k in a {
      assert (a - {r})[k] == a[k] && (b - {r})[k] == b[k];
    }
  }
}
