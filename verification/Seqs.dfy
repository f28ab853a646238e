/** Cutting and joining sequences. */
module Seqs {
  lemma {:induction false} Associate<T>(a: seq<T>, b: seq<T>, c: seq<T>)
    ensures a + b + c == a + (b + c)
  {}

  lemma {:induction false} Regroup<T>(s: seq<T>, n: nat, data: seq<T>, rest: seq<T>)
    requires n <= |s| && s[n..] == data + rest
    ensures s == s[..n] + data + rest
  {
    assert s == s[..n] + s[n..];
  }

  lemma {:induction false} TakeDrop<T>(s: seq<T>, b: nat, n: nat)
    requires b <= n <= |s|
    ensures s[..n][b..] == s[b..][..n - b]
  {}

  lemma {:induction false} TakeTake<T>(s: seq<T>, a: nat, n: nat)
    requires a <= n <= |s|
    ensures s[..n][..a] == s[..a]
  {}

  lemma {:induction false} SliceSlice<T>(s: seq<T>, a: nat, b: nat, c: nat, d: nat)
    requires a <= b <= |s| && c <= d <= b - a
    ensures s[a..b][c..d] == s[a + c..a + d]
  {
    forall k | 0 <= k < d - c
      ensures s[a..b][c..d][k] == s[a + c..a + d][k]
    {
      assert s[a..b][c + k] == s[a + c + k];
    }
  }
}
