/** Yen coins and the arithmetic of the payment tray. */
module Coins {

  /** The six denominations the game knows (`CoinType`). */
  predicate IsCoin(v: int) {
    v == 1 || v == 5 || v == 10 || v == 50 || v == 100 || v == 500
  }

  type Coin = v: int | IsCoin(v) witness 1

  /** Total value of the coins in a tray. Every coin is worth at least 1 and
      at most 500, so the total is zero exactly when the tray is empty. */
  function Sum(s: seq<Coin>): (r: nat)
    ensures |s| <= r <= 500 * |s|
    ensures r == 0 <==> s == []
  {
    if s == [] then 0 else s[0] + Sum(s[1..])
  }

  lemma {:induction false} SumConcat(a: seq<Coin>, b: seq<Coin>)
    ensures Sum(a + b) == Sum(a) + Sum(b)
  {
    if a == [] {
      assert a + b == b;
    } else {
      assert (a + b)[1..] == a[1..] + b;
      SumConcat(a[1..], b);
    }
  }

  /** Appending a coin raises the total by its value. */
  lemma SumAppend(s: seq<Coin>, v: Coin)
    ensures Sum(s + [v]) == Sum(s) + v
  {
    SumConcat(s, [v]);
    assert Sum([v]) == v + Sum([v][1..]);
  }

  /** The tray with the coin at position `i` taken out; the others keep
      their order. */
  function RemoveAt(s: seq<Coin>, i: nat): (r: seq<Coin>)
    requires i < |s|
    ensures |r| == |s| - 1
    ensures forall j :: 0 <= j < i ==> r[j] == s[j]
    ensures forall j :: i <= j < |r| ==> r[j] == s[j + 1]
    ensures multiset(r) + multiset{s[i]} == multiset(s)
  {
    assert s == s[..i] + [s[i]] + s[i + 1..];
    s[..i] + s[i + 1..]
  }

  /** Taking a coin out lowers the total by exactly its value. */
  lemma {:induction false} SumRemoveAt(s: seq<Coin>, i: nat)
    requires i < |s|
    ensures Sum(RemoveAt(s, i)) == Sum(s) - s[i]
  {
    if i == 0 {
      assert RemoveAt(s, i) == s[1..];
    } else {
      var r := RemoveAt(s, i);
      assert r[0] == s[0] && r[1..] == RemoveAt(s[1..], i - 1);
      SumRemoveAt(s[1..], i - 1);
    }
  }

  /** Copies the tray into a fresh array and splices out the element at
      `index` by shifting the tail one place to the left. */
  method SpliceOne(coins: seq<Coin>, index: nat) returns (newCoins: seq<Coin>)
    requires index < |coins|
    ensures newCoins == RemoveAt(coins, index)
  {
    var n := |coins|;
    var a := new Coin[n](j => if 0 <= j < n then coins[j] else 1);
    var i := index;
    while i < n - 1
      invariant index <= i <= n - 1 && a.Length == n
      invariant forall j :: 0 <= j < i ==> a[j] == RemoveAt(coins, index)[j]
      invariant forall j :: i <= j < n ==> a[j] == coins[j]
    {
      a[i] := a[i + 1];
      i := i + 1;
    }
    newCoins := a[..n - 1];
  }

  /** `n` copies of one coin. */
  function Repeat(c: Coin, n: nat): (r: seq<Coin>)
    ensures |r| == n
    ensures forall j :: 0 <= j < n ==> r[j] == c
  {
    if n == 0 then [] else [c] + Repeat(c, n - 1)
  }

  lemma {:induction false} SumRepeat(c: Coin, n: nat)
    ensures Sum(Repeat(c, n)) == c * n
  {
    if n > 0 {
      var r := Repeat(c, n);
      assert r[0] == c && r[1..] == Repeat(c, n - 1);
      SumRepeat(c, n - 1);
    }
  }
}
