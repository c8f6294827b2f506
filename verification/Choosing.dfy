/** Splitting a sequence in two by position, in order. */
module Choosing {

  /** In order, those of the first n items whose position is chosen, or not chosen. */
  ghost function Chosen<T>(items: seq<T>, n: nat, choice: int -> bool, keep: bool): seq<T>
    requires n <= |items|
  {
    if n == 0 then [] else Chosen(items, n - 1, choice, keep) + if choice(n - 1) == keep then [items[n - 1]] else []
  }

  lemma TakeOneMore<T>(items: seq<T>, n: nat)
    requires 0 < n <= |items|
    ensures multiset(items[..n]) == multiset(items[..n - 1]) + multiset{items[n - 1]}
  {
    assert items[..n] == items[..n - 1] + [items[n - 1]];
  }

  lemma ChooseOneMore<T>(items: seq<T>, n: nat, choice: int -> bool, keep: bool)
    requires 0 < n <= |items|
    ensures multiset(Chosen(items, n, choice, keep))
            == if choice(n - 1) == keep
               then multiset(Chosen(items, n - 1, choice, keep)) + multiset{items[n - 1]}
               else multiset(Chosen(items, n - 1, choice, keep))
  {
    assert Chosen(items, n - 1, choice, keep) + [] == Chosen(items, n - 1, choice, keep);
  }

  lemma AddToEither<T>(a: multiset<T>, b: multiset<T>, x: multiset<T>)
    ensures (a + x) + b == (a + b) + x && a + (b + x) == (a + b) + x
  {
  }

  lemma {:induction false} PrefixPartitions<T>(items: seq<T>, n: nat, choice: int -> bool)
    requires n <= |items|
    ensures multiset(Chosen(items, n, choice, true)) + multiset(Chosen(items, n, choice, false)) == multiset(items[..n])
  {
    if n == 0 {
      assert items[..n] == [];
    } else {
      PrefixPartitions(items, n - 1, choice);
      TakeOneMore(items, n);
      ChooseOneMore(items, n, choice, true);
      ChooseOneMore(items, n, choice, false);
      AddToEither(multiset(Chosen(items, n - 1, choice, true)), multiset(Chosen(items, n - 1, choice, false)),
                  multiset{items[n - 1]});
    }
  }

  /** Nothing is lost and nothing invented: the chosen and the other items together are all items. */
  lemma ChoicePartitions<T>(items: seq<T>, choice: int -> bool)
    ensures multiset(Chosen(items, |items|, choice, true)) + multiset(Chosen(items, |items|, choice, false))
            == multiset(items)
  {
    PrefixPartitions(items, |items|, choice);
    assert items[..|items|] == items;
  }

  lemma {:induction false} ChosenComesFrom<T>(items: seq<T>, n: nat, choice: int -> bool, k: nat) returns (i: nat)
    requires n <= |items| && k < |Chosen(items, n, choice, true)|
    ensures i < n && choice(i) && Chosen(items, n, choice, true)[k] == items[i] && k == |Chosen(items, i, choice, true)|
  {
    if k < |Chosen(items, n - 1, choice, true)| {
      i := ChosenComesFrom(items, n - 1, choice, k);
    } else {
      i := n - 1;
    }
  }

  lemma {:induction false} ChosenGrows<T>(items: seq<T>, m: nat, n: nat, choice: int -> bool)
    requires m <= n <= |items|
    ensures |Chosen(items, m, choice, true)| <= |Chosen(items, n, choice, true)|
    ensures m < n && choice(m) ==> |Chosen(items, m, choice, true)| < |Chosen(items, n, choice, true)|
    decreases n
  {
    if m < n {
      ChosenGrows(items, m, n - 1, choice);
    }
  }

  lemma {:induction false} PositionOf<T>(items: seq<T>, n: nat, choice: int -> bool, i: nat) returns (k: nat)
    requires i < n <= |items| && choice(i)
    ensures k < |Chosen(items, n, choice, true)| && Chosen(items, n, choice, true)[k] == items[i]
    decreases n
  {
    if i == n - 1 {
      k := |Chosen(items, n - 1, choice, true)|;
    } else {
      k := PositionOf(items, n - 1, choice, i);
    }
  }
}
