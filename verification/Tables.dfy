/** Sums over a growing table of goroutines, and how updating or adding one entry changes them. */
module Tables {

  ghost function Sum<S>(table: seq<S>, f: S -> nat): nat {
    if table == [] then 0 else f(table[0]) + Sum(table[1..], f)
  }

  lemma {:induction false} SumUpdate<S>(table: seq<S>, i: nat, t: S, f: S -> nat)
    requires i < |table|
    ensures Sum(table[i := t], f) == Sum(table, f) - f(table[i]) + f(t)
  {
    if i == 0 {
      assert table[0 := t][1..] == table[1..];
    } else {
      assert table[i := t][1..] == table[1..][i - 1 := t];
      SumUpdate(table[1..], i - 1, t, f);
    }
  }

  lemma {:induction false} SumAppend<S>(table: seq<S>, t: S, f: S -> nat)
    ensures Sum(table + [t], f) == Sum(table, f) + f(t)
  {
    if table == [] {
      assert (table + [t])[1..] == [];
    } else {
      assert (table + [t])[1..] == table[1..] + [t];
      SumAppend(table[1..], t, f);
    }
  }

  lemma {:induction false} SumRemove<S>(table: seq<S>, i: nat, f: S -> nat)
    requires i < |table|
    ensures Sum(table[..i] + table[i + 1..], f) == Sum(table, f) - f(table[i])
  {
    if i == 0 {
      assert table[..0] + table[1..] == table[1..];
    } else {
      assert (table[..i] + table[i + 1..])[1..] == table[1..][..i - 1] + table[1..][i..];
      SumRemove(table[1..], i - 1, f);
    }
  }

  lemma {:induction false} SumMember<S>(table: seq<S>, i: nat, f: S -> nat)
    requires i < |table|
    ensures f(table[i]) <= Sum(table, f)
  {
    if i == 0 {
    } else {
      SumMember(table[1..], i - 1, f);
    }
  }

  /** Two different entries contribute separately. */
  lemma {:induction false} SumPair<S>(table: seq<S>, i: nat, j: nat, f: S -> nat)
    requires i < j < |table|
    ensures f(table[i]) + f(table[j]) <= Sum(table, f)
  {
    if i == 0 {
      SumMember(table[1..], j - 1, f);
    } else {
      SumPair(table[1..], i - 1, j - 1, f);
    }
  }

  lemma {:induction false} SumBound<S>(table: seq<S>, f: S -> nat)
    requires forall i :: 0 <= i < |table| ==> f(table[i]) <= 1
    ensures Sum(table, f) <= |table|
  {
    if table == [] {
    } else {
      SumBound(table[1..], f);
    }
  }

  lemma {:induction false} SumSame<S>(table: seq<S>, f: S -> nat, g: S -> nat)
    requires forall i :: 0 <= i < |table| ==> f(table[i]) == g(table[i])
    ensures Sum(table, f) == Sum(table, g)
  {
    if table == [] {
    } else {
      SumSame(table[1..], f, g);
    }
  }

  lemma {:induction false} SumLess<S>(table: seq<S>, f: S -> nat, g: S -> nat)
    requires forall i :: 0 <= i < |table| ==> f(table[i]) <= g(table[i])
    ensures Sum(table, f) <= Sum(table, g)
  {
    if table == [] {
    } else {
      SumLess(table[1..], f, g);
    }
  }

  lemma {:induction false} SumZero<S>(table: seq<S>, f: S -> nat)
    requires forall i :: 0 <= i < |table| ==> f(table[i]) == 0
    ensures Sum(table, f) == 0
  {
    if table == [] {
    } else {
      SumZero(table[1..], f);
    }
  }
}
