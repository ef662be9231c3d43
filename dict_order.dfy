/** The key order of a Python `dict`, which iterates in insertion order. */
module DictOrder {
  predicate NoDuplicates(order: seq<string>) {
    forall i, j :: 0 <= i < j < |order| ==> order[i] != order[j]
  }

  /** Assigning `d[key]`: a new key goes last, an existing key keeps its place. */
  function Stamp(order: seq<string>, key: string): (r: seq<string>)
    ensures NoDuplicates(order) ==> NoDuplicates(r)
    ensures forall k :: k in r <==> k in order || k == key
  {
    if key in order then order else order + [key]
  }

  /** `d.pop(key, None)` on the key order. */
  function Unstamp(order: seq<string>, key: string): (r: seq<string>)
    ensures NoDuplicates(order) ==> NoDuplicates(r)
    ensures forall k :: k in r <==> k in order && k != key
    ensures |r| <= |order|
  {
    if order == [] then []
    else if order[0] == key then
      assert NoDuplicates(order) ==> NoDuplicates(order[1..]) && key !in order[1..];
      Unstamp(order[1..], key)
    else
      var rest := Unstamp(order[1..], key);
      assert NoDuplicates(order) ==> NoDuplicates(order[1..]) && order[0] !in order[1..];
      [order[0]] + rest
  }

  /** The key order after assigning the keys of `log` one after another into an empty `dict`. */
  function FirstOccurrences(log: seq<string>): (r: seq<string>)
    ensures NoDuplicates(r)
    ensures forall k :: k in r <==> k in log
  {
    if log == [] then [] else Stamp(FirstOccurrences(log[..|log| - 1]), log[|log| - 1])
  }

  /** The position of the first occurrence of `k`. */
  function FirstIndexOf(log: seq<string>, k: string): (i: nat)
    requires k in log
    ensures i < |log| && log[i] == k && k !in log[..i]
  {
    if log[0] == k then 0 else 1 + FirstIndexOf(log[1..], k)
  }

  lemma {:induction false} FirstIndexOfAppend(log: seq<string>, x: string, k: string)
    requires k in log
    ensures FirstIndexOf(log + [x], k) == FirstIndexOf(log, k)
  {
    assert (log + [x])[0] == log[0];
    if log[0] != k {
      assert (log + [x])[1..] == log[1..] + [x];
      FirstIndexOfAppend(log[1..], x, k);
    }
  }

  /** The last key assigned, when new, sits after every earlier one. */
  lemma NewKeyLast(init: seq<string>, x: string)
    requires x !in init
    ensures FirstIndexOf(init + [x], x) == |init|
  {
  }

  /** Keys come out in the order of their first assignment. */
  lemma {:induction false} FirstOccurrencesOrdered(log: seq<string>)
    ensures forall i, j :: 0 <= i < j < |FirstOccurrences(log)| ==>
      FirstIndexOf(log, FirstOccurrences(log)[i]) < FirstIndexOf(log, FirstOccurrences(log)[j])
  {
    if log != [] {
      var init := log[..|log| - 1];
      var x := log[|log| - 1];
      assert log == init + [x];
      FirstOccurrencesOrdered(init);
      var prev := FirstOccurrences(init);
      var r := FirstOccurrences(log);
      assert r == if x in prev then prev else prev + [x];
      forall i, j | 0 <= i < j < |r|
        ensures FirstIndexOf(log, r[i]) < FirstIndexOf(log, r[j])
      {
        assert r[i] == prev[i] && r[i] in init;
        FirstIndexOfAppend(init, x, r[i]);
        if j < |prev| {
          assert r[j] == prev[j];
          FirstIndexOfAppend(init, x, r[j]);
        } else {
          assert x !in init && r[j] == x;
          NewKeyLast(init, x);
          assert FirstIndexOf(init, r[i]) < |init|;
        }
      }
    }
  }
}
