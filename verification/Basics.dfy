/** Shared vocabulary: optional values and a few facts about sequences. */
module Basics {

  datatype Option<+T> = None | Some(value: T)

  /** The elements of `s` that are (`keep`) or are not (`!keep`) named by `chosen`, in order. */
  function Select(s: seq<nat>, chosen: set<nat>, keep: bool): (r: seq<nat>)
    ensures forall x :: x in r <==> x in s && ((x in chosen) == keep)
  {
    if s == [] then []
    else (if (s[0] in chosen) == keep then [s[0]] else []) + Select(s[1..], chosen, keep)
  }

  /** Splitting a sequence by membership loses nothing and repeats nothing. */
  lemma {:induction false} SelectSplits(s: seq<nat>, chosen: set<nat>)
    ensures multiset(Select(s, chosen, true)) + multiset(Select(s, chosen, false)) == multiset(s)
  {
    if s != [] {
      SelectSplits(s[1..], chosen);
      assert s == [s[0]] + s[1..];
    }
  }

  lemma Associates<T>(a: seq<T>, b: seq<T>, c: seq<T>)
    ensures (a + b) + c == a + (b + c)
  {
  }

  lemma NothingBefore<T>(s: seq<T>)
    ensures [] + s == s
  {
  }
}
