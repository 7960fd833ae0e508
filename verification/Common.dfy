/** Types shared by every component of the model. */
module Common {
  newtype byte = x: int | 0 <= x < 256

  datatype Option<+T> = None | Some(value: T)

  /** The concatenation, in order, of the chunks of a stream. */
  function Flatten<T>(chunks: seq<seq<T>>): seq<T> {
    if chunks == [] then [] else chunks[0] + Flatten(chunks[1..])
  }

  lemma {:induction false} FlattenAppend<T>(a: seq<seq<T>>, b: seq<seq<T>>)
    ensures Flatten(a + b) == Flatten(a) + Flatten(b)
  {
    if a == [] {
      assert a + b == b;
    } else {
      assert (a + b)[1..] == a[1..] + b;
      FlattenAppend(a[1..], b);
    }
  }

  lemma FlattenOne<T>(a: seq<T>)
    ensures Flatten([a]) == a
  {
    assert [a][1..] == [];
  }

  // Facts about sequences, stated here so that proofs elsewhere need not search for them.

  lemma Regroup<T>(a: seq<T>, b: seq<T>, c: seq<T>)
    ensures (a + b) + c == a + (b + c)
  {
  }

  lemma NothingInFront<T>(a: seq<T>)
    ensures [] + a == a
  {
  }

  lemma NothingBehind<T>(a: seq<T>)
    ensures a + [] == a
  {
  }

  lemma Cut<T>(a: seq<T>, i: nat)
    requires i <= |a|
    ensures a[..i] + a[i..] == a
  {
  }

  lemma OneMore<T>(a: seq<T>, i: nat)
    requires i < |a|
    ensures a[..i] + [a[i]] == a[..i + 1]
    ensures a[i..][1..] == a[i + 1..] && a[i..][0] == a[i]
  {
  }
}
