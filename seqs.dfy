/** Facts about sequences that the proofs of the other modules use, stated once for any
    element type so that each proof elsewhere only has to instantiate them. */
module Seqs {

  lemma Assoc<T>(a: seq<T>, b: seq<T>, c: seq<T>)
    ensures a + b + c == a + (b + c)
  {
  }

  /** Two writes in a row, of `a` and then `b`, append `ab` when `ab` is `a + b`. */
  lemma Chain<T>(s: seq<T>, a: seq<T>, b: seq<T>, ab: seq<T>, mid: seq<T>, out: seq<T>)
    requires mid == s + a && out == mid + b && ab == a + b
    ensures out == s + ab
  {
  }

  lemma AppendEmpty<T>(s: seq<T>)
    ensures s + [] == s && [] + s == s
  {
  }

  /** The parts of a sequence with one element appended. */
  lemma SnocParts<T>(s: seq<T>, x: T)
    ensures |s + [x]| == |s| + 1 && (s + [x])[..|s|] == s && (s + [x])[|s|] == x
  {
  }

  /** The prefix of length `j + 1`, seen through its own last element. */
  lemma PrefixStep<T>(s: seq<T>, j: nat)
    requires j < |s|
    ensures |s[..j + 1]| == j + 1 && s[..j + 1][..j] == s[..j] && s[..j + 1][j] == s[j]
  {
  }

  lemma PrefixEnds<T>(s: seq<T>)
    ensures s[..0] == [] && s[..|s|] == s
  {
  }

  /** Every element of a prefix is an element of the whole. */
  lemma PrefixIn<T>(s: seq<T>, j: nat)
    requires j <= |s|
    ensures forall x | x in s[..j] :: x in s
  {
  }

  /** The prefixes of one-, two- and three-element sequences that the short statement
      lists are built from. */
  lemma ShortPrefixes<T>(a: T, b: T, c: T)
    ensures [a][..0] == [] && [a, b][..1] == [a] && [a, b, c][..2] == [a, b]
  {
  }

  /** A nonempty sequence is its prefix followed by its last element. */
  lemma InitLast<T>(s: seq<T>)
    requires s != []
    ensures s[..|s| - 1] + [s[|s| - 1]] == s
  {
  }

  /** The prefix and last element of `a + b` when `b` is not empty. */
  lemma InitOfAppend<T>(a: seq<T>, b: seq<T>)
    requires b != []
    ensures (a + b)[..|a + b| - 1] == a + b[..|b| - 1] && (a + b)[|a + b| - 1] == b[|b| - 1]
  {
  }

  lemma PrefixSnoc<T>(s: seq<T>, j: nat)
    requires j < |s|
    ensures s[..j + 1] == s[..j] + [s[j]]
  {
  }

  /** The results of `f` on the elements of `xs`, one after another. */
  function Flatten<T, U>(f: T -> seq<U>, xs: seq<T>): seq<U>
  {
    if xs == [] then [] else Flatten(f, xs[..|xs| - 1]) + f(xs[|xs| - 1])
  }

  lemma {:induction false} FlattenAppend<T, U>(f: T -> seq<U>, a: seq<T>, b: seq<T>)
    ensures Flatten(f, a + b) == Flatten(f, a) + Flatten(f, b)
    decreases |b|
  {
    if b == [] {
      AppendEmpty(a);
      AppendEmpty(Flatten(f, a));
    } else {
      InitOfAppend(a, b);
      FlattenAppend(f, a, b[..|b| - 1]);
      Assoc(Flatten(f, a), Flatten(f, b[..|b| - 1]), f(b[|b| - 1]));
    }
  }

  lemma FlattenOne<T, U>(f: T -> seq<U>, x: T)
    ensures Flatten(f, [x]) == f(x)
  {
    assert [x][..0] == [];
    AppendEmpty(f(x));
  }

  /** The flattening is empty exactly when `f` gives nothing for every element. */
  lemma {:induction false} FlattenEmpty<T, U>(f: T -> seq<U>, xs: seq<T>)
    ensures Flatten(f, xs) == [] <==> forall x | x in xs :: f(x) == []
  {
    if xs != [] {
      var init, last := xs[..|xs| - 1], xs[|xs| - 1];
      PrefixIn(xs, |xs| - 1);
      FlattenEmpty(f, init);
      InitLast(xs);
      assert forall x | x in xs :: x in init || x == last;
      assert Flatten(f, xs) == Flatten(f, init) + f(last);
    }
  }
}
