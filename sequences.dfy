/**
 * Sequence helpers shared by the model: mapping, concatenation of a list of lists
 * (Python's nested comprehensions and `+=` on lists) and the Cartesian product in the
 * order `itertools.product` enumerates it.
 */
module Sequences {

  /** `[f(x) for x in xs]` */
  function MapSeq<A, B>(f: A -> B, xs: seq<A>): (r: seq<B>)
    ensures |r| == |xs|
    ensures forall i :: 0 <= i < |xs| ==> r[i] == f(xs[i])
  {
    seq(|xs|, i requires 0 <= i < |xs| => f(xs[i]))
  }

  /** Concatenation is associative; stated apart so that it is proved away from large terms. */
  lemma AppendAssociative<T>(a: seq<T>, b: seq<T>, c: seq<T>)
    ensures (a + b) + c == a + (b + c)
  {
  }

  /** A slice of what follows the first `n` elements is the slice moved by `n`. */
  lemma DropSlice<T>(xs: seq<T>, n: nat, lo: nat, hi: nat)
    requires lo <= hi && n + hi <= |xs|
    ensures xs[n..][lo..hi] == xs[n + lo..n + hi]
  {
  }

  /** `[x for s in ss for x in s]`, defined from the back so that loops appending block by block match it. */
  function Flatten<T>(ss: seq<seq<T>>): seq<T>
    decreases |ss|
  {
    if |ss| == 0 then [] else Flatten(ss[..|ss| - 1]) + ss[|ss| - 1]
  }

  /** One block flattens to itself. */
  lemma FlattenSingle<T>(x: seq<T>)
    ensures Flatten([x]) == x
  {
    assert [x][..0] == [];
  }

  lemma {:induction false} FlattenAppend<T>(a: seq<seq<T>>, b: seq<seq<T>>)
    ensures Flatten(a + b) == Flatten(a) + Flatten(b)
    decreases |b|
  {
    if |b| == 0 {
      assert a + b == a;
    } else {
      var b' := b[..|b| - 1];
      assert (a + b)[..|a + b| - 1] == a + b';
      FlattenAppend(a, b');
    }
  }

  /** Appending one block to the list of blocks appends it to the concatenation. */
  lemma FlattenSnoc<T>(ss: seq<seq<T>>, j: nat)
    requires j < |ss|
    ensures Flatten(ss[..j + 1]) == Flatten(ss[..j]) + ss[j]
  {
    assert ss[..j + 1][..j] == ss[..j];
  }

  /** An element of the concatenation comes from one of the blocks, and every block's elements are in it. */
  lemma {:induction false} FlattenMember<T>(ss: seq<seq<T>>, x: T)
    ensures x in Flatten(ss) <==> exists i :: 0 <= i < |ss| && x in ss[i]
    decreases |ss|
  {
    if |ss| > 0 {
      var init := ss[..|ss| - 1];
      FlattenMember(init, x);
      if x in Flatten(ss) && x !in ss[|ss| - 1] {
        var i :| 0 <= i < |init| && x in init[i];
        assert x in ss[i];
      }
      if exists i :: 0 <= i < |ss| && x in ss[i] {
        var i :| 0 <= i < |ss| && x in ss[i];
        if i < |ss| - 1 {
          assert x in init[i];
        }
      }
    }
  }

  /** The length of a concatenation is the sum of the block lengths. */
  function SumLengths<T>(ss: seq<seq<T>>): nat
    decreases |ss|
  {
    if |ss| == 0 then 0 else SumLengths(ss[..|ss| - 1]) + |ss[|ss| - 1]|
  }

  lemma {:induction false} FlattenLength<T>(ss: seq<seq<T>>)
    ensures |Flatten(ss)| == SumLengths(ss)
    decreases |ss|
  {
    if |ss| > 0 {
      FlattenLength(ss[..|ss| - 1]);
    }
  }

  /** `n` copies of `x`, as in Python's `[x] * n`. */
  function Repeat<T>(x: T, n: nat): (r: seq<T>)
    ensures |r| == n
    ensures forall i :: 0 <= i < n ==> r[i] == x
  {
    seq(n, _ => x)
  }

  function Power(b: nat, n: nat): nat
    decreases n
  {
    if n == 0 then 1 else b * Power(b, n - 1)
  }

  /** Every tuple of `Product(options)` extended at the front by each head, heads in order. */
  function PrependEach<T>(heads: seq<T>, tails: seq<seq<T>>): seq<seq<T>>
    decreases |heads|
  {
    if |heads| == 0 then []
    else seq(|tails|, k requires 0 <= k < |tails| => [heads[0]] + tails[k]) + PrependEach(heads[1..], tails)
  }

  /**
   * `list(itertools.product(*options))`: all tuples picking one element per position,
   * the first position varying slowest.
   */
  function Product<T>(options: seq<seq<T>>): seq<seq<T>>
    decreases |options|
  {
    if |options| == 0 then [[]] else PrependEach(options[0], Product(options[1..]))
  }

  /** The product of the option counts. */
  function ProductSize<T>(options: seq<seq<T>>): nat
    decreases |options|
  {
    if |options| == 0 then 1 else |options[0]| * ProductSize(options[1..])
  }

  lemma {:induction false} PrependEachLength<T>(heads: seq<T>, tails: seq<seq<T>>)
    ensures |PrependEach(heads, tails)| == |heads| * |tails|
    decreases |heads|
  {
    if |heads| > 0 {
      PrependEachLength(heads[1..], tails);
    }
  }

  lemma {:induction false} ProductLength<T>(options: seq<seq<T>>)
    ensures |Product(options)| == ProductSize(options)
    decreases |options|
  {
    if |options| > 0 {
      ProductLength(options[1..]);
      PrependEachLength(options[0], Product(options[1..]));
    }
  }

  lemma {:induction false} PrependEachMember<T>(heads: seq<T>, tails: seq<seq<T>>, r: seq<T>)
    ensures r in PrependEach(heads, tails) <==> |r| > 0 && r[0] in heads && r[1..] in tails
    decreases |heads|
  {
    if |heads| > 0 {
      var block := seq(|tails|, k requires 0 <= k < |tails| => [heads[0]] + tails[k]);
      PrependEachMember(heads[1..], tails, r);
      assert PrependEach(heads, tails) == block + PrependEach(heads[1..], tails);
      if r in block {
        var k :| 0 <= k < |tails| && block[k] == r;
        assert r[1..] == tails[k];
      }
      if |r| > 0 && r[0] == heads[0] && r[1..] in tails {
        var k :| 0 <= k < |tails| && tails[k] == r[1..];
        assert block[k] == r;
      }
    }
  }

  /** A tuple is in the product exactly when it has one entry per position, each taken from that position's options. */
  lemma {:induction false} ProductMember<T>(options: seq<seq<T>>, r: seq<T>)
    ensures r in Product(options) <==> |r| == |options| && forall k :: 0 <= k < |r| ==> r[k] in options[k]
    decreases |options|
  {
    if |options| == 0 {
      assert r in Product(options) <==> r == [];
    } else {
      PrependEachMember(options[0], Product(options[1..]), r);
      if |r| > 0 {
        ProductMember(options[1..], r[1..]);
        if |r| == |options| && forall k :: 0 <= k < |r| ==> r[k] in options[k] {
          forall k | 0 <= k < |r[1..]|
            ensures r[1..][k] in options[1..][k]
          {
            assert r[k + 1] in options[k + 1];
          }
        }
        if r[0] in options[0] && r[1..] in Product(options[1..]) {
          forall k | 0 <= k < |r|
            ensures r[k] in options[k]
          {
            if k > 0 {
              assert r[1..][k - 1] in options[1..][k - 1];
            }
          }
        }
      }
    }
  }

  /** With the same `choices` at every one of `n` positions the product has `|choices|^n` tuples. */
  lemma {:induction false} ProductSizeRepeat<T>(choices: seq<T>, n: nat)
    ensures ProductSize(Repeat(choices, n)) == Power(|choices|, n)
    decreases n
  {
    if n > 0 {
      assert Repeat(choices, n)[1..] == Repeat(choices, n - 1);
      ProductSizeRepeat(choices, n - 1);
    }
  }
}
