/** Lists whose items each expand into a block of consecutive rows, numbered
    from an initial id: the block of an item is given the id its first row will
    get, which is the initial id plus the number of rows before it. This is the
    shape of a depth-first write in which every insert gets the next id. */
module BlockLists {

  function Blocks<T, R>(xs: seq<T>, block: (T, int) -> seq<R>, next: int): seq<R>
    decreases |xs|
  {
    if xs == [] then [] else block(xs[0], next) + Blocks(xs[1..], block, next + |block(xs[0], next)|)
  }

  lemma {:induction false} BlocksAppend<T, R>(a: seq<T>, b: seq<T>, block: (T, int) -> seq<R>, next: int)
    ensures Blocks(a + b, block, next)
         == Blocks(a, block, next) + Blocks(b, block, next + |Blocks(a, block, next)|)
    decreases |a|
  {
    if a == [] {
      assert a + b == b;
    } else {
      assert (a + b)[0] == a[0];
      assert (a + b)[1..] == a[1..] + b;
      BlocksAppend(a[1..], b, block, next + |block(a[0], next)|);
    }
  }

  /** The rows of `xs` are those of the items before `xs[j]`, then the block of
      `xs[j]`, then those of the items after it. */
  lemma BlocksSplitAt<T, R>(xs: seq<T>, j: nat, block: (T, int) -> seq<R>, next: int)
    requires j < |xs|
    ensures var at := next + |Blocks(xs[..j], block, next)|;
      Blocks(xs, block, next)
        == Blocks(xs[..j], block, next) + block(xs[j], at)
           + Blocks(xs[j + 1..], block, at + |block(xs[j], at)|)
  {
    assert xs == xs[..j] + xs[j..];
    BlocksAppend(xs[..j], xs[j..], block, next);
    assert xs[j..][0] == xs[j] && xs[j..][1..] == xs[j + 1..];
  }

  /** The block of `xs[j]` sits right after the rows of the items before it,
      and ends where the rows of the first `j + 1` items end. */
  lemma BlocksAt<T, R>(xs: seq<T>, j: nat, block: (T, int) -> seq<R>, next: int)
    requires j < |xs|
    ensures var at := |Blocks(xs[..j], block, next)|; var b := block(xs[j], next + at);
      && at + |b| <= |Blocks(xs, block, next)|
      && Blocks(xs, block, next)[at..at + |b|] == b
      && |Blocks(xs[..j + 1], block, next)| == at + |b|
  {
    var at := |Blocks(xs[..j], block, next)|;
    var b := block(xs[j], next + at);
    BlocksSplitAt(xs, j, block, next);
    BlocksSnoc(xs, j, block, next);
    var c := Blocks(xs[j + 1..], block, next + at + |b|);
    assert (Blocks(xs[..j], block, next) + b + c)[at..at + |b|] == b;
  }

  /** When the block of `xs[j]` is a head row `x` followed by `rest`, `x` sits
      right after the rows of the items before `xs[j]`, `rest` follows it, and
      the rows of the first `j + 1` items end there. */
  lemma BlockParts<T, R>(xs: seq<T>, j: nat, block: (T, int) -> seq<R>, next: int,
                         at: int, x: R, rest: seq<R>, n: int)
    requires j < |xs|
    requires at == |Blocks(xs[..j], block, next)|
    requires block(xs[j], next + at) == [x] + rest && |rest| == n
    ensures 0 <= at && at + 1 + n <= |Blocks(xs, block, next)|
    ensures Blocks(xs, block, next)[at] == x
    ensures Blocks(xs, block, next)[at + 1..at + 1 + n] == rest
    ensures |Blocks(xs[..j + 1], block, next)| == at + 1 + n
  {
    BlocksAt(xs, j, block, next);
    var rows := Blocks(xs, block, next);
    assert rows[at..at + 1 + n] == [x] + rest;
    assert rows[at] == rows[at..at + 1 + n][0];
    assert rows[at + 1..at + 1 + n] == rows[at..at + 1 + n][1..];
  }

  /** Processing one more item appends its block. */
  lemma BlocksSnoc<T, R>(xs: seq<T>, j: nat, block: (T, int) -> seq<R>, next: int)
    requires j < |xs|
    ensures Blocks(xs[..j + 1], block, next)
         == Blocks(xs[..j], block, next) + block(xs[j], next + |Blocks(xs[..j], block, next)|)
  {
    var pre := xs[..j + 1];
    assert pre[..j] == xs[..j] && pre[j] == xs[j] && pre[j + 1..] == [];
    BlocksSplitAt(pre, j, block, next);
  }

  // ---------------------------------------------------------------------------
  // The same lists cut into store calls: each item makes a list of calls, each
  // call inserting a batch of rows. The calls of an item are numbered from the
  // id its first row gets, as its block is.

  /** The rows of a list of batches, in order. */
  function Concat<R>(bs: seq<seq<R>>): seq<R>
    decreases |bs|
  {
    if bs == [] then [] else bs[0] + Concat(bs[1..])
  }

  lemma {:induction false} ConcatAppend<R>(a: seq<seq<R>>, b: seq<seq<R>>)
    ensures Concat(a + b) == Concat(a) + Concat(b)
    decreases |a|
  {
    if a == [] {
      assert a + b == b;
    } else {
      assert (a + b)[0] == a[0];
      assert (a + b)[1..] == a[1..] + b;
      ConcatAppend(a[1..], b);
    }
  }

  /** The rows of the first `k` batches are a prefix of the rows of all of them. */
  lemma ConcatPrefix<R>(bs: seq<seq<R>>, k: nat)
    requires k <= |bs|
    ensures Concat(bs[..k]) <= Concat(bs)
  {
    assert bs == bs[..k] + bs[k..];
    ConcatAppend(bs[..k], bs[k..]);
  }

  /** The rows of a batch `b` followed by the batches `rest`. */
  lemma ConcatCons<R>(b: seq<R>, rest: seq<seq<R>>)
    ensures Concat([b] + rest) == b + Concat(rest)
  {
    var bs := [b] + rest;
    assert bs[0] == b;
    assert bs[1..] == rest;
  }

  /** A call inserting the single row `x`, then the calls `rest`, cut after the
      first `k` of `rest`. */
  lemma ConcatHead<R>(x: R, rest: seq<seq<R>>, k: nat)
    requires k <= |rest|
    ensures ([[x]] + rest)[..k + 1] == [[x]] + rest[..k]
    ensures Concat(([[x]] + rest)[..k + 1]) == [x] + Concat(rest[..k])
  {
    assert ([[x]] + rest)[..k + 1] == [[x]] + rest[..k];
    ConcatCons([x], rest[..k]);
  }

  /** The calls made for `xs`, item by item, starting at id `next`. */
  function Batches<T, R>(xs: seq<T>, calls: (T, int) -> seq<seq<R>>, next: int): seq<seq<R>>
    decreases |xs|
  {
    if xs == [] then []
    else calls(xs[0], next) + Batches(xs[1..], calls, next + |Concat(calls(xs[0], next))|)
  }

  lemma {:induction false} BatchesAppend<T, R>(a: seq<T>, b: seq<T>, calls: (T, int) -> seq<seq<R>>, next: int)
    ensures Batches(a + b, calls, next)
         == Batches(a, calls, next) + Batches(b, calls, next + |Concat(Batches(a, calls, next))|)
    decreases |a|
  {
    if a == [] {
      assert a + b == b;
    } else {
      var c := calls(a[0], next);
      var after := next + |Concat(c)|;
      assert (a + b)[0] == a[0];
      assert (a + b)[1..] == a[1..] + b;
      BatchesAppend(a[1..], b, calls, after);
      ConcatAppend(c, Batches(a[1..], calls, after));
    }
  }

  /** The calls of `xs` are those of the items before `xs[j]`, then those of
      `xs[j]`, numbered from the rows before it, then those of the items after. */
  lemma BatchesSplitAt<T, R>(xs: seq<T>, j: nat, calls: (T, int) -> seq<seq<R>>, next: int)
    requires j < |xs|
    ensures var at := next + |Concat(Batches(xs[..j], calls, next))|;
      Batches(xs, calls, next)
        == Batches(xs[..j], calls, next) + calls(xs[j], at)
           + Batches(xs[j + 1..], calls, at + |Concat(calls(xs[j], at))|)
  {
    assert xs == xs[..j] + xs[j..];
    BatchesAppend(xs[..j], xs[j..], calls, next);
    assert xs[j..][0] == xs[j] && xs[j..][1..] == xs[j + 1..];
  }

  /** Processing one more item appends its calls. */
  lemma BatchesSnoc<T, R>(xs: seq<T>, j: nat, calls: (T, int) -> seq<seq<R>>, next: int)
    requires j < |xs|
    ensures Batches(xs[..j + 1], calls, next)
         == Batches(xs[..j], calls, next) + calls(xs[j], next + |Concat(Batches(xs[..j], calls, next))|)
  {
    var pre := xs[..j + 1];
    assert pre[..j] == xs[..j] && pre[j] == xs[j] && pre[j + 1..] == [];
    BatchesSplitAt(pre, j, calls, next);
  }

  /** When the rows of each item's calls are its block, the rows of the calls of
      `xs` are the rows of `xs`. */
  lemma {:induction false} BatchesConcat<T, R>(xs: seq<T>, block: (T, int) -> seq<R>,
                                               calls: (T, int) -> seq<seq<R>>, next: int)
    requires forall i, id :: 0 <= i < |xs| ==> Concat(calls(xs[i], id)) == block(xs[i], id)
    ensures Concat(Batches(xs, calls, next)) == Blocks(xs, block, next)
    decreases |xs|
  {
    if xs != [] {
      var c := calls(xs[0], next);
      assert Concat(c) == block(xs[0], next);
      var after := next + |Concat(c)|;
      assert forall i, id :: 0 <= i < |xs[1..]| ==> Concat(calls(xs[1..][i], id)) == block(xs[1..][i], id) by {
        forall i, id | 0 <= i < |xs[1..]|
          ensures Concat(calls(xs[1..][i], id)) == block(xs[1..][i], id)
        {
          assert xs[1..][i] == xs[i + 1];
        }
      }
      BatchesConcat(xs[1..], block, calls, after);
      ConcatAppend(c, Batches(xs[1..], calls, after));
    }
  }

  // ---------------------------------------------------------------------------
  // An insert log that is being filled item by item: `log0` is the log before
  // the first item, and `log1` the log before item `i`, whose first row gets the
  // id `|log1|`.

  /** Nothing written yet, and no call made. */
  lemma LogStart<T, R>(log0: seq<R>, xs: seq<T>, calls: (T, int) -> seq<seq<R>>, next: int)
    ensures log0 == log0 + Concat(Batches(xs[..0], calls, next))
    ensures |Batches(xs[..0], calls, next)| == 0
  {
    assert xs[..0] == [];
  }

  /** Every call of item `i` made and accepted: the log gains their rows. */
  lemma LogStep<T, R>(log: seq<R>, log1: seq<R>, log0: seq<R>, xs: seq<T>, i: nat,
                      calls: (T, int) -> seq<seq<R>>, next: int)
    requires i < |xs| && |log0| == next
    requires log1 == log0 + Concat(Batches(xs[..i], calls, next))
    requires log == log1 + Concat(calls(xs[i], |log1|))
    ensures log == log0 + Concat(Batches(xs[..i + 1], calls, next))
    ensures |Batches(xs[..i + 1], calls, next)| == |Batches(xs[..i], calls, next)| + |calls(xs[i], |log1|)|
  {
    BatchesSnoc(xs, i, calls, next);
    ConcatAppend(Batches(xs[..i], calls, next), calls(xs[i], |log1|));
  }

  /** The calls of item `i` accepted up to its call `k`, which was rejected: the
      log holds the rows of the `n` calls of `xs` before the rejected one. */
  lemma LogStop<T, R>(log: seq<R>, log1: seq<R>, log0: seq<R>, xs: seq<T>, i: nat,
                      calls: (T, int) -> seq<seq<R>>, next: int, k: nat, n: int)
    requires i < |xs| && |log0| == next
    requires log1 == log0 + Concat(Batches(xs[..i], calls, next))
    requires k < |calls(xs[i], |log1|)| && log == log1 + Concat(calls(xs[i], |log1|)[..k])
    requires n == |Batches(xs[..i], calls, next)| + k
    ensures 0 <= n < |Batches(xs, calls, next)|
    ensures log == log0 + Concat(Batches(xs, calls, next)[..n])
  {
    BatchesSplitAt(xs, i, calls, next);
    var a := Batches(xs[..i], calls, next);
    var c := calls(xs[i], |log1|);
    var d := Batches(xs[i + 1..], calls, |log1| + |Concat(c)|);
    assert (a + c + d)[..n] == a + c[..k];
    ConcatAppend(a, c[..k]);
  }

  /** Every call of every item made and accepted. */
  lemma LogDone<T, R>(log: seq<R>, log0: seq<R>, xs: seq<T>, i: nat, calls: (T, int) -> seq<seq<R>>, next: int)
    requires i == |xs|
    requires log == log0 + Concat(Batches(xs[..i], calls, next))
    ensures log == log0 + Concat(Batches(xs, calls, next))
    ensures |Batches(xs[..i], calls, next)| == |Batches(xs, calls, next)|
  {
    assert xs[..i] == xs;
  }

  // ---------------------------------------------------------------------------
  // Counting rows by kind.

  /** How many of `rows` are of kind `k`. */
  function CountOf<R, K(==)>(rows: seq<R>, kind: R -> K, k: K): nat {
    if rows == [] then 0 else (if kind(rows[0]) == k then 1 else 0) + CountOf(rows[1..], kind, k)
  }

  lemma {:induction false} CountAppend<R, K>(a: seq<R>, b: seq<R>, kind: R -> K, k: K)
    ensures CountOf(a + b, kind, k) == CountOf(a, kind, k) + CountOf(b, kind, k)
    decreases |a|
  {
    if a == [] {
      assert a + b == b;
    } else {
      assert (a + b)[0] == a[0];
      assert (a + b)[1..] == a[1..] + b;
      CountAppend(a[1..], b, kind, k);
    }
  }

  lemma CountSingle<R, K>(r: R, kind: R -> K, k: K)
    ensures CountOf([r], kind, k) == if kind(r) == k then 1 else 0
  {
    assert [r][1..] == [];
  }

  /** A single row of kind `kind(x)` followed by `rest`. */
  lemma CountCons<R, K>(x: R, rest: seq<R>, kind: R -> K, k: K)
    ensures CountOf([x] + rest, kind, k) == (if kind(x) == k then 1 else 0) + CountOf(rest, kind, k)
  {
    CountAppend([x], rest, kind, k);
    CountSingle(x, kind, k);
  }

  function SumOf<T>(xs: seq<T>, g: T -> int): int {
    if xs == [] then 0 else g(xs[0]) + SumOf(xs[1..], g)
  }

  /** When every block holds `g(x)` rows of kind `k`, the rows of `xs` hold the
      sum of `g` over `xs`. */
  lemma {:induction false} BlocksCount<T, R, K>(xs: seq<T>, block: (T, int) -> seq<R>, next: int,
                                                    kind: R -> K, k: K, g: T -> int)
    requires forall x: T, n: int :: CountOf(block(x, n), kind, k) == g(x)
    ensures CountOf(Blocks(xs, block, next), kind, k) == SumOf(xs, g)
    decreases |xs|
  {
    if xs != [] {
      var b := block(xs[0], next);
      BlocksCount(xs[1..], block, next + |b|, kind, k, g);
      CountAppend(b, Blocks(xs[1..], block, next + |b|), kind, k);
    }
  }
}
