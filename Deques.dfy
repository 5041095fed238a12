/** Python's `collections.deque(maxlen=n)`: a bounded buffer where appending
    to a full deque drops the oldest element. */
module Deques {

  datatype Deque<T> = Deque(items: seq<T>, maxlen: nat) {

    predicate Valid() {
      |items| <= maxlen
    }

    /** Appends `x` at the right end; a full deque first drops its leftmost
        element (a deque of `maxlen` 0 stays empty). */
    function Append(x: T): (d: Deque<T>)
      requires Valid()
      ensures d.Valid() && d.maxlen == maxlen
      ensures d.items == LastN(items + [x], maxlen)
    {
      if |items| < maxlen then Deque(items + [x], maxlen)
      else if maxlen == 0 then this
      else Deque(items[1..] + [x], maxlen)
    }

    /** Empties the deque; its bound stays. */
    function Clear(): (d: Deque<T>)
      ensures d.Valid() && d.items == [] && d.maxlen == maxlen
    {
      Deque([], maxlen)
    }

    /** Appends every element of `xs`, left to right. */
    function AppendAll(xs: seq<T>): (d: Deque<T>)
      requires Valid()
      ensures d.Valid() && d.maxlen == maxlen
      decreases |xs|
    {
      if xs == [] then this
      else Append(xs[0]).AppendAll(xs[1..])
    }
  }

  /** The last `n` elements of `s` (all of `s` when it is shorter). */
  function LastN<T>(s: seq<T>, n: nat): (r: seq<T>)
    ensures |r| <= n && |r| <= |s|
    ensures |s| <= n ==> r == s
  {
    if |s| <= n then s else s[|s| - n..]
  }

  /** The ring-buffer invariant: whatever was in the deque and however many
      elements are appended, the deque afterwards holds exactly the last
      `maxlen` of everything, in insertion order. */
  lemma {:induction false} AppendAllKeepsLast<T>(d: Deque<T>, xs: seq<T>)
    requires d.Valid()
    ensures d.AppendAll(xs).items == LastN(d.items + xs, d.maxlen)
    decreases |xs|
  {
    if xs == [] {
      assert d.items + xs == d.items;
    } else {
      var d1 := d.Append(xs[0]);
      AppendAllKeepsLast(d1, xs[1..]);
      assert d1.items == LastN(d.items + [xs[0]], d.maxlen);
      LastNOfConcat(d.items + [xs[0]], xs[1..], d.maxlen);
      assert d.items + [xs[0]] + xs[1..] == d.items + xs;
    }
  }

  /** Trimming a prefix to its last `n` elements before appending more does
      not change the last `n` elements of the result. */
  lemma LastNOfConcat<T>(s: seq<T>, t: seq<T>, n: nat)
    ensures LastN(LastN(s, n) + t, n) == LastN(s + t, n)
  {
    if |s| > n {
      var u := s[|s| - n..];
      var k := |s| - n;
      if |u + t| <= n {
        assert |t| == 0;
        assert s + t == s;
        assert u + t == u;
      } else {
        assert (u + t)[|u + t| - n..] == (s + t)[|s + t| - n..];
      }
    }
  }

  /** `num` empty deques, each bounded by `maxlen`. */
  function InitializeDeques<T>(num: nat, maxlen: nat): (ds: seq<Deque<T>>)
    ensures |ds| == num
    ensures forall i :: 0 <= i < num ==> ds[i].Valid() && ds[i].items == [] && ds[i].maxlen == maxlen
  {
    seq(num, _ => Deque([], maxlen))
  }
}
