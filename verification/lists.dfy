/**
 * The few JavaScript array and string operations the store and its views
 * rely on, over Dafny sequences: `slice(start, end)` with non-negative
 * bounds clipped to the length, `slice(-n)` (the last n elements), and the
 * reversal that describes what a run of prepends produces.
 */
module Lists {

  function Min(a: nat, b: nat): nat {
    if a <= b then a else b
  }

  /** `xs.slice(start, end)` for non-negative `start` and `end`. */
  function Slice<T>(xs: seq<T>, start: nat, end: nat): (r: seq<T>)
    ensures |r| == if Min(end, |xs|) <= Min(start, |xs|) then 0 else Min(end, |xs|) - Min(start, |xs|)
    ensures forall i :: 0 <= i < |r| ==> r[i] == xs[start + i]
  {
    var lo := Min(start, |xs|);
    var hi := Min(end, |xs|);
    if hi <= lo then [] else xs[lo..hi]
  }

  /** `xs.slice(0, n)`: the first n elements, or all of them when there are fewer. */
  function Take<T>(xs: seq<T>, n: nat): (r: seq<T>)
    ensures |r| == Min(n, |xs|)
    ensures r <= xs
  {
    Slice(xs, 0, n)
  }

  /** `xs.slice(-n)` for n > 0: the last n elements, or all of them when there are fewer. */
  function Last<T>(xs: seq<T>, n: nat): (r: seq<T>)
    ensures |r| == Min(n, |xs|)
    ensures r == xs[|xs| - |r|..]
  {
    xs[|xs| - Min(n, |xs|)..]
  }

  /** The elements of `xs` in the opposite order. */
  function Reverse<T>(xs: seq<T>): (r: seq<T>)
    ensures |r| == |xs|
  {
    if xs == [] then [] else Reverse(xs[1..]) + [xs[0]]
  }

  lemma {:induction false} ReverseAt<T>(xs: seq<T>, i: nat)
    requires i < |xs|
    ensures Reverse(xs)[i] == xs[|xs| - 1 - i]
  {
    if i < |xs| - 1 {
      ReverseAt(xs[1..], i);
    }
  }

  /** Prepending to a list only ever shows through `Take` at the front. */
  lemma TakeOfLonger<T>(front: seq<T>, back: seq<T>, n: nat)
    requires n <= |front|
    ensures Take(front + back, n) == Take(front, n)
  {
    assert (front + back)[..n] == front[..n];
  }

  /** Prepending to a list never shows through `Last` at the back while the back is long enough. */
  lemma LastOfLonger<T>(front: seq<T>, back: seq<T>, n: nat)
    requires n <= |back|
    ensures Last(front + back, n) == Last(back, n)
  {
    assert (front + back)[|front + back| - n..] == back[|back| - n..];
  }

  lemma {:induction false} ReverseAppend<T>(a: seq<T>, b: seq<T>)
    ensures Reverse(a + b) == Reverse(b) + Reverse(a)
  {
    if a == [] {
      assert a + b == b;
    } else {
      assert (a + b)[1..] == a[1..] + b;
      ReverseAppend(a[1..], b);
    }
  }

  /** The last n of a reversed list are the first n, reversed. */
  lemma LastOfReverse<T>(xs: seq<T>, n: nat)
    requires n <= |xs|
    ensures Last(Reverse(xs), n) == Reverse(xs[..n])
  {
    assert xs == xs[..n] + xs[n..];
    ReverseAppend(xs[..n], xs[n..]);
    LastOfLonger(Reverse(xs[n..]), Reverse(xs[..n]), n);
    assert Last(Reverse(xs[..n]), n) == Reverse(xs[..n]);
  }
}
