/** Order-preserving filtering of sequences, the `filter`/`removeIf` of the collections library. */
module Sequences {

  /** The elements of `s` that satisfy `p`, in their order in `s`. */
  function Filter<T>(p: T -> bool, s: seq<T>): seq<T>
  {
    if s == [] then [] else (if p(s[0]) then [s[0]] else []) + Filter(p, s[1..])
  }

  /** An element is kept exactly when it occurs in the input and satisfies the predicate. */
  lemma {:induction false} FilterMembership<T>(p: T -> bool, s: seq<T>, x: T)
    ensures x in Filter(p, s) <==> x in s && p(x)
  {
    if s != [] {
      FilterMembership(p, s[1..], x);
      assert s == [s[0]] + s[1..];
    }
  }

  /** Every kept element satisfies the predicate, and every kept element comes from the input. */
  lemma FilterSound<T>(p: T -> bool, s: seq<T>)
    ensures forall x :: x in Filter(p, s) ==> x in s && p(x)
  {
    forall x | x in Filter(p, s) ensures x in s && p(x) {
      FilterMembership(p, s, x);
    }
  }

  /** Filtering distributes over concatenation: relative order is kept across any split. */
  lemma {:induction false} FilterConcat<T>(p: T -> bool, a: seq<T>, b: seq<T>)
    ensures Filter(p, a + b) == Filter(p, a) + Filter(p, b)
  {
    if a == [] {
      assert a + b == b;
    } else {
      var head := if p(a[0]) then [a[0]] else [];
      assert (a + b)[0] == a[0];
      assert (a + b)[1..] == a[1..] + b;
      assert Filter(p, a + b) == head + Filter(p, a[1..] + b);
      FilterConcat(p, a[1..], b);
      assert head + (Filter(p, a[1..]) + Filter(p, b)) == (head + Filter(p, a[1..])) + Filter(p, b);
    }
  }

  /** A one-element sequence is kept or dropped as a whole. */
  lemma FilterSingleton<T>(p: T -> bool, x: T)
    ensures Filter(p, [x]) == if p(x) then [x] else []
  {
    assert [x][1..] == [];
  }

  /** Extending the input by one element extends the output by that element or by nothing. */
  lemma FilterSnoc<T>(p: T -> bool, s: seq<T>, x: T)
    ensures Filter(p, s + [x]) == Filter(p, s) + (if p(x) then [x] else [])
  {
    FilterConcat(p, s, [x]);
    FilterSingleton(p, x);
  }

  /** A sequence all of whose elements satisfy the predicate is left as it is. */
  lemma {:induction false} FilterKeepsAll<T>(p: T -> bool, s: seq<T>)
    requires forall x :: x in s ==> p(x)
    ensures Filter(p, s) == s
  {
    if s != [] {
      assert s[0] in s;
      FilterKeepsAll(p, s[1..]);
      assert s == [s[0]] + s[1..];
    }
  }

  /** A sequence none of whose elements satisfies the predicate is filtered away entirely. */
  lemma {:induction false} FilterKeepsNone<T>(p: T -> bool, s: seq<T>)
    requires forall x :: x in s ==> !p(x)
    ensures Filter(p, s) == []
  {
    if s != [] {
      assert s[0] in s;
      FilterKeepsNone(p, s[1..]);
    }
  }

  /** Two filters may be applied in either order. */
  lemma {:induction false} FilterCommutes<T>(p: T -> bool, q: T -> bool, s: seq<T>)
    ensures Filter(p, Filter(q, s)) == Filter(q, Filter(p, s))
  {
    if s != [] {
      var h := [s[0]];
      FilterCommutes(p, q, s[1..]);
      FilterConcat(p, Filter(q, h), Filter(q, s[1..]));
      FilterConcat(q, Filter(p, h), Filter(p, s[1..]));
      FilterSingleton(p, s[0]);
      FilterSingleton(q, s[0]);
      assert Filter(q, s) == Filter(q, h) + Filter(q, s[1..]);
      assert Filter(p, s) == Filter(p, h) + Filter(p, s[1..]);
    }
  }

  /** The number of elements of `s` that satisfy `p`. */
  function Count<T>(p: T -> bool, s: seq<T>): (n: nat)
    ensures n <= |s|
  {
    if s == [] then 0 else (if p(s[0]) then 1 else 0) + Count(p, s[1..])
  }

  /** Filtering keeps as many elements as satisfy the predicate and drops the ones that do not. */
  lemma {:induction false} FilterLength<T>(p: T -> bool, s: seq<T>)
    ensures |Filter(p, s)| == Count(p, s)
  {
    if s != [] {
      FilterLength(p, s[1..]);
    }
  }

  /** Counting distributes over concatenation. */
  lemma {:induction false} CountConcat<T>(p: T -> bool, a: seq<T>, b: seq<T>)
    ensures Count(p, a + b) == Count(p, a) + Count(p, b)
  {
    if a == [] {
      assert a + b == b;
    } else {
      assert (a + b)[1..] == a[1..] + b;
      CountConcat(p, a[1..], b);
    }
  }

  /** Filtering never adds elements that satisfy another predicate. */
  lemma {:induction false} CountAfterFilter<T>(q: T -> bool, p: T -> bool, s: seq<T>)
    ensures Count(q, Filter(p, s)) <= Count(q, s)
  {
    if s != [] {
      CountAfterFilter(q, p, s[1..]);
      CountConcat(q, if p(s[0]) then [s[0]] else [], Filter(p, s[1..]));
    }
  }

  /** A sequence none of whose elements satisfies the predicate counts zero. */
  lemma {:induction false} CountNone<T>(p: T -> bool, s: seq<T>)
    requires forall x :: x in s ==> !p(x)
    ensures Count(p, s) == 0
  {
    if s != [] {
      assert s[0] in s;
      CountNone(p, s[1..]);
    }
  }
}
