/** Helpers shared by every component of the dashboard: an optional value,
    JavaScript's `Array.prototype.filter`, and the way a JSX child of the
    form `value && <element/>` is rendered. */
module Common {

  datatype Option<+T> = None | Some(value: T)

  /** The `variant` property of a badge, as the components pass it. */
  datatype BadgeVariant = Default | Secondary | Destructive | Outline

  /** `xs.filter(p)`: the elements of `xs` that satisfy `p`, in order. */
  function Filter<T(==,!new)>(xs: seq<T>, p: T -> bool): (r: seq<T>)
    ensures |r| <= |xs|
    ensures forall i :: 0 <= i < |r| ==> p(r[i])
    ensures forall x :: x in r ==> x in xs
    ensures forall x :: p(x) ==> multiset(r)[x] == multiset(xs)[x]
    ensures forall x :: !p(x) ==> multiset(r)[x] == 0
  {
    if xs == [] then []
    else
      assert xs == [xs[0]] + xs[1..];
      (if p(xs[0]) then [xs[0]] else []) + Filter(xs[1..], p)
  }

  /** Filtering a concatenation filters each part and keeps them in that
      order. */
  lemma {:induction false} FilterConcat<T(!new)>(a: seq<T>, b: seq<T>, p: T -> bool)
    ensures Filter(a + b, p) == Filter(a, p) + Filter(b, p)
  {
    if a == [] {
      assert a + b == b;
    } else {
      var ab := a + b;
      assert ab[0] == a[0] && ab[1..] == a[1..] + b;
      FilterConcat(a[1..], b, p);
      var h := if p(a[0]) then [a[0]] else [];
      calc {
        Filter(ab, p);
        h + Filter(a[1..] + b, p);
        h + (Filter(a[1..], p) + Filter(b, p));
        (h + Filter(a[1..], p)) + Filter(b, p);
      }
    }
  }

  /** One element is kept exactly when it satisfies `p`; with `FilterConcat`
      this fixes the order of every filtered list. */
  lemma FilterSingleton<T(!new)>(x: T, p: T -> bool)
    ensures Filter([x], p) == if p(x) then [x] else []
  {
    assert [x][1..] == [];
  }

  /** `xs.filter(p).length` for three predicates that split every element of
      `xs` into exactly one class adds up to `xs.length`. */
  lemma {:induction false} PartitionCount3<T(!new)>(xs: seq<T>, p: T -> bool, q: T -> bool, s: T -> bool)
    requires forall i :: 0 <= i < |xs| ==>
      (if p(xs[i]) then 1 else 0) + (if q(xs[i]) then 1 else 0) + (if s(xs[i]) then 1 else 0) == 1
    ensures |Filter(xs, p)| + |Filter(xs, q)| + |Filter(xs, s)| == |xs|
  {
    if xs != [] {
      assert forall i :: 0 <= i < |xs[1..]| ==> xs[1..][i] == xs[i + 1];
      PartitionCount3(xs[1..], p, q, s);
    }
  }

  /** A direct count of the elements of `xs` that satisfy `p`: the reference
      definition against which `filter(...).length` is checked. */
  function CountWhere<T>(xs: seq<T>, p: T -> bool): nat {
    if xs == [] then 0
    else (if p(xs[0]) then 1 else 0) + CountWhere(xs[1..], p)
  }

  lemma {:induction false} FilterLengthIsCount<T(!new)>(xs: seq<T>, p: T -> bool)
    ensures |Filter(xs, p)| == CountWhere(xs, p)
  {
    if xs != [] {
      FilterLengthIsCount(xs[1..], p);
    }
  }

  /** `xs.filter(p).length`, the tally behind every status counter of the
      dashboard: never more than the list holds, and equal to the direct
      count. */
  function FilterCount<T(==,!new)>(xs: seq<T>, p: T -> bool): (n: nat)
    ensures n <= |xs|
    ensures n == CountWhere(xs, p)
  {
    FilterLengthIsCount(xs, p);
    |Filter(xs, p)|
  }

  /** Counting distributes over concatenation. */
  lemma {:induction false} CountWhereConcat<T>(a: seq<T>, b: seq<T>, p: T -> bool)
    ensures CountWhere(a + b, p) == CountWhere(a, p) + CountWhere(b, p)
  {
    if a != [] {
      assert (a + b)[1..] == a[1..] + b;
      CountWhereConcat(a[1..], b, p);
    } else {
      assert a + b == b;
    }
  }

  /** No element is counted exactly when no element satisfies `p`. */
  lemma {:induction false} CountWhereZeroIffNone<T>(xs: seq<T>, p: T -> bool)
    ensures CountWhere(xs, p) == 0 <==> forall i :: 0 <= i < |xs| ==> !p(xs[i])
  {
    if xs != [] {
      CountWhereZeroIffNone(xs[1..], p);
      assert forall i :: 1 <= i < |xs| ==> xs[i] == xs[1..][i - 1];
    }
  }

  /** One more element of a prefix adds one exactly when it satisfies `p`. */
  lemma CountWherePrefix<T>(xs: seq<T>, k: nat, p: T -> bool)
    requires 0 < k <= |xs|
    ensures CountWhere(xs[..k], p) == CountWhere(xs[..k - 1], p) + (if p(xs[k - 1]) then 1 else 0)
  {
    assert xs[..k] == xs[..k - 1] + [xs[k - 1]];
    CountWhereConcat(xs[..k - 1], [xs[k - 1]], p);
    assert [xs[k - 1]][1..] == [];
  }

  /** What React renders for the child expression `n && <element/>` when `n`
      is an optional number: nothing for `undefined`, the text "0" for the
      falsy number 0 (React prints numbers, even falsy ones), and the element
      for any other number. */
  datatype NumberGuard = Hidden | StrayZero | Shown(n: int)

  function GuardNumber(v: Option<int>): (g: NumberGuard)
    ensures g.Shown? <==> v.Some? && v.value != 0
    ensures g.Shown? ==> g.n == v.value
    ensures g.StrayZero? <==> v == Some(0)
  {
    match v
    case None => Hidden
    case Some(n) => if n == 0 then StrayZero else Shown(n)
  }

  /** What React renders for `s && <element/>` when `s` is an optional string:
      the element exactly when `s` is present and non-empty (React renders the
      empty string as nothing). */
  function GuardText(v: Option<string>): (r: Option<string>)
    ensures r.Some? <==> v.Some? && v.value != ""
    ensures r.Some? ==> r.value == v.value
  {
    match v
    case None => None
    case Some(s) => if s == "" then None else Some(s)
  }
}
