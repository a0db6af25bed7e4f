/** Small shared vocabulary: JavaScript's three-valued properties, options,
    outcomes, and order-preserving filters over sequences. */
module Common {

  /** A property of a JavaScript object: missing (`undefined`), `null`, or a value.
      `x === null` holds only for `Null`; `x !== null` holds for `Undefined` too. */
  datatype Field<T> = Undefined | Null | Val(v: T)

  datatype Option<T> = None | Some(value: T)

  /** Result of an operation that may throw (the exception's payload is not modelled). */
  datatype Outcome<T> = Success(value: T) | Failure

  /** A JavaScript number as far as the metrics need it: a finite value, or `NaN`
      (what arithmetic on `undefined` produces). `NaN` absorbs every operation. */
  datatype JsNumber = Finite(value: real) | NaN

  function Plus(a: JsNumber, b: JsNumber): JsNumber
  {
    if a.Finite? && b.Finite? then Finite(a.value + b.value) else NaN
  }

  function Scale(a: JsNumber, k: real): JsNumber
  {
    if a.Finite? then Finite(a.value * k) else NaN
  }

  lemma PlusAssociative(a: JsNumber, b: JsNumber, c: JsNumber)
    ensures Plus(Plus(a, b), c) == Plus(a, Plus(b, c))
  {
  }

  lemma PlusCommutative(a: JsNumber, b: JsNumber)
    ensures Plus(a, b) == Plus(b, a)
  {
  }

  /** `(part / whole) * 100`. */
  function Percent(part: real, whole: real): (r: real)
    requires whole > 0.0
    ensures r * whole == part * 100.0
    ensures 0.0 <= part <= whole ==> 0.0 <= r <= 100.0
  {
    part / whole * 100.0
  }

  /** `r` is `part` as a percentage of a positive `whole`. */
  predicate IsPercentOf(r: real, part: real, whole: real)
  {
    whole > 0.0 ==> r * whole == part * 100.0
  }

  /** `whole > 0 ? (part / whole) * 100 : fallback`. */
  function PercentOr(part: real, whole: real, fallback: real): (r: real)
    ensures IsPercentOf(r, part, whole)
    ensures whole > 0.0 && 0.0 <= part <= whole ==> 0.0 <= r <= 100.0
    ensures whole <= 0.0 ==> r == fallback
  {
    if whole > 0.0 then Percent(part, whole) else fallback
  }

  /** JavaScript truthiness of a numeric property: `undefined`, `null` and `0` are falsy. */
  predicate TruthyNum(f: Field<int>)
  {
    f.Val? && f.v != 0
  }

  /** JavaScript truthiness of an optional string: absent and `''` are falsy. */
  predicate TruthyStr(s: Option<string>)
  {
    s.Some? && s.value != ""
  }

  /** `Array.prototype.filter`: the elements satisfying `p`, in their original order. */
  function Filter<T(==,!new)>(s: seq<T>, p: T -> bool): (r: seq<T>)
    ensures |r| <= |s|
    ensures forall x :: x in r <==> x in s && p(x)
    ensures forall i :: 0 <= i < |r| ==> p(r[i])
  {
    if |s| == 0 then []
    else if p(s[0]) then [s[0]] + Filter(s[1..], p)
    else Filter(s[1..], p)
  }

  /** `findIndex`: the index of the first element satisfying `p`, with `|s|`
      standing for "none". */
  function FirstIndex<T>(s: seq<T>, p: T -> bool): (i: nat)
    ensures i <= |s|
    ensures i < |s| ==> p(s[i])
    ensures forall j :: 0 <= j < i ==> !p(s[j])
  {
    if |s| == 0 then 0
    else if p(s[0]) then 0
    else 1 + FirstIndex(s[1..], p)
  }

  function Not<T>(p: T -> bool): T -> bool
  {
    x => !p(x)
  }

  /** `a` can be obtained from `b` by deleting elements (relative order is kept). */
  predicate SubsequenceOf<T(==)>(a: seq<T>, b: seq<T>)
    decreases |b|
  {
    if |a| == 0 then true
    else if |b| == 0 then false
    else if a[0] == b[0] then SubsequenceOf(a[1..], b[1..])
    else SubsequenceOf(a, b[1..])
  }

  lemma {:induction false} FilterIsSubsequence<T(!new)>(s: seq<T>, p: T -> bool)
    ensures SubsequenceOf(Filter(s, p), s)
    decreases |s|
  {
    if |s| > 0 {
      FilterIsSubsequence(s[1..], p);
      if p(s[0]) {
        assert Filter(s, p) == [s[0]] + Filter(s[1..], p);
        assert (Filter(s, p))[1..] == Filter(s[1..], p);
      } else {
        var f := Filter(s, p);
        if |f| > 0 {
          assert f[0] in s && p(f[0]);
          assert f[0] != s[0];
        }
      }
    }
  }

  lemma {:induction false} FilterConcat<T(!new)>(a: seq<T>, b: seq<T>, p: T -> bool)
    ensures Filter(a + b, p) == Filter(a, p) + Filter(b, p)
    decreases |a|
  {
    if |a| > 0 {
      assert (a + b)[0] == a[0];
      assert (a + b)[1..] == a[1..] + b;
      FilterConcat(a[1..], b, p);
    } else {
      assert a + b == b;
    }
  }

  /** Filtering the prefix one element longer adds that element exactly when it passes. */
  lemma FilterSnoc<T(!new)>(s: seq<T>, x: T, p: T -> bool)
    ensures Filter(s + [x], p) == Filter(s, p) + (if p(x) then [x] else [])
  {
    FilterConcat(s, [x], p);
    assert Filter([x], p) == (if p(x) then [x] else []) by {
      assert [x][1..] == [];
    }
  }

  /** Every element passes `p` or fails it, so the two filters together account for the whole sequence. */
  lemma {:induction false} FilterPartition<T(!new)>(s: seq<T>, p: T -> bool)
    ensures |Filter(s, p)| + |Filter(s, Not(p))| == |s|
    decreases |s|
  {
    if |s| > 0 {
      FilterPartition(s[1..], p);
      assert Not(p)(s[0]) == !p(s[0]);
    }
  }

  /** Filtering with a weaker predicate keeps at least as much, in the same order. */
  lemma {:induction false} FilterWeaker<T(!new)>(s: seq<T>, p: T -> bool, q: T -> bool)
    requires forall x :: x in s && p(x) ==> q(x)
    ensures SubsequenceOf(Filter(s, p), Filter(s, q))
    ensures |Filter(s, p)| <= |Filter(s, q)|
    decreases |s|
  {
    if |s| > 0 {
      assert forall x :: x in s[1..] ==> x in s;
      FilterWeaker(s[1..], p, q);
      var fp, fq := Filter(s, p), Filter(s, q);
      if p(s[0]) {
        assert fp == [s[0]] + Filter(s[1..], p);
        assert fq == [s[0]] + Filter(s[1..], q);
        assert fp[1..] == Filter(s[1..], p);
        assert fq[1..] == Filter(s[1..], q);
      } else if q(s[0]) {
        assert fq == [s[0]] + Filter(s[1..], q);
        assert fq[1..] == Filter(s[1..], q);
        SubsequenceDropHead(fp, fq);
      }
    }
  }

  /** Prepending one element to the longer sequence keeps the subsequence relation. */
  lemma {:induction false} SubsequenceDropHead<T>(a: seq<T>, b: seq<T>)
    requires |b| > 0 && SubsequenceOf(a, b[1..])
    ensures SubsequenceOf(a, b)
    decreases |b|, 0
  {
    if |a| > 0 && a[0] == b[0] {
      SubsequenceTail(a, b[1..]);
    }
  }

  /** Dropping the head of a subsequence keeps it a subsequence. */
  lemma {:induction false} SubsequenceTail<T>(a: seq<T>, b: seq<T>)
    requires |a| > 0 && SubsequenceOf(a, b)
    ensures SubsequenceOf(a[1..], b)
    decreases |b|, 1
  {
    assert |b| > 0;
    if a[0] == b[0] {
      SubsequenceDropHead(a[1..], b);
    } else {
      SubsequenceTail(a, b[1..]);
      SubsequenceDropHead(a[1..], b);
    }
  }

  /** An element that passes `p` sits in the filtered sequence right after the
      filtered prefix before it. */
  lemma FilterAt<T(!new)>(s: seq<T>, i: nat, p: T -> bool)
    requires i < |s| && p(s[i])
    ensures var k := |Filter(s[..i], p)|;
      k < |Filter(s, p)| && Filter(s, p)[k] == s[i] && Filter(s, p)[..k] == Filter(s[..i], p)
  {
    assert s == s[..i] + [s[i]] + s[i + 1..];
    FilterConcat(s[..i] + [s[i]], s[i + 1..], p);
    FilterConcat(s[..i], [s[i]], p);
    assert Filter([s[i]], p) == [s[i]] by {
      assert [s[i]][1..] == [];
    }
  }

  /** The subsequence relation is transitive. */
  lemma {:induction false} SubsequenceTrans<T>(a: seq<T>, b: seq<T>, c: seq<T>)
    requires SubsequenceOf(a, b) && SubsequenceOf(b, c)
    ensures SubsequenceOf(a, c)
    decreases |c|
  {
    if |a| > 0 {
      if b[0] == c[0] {
        if a[0] == b[0] {
          SubsequenceTrans(a[1..], b[1..], c[1..]);
        } else {
          SubsequenceTrans(a, b[1..], c[1..]);
          SubsequenceDropHead(a, c);
        }
      } else {
        SubsequenceTrans(a, b, c[1..]);
        SubsequenceDropHead(a, c);
      }
    }
  }

  /** A filter that every element passes keeps the whole sequence. */
  lemma {:induction false} FilterAll<T(!new)>(s: seq<T>, p: T -> bool)
    requires forall x :: x in s ==> p(x)
    ensures Filter(s, p) == s
    decreases |s|
  {
    if |s| > 0 {
      assert forall x :: x in s[1..] ==> x in s;
      FilterAll(s[1..], p);
    }
  }

  /** Filtering twice with the same predicate is filtering once. */
  lemma FilterIdempotent<T(!new)>(s: seq<T>, p: T -> bool)
    ensures Filter(Filter(s, p), p) == Filter(s, p)
  {
    FilterAll(Filter(s, p), p);
  }

  /** Filtering by `p` and then by a `q` that implies `p` is filtering by `q`. */
  lemma {:induction false} FilterNarrower<T(!new)>(s: seq<T>, p: T -> bool, q: T -> bool)
    requires forall x :: x in s && q(x) ==> p(x)
    ensures Filter(Filter(s, p), q) == Filter(s, q)
    decreases |s|
  {
    if |s| > 0 {
      assert forall x :: x in s[1..] ==> x in s;
      FilterNarrower(s[1..], p, q);
    }
  }

  /** A filter that no element passes keeps nothing. */
  lemma FilterNone<T(!new)>(s: seq<T>, p: T -> bool)
    requires forall x :: x in s ==> !p(x)
    ensures Filter(s, p) == []
  {
  }

  /** Filtering for a property that only the element at `i` has gives that element alone. */
  lemma FilterUnique<T(!new)>(s: seq<T>, i: nat, p: T -> bool)
    requires i < |s| && p(s[i])
    requires forall j :: 0 <= j < |s| && j != i ==> !p(s[j])
    ensures Filter(s, p) == [s[i]]
  {
    var before, after := s[..i], s[i + 1..];
    assert Filter(before, p) == [] by {
      forall x | x in before
        ensures !p(x)
      {
        var j :| 0 <= j < i && s[j] == x;
      }
      FilterNone(before, p);
    }
    assert Filter(after, p) == [] by {
      forall x | x in after
        ensures !p(x)
      {
        var j :| 0 <= j < |s| - i - 1 && after[j] == x;
        assert s[i + 1 + j] == x;
      }
      FilterNone(after, p);
    }
    assert Filter([s[i]], p) == [s[i]] by {
      assert [s[i]][1..] == [];
    }
    assert s == before + [s[i]] + after;
    FilterConcat(before + [s[i]], after, p);
    FilterConcat(before, [s[i]], p);
  }

  /** Filters with predicates that agree on the sequence's elements are equal. */
  lemma {:induction false} FilterExtensional<T(!new)>(s: seq<T>, p: T -> bool, q: T -> bool)
    requires forall x :: x in s ==> p(x) == q(x)
    ensures Filter(s, p) == Filter(s, q)
    decreases |s|
  {
    if |s| > 0 {
      assert forall x :: x in s[1..] ==> x in s;
      FilterExtensional(s[1..], p, q);
    }
  }

  /** The set of a sequence's elements. */
  function Elements<T>(s: seq<T>): set<T>
  {
    set x | x in s
  }

  /** A sequence has at least as many entries as distinct elements. */
  lemma {:induction false} ElementsBound<T>(s: seq<T>)
    ensures |Elements(s)| <= |s|
    decreases |s|
  {
    if |s| > 0 {
      ElementsBound(s[1..]);
      assert Elements(s) == {s[0]} + Elements(s[1..]);
    }
  }

  lemma SubsetCardinality<T>(a: set<T>, b: set<T>)
    requires a <= b
    ensures |a| <= |b|
  {
    assert b == a + (b - a);
  }
}
