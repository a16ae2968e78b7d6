/** Laws that tie the fluent combinators to one another: the round trip
    through the native option, the monad laws, how `andThen`'s four call
    forms reduce to `flatMap`, `map` and `as`, the collection functions in
    terms of `Compact`, and the orders and equivalences `getOrder` and
    `getEquivalence` build. */
module OptionLaws {
  import Native = EffectOption
  import opened FluentOption
  import opened OptionGen

  // ----- wrapping and unwrapping -----

  /** `of` and `asOption` are inverse: wrapping keeps the tag and the value. */
  lemma OfAsOptionRoundTrip<A>(n: Native.Option<A>, o: Option<A>)
    ensures Of(n).AsOption() == n
    ensures Of(o.AsOption()) == o
    ensures Of(n).Some? <==> n.Some?
    ensures n.Some? ==> Of(n).value == n.value
  {
  }

  /** Two wrappers are equal exactly when they have the same tag and, for
      Somes, the same value; a wrapper never equals a non-wrapper. */
  lemma EqualsStructural<A>(x: Option<A>, y: Option<A>, v: A)
    ensures Equals(x, Wrapped(y)) == Equals(y, Wrapped(x))
    ensures Equals(x, Wrapped(x))
    ensures x.Some? && y.Some? ==> (Equals(x, Wrapped(y)) <==> x.value == y.value)
    ensures x.None? && y.None? ==> Equals(x, Wrapped(y))
    ensures x.Some? != y.Some? ==> !Equals(x, Wrapped(y))
    ensures !Equals(x, Plain(v))
  {
  }

  // ----- monad and functor laws -----

  lemma FlatMapLeftIdentity<A, B>(a: A, f: A -> Option<B>)
    ensures Some(a).FlatMap(f) == f(a)
  {
  }

  lemma FlatMapRightIdentity<A>(o: Option<A>)
    ensures o.FlatMap((a: A) => Some(a)) == o
  {
  }

  lemma FlatMapAssociative<A, B, C>(o: Option<A>, f: A -> Option<B>, g: B -> Option<C>)
    ensures o.FlatMap(f).FlatMap(g) == o.FlatMap((a: A) => f(a).FlatMap(g))
  {
  }

  lemma MapFusion<A, B, C>(o: Option<A>, f: A -> B, g: B -> C)
    ensures o.Map(f).Map(g) == o.Map((a: A) => g(f(a)))
    ensures o.Map(f) == o.FlatMap((a: A) => Some(f(a)))
  {
  }

  // ----- andThen's call forms -----

  /** `andThen(f)` with `f` returning an Option is `flatMap(f)`; with `f`
      returning a plain value it is `map(f)`; a plain literal is `as`, and an
      Option literal replaces every Some. */
  lemma AndThenForms<A, B>(o: Option<A>, f: A -> Option<B>, g: A -> B, b: B, other: Option<B>)
    ensures o.AndThen(Fn((a: A) => Wrapped(f(a)))) == o.FlatMap(f)
    ensures o.AndThen(Fn((a: A) => Plain(g(a)))) == o.Map(g)
    ensures o.AndThen(Const(Plain(b))) == o.As(b)
    ensures o.AndThen(Const(Wrapped(other))) == o.FlatMap((_: A) => other)
  {
  }

  // ----- fallbacks -----

  lemma OrElseLaws<A>(o: Option<A>, that: () -> Option<A>, more: () -> Option<A>, b: A)
    ensures None.OrElse(that) == that()
    ensures o.OrElse(() => None) == o
    ensures o.OrElse(that).OrElse(more) == o.OrElse(() => that().OrElse(more))
    ensures o.OrElseSome(() => b) == o.OrElse(() => Some(b))
    ensures o.OrElseSome(() => b).GetOrElse(() => b) == o.GetOrElse(() => b)
  {
  }

  /** On a Some no fallback is called: each one below cannot be called at
      all, and the Some still comes back. */
  lemma FallbacksNotCalledOnSome<A, B>(a: A)
    ensures Some(a).OrElse(() requires false => None) == Some(a)
    ensures Some(a).OrElseSome(() requires false => a) == Some(a)
    ensures Some(a).OrElseEither(() requires false => Option<B>.None) == Some(Native.Left(a))
    ensures Some(a).GetOrElse(() requires false => a) == a
    ensures Some(a).GetOrThrowWith(() requires false => Native.GetOrThrowMessage) == Native.Returned(a)
  {
  }

  lemma OrElseEitherSides<A, B>(o: Option<A>, that: () -> Option<B>)
    ensures o.OrElseEither(that).Some? <==> o.Some? || that().Some?
    ensures o.OrElseEither(that) ==
      o.Map((a: A) => Native.Either<B, A>.Left(a)).OrElse(() => that().Map((b: B) => Native.Either<B, A>.Right(b)))
  {
  }

  // ----- filtering and testing -----

  lemma FilterLaws<A(!new)>(o: Option<A>, p: A -> bool, b: A)
    ensures o.Filter(p) == o.FilterMap((a: A) => if p(a) then Some(a) else None)
    ensures o.Exists(p) == o.Filter(p).IsSome()
    ensures LiftPredicate(b, p) == Some(b).Filter(p)
    ensures ToRefinement((a: A) => LiftPredicate(a, p))(b) == p(b)
  {
  }

  lemma FilterMapIsFlatMap<A, B>(o: Option<A>, f: A -> Option<B>)
    ensures o.FilterMap(f) == o.FlatMap(f)
  {
  }

  lemma ContainsIsContainsWithEquality<A>(o: Option<A>, a: A)
    ensures Contains(o, a) == o.ContainsWith((x: A, y: A) => x == y, a)
    ensures Contains(o, a) == o.Exists((x: A) => x == a)
  {
  }

  /** `tap` runs `f` for its verdict only and keeps the original value. */
  lemma TapIsFlatMapAs<A, X>(o: Option<A>, f: A -> Option<X>)
    ensures o.Tap(f) == o.FlatMap((a: A) => f(a).As(a))
  {
  }

  /** `partitionMap` sends the value to the side `f` picks. */
  lemma PartitionMapSides<A, B, C>(o: Option<A>, f: A -> Native.Either<C, B>)
    ensures o.PartitionMap(f).0 == o.FlatMap((a: A) => GetLeft(f(a)))
    ensures o.PartitionMap(f).1 == o.FlatMap((a: A) => GetRight(f(a)))
    ensures o.PartitionMap(f).0.None? || o.PartitionMap(f).1.None?
  {
  }

  // ----- combining two options -----

  lemma ZipWithFamily<A, B>(o: Option<A>, that: Option<B>, fo: Option<A -> B>)
    ensures o.Product(that) == o.ZipWith(that, (a: A, b: B) => (a, b))
    ensures Ap(fo, o) == fo.ZipWith(o, (g: A -> B, a: A) => g(a))
    ensures o.ZipWith(that, (a: A, b: B) => a) == o.Tap((_: A) => that)
  {
  }

  /** The curried application of the tests: `some(a => b => a + b)` applied to
      `some(1)` and then `some(2)`, and a None anywhere. */
  lemma ApCurried(x: Option<int>, y: Option<int>)
    ensures Ap(Ap(Some((a: int) => (b: int) => a + b), Some(1)), Some(2)) == Some(3)
    ensures x.None? || y.None? ==> Ap(Ap(Some((a: int) => (b: int) => a + b), x), y).None?
  {
  }

  // ----- do-notation -----

  lemma DoNotation<A>(o: Option<A>, name: string, v: A)
    ensures o.BindTo(name) == o.FlatMap((a: A) => Let(Do(), name, (_: map<string, A>) => a))
    ensures Let(Some(map[]), name, (_: map<string, A>) => v) == Some(v).BindTo(name)
  {
  }

  lemma LetIsBindOfSome<V>(o: Option<map<string, V>>, name: string, f: map<string, V> -> V)
    ensures Let(o, name, f) == Bind(o, name, (m: map<string, V>) => Some(f(m)))
  {
  }

  lemma VoidLaws<A>(o: Option<A>)
    ensures o.AsVoid() == o.As(())
    ensures o.Some? ==> o.AsVoid() == Void()
  {
  }

  // ----- collections -----

  lemma {:induction false} CompactAppend<A>(s: seq<Option<A>>, t: seq<Option<A>>)
    ensures Compact(s + t) == Compact(s) + Compact(t)
  {
    if s == [] {
      assert s + t == t;
    } else {
      assert (s + t)[0] == s[0];
      assert (s + t)[1..] == s[1..] + t;
      CompactAppend(s[1..], t);
    }
  }

  lemma {:induction false} FoldLeftAppend<A, B>(xs: seq<A>, ys: seq<A>, b: B, f: (B, A) -> B)
    ensures FoldLeft(xs + ys, b, f) == FoldLeft(ys, FoldLeft(xs, b, f), f)
  {
    if xs == [] {
      assert xs + ys == ys;
    } else {
      assert (xs + ys)[0] == xs[0];
      assert (xs + ys)[1..] == xs[1..] + ys;
      FoldLeftAppend(xs[1..], ys, f(b, xs[0]), f);
    }
  }

  /** Reducing a concatenation continues from the first part's result. */
  lemma ReduceCompactAppend<A, B>(s: seq<Option<A>>, t: seq<Option<A>>, b: B, f: (B, A) -> B)
    ensures ReduceCompact(s + t, b, f) == ReduceCompact(t, ReduceCompact(s, b, f), f)
  {
    CompactAppend(s, t);
    FoldLeftAppend(Compact(s), Compact(t), b, f);
  }

  /** A None anywhere in the input is skipped. */
  lemma ReduceCompactSkipsNone<A, B>(s: seq<Option<A>>, t: seq<Option<A>>, b: B, f: (B, A) -> B)
    ensures ReduceCompact(s + [None] + t, b, f) == ReduceCompact(s + t, b, f)
  {
    CompactAppend(s + [None], t);
    CompactAppend(s, [None]);
    CompactAppend(s, t);
    var none: seq<Option<A>> := [None];
    assert Compact(none) == [];
    assert Compact(s) + [] == Compact(s);
  }

  /** When `all` succeeds its values are the compacted input. */
  lemma {:induction false} AllIsCompact<A>(opts: seq<Option<A>>)
    requires All(opts).Some?
    ensures All(opts).value == Compact(opts)
  {
    if opts != [] {
      assert forall i :: 1 <= i < |opts| ==> opts[1..][i - 1] == opts[i];
      AllIsCompact(opts[1..]);
      assert All(opts).value == [opts[0].value] + All(opts[1..]).value;
    }
  }

  /** `firstSomeOf` is the first of the compacted input, if there is one. */
  lemma {:induction false} FirstSomeOfIsFirstOfCompact<A>(opts: seq<Option<A>>)
    ensures FirstSomeOf(opts) == FromIterable(Compact(opts))
  {
    if opts != [] {
      assert AsOptions(opts)[1..] == AsOptions(opts[1..]);
      FirstSomeOfIsFirstOfCompact(opts[1..]);
      if opts[0].None? {
        assert Compact(opts) == [] + Compact(opts[1..]) == Compact(opts[1..]);
      }
    }
  }

  /** `fromIterable` is `firstSomeOf` over the elements, each as a Some. */
  lemma FromIterableIsFirstSomeOf<A>(collection: seq<A>)
    ensures FromIterable(collection) == FirstSomeOf(seq(|collection|, i requires 0 <= i < |collection| => Some(collection[i])))
  {
  }

  lemma AllExamples(x: Option<int>)
    ensures All<int>([]) == Some([])
    ensures All([Some(1), Some(2)]) == Some([1, 2])
    ensures All([Some(1), None]) == None
    ensures FirstSomeOf<int>([]) == None
    ensures FirstSomeOf([None, None, Some(1)]) == Some(1)
    ensures Some(1).ProductMany([]) == Some([1])
    ensures x.ProductMany([None]) == None
  {
    assert All([Some(1), Some(2)]).value == [1, 2];
    assert [None, None, Some(1)][2] == Some(1);
    assert All([Some(1)]).value == [1];
  }

  // ----- getOrder and getEquivalence -----

  /** `getOrder` keeps antisymmetry and transitivity of the element order,
      and ranks a None below every Some whatever the Some holds. */
  lemma GetOrderLaws<A(!new)>(order: (A, A) -> Ordering)
    ensures (forall a, b :: order(a, b) == -order(b, a)) ==>
      forall x, y :: GetOrder(order)(x, y) == -GetOrder(order)(y, x)
    ensures (forall a, b, c :: order(a, b) <= 0 && order(b, c) <= 0 ==> order(a, c) <= 0) ==>
      forall x, y, z :: GetOrder(order)(x, y) <= 0 && GetOrder(order)(y, z) <= 0 ==> GetOrder(order)(x, z) <= 0
    ensures forall x, y :: GetOrder(order)(x, y) == 0 <==>
      GetEquivalence((a: A, b: A) => order(a, b) == 0)(x, y)
  {
    var r := GetOrder(order);
    forall x, y ensures r(x, y) == CompareOptions(order, x, y) { }
  }

  /** `getEquivalence` turns an equivalence on values into one on Options. */
  lemma GetEquivalenceLaws<A(!new)>(isEquivalent: (A, A) -> bool)
    ensures (forall a :: isEquivalent(a, a)) ==> forall x :: GetEquivalence(isEquivalent)(x, x)
    ensures (forall a, b :: isEquivalent(a, b) ==> isEquivalent(b, a)) ==>
      forall x, y :: GetEquivalence(isEquivalent)(x, y) ==> GetEquivalence(isEquivalent)(y, x)
    ensures (forall a, b, c :: isEquivalent(a, b) && isEquivalent(b, c) ==> isEquivalent(a, c)) ==>
      forall x, y, z :: GetEquivalence(isEquivalent)(x, y) && GetEquivalence(isEquivalent)(y, z) ==>
        GetEquivalence(isEquivalent)(x, z)
  {
    var r := GetEquivalence(isEquivalent);
    forall x, y ensures r(x, y) == EquivalentOptions(isEquivalent, x, y) { }
  }

  /** Under value equality `getEquivalence` is structural equality. */
  lemma GetEquivalenceOfEquality<A(!new)>(x: Option<A>, y: Option<A>)
    ensures GetEquivalence((a: A, b: A) => a == b)(x, y) <==> x == y
  {
  }

  // ----- gen, on the bodies of the tests -----

  lemma GenExamples()
    ensures Drive(Yield(Some(1), (x: int) => Yield(Some(2), (y: int) => Return(x + y))), 2) == Completed(Some(3))
    ensures Drive(Prog<int, int>.Return(10), 0) == Completed(Some(10))
    ensures Drive(Yield(Some(1), (_: int) => Yield(Some(2), (_: int) => Return(()))), 2) == Completed(Some(()))
    ensures Drive(Yield(Some(1), (_: int) => Yield(None, (_: int) => Yield(Some(2), (z: int) => Return(z)))), 3)
      == Completed(None)
    ensures Sent(Yield(Some(1), (_: int) => Yield(None, (_: int) => Yield(Some(2), (z: int) => Return(z)))), 3) == [1]
    ensures Drive(Yield(None, (_: int) => Return(())), 1) == Completed(None)
  {
  }
}
