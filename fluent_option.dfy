/** The fluent `Option`: a `Some` or `None` wrapper that owns one native
    option of the effect library.  Wrappers never change after construction,
    so the two classes are one datatype here.  The transforming methods
    unwrap the receiver (`AsOption`), call the library combinator and rewrap
    the result (`Of`); the accessors (`Match`, `GetOrElse`, `ContainsWith`,
    `Exists`, `GetOrThrow`, `GetOrThrowWith`) return the library's result
    as it is; the tag tests, `Equals` and the comparisons read the wrapper
    directly. */
module FluentOption {
  import Native = EffectOption

  /** Any JavaScript value a combinator may be handed: one of these
      wrappers, or something else. */
  datatype Unknown<+T> = Wrapped(option: Option<T>) | Plain(value: T)

  /** `Option.is`: the wrapper's marker property is present. */
  predicate Is<T>(u: Unknown<T>)
  {
    u.Wrapped?
  }

  /** The argument of `andThen`: a function of the value, or a literal.
      Either way what it produces may itself be a wrapper or a plain value. */
  datatype AndThenArg<!A, +B> = Fn(f: A -> Unknown<B>) | Const(literal: Unknown<B>)

  /** The library's `Ordering`: -1, 0 or 1. */
  type Ordering = i: int | -1 <= i <= 1

  datatype Option<+A> = Some(value: A) | None {

    /** `asOption`: the native option this wrapper owns.  Every constructor
        call pairs a `Some(a)` wrapper with the native `some(a)`. */
    function AsOption(): (r: Native.Option<A>)
      ensures r.Some? <==> Some?
      ensures Some? ==> r.value == value
    {
      match this
      case Some(a) => Native.Some(a)
      case None => Native.None
    }

    /** `isSome` reads the tag of the owned native option. */
    function IsSome(): (b: bool)
      ensures b <==> Some?
    {
      AsOption().Some?
    }

    function IsNone(): (b: bool)
      ensures b <==> None?
      ensures b != IsSome()
    {
      AsOption().None?
    }

    function Map<B>(f: A -> B): (r: Option<B>)
      ensures r.Some? <==> Some?
      ensures Some? ==> r.value == f(value)
    {
      Of(Native.Map(AsOption(), f))
    }

    function FlatMap<B>(f: A -> Option<B>): (r: Option<B>)
      ensures None? ==> r == None
      ensures Some? ==> r == f(value)
    {
      Of(Native.FlatMap(AsOption(), (a: A) => f(a).AsOption()))
    }

    function Match<B>(onNone: () -> B, onSome: A -> B): (r: B)
      ensures None? ==> r == onNone()
      ensures Some? ==> r == onSome(value)
    {
      Native.Match(AsOption(), onNone, onSome)
    }

    function GetOrElse(onNone: () --> A): (r: A)
      requires None? ==> onNone.requires()
      ensures None? ==> r == onNone()
      ensures Some? ==> r == value
    {
      Native.GetOrElse(AsOption(), onNone)
    }

    /** `andThen`: a function argument is applied to the value, a literal is
        used as it is; a wrapper result is passed through and any other
        result is wrapped in `Some`. */
    function AndThen<B>(arg: AndThenArg<A, B>): (r: Option<B>)
      ensures None? ==> r == None
      ensures Some? && arg.Fn? && arg.f(value).Wrapped? ==> r == arg.f(value).option
      ensures Some? && arg.Fn? && arg.f(value).Plain? ==> r == Some(arg.f(value).value)
      ensures Some? && arg.Const? && arg.literal.Wrapped? ==> r == arg.literal.option
      ensures Some? && arg.Const? && arg.literal.Plain? ==> r == Some(arg.literal.value)
    {
      var unwrap := (a: A) =>
        var b := if arg.Fn? then arg.f(a) else arg.literal;
        if Is(b) then b.option.AsOption() else Native.Some(b.value);
      // The library's `andThen` applies its argument and passes a native
      // option through unchanged.  `unwrap` always returns a native option,
      // so here it coincides with `flatMap`.
      assert Some? && arg.Const? ==> (unwrap(value) ==
        if Is(arg.literal) then arg.literal.option.AsOption() else Native.Some(arg.literal.value));
      Of(Native.FlatMap(AsOption(), unwrap))
    }

    /** `orElse`: a Some is kept and the fallback is never called, so on a
        Some the fallback need not be callable at all. */
    function OrElse(that: () --> Option<A>): (r: Option<A>)
      requires None? ==> that.requires()
      ensures Some? ==> r == this
      ensures None? ==> r == that()
    {
      Of(Native.OrElse(AsOption(), () requires that.requires() => that().AsOption()))
    }

    function OrElseSome(onNone: () --> A): (r: Option<A>)
      requires None? ==> onNone.requires()
      ensures Some? ==> r == this
      ensures None? ==> r == Some(onNone())
    {
      Of(Native.OrElseSome(AsOption(), onNone))
    }

    /** `orElseEither`: the receiver's value on the left, else the
        fallback's value on the right. */
    function OrElseEither<B>(that: () --> Option<B>): (r: Option<Native.Either<B, A>>)
      requires None? ==> that.requires()
      ensures Some? ==> r == Some(Native.Left(value))
      ensures None? ==> (r.Some? <==> that().Some?)
      ensures None? && r.Some? ==> r.value == Native.Right(that().value)
    {
      Of(Native.OrElseEither(AsOption(), () requires that.requires() => that().AsOption()))
    }

    /** `partitionMap`: the pair (left side, right side) of `f`'s verdict. */
    function PartitionMap<B, C>(f: A -> Native.Either<C, B>): (r: (Option<B>, Option<C>))
      ensures r.0.Some? <==> Some? && f(value).Left?
      ensures r.1.Some? <==> Some? && f(value).Right?
      ensures r.0.Some? ==> r.0.value == f(value).left
      ensures r.1.Some? ==> r.1.value == f(value).right
    {
      var (left, right) := Native.PartitionMap(AsOption(), f);
      (Of(left), Of(right))
    }

    function FilterMap<B>(f: A -> Option<B>): (r: Option<B>)
      ensures None? ==> r == None
      ensures Some? ==> r == f(value)
    {
      Of(Native.FilterMap(AsOption(), (a: A) => f(a).AsOption()))
    }

    function ContainsWith(isEquivalent: (A, A) -> bool, a: A): (r: bool)
      ensures r <==> Some? && isEquivalent(value, a)
    {
      Native.ContainsWith(isEquivalent, a, AsOption())
    }

    function Exists(pred: A -> bool): (r: bool)
      ensures r <==> Some? && pred(value)
    {
      Native.Exists(AsOption(), pred)
    }

    /** `getOrThrowWith`: the value, or the error `onNone` builds is thrown. */
    function GetOrThrowWith<E>(onNone: () --> E): (r: Native.Result<A, E>)
      requires None? ==> onNone.requires()
      ensures r.Returned? <==> Some?
      ensures Some? ==> r.value == value
      ensures None? ==> r.error == onNone()
    {
      Native.GetOrThrowWith(AsOption(), onNone)
    }

    function GetOrThrow(): (r: Native.Result<A, string>)
      ensures r.Returned? <==> Some?
      ensures Some? ==> r.value == value
      ensures None? ==> r.error == Native.GetOrThrowMessage
    {
      Native.GetOrThrow(AsOption())
    }

    function Product<B>(that: Option<B>): (r: Option<(A, B)>)
      ensures r.Some? <==> Some? && that.Some?
      ensures r.Some? ==> r.value == (value, that.value)
    {
      Of(Native.Product(AsOption(), that.AsOption()))
    }

    /** `productMany`: the receiver followed by the collection, all or nothing. */
    function ProductMany(collection: seq<Option<A>>): (r: Option<seq<A>>)
      ensures r == All([this] + collection)
    {
      assert ([this] + collection)[1..] == collection;
      assert AsOptions([this] + collection)[1..] == AsOptions(collection);
      Of(Native.ProductMany(AsOption(), AsOptions(collection)))
    }

    function As<B>(b: B): (r: Option<B>)
      ensures r.Some? <==> Some?
      ensures r.Some? ==> r.value == b
    {
      Of(Native.Map(AsOption(), (_: A) => b))
    }

    function AsVoid(): (r: Option<()>)
      ensures r.Some? <==> Some?
    {
      Of(Native.AsVoid(AsOption()))
    }

    /** `tap`: keeps the receiver when `f` of its value is a Some. */
    function Tap<X>(f: A -> Option<X>): (r: Option<A>)
      ensures r.Some? <==> Some? && f(value).Some?
      ensures r.Some? ==> r == this
    {
      var g := (a: A) => f(a).AsOption();
      assert Some? ==> Native.Tap(AsOption(), g) == Native.Map(g(value), (_: X) => value);
      Of(Native.Tap(AsOption(), g))
    }

    function ZipWith<B, C>(that: Option<B>, f: (A, B) -> C): (r: Option<C>)
      ensures r.Some? <==> Some? && that.Some?
      ensures r.Some? ==> r.value == f(value, that.value)
    {
      Of(Native.ZipWith(AsOption(), that.AsOption(), f))
    }

    /** `filter`: keeps the receiver when its value satisfies `pred`. */
    function Filter(pred: A -> bool): (r: Option<A>)
      ensures r.Some? <==> Some? && pred(value)
      ensures r.Some? ==> r == this
    {
      Of(Native.Filter(AsOption(), pred))
    }

    function BindTo(name: string): (r: Option<map<string, A>>)
      ensures r.Some? <==> Some?
      ensures r.Some? ==> r.value == map[name := value]
    {
      Of(Native.BindTo(AsOption(), name))
    }

    /** `with`: applies a transformation of native options to the owned one. */
    function With<B>(f: Native.Option<A> -> Native.Option<B>): (r: Option<B>)
      ensures r.AsOption() == f(AsOption())
    {
      Of(f(AsOption()))
    }
  }

  /** `of`: wraps a native option. */
  function Of<A>(option: Native.Option<A>): (r: Option<A>)
    ensures r.AsOption() == option
  {
    Native.Match(option, () => None, (a: A) => Some(a))
  }

  /** `Array.from(collection).map((opt) => opt.asOption)`. */
  function AsOptions<A>(opts: seq<Option<A>>): (natives: seq<Native.Option<A>>)
    ensures |natives| == |opts|
    ensures forall i :: 0 <= i < |opts| ==> natives[i] == opts[i].AsOption()
  {
    seq(|opts|, i requires 0 <= i < |opts| => opts[i].AsOption())
  }

  /** Structural equality of a wrapper with any value (`Equal.symbol`). */
  function Equals<A(==)>(self: Option<A>, that: Unknown<A>): (r: bool)
    ensures r <==> that == Wrapped(self)
  {
    match self
    case Some(v) => Is(that) && that.option.IsSome() && v == that.option.value
    case None => Is(that) && that.option.IsNone()
  }

  function Contains<A(==)>(self: Option<A>, a: A): (r: bool)
    ensures r <==> self == Some(a)
  {
    Native.ContainsWith((x: A, y: A) => x == y, a, self.AsOption())
  }

  function Void(): (r: Option<()>)
    ensures r.Some?
  {
    Some(())
  }

  /** `Do`: the empty record, the start of do-notation. */
  function Do<V>(): (r: Option<map<string, V>>)
    ensures r.Some? && r.value == map[]
  {
    Some(map[])
  }

  function Ap<A, B>(self: Option<A -> B>, that: Option<A>): (r: Option<B>)
    ensures r.Some? <==> self.Some? && that.Some?
    ensures r.Some? ==> r.value == self.value(that.value)
  {
    Of(Native.Ap(self.AsOption(), that.AsOption()))
  }

  function Lift2<A, B, C>(f: (A, B) -> C, self: Option<A>, that: Option<B>): (r: Option<C>)
    ensures r == self.ZipWith(that, f)
  {
    Of(Native.Lift2(f, self.AsOption(), that.AsOption()))
  }

  /** `bind`: extends the record with `name` bound to the value of `f`'s option. */
  function Bind<V>(self: Option<map<string, V>>, name: string, f: map<string, V> -> Option<V>): (r: Option<map<string, V>>)
    ensures r.Some? <==> self.Some? && f(self.value).Some?
    ensures r.Some? ==> r.value == self.value[name := f(self.value).value]
  {
    var g := (a: map<string, V>) => f(a).AsOption();
    assert self.Some? ==>
      Native.Bind(self.AsOption(), name, g) == Native.Map(g(self.value), (b: V) => self.value[name := b]);
    Of(Native.Bind(self.AsOption(), name, g))
  }

  /** `let`: extends the record with `name` bound to `f`'s result. */
  function Let<V>(self: Option<map<string, V>>, name: string, f: map<string, V> -> V): (r: Option<map<string, V>>)
    ensures r.Some? <==> self.Some?
    ensures r.Some? ==> r.value == self.value[name := f(self.value)]
  {
    Of(Native.Let(self.AsOption(), name, f))
  }

  function LiftPredicate<A>(b: A, pred: A -> bool): (r: Option<A>)
    ensures r.Some? <==> pred(b)
    ensures r.Some? ==> r.value == b
  {
    Of(Native.LiftPredicate(b, pred))
  }

  function GetRight<R, L>(either: Native.Either<R, L>): (r: Option<R>)
    ensures r.Some? <==> either.Right?
    ensures r.Some? ==> r.value == either.right
  {
    Of(Native.GetRight(either))
  }

  function GetLeft<R, L>(either: Native.Either<R, L>): (r: Option<L>)
    ensures r.Some? <==> either.Left?
    ensures r.Some? ==> r.value == either.left
  {
    Of(Native.GetLeft(either))
  }

  /** `toRefinement`: the guard "f of it is a Some". */
  function ToRefinement<A(!new), B>(f: A -> Option<B>): (r: A -> bool)
    ensures forall a :: r(a) <==> f(a).Some?
  {
    Native.ToRefinement((a: A) => f(a).AsOption())
  }

  function FromIterable<A>(collection: seq<A>): (r: Option<A>)
    ensures r.Some? <==> |collection| > 0
    ensures r.Some? ==> r.value == collection[0]
  {
    Of(Native.FromIterable(collection))
  }

  /** `all` over an iterable: the values in order when every element is a
      Some, and None otherwise. */
  function All<A>(opts: seq<Option<A>>): (r: Option<seq<A>>)
    ensures r.Some? <==> forall i :: 0 <= i < |opts| ==> opts[i].Some?
    ensures r.Some? ==>
      |r.value| == |opts| && forall i :: 0 <= i < |opts| ==> r.value[i] == opts[i].value
  {
    Native.AllCollects(AsOptions(opts));
    Of(Native.All(AsOptions(opts)))
  }

  /** `all` over a record: the record of values, under the same keys, when
      every field is a Some, and None otherwise. */
  method AllStruct<A>(input: map<string, Option<A>>) returns (r: Option<map<string, A>>)
    ensures r.Some? <==> forall key :: key in input ==> input[key].Some?
    ensures r.Some? ==>
      r.value.Keys == input.Keys && forall key :: key in input ==> r.value[key] == input[key].value
  {
    var nativeStruct: map<string, Native.Option<A>> := map[];
    var keys := input.Keys;
    while keys != {}
      invariant keys <= input.Keys
      invariant nativeStruct.Keys == input.Keys - keys
      invariant forall key :: key in nativeStruct ==> nativeStruct[key] == input[key].AsOption()
      decreases keys
    {
      var key :| key in keys;
      nativeStruct := nativeStruct[key := input[key].AsOption()];
      keys := keys - {key};
    }
    r := Of(Native.AllStruct(nativeStruct));
  }

  /** `firstSomeOf`: the first Some in iteration order; None when there is none. */
  function FirstSomeOf<A>(collection: seq<Option<A>>): (r: Option<A>)
    ensures r.None? <==> forall i :: 0 <= i < |collection| ==> collection[i].None?
    ensures r.Some? ==>
      exists i :: 0 <= i < |collection| && collection[i] == r &&
        forall j :: 0 <= j < i ==> collection[j].None?
  {
    var natives := AsOptions(collection);
    Native.FirstSomeOfFinds(natives);
    assert forall i :: 0 <= i < |collection| ==> Of(natives[i]) == collection[i];
    Of(Native.FirstSomeOf(natives))
  }

  /** The values of the Somes of `opts`, in order. */
  function Compact<A>(opts: seq<Option<A>>): seq<A>
  {
    if opts == [] then []
    else (if opts[0].Some? then [opts[0].value] else []) + Compact(opts[1..])
  }

  function FoldLeft<A, B>(xs: seq<A>, b: B, f: (B, A) -> B): B
  {
    if xs == [] then b else FoldLeft(xs[1..], f(b, xs[0]), f)
  }

  lemma {:induction false} ReduceCompactFolds<A, B>(self: seq<Option<A>>, b: B, f: (B, A) -> B)
    ensures Native.ReduceCompact(AsOptions(self), b, f) == FoldLeft(Compact(self), b, f)
  {
    if self != [] {
      var next := if self[0].Some? then f(b, self[0].value) else b;
      assert AsOptions(self)[1..] == AsOptions(self[1..]);
      ReduceCompactFolds(self[1..], next, f);
      var rest := Compact(self[1..]);
      if self[0].Some? {
        assert Compact(self) == [self[0].value] + rest;
        assert ([self[0].value] + rest)[1..] == rest;
      } else {
        assert Compact(self) == [] + rest == rest;
      }
    }
  }

  /** `reduceCompact`: folds `f` over the values of the Somes, in order. */
  function ReduceCompact<A, B>(self: seq<Option<A>>, b: B, f: (B, A) -> B): (r: B)
    ensures r == FoldLeft(Compact(self), b, f)
  {
    ReduceCompactFolds(self, b, f);
    Native.ReduceCompact(AsOptions(self), b, f)
  }

  /** `getOrder`: None sorts below every Some; two Somes compare by `order`. */
  function GetOrder<A(!new)>(order: (A, A) -> Ordering): (r: (Option<A>, Option<A>) -> Ordering)
    ensures r(None, None) == 0
    ensures forall a :: r(None, Some(a)) == -1 && r(Some(a), None) == 1
    ensures forall a, b :: r(Some(a), Some(b)) == order(a, b)
  {
    (self: Option<A>, that: Option<A>) => CompareOptions(order, self, that)
  }

  /** The comparison `getOrder` builds. */
  function CompareOptions<A>(order: (A, A) -> Ordering, self: Option<A>, that: Option<A>): Ordering
  {
    if self.IsSome() then (if that.IsSome() then order(self.value, that.value) else 1)
    else if that.IsSome() then -1 else 0
  }

  /** `getEquivalence`: None matches only None; two Somes match when their
      values are equivalent. */
  function GetEquivalence<A(!new)>(isEquivalent: (A, A) -> bool): (r: (Option<A>, Option<A>) -> bool)
    ensures r(None, None)
    ensures forall a :: !r(None, Some(a)) && !r(Some(a), None)
    ensures forall a, b :: r(Some(a), Some(b)) == isEquivalent(a, b)
  {
    (x: Option<A>, y: Option<A>) => EquivalentOptions(isEquivalent, x, y)
  }

  /** The equivalence `getEquivalence` builds. */
  predicate EquivalentOptions<A>(isEquivalent: (A, A) -> bool, x: Option<A>, y: Option<A>)
  {
    if x.IsNone() then y.IsNone()
    else if y.IsNone() then false
    else isEquivalent(x.value, y.value)
  }
}

