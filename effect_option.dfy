/** The native `Option` and `Either` of the wrapped effect library, with the
    combinators the fluent wrapper delegates to.  This is the external
    collaborator: each definition follows the library's own (some combinators
    are built from others there, and are built the same way here). */
module EffectOption {

  datatype Option<+A> = None | Some(value: A)

  /** The library's `Either<R, L>`: right is the success side. */
  datatype Either<+R, +L> = Right(right: R) | Left(left: L)

  function Match<A, B>(self: Option<A>, onNone: () -> B, onSome: A -> B): B
  {
    if self.None? then onNone() else onSome(self.value)
  }

  function GetOrElse<A>(self: Option<A>, onNone: () --> A): A
    requires self.None? ==> onNone.requires()
  {
    if self.None? then onNone() else self.value
  }

  function Map<A, B>(self: Option<A>, f: A -> B): Option<B>
  {
    if self.None? then None else Some(f(self.value))
  }

  function FlatMap<A, B>(self: Option<A>, f: A -> Option<B>): Option<B>
  {
    if self.None? then None else f(self.value)
  }

  function FilterMap<A, B>(self: Option<A>, f: A -> Option<B>): Option<B>
  {
    if self.None? then None else f(self.value)
  }

  function Filter<A>(self: Option<A>, pred: A -> bool): Option<A>
  {
    FilterMap(self, (b: A) => if pred(b) then Some(b) else None)
  }

  function OrElse<A>(self: Option<A>, that: () --> Option<A>): Option<A>
    requires self.None? ==> that.requires()
  {
    if self.None? then that() else self
  }

  function OrElseSome<A>(self: Option<A>, onNone: () --> A): Option<A>
    requires self.None? ==> onNone.requires()
  {
    if self.None? then Some(onNone()) else self
  }

  function OrElseEither<A, B>(self: Option<A>, that: () --> Option<B>): Option<Either<B, A>>
    requires self.None? ==> that.requires()
  {
    if self.None? then Map(that(), (b: B) => Right(b)) else Map(self, (a: A) => Left(a))
  }

  function PartitionMap<A, B, C>(self: Option<A>, f: A -> Either<C, B>): (Option<B>, Option<C>)
  {
    if self.None? then (None, None)
    else
      var e := f(self.value);
      if e.Left? then (Some(e.left), None) else (None, Some(e.right))
  }

  function ContainsWith<A>(isEquivalent: (A, A) -> bool, a: A, self: Option<A>): bool
  {
    if self.None? then false else isEquivalent(self.value, a)
  }

  function Exists<A>(self: Option<A>, pred: A -> bool): bool
  {
    if self.None? then false else pred(self.value)
  }

  /** A call that either returns a value or throws an error. */
  datatype Result<+A, +E> = Returned(value: A) | Threw(error: E)

  function GetOrThrowWith<A, E>(self: Option<A>, onNone: () --> E): Result<A, E>
    requires self.None? ==> onNone.requires()
  {
    if self.Some? then Returned(self.value) else Threw(onNone())
  }

  /** The message of the error `getOrThrow` throws on a None. */
  const GetOrThrowMessage: string := "getOrThrow called on a None"

  function GetOrThrow<A>(self: Option<A>): Result<A, string>
  {
    GetOrThrowWith(self, () => GetOrThrowMessage)
  }

  function ToRefinement<A, B>(f: A -> Option<B>): A -> bool
  {
    (a: A) => f(a).Some?
  }

  function Product<A, B>(self: Option<A>, that: Option<B>): Option<(A, B)>
  {
    if self.Some? && that.Some? then Some((self.value, that.value)) else None
  }

  function ZipWith<A, B, C>(self: Option<A>, that: Option<B>, f: (A, B) -> C): Option<C>
  {
    Map(Product(self, that), (p: (A, B)) => f(p.0, p.1))
  }

  function Ap<A, B>(self: Option<A -> B>, that: Option<A>): Option<B>
  {
    ZipWith(self, that, (f: A -> B, a: A) => f(a))
  }

  function Lift2<A, B, C>(f: (A, B) -> C, self: Option<A>, that: Option<B>): Option<C>
  {
    ZipWith(self, that, f)
  }

  function Tap<A, X>(self: Option<A>, f: A -> Option<X>): Option<A>
  {
    FlatMap(self, (a: A) => Map(f(a), (_: X) => a))
  }

  function AsVoid<A>(self: Option<A>): Option<()>
  {
    Map(self, (_: A) => ())
  }

  /** The collected values of `opts`, or None at the first None. */
  function All<A>(opts: seq<Option<A>>): Option<seq<A>>
  {
    if opts == [] then Some([])
    else if opts[0].None? then None
    else Map(All(opts[1..]), (rest: seq<A>) => [opts[0].value] + rest)
  }

  function AllStruct<A>(struct: map<string, Option<A>>): Option<map<string, A>>
  {
    if forall key :: key in struct ==> struct[key].Some? then
      Some(map key | key in struct :: struct[key].value)
    else None
  }

  function ProductMany<A>(self: Option<A>, collection: seq<Option<A>>): Option<seq<A>>
  {
    if self.None? then None else Map(All(collection), (rest: seq<A>) => [self.value] + rest)
  }

  /** The first Some of `collection`, scanning from the front. */
  function FirstSomeOf<A>(collection: seq<Option<A>>): Option<A>
  {
    if collection == [] then None
    else if collection[0].Some? then collection[0]
    else FirstSomeOf(collection[1..])
  }

  /** Folds `f` over the values of the Somes, skipping the Nones. */
  function ReduceCompact<A, B>(self: seq<Option<A>>, b: B, f: (B, A) -> B): B
  {
    if self == [] then b
    else ReduceCompact(self[1..], if self[0].Some? then f(b, self[0].value) else b, f)
  }

  function FromIterable<A>(collection: seq<A>): Option<A>
  {
    if collection == [] then None else Some(collection[0])
  }

  function LiftPredicate<A>(b: A, pred: A -> bool): Option<A>
  {
    if pred(b) then Some(b) else None
  }

  function GetRight<R, L>(either: Either<R, L>): Option<R>
  {
    if either.Left? then None else Some(either.right)
  }

  function GetLeft<R, L>(either: Either<R, L>): Option<L>
  {
    if either.Right? then None else Some(either.left)
  }

  function BindTo<A>(self: Option<A>, name: string): Option<map<string, A>>
  {
    Map(self, (a: A) => map[name := a])
  }

  function Bind<V>(self: Option<map<string, V>>, name: string, f: map<string, V> -> Option<V>): Option<map<string, V>>
  {
    FlatMap(self, (a: map<string, V>) => Map(f(a), (b: V) => a[name := b]))
  }

  function Let<V>(self: Option<map<string, V>>, name: string, f: map<string, V> -> V): Option<map<string, V>>
  {
    Map(self, (a: map<string, V>) => a[name := f(a)])
  }

  lemma {:induction false} AllCollects<A>(opts: seq<Option<A>>)
    ensures All(opts).Some? <==> forall i :: 0 <= i < |opts| ==> opts[i].Some?
    ensures All(opts).Some? ==>
      |All(opts).value| == |opts| && forall i :: 0 <= i < |opts| ==> All(opts).value[i] == opts[i].value
  {
    if opts != [] && opts[0].Some? {
      AllCollects(opts[1..]);
      assert forall i :: 1 <= i < |opts| ==> opts[i] == opts[1..][i - 1];
    }
  }

  lemma {:induction false} FirstSomeOfFinds<A>(collection: seq<Option<A>>)
    ensures FirstSomeOf(collection).None? <==> forall i :: 0 <= i < |collection| ==> collection[i].None?
    ensures FirstSomeOf(collection).Some? ==>
      exists i :: 0 <= i < |collection| && collection[i] == FirstSomeOf(collection) &&
        forall j :: 0 <= j < i ==> collection[j].None?
  {
    if collection != [] && collection[0].None? {
      var rest := collection[1..];
      FirstSomeOfFinds(rest);
      assert forall i :: 1 <= i < |collection| ==> collection[i] == rest[i - 1];
      if FirstSomeOf(rest).Some? {
        var i :| 0 <= i < |rest| && rest[i] == FirstSomeOf(rest) && forall j :: 0 <= j < i ==> rest[j].None?;
        assert collection[i + 1] == FirstSomeOf(collection);
        assert forall j :: 0 <= j < i + 1 ==> collection[j].None?;
      }
    }
  }
}
