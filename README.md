# effect-fluent Option, modelled in Dafny

effect-fluent gives the effect library's `Option` a fluent, class-based face.
This project models that wrapper:

- A `Some(value)` or `None` object owns one native library option.
- Its methods unwrap the receiver (`asOption`), call the library combinator and rewrap the result (`Option.of`).
- A static `Option` object adds constructors, collection functions, comparisons and do-notation.
- `Option.gen` drives a generator body that yields Options.

The wrapper exists twice, with the same behaviour: as the class hierarchy in
`src/Option.ts`, and as the class plus free functions in
`src/internal/option.ts`. It is modelled once. Each row below cites the file
whose lines the member follows. Only `with` exists in the internal file
alone, and its row cites that file. `ap`, `bind` and `let` are modelled
once, in their static form: the internal file's class methods of the same
names make the same library calls.

Modules:

- `EffectOption` (`effect_option.dfy`) is the native library layer the wrapper delegates to.
  - Its `Option`, `Either` and combinators are defined the way the library defines them: `filter` through `filterMap`, `tap` through `flatMap` and `map`, `zipWith`, `ap` and `lift2` through `product`.
  - It also defines `Result`, for a call that returns or throws.
  - This layer belongs to the library, not to this repository, so it carries no rows below. The wrapper's contracts are stated and proved through it.
- `FluentOption` (`fluent_option.dfy`) is the wrapper.
  - The `Some`/`None` classes never change after construction, so they are one datatype whose members are the class methods.
  - The transforming methods (`map`, `flatMap`, `orElse`, `filter`, `zipWith`, ...) unwrap the receiver, call the native combinator and rewrap the result.
  - The accessors (`match`, `getOrElse`, `containsWith`, `exists`, `getOrThrow`, `getOrThrowWith`) return the native result as it is, without rewrapping.
  - `isSome` and `isNone` read the tag of the owned native option. `Equal`, `void`, `Do`, `getOrder` and `getEquivalence` call no combinator. `with` calls the function it is given.
  - `andThen` calls the library's `andThen`. The function the wrapper passes to it always returns a native option, and the library's `andThen` passes a native option through unchanged. So the call coincides with the native `flatMap`, and the model uses that.
  - `Unknown` stands for an arbitrary JavaScript value: either a wrapper or something else. It serves `Option.is`, `Equal` and the result of `andThen`'s argument.
  - `AndThenArg` is `andThen`'s argument: a function of the value, or a literal.
  - The struct form of `all` is a method. Its loop fills the native record key by key, as the source's `for` loop does.
- `OptionGen` (`option_gen.dfy`) models the `gen` driver.
  - A generator body is `Prog`: either returned, or suspended at a `yield` of an Option together with the code that runs when it is resumed with a value.
  - `Drive` and `Sent` are the specification. `Gen` is the driver's `while` loop over `state` and `current`, proved equal to them.
  - A generator need not finish, so the driver gets a budget of resumes and may report `OutOfSteps`.
- `OptionLaws` (`option_laws.dfy`) relates the combinators to one another and to the examples of the test suite.

## Model

| member | source | states |
|---|---|---|
| FluentOption.Option.IsSome | src/Option.ts:59-61 | true exactly for a Some |
| FluentOption.Option.IsNone | src/Option.ts:63-65 | true exactly for a None, and always the negation of `isSome` |
| FluentOption.Option.Map | src/Option.ts:51-53 | a Some's value goes through `f`; a None stays None |
| FluentOption.Option.FlatMap | src/Option.ts:55-57 | a Some becomes `f` of its value, unwrapped through `asOption` and rewrapped; a None stays None |
| FluentOption.Option.Match | src/Option.ts:67-69 | `onNone()` for a None, `onSome(value)` for a Some |
| FluentOption.Option.GetOrElse | src/Option.ts:71-73 | the value of a Some, otherwise `onNone()` |
| FluentOption.Option.AndThen | src/Option.ts:83-95 | None gives None. On a Some, a function argument is applied to the value and a literal is taken as it is. A result that is a wrapper is passed through; any other result is wrapped in Some. All four cases are stated. |
| FluentOption.Option.OrElse | src/internal/option.ts:82-84 | a Some is returned unchanged, and the fallback need only be callable on a None; a None gives the fallback's result |
| FluentOption.Option.OrElseSome | src/Option.ts:134-136 | a Some unchanged; a None becomes `Some(onNone())` |
| FluentOption.Option.OrElseEither | src/Option.ts:130-132 | a Some's value goes on the Left; for a None, the fallback's value goes on the Right, or the result is None when the fallback is None |
| FluentOption.Option.PartitionMap | src/Option.ts:102-105 | the pair is (left, right). A side is Some exactly when the receiver is a Some and `f` chose that side, and it holds that side's value. |
| FluentOption.Option.FilterMap | src/Option.ts:107-109 | a None stays None; a Some becomes `f` of its value |
| FluentOption.Option.ContainsWith | src/Option.ts:115-117 | true iff the receiver is a Some whose value is equivalent to `a` |
| FluentOption.Option.Exists | src/Option.ts:123-127 | true iff the receiver is a Some whose value satisfies the predicate |
| FluentOption.Option.GetOrThrowWith | src/Option.ts:142-144 | returns the value of a Some; throws the error `onNone` builds for a None |
| FluentOption.Option.GetOrThrow | src/Option.ts:138-140 | returns the value of a Some; throws the library's fixed error for a None |
| FluentOption.Option.Product | src/Option.ts:146-148 | Some of the pair iff both are Somes |
| FluentOption.Option.ProductMany | src/Option.ts:150-153 | equals `all` over the receiver followed by the collection |
| FluentOption.Option.As | src/Option.ts:155-157 | the same tag as the receiver, holding `b` |
| FluentOption.Option.AsVoid | src/Option.ts:159-161 | a Some exactly when the receiver is one |
| FluentOption.Option.Tap | src/Option.ts:163-165 | the receiver unchanged when `f` of its value is a Some, and None otherwise |
| FluentOption.Option.ZipWith | src/Option.ts:167-169 | Some of `f(a, b)` iff both are Somes |
| FluentOption.Option.Filter | src/Option.ts:171-175 | the receiver unchanged when its value satisfies the predicate, and None otherwise |
| FluentOption.Option.BindTo | src/Option.ts:177-179 | a Some becomes the one-field record `{name: value}` |
| FluentOption.Option.With | src/internal/option.ts:210-212 | the wrapper of `f` applied to the owned native option |
| FluentOption.Option.AsOption | src/Option.ts:190-192 | the owned native option has the wrapper's tag and, for a Some, its value: the pairing every constructor keeps |
| FluentOption.Of | src/internal/option.ts:283-288 | wrapping keeps the tag and the value: the result's native option is the argument |
| FluentOption.Equals | src/Option.ts:229-256 | a wrapper equals a value iff that value is a wrapper with the same tag and, for a Some, an equal value |
| FluentOption.Contains | src/Option.ts:119-121 | true iff the receiver is `Some(a)` |
| FluentOption.Void | src/Option.ts:453-455 | `Option.void` is a Some |
| FluentOption.Do | src/Option.ts:498-500 | `Option.Do` is Some of the empty record |
| FluentOption.Ap | src/Option.ts:265-271 | Some of the function applied to the value iff both are Somes |
| FluentOption.Lift2 | src/Option.ts:330-336 | the lifted function is `zipWith` with `f` |
| FluentOption.Bind | src/Option.ts:290-308 | the record extended with `name` bound to the value of `f`'s result, iff the record and that result are Somes |
| FluentOption.Let | src/Option.ts:310-328 | the record extended with `name` bound to `f`'s result, iff the record is a Some |
| FluentOption.LiftPredicate | src/Option.ts:281-288 | `Some(b)` iff the predicate holds for `b`, and None otherwise |
| FluentOption.GetRight | src/Option.ts:411-413 | the Right's value, or None for a Left |
| FluentOption.GetLeft | src/Option.ts:416-418 | the Left's value, or None for a Right |
| FluentOption.ToRefinement | src/Option.ts:420-422 | the guard holds for `a` iff `f(a)` is a Some |
| FluentOption.FromIterable | src/Option.ts:402-404 | Some of the first element, or None for an empty collection |
| FluentOption.All | src/Option.ts:432-443 | Some iff every element is a Some; its values are then the elements' values in order |
| FluentOption.AllStruct | src/Option.ts:445-451 | Some iff every field is a Some; the record of values then has the same keys and each key's value |
| FluentOption.FirstSomeOf | src/internal/option.ts:374-380 | None iff no element is a Some; otherwise some element that is preceded only by Nones |
| FluentOption.ReduceCompact | src/Option.ts:273-279 | the fold of `f` over the values of the Somes, in order, with the Nones skipped |
| FluentOption.ReduceCompactFolds | src/Option.ts:273-279 | the native reduce over the unwrapped collection equals the fold over the compacted values |
| FluentOption.GetOrder | src/Option.ts:457-464 | two Nones compare 0; None against Some is -1 and Some against None is 1; two Somes compare by the element order |
| FluentOption.GetEquivalence | src/Option.ts:480-490 | two Nones are equivalent; a None and a Some are not, in either order; two Somes are equivalent iff their values are |
| OptionGen.Gen | src/Option.ts:340-377 | the driver loop's result and the values it resumes with equal the specification `Drive` and `Sent`, for every body and budget |
| OptionGen.SentAreYieldedValues | src/internal/option.ts:330-344 | the i-th resume passes the value of the Some that the body yielded at that point, in yield order |
| OptionGen.DriveStopsAt | src/Option.ts:348-375 | a Some result is the body's return value, reached after the last resume; a None result means the body was left at a yielded None and not resumed past it; running out of budget means exactly `budget` resumes happened |
| OptionGen.DriveFuelMonotone | src/internal/option.ts:330-344 | once the driver completes, a larger budget changes neither the result nor the values sent |
| OptionGen.GenYieldEachIsAll | src/Option.ts:361-375 | a body that yields each of a list of Options and returns `f` of what it received gives `f(received + values)` when all are Somes, and None otherwise |
| OptionGen.GenOverYieldsIsAllMap | src/Option.ts:340-377 | `gen` over such a body equals `all(opts).map(f)` |
| OptionLaws.OfAsOptionRoundTrip | src/internal/option.ts:283-288 | `of` and `asOption` are inverse, and `of` keeps the tag and value |
| OptionLaws.EqualsStructural | src/Option.ts:229-256 | equality is symmetric and reflexive; two Somes are equal iff their values are; two Nones are equal; Some never equals None; a wrapper never equals a plain value |
| OptionLaws.FlatMapLeftIdentity | src/Option.ts:55-57 | `some(a).flatMap(f)` is `f(a)` |
| OptionLaws.FlatMapRightIdentity | src/Option.ts:55-57 | `o.flatMap(some)` is `o` |
| OptionLaws.FlatMapAssociative | src/Option.ts:55-57 | two `flatMap`s in a row equal one over the composed function |
| OptionLaws.MapFusion | src/Option.ts:51-57 | two `map`s fuse into one; `map(f)` is `flatMap` of `some` after `f` |
| OptionLaws.AndThenForms | src/Option.ts:83-95 | an Option-returning function gives `flatMap`; a plain-returning function gives `map`; a plain literal gives `as`; an Option literal replaces every Some |
| OptionLaws.OrElseLaws | src/Option.ts:97-99 | None is the left identity and a None fallback the right identity; `orElse` is associative; `orElseSome(b)` is `orElse(some(b))` |
| OptionLaws.FallbacksNotCalledOnSome | src/internal/option.ts:82-84 | on a Some, `orElse`, `orElseSome`, `orElseEither`, `getOrElse` and `getOrThrowWith` return without calling their fallback, even one that cannot be called |
| OptionLaws.OrElseEitherSides | src/Option.ts:130-132 | a Some iff either side is; equals mapping the receiver to Left, with the fallback mapped to Right |
| OptionLaws.FilterLaws | src/Option.ts:171-175 | `filter` is `filterMap` with the keep-or-drop function; `exists` is `filter` then `isSome`; `liftPredicate(b, p)` is `some(b).filter(p)`; `toRefinement` of it is `p` |
| OptionLaws.FilterMapIsFlatMap | src/Option.ts:107-109 | `filterMap` and `flatMap` agree |
| OptionLaws.ContainsIsContainsWithEquality | src/Option.ts:115-121 | `contains` is `containsWith` under equality, and `exists` of equality to `a` |
| OptionLaws.TapIsFlatMapAs | src/Option.ts:163-165 | `tap(f)` is `flatMap(a => f(a).as(a))` |
| OptionLaws.PartitionMapSides | src/Option.ts:102-105 | the left side is `flatMap` of `getLeft` of `f`; the right side is `flatMap` of `getRight` of `f`; the two are never both Somes |
| OptionLaws.ZipWithFamily | src/Option.ts:167-169 | `product` is `zipWith` into a pair; `ap` is `zipWith` by application; `zipWith` keeping the left value is `tap` |
| OptionLaws.ApCurried | src/Option.ts:265-271 | a curried addition applied to `some(1)` then `some(2)` gives `some(3)`; a None anywhere gives None |
| OptionLaws.DoNotation | src/Option.ts:310-328 | `bindTo(name)` is `Do` followed by `let(name, ...)`; `let` on the empty record is `bindTo` |
| OptionLaws.LetIsBindOfSome | src/Option.ts:290-328 | `let(name, f)` is `bind(name, a => some(f(a)))` |
| OptionLaws.VoidLaws | src/Option.ts:155-161 | `asVoid` is `as(undefined)`, and a Some's `asVoid` is `Option.void` |
| OptionLaws.CompactAppend | src/Option.ts:273-279 | compacting distributes over concatenation |
| OptionLaws.FoldLeftAppend | src/Option.ts:273-279 | folding a concatenation continues from the fold of the first part |
| OptionLaws.ReduceCompactAppend | src/Option.ts:273-279 | `reduceCompact` of a concatenation continues from the first part's result |
| OptionLaws.ReduceCompactSkipsNone | src/Option.ts:273-279 | a None anywhere in the input does not change `reduceCompact` |
| OptionLaws.AllIsCompact | src/Option.ts:432-443 | when `all` succeeds, its values are the compacted input |
| OptionLaws.FirstSomeOfIsFirstOfCompact | src/Option.ts:424-430 | `firstSomeOf` is the first of the compacted input, if there is one |
| OptionLaws.FromIterableIsFirstSomeOf | src/Option.ts:402-404 | `fromIterable` is `firstSomeOf` over the elements wrapped in Some |
| OptionLaws.AllExamples | src/Option.ts:424-451 | `all([])` is `some([])`; `all([some 1, some 2])` is `some([1, 2])`; one None makes `all` None; the `firstSomeOf` and `productMany` examples hold |
| OptionLaws.GetOrderLaws | src/internal/option.ts:405-412 | antisymmetry and transitivity of the element order carry over to Options; a comparison is 0 iff the two Options are equivalent under "compares 0" |
| OptionLaws.GetEquivalenceLaws | src/internal/option.ts:424-434 | reflexivity, symmetry and transitivity of the element equivalence carry over to Options |
| OptionLaws.GetEquivalenceOfEquality | src/Option.ts:480-490 | under value equality, `getEquivalence` is structural equality |
| OptionLaws.GenExamples | src/Option.ts:340-377 | the test bodies: two yields summed give `some(3)`; an immediate return of 10 gives `some(10)`; a None in the middle gives None after exactly one resume; a None first gives None |

## Left out

- The nullable family (`fromNullable`, `getOrNull`, `getOrUndefined`, `flatMapNullable`, `liftNullable`) is not modelled. It needs JavaScript's `null` and `undefined` as values distinct from every other value.
- `liftThrowable` is not modelled: it catches arbitrary exceptions from foreign code.
- `Hash`, `toString`, `toJSON` and the inspect hook are not modelled. They format values or hash them through library code.
- `pipe` and `dual` are not modelled: they only curry arguments. Only the full-argument form of each function is modelled.
- The `this`-binding form of `gen` (src/Option.ts:342-346) is not modelled: it only binds the body's receiver.
- The generator's carrier layer (`YieldWrap`, `isGenKind`, `yieldWrapGet`) is treated as the identity. A yielded value is taken to be the Option itself.
- OptionGen.Gen: the generator is driven with a budget of resumes, because a JavaScript generator need not finish. A body that runs past the budget yields `OutOfSteps` where the source would keep going. The lemma `DriveFuelMonotone` shows that a completed run does not depend on the budget.
- OptionGen.Gen: a yielded value that is not a wrapper, such as a bare native option, is not modelled. The model's `Yield` always carries a wrapper. In the source, `Option.is` is false for a yielded native `none()`, so the driver does not stop there. It resumes the body with that option's `value`, which is `undefined` (src/Option.ts:358-362, src/internal/option.ts:327-331). The signature of `gen` admits only wrapper yields, so this is outside its typed use.
- OptionGen.Gen: the driver returns `None` where the source returns the very `None` object that was yielded. Wrappers are values here, so object identity is not modelled.
- FluentOption.GetOrder, FluentOption.GetEquivalence: the library's `Order.make` and `Equivalence.make` first answer 0 or true when both arguments are the same object. That identity shortcut is not modelled. It agrees with the model whenever the element order is reflexive.
- FluentOption.Is: the marker-property test `hasProperty(u, TypeId)` of `Option.is` (src/Option.ts:398-400) is abstracted into the `Wrapped`/`Plain` split of `Unknown`. An object that carries the marker without being a wrapper is not modelled.
- FluentOption.Equals, FluentOption.Contains: the library's `Equal.equals` on the values is modelled as Dafny equality. Custom `Equal` implementations of the values are not modelled.
- FluentOption.Bind, FluentOption.Let, FluentOption.BindTo, FluentOption.Do, FluentOption.AllStruct: records are maps from field names to values of one type. Records whose fields have different types are not modelled.
- FluentOption.AllStruct: `Object.keys` order is not modelled. The record is a map, and the loop picks keys in any order.
- FluentOption.Option.GetOrThrow, FluentOption.Option.GetOrThrowWith: a throw is modelled as a returned `Threw` outcome, not as an exception that unwinds the caller.
- `src/Effect.ts`, `src/Ref.ts`, `src/Readable.ts` and `src/vitest/utils.ts` are not part of this model. They forward to the effect runtime, or are a marker check and test helpers.
