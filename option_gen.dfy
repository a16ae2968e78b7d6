/** `Option.gen`: drives a generator body that yields Options.  A yielded
    Some resumes the body with its value; the first yielded None ends the
    run with None; a body that returns `v` ends it with `Some(v)`. */
module OptionGen {
  import opened FluentOption

  /** A generator body as the driver sees it: finished with a return value,
      or suspended at a `yield` of an Option, with the code that runs when
      `iterator.next(x)` resumes it with `x`. */
  datatype Prog<!X, A> = Return(returned: A) | Yield(current: Option<X>, resume: X -> Prog<X, A>)

  /** The outcome of driving a body within a budget of resumes.  A generator
      need not finish, so the budget stands for "the loop has not returned
      after this many resumes". */
  datatype Run<A> = Completed(result: Option<A>) | OutOfSteps

  /** What the driver returns: the specification `Gen` is proved against. */
  function Drive<X, A>(body: Prog<X, A>, fuel: nat): Run<A>
    decreases fuel
  {
    match body
    case Return(v) => Completed(Some(v))
    case Yield(current, resume) =>
      if current.None? then Completed(None)
      else if fuel == 0 then OutOfSteps
      else Drive(resume(current.value), fuel - 1)
  }

  /** The values the driver passes to `iterator.next`, in order. */
  function Sent<X, A>(body: Prog<X, A>, fuel: nat): seq<X>
    decreases fuel
  {
    match body
    case Return(_) => []
    case Yield(current, resume) =>
      if current.None? || fuel == 0 then []
      else [current.value] + Sent(resume(current.value), fuel - 1)
  }

  /** The state a body reaches when it is resumed with `xs`, one after the other. */
  function Replay<X, A>(body: Prog<X, A>, xs: seq<X>): Prog<X, A>
    decreases |xs|
  {
    if xs == [] then body
    else match body
      case Return(_) => body
      case Yield(_, resume) => Replay(resume(xs[0]), xs[1..])
  }

  /** The driver loop.  `state` is the last result of `iterator.next`,
      `current` the Option it yielded, `sent` the values resumed with so far;
      `fuel` is the budget of resumes left. */
  method Gen<X, A>(body: Prog<X, A>, budget: nat) returns (r: Run<A>, sent: seq<X>)
    ensures r == Drive(body, budget)
    ensures sent == Sent(body, budget)
  {
    var state := body;
    sent := [];
    if state.Return? {
      return Completed(Some(state.returned)), sent;
    }
    var current := state.current;
    if current.IsNone() {
      // the yielded None itself is the result
      return Completed(None), sent;
    }
    var fuel := budget;
    while state.Yield?
      invariant state.Yield? ==> state.current == current && current.Some?
      invariant Drive(body, budget) == Drive(state, fuel)
      invariant Sent(body, budget) == sent + Sent(state, fuel)
      decreases fuel
    {
      if fuel == 0 {
        return OutOfSteps, sent;
      }
      sent := sent + [current.value];
      state := state.resume(current.value);
      fuel := fuel - 1;
      if state.Yield? {
        current := state.current;
        if current.IsNone() {
          return Completed(None), sent;
        }
      }
    }
    r := Completed(Some(state.returned));
  }

  lemma ReplayResume<X, A>(current: Option<X>, resume: X -> Prog<X, A>, x: X, xs: seq<X>)
    ensures Replay(Yield(current, resume), [x] + xs) == Replay(resume(x), xs)
  {
    assert ([x] + xs)[0] == x && ([x] + xs)[1..] == xs;
  }

  /** Every resume passes the value of the Some the body yielded just
      before it, in yield order. */
  lemma {:induction false} SentAreYieldedValues<X, A>(body: Prog<X, A>, fuel: nat)
    ensures forall i :: 0 <= i < |Sent(body, fuel)| ==>
      Replay(body, Sent(body, fuel)[..i]).Yield? &&
      Replay(body, Sent(body, fuel)[..i]).current == Some(Sent(body, fuel)[i])
    decreases fuel
  {
    var sent := Sent(body, fuel);
    if sent != [] {
      var x := body.current.value;
      var rest := Sent(body.resume(x), fuel - 1);
      assert sent == [x] + rest;
      SentAreYieldedValues(body.resume(x), fuel - 1);
      forall i | 0 <= i < |sent|
        ensures Replay(body, sent[..i]).Yield? && Replay(body, sent[..i]).current == Some(sent[i])
      {
        if i > 0 {
          assert sent[..i] == [x] + rest[..i - 1];
          ReplayResume(body.current, body.resume, x, rest[..i - 1]);
        }
      }
    }
  }

  /** Where the body stands once the driver stops: at its return when the
      result is a Some, at a yielded None when it is None (and is never
      resumed past it), at a yielded Some when the budget ran out. */
  lemma {:induction false} DriveStopsAt<X, A>(body: Prog<X, A>, fuel: nat)
    ensures Drive(body, fuel).Completed? && Drive(body, fuel).result.Some? <==>
      Replay(body, Sent(body, fuel)).Return?
    ensures Drive(body, fuel).Completed? && Drive(body, fuel).result.Some? ==>
      Drive(body, fuel).result.value == Replay(body, Sent(body, fuel)).returned
    ensures Drive(body, fuel) == Completed(None) <==>
      Replay(body, Sent(body, fuel)).Yield? && Replay(body, Sent(body, fuel)).current.None?
    ensures Drive(body, fuel) == OutOfSteps <==>
      Replay(body, Sent(body, fuel)).Yield? && Replay(body, Sent(body, fuel)).current.Some?
    ensures Drive(body, fuel) == OutOfSteps ==> |Sent(body, fuel)| == fuel
    decreases fuel
  {
    if body.Yield? && body.current.Some? && fuel > 0 {
      var x := body.current.value;
      DriveStopsAt(body.resume(x), fuel - 1);
      ReplayResume(body.current, body.resume, x, Sent(body.resume(x), fuel - 1));
    }
  }

  /** A larger budget changes nothing once the driver has completed. */
  lemma {:induction false} DriveFuelMonotone<X, A>(body: Prog<X, A>, fuel: nat, more: nat)
    requires fuel <= more
    requires Drive(body, fuel).Completed?
    ensures Drive(body, more) == Drive(body, fuel)
    ensures Sent(body, more) == Sent(body, fuel)
    decreases fuel
  {
    if body.Yield? && body.current.Some? {
      DriveFuelMonotone(body.resume(body.current.value), fuel - 1, more - 1);
    }
  }

  /** A body that yields each of `opts` in turn and returns `f` of all the
      values it received (`received` are those it already holds). */
  function YieldEach<X, A>(opts: seq<Option<X>>, received: seq<X>, f: seq<X> -> A): Prog<X, A>
    decreases |opts|
  {
    if opts == [] then Return(f(received))
    else Yield(opts[0], (x: X) => YieldEach(opts[1..], received + [x], f))
  }

  /** `all` of a list that starts with a Some: the head's value in front of
      `all` of the rest. */
  lemma AllUncons<X>(opts: seq<Option<X>>)
    requires opts != [] && opts[0].Some?
    ensures All(opts).Some? <==> All(opts[1..]).Some?
    ensures All(opts).Some? ==> All(opts).value == [opts[0].value] + All(opts[1..]).value
  {
    var rest := opts[1..];
    assert forall i :: 1 <= i < |opts| ==> opts[i] == rest[i - 1];
    if All(opts).Some? {
      assert forall i :: 0 <= i < |rest| ==> rest[i] == opts[i + 1];
      assert All(opts).value == [opts[0].value] + All(rest).value;
    }
  }

  /** Driving such a body is `all` of its yields mapped through `f`. */
  lemma {:induction false} GenYieldEachIsAll<X, A>(opts: seq<Option<X>>, received: seq<X>, f: seq<X> -> A)
    ensures Drive(YieldEach(opts, received, f), |opts|) ==
      Completed(if All(opts).Some? then Some(f(received + All(opts).value)) else None)
    decreases |opts|
  {
    if opts == [] {
      assert received + [] == received;
    } else if opts[0].Some? {
      var x := opts[0].value;
      GenYieldEachIsAll(opts[1..], received + [x], f);
      AllUncons(opts);
      if All(opts).Some? {
        assert received + [x] + All(opts[1..]).value == received + All(opts).value;
      }
    } else {
      assert !All(opts).Some?;
    }
  }

  /** With nothing received yet: `gen` over the yields is `all(opts).map(f)`. */
  lemma GenOverYieldsIsAllMap<X, A>(opts: seq<Option<X>>, f: seq<X> -> A)
    ensures Drive(YieldEach(opts, [], f), |opts|) == Completed(All(opts).Map(f))
  {
    GenYieldEachIsAll(opts, [], f);
    assert forall xs: seq<X> :: [] + xs == xs;
  }
}
