/** The counter application: the state record, the actions the Counter
    component dispatches, the reducer, and the `mapStateToProps` projection
    that connects the component to the store. */
module Counter {
  import opened Defaults

  /** The store's state: a record with a single integer `count`. The source
      holds it in a JavaScript number; here it is an unbounded integer. */
  datatype State = State(count: int)

  /** A Redux action. Only its `type` tag is read by the reducer; no
      action in this application carries a payload. */
  datatype Action = Action(kind: string)

  const IncrementKind: string := "INCREMENT"
  const DecrementKind: string := "DECREMENT"

  const Increment: Action := Action(IncrementKind)
  const Decrement: Action := Action(DecrementKind)

  /** The state the reducer substitutes when it is called without one. */
  const DefaultState: State := State(0)

  /** An action the reducer reacts to; every other `type` falls through
      to the reducer's default branch. */
  predicate IsKnown(a: Action) {
    a.kind == IncrementKind || a.kind == DecrementKind
  }

  /** The reducer: `state` is `Undefined` when Redux calls it with `undefined`,
      in which case the default `{count: 0}` is used. Every action moves the
      count by at most one, and the state comes back unchanged exactly when
      the action is not one the reducer knows. */
  function Reducer(state: Undefinable<State>, action: Action): (r: State)
    ensures -1 <= r.count - state.Or(DefaultState).count <= 1
    ensures r == state.Or(DefaultState) <==> !IsKnown(action)
  {
    var s := state.Or(DefaultState);
    if action.kind == IncrementKind then State(s.count + 1)
    else if action.kind == DecrementKind then State(s.count - 1)
    else s
  }

  /** The props the connected component receives: the store's count. */
  datatype Props = Props(count: int)

  function MapStateToProps(s: State): Props
  {
    Props(s.count)
  }

  /** The Counter component's two buttons. */
  datatype Button = Minus | Plus

  /** The action a click on a button dispatches. */
  function OnClick(b: Button): (a: Action)
    ensures b == Plus <==> a.kind == IncrementKind
    ensures b == Minus <==> a.kind == DecrementKind
  {
    match b
    case Plus => Increment
    case Minus => Decrement
  }

  /** The number of clicks on button `b` in `buttons`. */
  function Presses(buttons: seq<Button>, b: Button): nat
  {
    if |buttons| == 0 then 0
    else Presses(buttons[..|buttons| - 1], b) + (if buttons[|buttons| - 1] == b then 1 else 0)
  }

  /** The number of actions of type `kind` in `actions`. */
  function Occurrences(actions: seq<Action>, kind: string): (n: nat)
    ensures n <= |actions|
    ensures n == 0 <==> forall i :: 0 <= i < |actions| ==> actions[i].kind != kind
  {
    if |actions| == 0 then 0
    else
      var front := actions[..|actions| - 1];
      assert forall i :: 0 <= i < |front| ==> front[i] == actions[i];
      Occurrences(front, kind) + (if actions[|actions| - 1].kind == kind then 1 else 0)
  }

  lemma {:induction false} OccurrencesAppend(a: seq<Action>, b: seq<Action>, kind: string)
    ensures Occurrences(a + b, kind) == Occurrences(a, kind) + Occurrences(b, kind)
    decreases |b|
  {
    if |b| == 0 {
      assert a + b == a;
    } else {
      var b' := b[..|b| - 1];
      assert (a + b)[..|a + b| - 1] == a + b';
      OccurrencesAppend(a, b', kind);
    }
  }

  /** `n` copies of one action. */
  function Repeat(a: Action, n: nat): seq<Action>
  {
    seq(n, _ => a)
  }

  lemma {:induction false} OccurrencesRepeat(a: Action, n: nat, kind: string)
    ensures Occurrences(Repeat(a, n), kind) == if a.kind == kind then n else 0
  {
    if n > 0 {
      assert Repeat(a, n)[..n - 1] == Repeat(a, n - 1);
      OccurrencesRepeat(a, n - 1, kind);
    }
  }

  // Laws of a single reducer step.

  /** An absent state behaves exactly like `{count: 0}`. */
  lemma AbsentStateIsZero(a: Action)
    ensures Reducer(Undefined, a) == Reducer(Defined(State(0)), a)
    ensures !IsKnown(a) ==> Reducer(Undefined, a) == State(0)
  {
  }

  /** INCREMENT adds exactly one, DECREMENT subtracts exactly one, with no
      lower bound, so a count of zero or below goes further negative. */
  lemma StepByOne(s: State)
    ensures Reducer(Defined(s), Increment) == State(s.count + 1)
    ensures Reducer(Defined(s), Decrement) == State(s.count - 1)
    ensures s.count <= 0 ==> Reducer(Defined(s), Decrement).count < 0
  {
  }

  /** Any other action returns the state unchanged, so repeating it is
      idempotent, whether or not a state was supplied. */
  lemma UnknownIsIdempotent(state: Undefinable<State>, a: Action)
    requires !IsKnown(a)
    ensures state.Defined? ==> Reducer(state, a) == state.value
    ensures Reducer(Defined(Reducer(state, a)), a) == Reducer(state, a)
  {
  }

  /** INCREMENT and DECREMENT undo each other, in either order. */
  lemma IncrementDecrementCancel(s: State)
    ensures Reducer(Defined(Reducer(Defined(s), Increment)), Decrement) == s
    ensures Reducer(Defined(Reducer(Defined(s), Decrement)), Increment) == s
  {
  }
}
