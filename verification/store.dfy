/** The part of a Redux store this application relies on: a current state
    and a reducer, `createStore`'s initial dispatch, and `dispatch` as
    "state := reducer(state, action)". */
module ReduxStore {
  import opened Defaults
  import opened Counter

  /** A reducer as Redux calls it: the current state, or `Undefined` for
      `undefined`, and an action. */
  type ReducerFn = (Undefinable<State>, Action) -> State

  datatype Store = Store(state: State, reducer: ReducerFn)

  /** Redux's private initialisation action is `@@redux/INIT` followed by a
      random string; the random part is a parameter here. */
  const InitPrefix: string := "@@redux/INIT"

  function InitAction(suffix: string): (a: Action)
    ensures !IsKnown(a)
  {
    var kind := InitPrefix + suffix;
    assert kind[0] == '@' && IncrementKind[0] == 'I' && DecrementKind[0] == 'D';
    Action(kind)
  }

  /** `createStore(reducer, preloadedState)`: the store starts from whatever
      the reducer returns for the preloaded state (possibly `undefined`) and
      the initialisation action. */
  function CreateStore(reducer: ReducerFn, preloaded: Undefinable<State>, initSuffix: string): Store
  {
    Store(reducer(preloaded, InitAction(initSuffix)), reducer)
  }

  /** `store.dispatch(action)`. */
  function Dispatch(store: Store, action: Action): Store
  {
    Store(store.reducer(Defined(store.state), action), store.reducer)
  }

  /** A sequence of dispatches, oldest first: a left fold of `Dispatch`. */
  function DispatchAll(store: Store, actions: seq<Action>): (r: Store)
    ensures r.reducer == store.reducer
    ensures |actions| == 0 ==> r == store
    decreases |actions|
  {
    if |actions| == 0 then store
    else Dispatch(DispatchAll(store, actions[..|actions| - 1]), actions[|actions| - 1])
  }

  /** The counter store starts at the preloaded state, or at count 0 without
      one, whatever the initialisation action's random suffix: that action
      is invisible to the counter reducer. */
  lemma CounterStoreStartsAtPreloaded(preloaded: Undefinable<State>, initSuffix: string)
    ensures CreateStore(Reducer, preloaded, initSuffix) == Store(preloaded.Or(DefaultState), Reducer)
  {
  }

  /** Dispatching `a` and then `b` is dispatching `a + b`. */
  lemma {:induction false} DispatchAllAppend(store: Store, a: seq<Action>, b: seq<Action>)
    ensures DispatchAll(store, a + b) == DispatchAll(DispatchAll(store, a), b)
    decreases |b|
  {
    if |b| == 0 {
      assert a + b == a;
    } else {
      var b' := b[..|b| - 1];
      assert (a + b)[..|a + b| - 1] == a + b';
      DispatchAllAppend(store, a, b');
    }
  }

  /** The store built by the test's "silly" reducer `() => ({count: 1000})`. */
  function ConstantReducer(v: State): ReducerFn
  {
    (st: Undefinable<State>, a: Action) => v
  }

  /** A store whose reducer ignores its arguments never leaves that value,
      whatever is dispatched to it. */
  lemma ConstantStoreNeverChanges(v: State, preloaded: Undefinable<State>, initSuffix: string, actions: seq<Action>)
    ensures DispatchAll(CreateStore(ConstantReducer(v), preloaded, initSuffix), actions).state == v
  {
  }

  /** The counter store's state after any sequence of dispatches is fixed
      by how many INCREMENTs and DECREMENTs it held; every other action is
      ignored. */
  lemma {:induction false} CounterFold(s: State, actions: seq<Action>)
    ensures DispatchAll(Store(s, Reducer), actions).state.count
         == s.count + Occurrences(actions, IncrementKind) - Occurrences(actions, DecrementKind)
    decreases |actions|
  {
    if |actions| > 0 {
      CounterFold(s, actions[..|actions| - 1]);
    }
  }

  /** Hence the order of dispatches does not matter to the counter. */
  lemma OrderIrrelevant(s: State, a: seq<Action>, b: seq<Action>)
    ensures DispatchAll(Store(s, Reducer), a + b).state == DispatchAll(Store(s, Reducer), b + a).state
  {
    CounterFold(s, a + b);
    CounterFold(s, b + a);
    OccurrencesAppend(a, b, IncrementKind);
    OccurrencesAppend(a, b, DecrementKind);
    OccurrencesAppend(b, a, IncrementKind);
    OccurrencesAppend(b, a, DecrementKind);
  }

  /** A run of actions the reducer does not know leaves the counter store
      exactly where it was. */
  lemma {:induction false} UnknownActionsChangeNothing(s: State, actions: seq<Action>)
    requires forall i :: 0 <= i < |actions| ==> !IsKnown(actions[i])
    ensures DispatchAll(Store(s, Reducer), actions) == Store(s, Reducer)
  {
    CounterFold(s, actions);
    assert Occurrences(actions, IncrementKind) == 0 && Occurrences(actions, DecrementKind) == 0;
  }

  /** `n` DECREMENTs lower the count by `n`, below zero if need be. */
  lemma DecrementsHaveNoFloor(s: State, n: nat)
    ensures DispatchAll(Store(s, Reducer), Repeat(Decrement, n)).state.count == s.count - n
    ensures n > s.count ==> DispatchAll(Store(s, Reducer), Repeat(Decrement, n)).state.count < 0
  {
    CounterFold(s, Repeat(Decrement, n));
    OccurrencesRepeat(Decrement, n, IncrementKind);
    OccurrencesRepeat(Decrement, n, DecrementKind);
  }

  /** `n` INCREMENTs raise the count by exactly `n`. */
  lemma IncrementsAddUp(s: State, n: nat)
    ensures DispatchAll(Store(s, Reducer), Repeat(Increment, n)).state.count == s.count + n
  {
    CounterFold(s, Repeat(Increment, n));
    OccurrencesRepeat(Increment, n, IncrementKind);
    OccurrencesRepeat(Increment, n, DecrementKind);
  }
}
