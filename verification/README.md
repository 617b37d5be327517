# Counter reducer, store and `renderWithRedux`, in Dafny

The repository is one test file, `src/__tests__/react-redux.js`, showing how to
test a Redux-connected React `Counter`. Its logic is a counter reducer
(`INCREMENT` adds one, `DECREMENT` subtracts one, anything else is a no-op, an
absent state reads as `{count: 0}`), a `mapStateToProps` projection, and a
`renderWithRedux` helper that either uses a store it is given or creates one
from the reducer and an optional `initialState`. Three tests click the
component's buttons and read the displayed count.

The model:

- `undefinable.dfy` (module `Defaults`) — `Undefinable`, standing for
  JavaScript's `undefined`, and the default-parameter substitution `Or`.
- `counter.dfy` (module `Counter`) — `State`, `Action`, the `Reducer`, the
  `Props` projection, the two `Button`s and the action each click dispatches,
  and laws of one reducer step.
- `store.dfy` (module `ReduxStore`) — a store as a state plus a reducer,
  `createStore` (which runs the reducer once on the preloaded state and Redux's
  initialisation action), `Dispatch` as "state := reducer(state, action)",
  `DispatchAll` as a left fold of dispatches, and lemmas about folds: the
  counter's final count is the start plus the number of INCREMENTs minus the
  number of DECREMENTs, so order does not matter and unknown actions are
  ignored; a constant reducer's store never changes.
- `render_with_redux.dfy` (module `RenderWithRedux`) — the options of
  `renderWithRedux`, the store it resolves, the displayed count after any
  sequence of clicks, and the three test scenarios as lemmas.

## Model

| member | source | states |
|---|---|---|
| Counter.Reducer | src/__tests__/react-redux.js:41-54 | every action moves the count by at most one, and the state (the default `{count: 0}` when absent) comes back unchanged exactly when the action is neither INCREMENT nor DECREMENT; its laws are AbsentStateIsZero, StepByOne, UnknownIsIdempotent, IncrementDecrementCancel and CounterFold |
| Counter.AbsentStateIsZero | src/__tests__/react-redux.js:41 | called with no state, the reducer behaves exactly as for `{count: 0}`, and an unknown action then yields `{count: 0}` |
| Counter.StepByOne | src/__tests__/react-redux.js:43-50 | INCREMENT yields count + 1, DECREMENT yields count − 1, and from a count of zero or below DECREMENT goes negative |
| Counter.UnknownIsIdempotent | src/__tests__/react-redux.js:51-52 | an action other than INCREMENT/DECREMENT returns the supplied state unchanged, and applying it twice equals applying it once |
| Counter.IncrementDecrementCancel | src/__tests__/react-redux.js:43-50 | INCREMENT then DECREMENT, or DECREMENT then INCREMENT, restores the original state |
| Counter.OnClick | src/__tests__/react-redux.js:8-23 | "+" dispatches exactly the INCREMENT actions and "-" exactly the DECREMENT actions |
| ReduxStore.InitAction | src/__tests__/react-redux.js:76 | the action `createStore` dispatches when it builds a store is never INCREMENT or DECREMENT, whatever its random suffix |
| ReduxStore.CounterStoreStartsAtPreloaded | src/__tests__/react-redux.js:76 | `createStore(reducer, initialState)` starts at `initialState`, or at count 0 without one, for every initialisation suffix |
| ReduxStore.DispatchAll | src/__tests__/react-redux.js:107-110 | a sequence of dispatches never changes the store's reducer, and the empty sequence changes nothing |
| ReduxStore.DispatchAllAppend | src/__tests__/react-redux.js:107-110 | dispatching `a + b` is dispatching `a` and then `b` |
| ReduxStore.ConstantStoreNeverChanges | src/__tests__/react-redux.js:101-111 | a store built on a reducer that always returns one value, as `() => ({count: 1000})` does, holds that value after any sequence of dispatches, including none |
| ReduxStore.CounterFold | src/__tests__/react-redux.js:41-54 | after any sequence of dispatches the counter store's count is the start count plus the number of INCREMENTs minus the number of DECREMENTs |
| ReduxStore.OrderIrrelevant | src/__tests__/react-redux.js:43-50 | dispatching `a + b` and `b + a` to the counter store ends in the same state |
| ReduxStore.UnknownActionsChangeNothing | src/__tests__/react-redux.js:51-52 | a sequence containing only unknown actions leaves the counter store exactly as it was |
| ReduxStore.DecrementsHaveNoFloor | src/__tests__/react-redux.js:47-50 | `n` DECREMENTs lower the count by `n`, below zero when `n` exceeds the start count |
| ReduxStore.IncrementsAddUp | src/__tests__/react-redux.js:43-46 | `n` INCREMENTs raise the count by exactly `n` |
| RenderWithRedux.ResolveStore | src/__tests__/react-redux.js:74-77 | a supplied store is used verbatim; otherwise the store uses the counter reducer and starts at `initialState`, or at count 0 when it or the whole options object is absent |
| RenderWithRedux.NoOptionsStartsAtZero | src/__tests__/react-redux.js:76 | no options is the same as `{}`, and both give a counter store at count 0 |
| RenderWithRedux.SuppliedStoreIgnoresInitialState | src/__tests__/react-redux.js:76 | with a store supplied, the value of `initialState` makes no difference |
| RenderWithRedux.ClicksOccurrences | src/__tests__/react-redux.js:21-23 | the INCREMENTs a click sequence dispatches are exactly its "+" clicks, and the DECREMENTs exactly its "-" clicks |
| RenderWithRedux.ClickMovesByOne | src/__tests__/react-redux.js:8-14 | the `dispatch` calls of the two click handlers change the displayed count by +1 for "+" and −1 for "-" |
| RenderWithRedux.DisplayedAfterClicks | src/__tests__/react-redux.js:34-36 | after any click sequence the `count-value` element (line 22), fed by the `mapStateToProps` projection, displays the start count plus the "+" clicks minus the "-" clicks |
| RenderWithRedux.RenderedAfterClicks | src/__tests__/react-redux.js:74-77 | for any options that supply no store, the rendered count after any clicks is the seeded count (0 by default) plus "+" clicks minus "-" clicks |
| RenderWithRedux.RendersWithDefaults | src/__tests__/react-redux.js:87-91 | with default options, one click on "+" displays 1 |
| RenderWithRedux.RendersWithCustomInitialState | src/__tests__/react-redux.js:93-99 | seeded with `{count: 3}`, one click on "-" displays 2 |
| RenderWithRedux.RendersWithCustomStore | src/__tests__/react-redux.js:101-111 | with the constant-1000 store supplied, any sequence of clicks (none, "+", "+" then "-", ...) displays 1000 |

## Left out

- The React `Counter` class, JSX rendering, `Provider` and `connect`: UI and library glue. Each button is modelled only as the action its click dispatches, and the display only as the `count` prop.
- The `ui` argument of `renderWithRedux` and the DOM query utilities it returns: rendering into a test DOM is I/O. The model returns only the resolved store.
- Redux store subscriptions, listener notification and re-entrant dispatch: Redux itself is not part of this model, and the test file does not rely on them beyond re-rendering after a dispatch.
- Redux's checks that an action is a plain object with a defined `type`: every action in this file is one.
- The random suffix of Redux's initialisation action type: it is a parameter (`initSuffix`), and every lemma holds for all suffixes.
- `@testing-library/react`'s `fireEvent`, `getByTestId`/`getByText` and Jest's `toHaveTextContent`: the displayed value is the integer count, not DOM text, so text matching (where "1" would also match "10") is not modelled.
- JavaScript number semantics: `count` is an IEEE double in the source and an unbounded integer here, so precision loss beyond 2^53 is not modelled.
- JavaScript `null`: the defaults `state = {count: 0}` and `= {}` replace only `undefined`. So `renderWithRedux(ui, null)` throws while destructuring its options, and `initialState: null` reaches the reducer's default branch as `null`, after which `mapStateToProps` throws on `state.count`. `Undefinable` has no `null`, so these throwing paths are not modelled.
- Object identity: the reducer's default branch returns the very same state object; the model has values only, so it states equality of values.
