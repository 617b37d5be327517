/** The `renderWithRedux` test helper, reduced to the store it resolves
    and the count the connected Counter displays, and the three test
    scenarios stated over it. */
module RenderWithRedux {
  import opened Defaults
  import opened Counter
  import opened ReduxStore

  /** The helper's second parameter, `{initialState, store}`; each field is
      `Undefined` when the caller leaves it out. */
  datatype RenderOptions = RenderOptions(initialState: Undefinable<State>, store: Undefinable<Store>)

  /** The `= {}` default for a missing options argument. */
  const NoOptions: RenderOptions := RenderOptions(Undefined, Undefined)

  /** The store `renderWithRedux` renders with and returns. A supplied store
      is used verbatim and `initialState` is then ignored; otherwise a fresh
      store is created from the counter reducer and `initialState`, and it
      starts at that state, or at count 0 when there is none. */
  function ResolveStore(options: Undefinable<RenderOptions>, initSuffix: string): (s: Store)
    ensures options.Defined? && options.value.store.Defined? ==> s == options.value.store.value
    ensures options.Undefined? || options.value.store.Undefined? ==>
              && s.reducer == Reducer
              && s.state == StartState(options)
  {
    var opts := options.Or(NoOptions);
    match opts.store
    case Defined(st) => st
    case Undefined => CreateStore(Reducer, opts.initialState, initSuffix)
  }

  /** The state a store created by the helper is seeded with: `initialState`,
      or the reducer's default when it or the whole options object is absent. */
  function StartState(options: Undefinable<RenderOptions>): State
  {
    options.Or(NoOptions).initialState.Or(DefaultState)
  }

  /** The text of the `count-value` element: the `count` prop the
      connected component receives from the store's state. */
  function Displayed(store: Store): int
  {
    MapStateToProps(store.state).count
  }

  /** The actions the user's clicks on `buttons` dispatch, in order. */
  function Clicks(buttons: seq<Button>): seq<Action>
  {
    seq(|buttons|, i requires 0 <= i < |buttons| => OnClick(buttons[i]))
  }

  /** Among the dispatched actions, the INCREMENTs are exactly the clicks
      on "+" and the DECREMENTs exactly the clicks on "-". */
  lemma {:induction false} ClicksOccurrences(buttons: seq<Button>)
    ensures Occurrences(Clicks(buttons), IncrementKind) == Presses(buttons, Plus)
    ensures Occurrences(Clicks(buttons), DecrementKind) == Presses(buttons, Minus)
    decreases |buttons|
  {
    if |buttons| > 0 {
      var front := buttons[..|buttons| - 1];
      assert Clicks(buttons)[..|buttons| - 1] == Clicks(front);
      ClicksOccurrences(front);
    }
  }

  /** One click on "+" shows one more, one click on "-" one less. */
  lemma ClickMovesByOne(s: State, b: Button)
    ensures Displayed(Dispatch(Store(s, Reducer), OnClick(b))) == if b == Plus then s.count + 1 else s.count - 1
  {
  }

  /** Whatever the clicks, the counter displays its start count plus the
      clicks on "+" minus the clicks on "-". */
  lemma DisplayedAfterClicks(s: State, buttons: seq<Button>)
    ensures Displayed(DispatchAll(Store(s, Reducer), Clicks(buttons)))
         == s.count + Presses(buttons, Plus) - Presses(buttons, Minus)
  {
    CounterFold(s, Clicks(buttons));
    ClicksOccurrences(buttons);
  }

  /** The same through the helper: for any options that supply no store,
      the display is the seeded count plus "+" clicks minus "-" clicks. */
  lemma RenderedAfterClicks(options: Undefinable<RenderOptions>, initSuffix: string, buttons: seq<Button>)
    requires options.Undefined? || options.value.store.Undefined?
    ensures Displayed(DispatchAll(ResolveStore(options, initSuffix), Clicks(buttons)))
         == StartState(options).count + Presses(buttons, Plus) - Presses(buttons, Minus)
  {
    DisplayedAfterClicks(StartState(options), buttons);
  }

  /** Leaving the options out is the same as passing `{}`, and so is
      passing an empty `initialState`: the store starts at count 0. */
  lemma NoOptionsStartsAtZero(initSuffix: string)
    ensures ResolveStore(Undefined, initSuffix) == ResolveStore(Defined(NoOptions), initSuffix)
    ensures ResolveStore(Undefined, initSuffix) == Store(State(0), Reducer)
  {
  }

  /** A supplied store wins over any `initialState`. */
  lemma SuppliedStoreIgnoresInitialState(st: Store, init1: Undefinable<State>, init2: Undefinable<State>, initSuffix: string)
    ensures ResolveStore(Defined(RenderOptions(init1, Defined(st))), initSuffix)
         == ResolveStore(Defined(RenderOptions(init2, Defined(st))), initSuffix)
  {
  }

  /** 'can render with redux with defaults': one click on "+" shows 1. */
  lemma RendersWithDefaults(initSuffix: string)
    ensures Displayed(DispatchAll(ResolveStore(Undefined, initSuffix), Clicks([Plus]))) == 1
  {
    RenderedAfterClicks(Undefined, initSuffix, [Plus]);
  }

  /** 'can render with redux with custom initial state': seeded with
      `{count: 3}`, one click on "-" shows 2. */
  lemma RendersWithCustomInitialState(initSuffix: string)
    ensures Displayed(DispatchAll(ResolveStore(Defined(RenderOptions(Defined(State(3)), Undefined)), initSuffix), Clicks([Minus]))) == 2
  {
    RenderedAfterClicks(Defined(RenderOptions(Defined(State(3)), Undefined)), initSuffix, [Minus]);
  }

  /** 'can render with redux with custom store': with the store of
      `createStore(() => ({count: 1000}))`, any clicks at all, "+" then "-"
      among them, leave 1000 on display. */
  lemma RendersWithCustomStore(storeSuffix: string, initSuffix: string, buttons: seq<Button>)
    ensures var st := CreateStore(ConstantReducer(State(1000)), Undefined, storeSuffix);
            Displayed(DispatchAll(ResolveStore(Defined(RenderOptions(Undefined, Defined(st))), initSuffix), Clicks(buttons))) == 1000
  {
  }
}
