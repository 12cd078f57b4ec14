/** The mutation state of `useMutation` (src/react/use-mutation.js): the
    reducer over `LOAD`, `LOAD_ERROR` and `LOAD_SUCCESS` actions, and the
    actions `mutateAsync` dispatches around one awaited call of the mutation
    function.  The React plumbing (`useReducer`, `useRef`, `useCallback`) is
    not modelled: dispatching is applying the reducer. */
module Mutation {
  import opened JsValues

  datatype MutationState = MutationState(isLoading: bool, data: JsValue, error: JsValue)

  /** `initialState`. */
  const InitialState := MutationState(false, Undefined, Undefined)

  const LOAD := Str("LOAD")
  const LOAD_ERROR := Str("LOAD_ERROR")
  const LOAD_SUCCESS := Str("LOAD_SUCCESS")

  /** An action object; a property it lacks reads as `undefined`. */
  datatype Action = Action(kind: JsValue, data: JsValue, error: JsValue)

  /** `reducer(state, action)`, read field by field: `isLoading` is set by
      `LOAD` and cleared by either completion, `error` is cleared by `LOAD`
      and set by `LOAD_ERROR`, `data` is set by `LOAD_SUCCESS` alone, and any
      other action type leaves the state as it was. */
  function Reducer(state: MutationState, action: Action): (r: MutationState)
    ensures r.isLoading == (if action.kind == LOAD then true
                            else if action.kind == LOAD_ERROR || action.kind == LOAD_SUCCESS then false
                            else state.isLoading)
    ensures r.error == (if action.kind == LOAD then Undefined
                        else if action.kind == LOAD_ERROR then action.error
                        else state.error)
    ensures r.data == (if action.kind == LOAD_SUCCESS then action.data else state.data)
  {
    if action.kind == LOAD then state.(isLoading := true, error := Undefined)
    else if action.kind == LOAD_ERROR then state.(isLoading := false, error := action.error)
    else if action.kind == LOAD_SUCCESS then state.(isLoading := false, data := action.data)
    else state
  }

  /** An action type the reducer does not know is a no-op. */
  lemma UnknownActionIgnored(state: MutationState, action: Action)
    requires action.kind != LOAD && action.kind != LOAD_ERROR && action.kind != LOAD_SUCCESS
    ensures Reducer(state, action) == state
  {
  }

  /** The states after each dispatch of `actions`, starting from `state`
      (which is included first). */
  function States(state: MutationState, actions: seq<Action>): (trace: seq<MutationState>)
    ensures |trace| == |actions| + 1 && trace[0] == state
    ensures forall i :: 0 <= i < |actions| ==> trace[i + 1] == Reducer(trace[i], actions[i])
    decreases actions
  {
    if actions == [] then [state]
    else [state] + States(Reducer(state, actions[0]), actions[1..])
  }

  /** What one `mutateAsync(params)` call does, given how the awaited call of
      the mutation function settles. */
  datatype Mutated = Mutated(dispatched: seq<Action>, result: Outcome)

  function MutateAsync(outcome: Outcome): (m: Mutated)
    ensures |m.dispatched| == 2 && m.dispatched[0].kind == LOAD
    ensures outcome.Fulfilled? ==>
      m.dispatched[1] == Action(LOAD_SUCCESS, outcome.value, Undefined) && m.result == outcome
    ensures outcome.Rejected? ==>
      m.dispatched[1] == Action(LOAD_ERROR, Undefined, outcome.reason) && m.result == outcome
  {
    var load := Action(LOAD, Undefined, Undefined);
    match outcome
    case Fulfilled(data) => Mutated([load, Action(LOAD_SUCCESS, data, Undefined)], Fulfilled(data))
    case Rejected(error) => Mutated([load, Action(LOAD_ERROR, Undefined, error)], Rejected(error))
  }

  /** From any state, one mutation passes through loading and ends not
      loading: on success with the new data and no error (the `LOAD` cleared
      it), on failure with the error and the data it had before. */
  lemma MutationEndsSettled(state: MutationState, outcome: Outcome)
    ensures var trace := States(state, MutateAsync(outcome).dispatched);
      |trace| == 3 &&
      trace[1] == MutationState(true, state.data, Undefined) &&
      (outcome.Fulfilled? ==> trace[2] == MutationState(false, outcome.value, Undefined)) &&
      (outcome.Rejected? ==> trace[2] == MutationState(false, state.data, outcome.reason))
  {
  }

  /** The successful trace from the initial state:
      `{false, undefined, undefined}`, `{true, undefined, undefined}`,
      `{false, data, undefined}`. */
  lemma SuccessTrace(data: JsValue)
    ensures States(InitialState, MutateAsync(Fulfilled(data)).dispatched)
         == [InitialState, MutationState(true, Undefined, Undefined), MutationState(false, data, Undefined)]
  {
    MutationEndsSettled(InitialState, Fulfilled(data));
  }

  /** The failing trace from the initial state:
      `{false, undefined, undefined}`, `{true, undefined, undefined}`,
      `{false, undefined, error}`. */
  lemma FailureTrace(error: JsValue)
    ensures States(InitialState, MutateAsync(Rejected(error)).dispatched)
         == [InitialState, MutationState(true, Undefined, Undefined), MutationState(false, Undefined, error)]
  {
    MutationEndsSettled(InitialState, Rejected(error));
  }
}
