/** The client-side store of the portfolio pages
    (frontend/src/contexts/PortfolioContext.jsx): a record of five slots and
    the reducer that answers each dispatched action with a new record. */
module PortfolioStore {

  /** A JavaScript value as the reducer receives it in a payload. */
  datatype Value = Null | Bool(b: bool) | Num(n: real) | Str(s: string)
                 | Obj(fields: map<string, Value>) | Arr(items: seq<Value>)

  datatype PortfolioState = PortfolioState(portfolio: Value, stats: Value, userDetails: Value,
                                           loading: Value, error: Value)

  datatype Action = Action(kind: string, payload: Value)

  const SetLoading := "SET_LOADING"
  const SetError := "SET_ERROR"
  const SetPortfolio := "SET_PORTFOLIO"
  const SetUserDetails := "SET_USER_DETAILS"
  const SetStats := "SET_STATS"
  const ClearState := "CLEAR_STATE"

  /** Lines 7-12: every count zero, every list and map empty. */
  const InitialStats: Value := Obj(map[
    "projects" := Obj(map["total" := Num(0.0), "by_status" := Obj(map[]), "recent_projects" := Arr([]),
                          "public_projects_count" := Num(0.0)]),
    "time" := Obj(map["total_hours" := Num(0.0), "billable_hours" := Num(0.0), "hours_by_day" := Arr([])]),
    "invoices" := Obj(map["total_invoiced" := Num(0.0), "total_paid" := Num(0.0)]),
    "clients" := Num(0.0)])

  /** Lines 5-16: nothing loaded yet, loading, no error. */
  const InitialState := PortfolioState(Null, InitialStats, Null, Bool(true), Null)

  /** Lines 18-35. */
  function Reduce(s: PortfolioState, a: Action): (r: PortfolioState)
    ensures a.kind == SetLoading ==> r == s.(loading := a.payload)
    ensures a.kind == SetError ==> r == s.(error := a.payload, loading := Bool(false))
    ensures a.kind == SetPortfolio ==> r == s.(portfolio := a.payload)
    ensures a.kind == SetUserDetails ==> r == s.(userDetails := a.payload)
    ensures a.kind == SetStats ==> r == s.(stats := a.payload)
    ensures a.kind == ClearState ==> r == InitialState
    ensures a.kind !in {SetLoading, SetError, SetPortfolio, SetUserDetails, SetStats, ClearState} ==> r == s
  {
    match a.kind
    case "SET_LOADING" => s.(loading := a.payload)
    case "SET_ERROR" => s.(error := a.payload, loading := Bool(false))
    case "SET_PORTFOLIO" => s.(portfolio := a.payload)
    case "SET_USER_DETAILS" => s.(userDetails := a.payload)
    case "SET_STATS" => s.(stats := a.payload)
    case "CLEAR_STATE" => InitialState
    case _ => s
  }

  /** The state after dispatching `actions` in order. */
  function ReduceAll(s: PortfolioState, actions: seq<Action>): PortfolioState
    decreases |actions|
  {
    if actions == [] then s else ReduceAll(Reduce(s, actions[0]), actions[1..])
  }

  /** Dispatching one more action reduces the state the others left. */
  lemma {:induction false} ReduceAllSnoc(s: PortfolioState, actions: seq<Action>, a: Action)
    ensures ReduceAll(s, actions + [a]) == Reduce(ReduceAll(s, actions), a)
    decreases |actions|
  {
    if actions != [] {
      assert (actions + [a])[1..] == actions[1..] + [a];
      ReduceAllSnoc(Reduce(s, actions[0]), actions[1..], a);
    }
  }

  /** Clearing forgets everything dispatched before. */
  lemma ClearForgetsHistory(s: PortfolioState, t: PortfolioState, a: Action)
    requires a.kind == ClearState
    ensures Reduce(s, a) == Reduce(t, a) == InitialState
  {
  }

  /** Each setter is idempotent. */
  lemma ReduceTwiceSame(s: PortfolioState, a: Action)
    ensures Reduce(Reduce(s, a), a) == Reduce(s, a)
  {
  }

  /** Only the two actions that own it change the error. */
  predicate TouchesError(a: Action)
  {
    a.kind == SetError || a.kind == ClearState
  }

  /** However many other actions are dispatched, the error stays as it
      was: in particular a non-null error is never reset by them. */
  lemma {:induction false} ErrorKeptByOthers(s: PortfolioState, actions: seq<Action>)
    requires forall i :: 0 <= i < |actions| ==> !TouchesError(actions[i])
    ensures ReduceAll(s, actions).error == s.error
    decreases |actions|
  {
    if actions != [] {
      ErrorKeptByOthers(Reduce(s, actions[0]), actions[1..]);
    }
  }

  /** After an error is set, loading stays false until a `SET_LOADING`
      or a `CLEAR_STATE` comes. */
  lemma {:induction false} LoadingStaysOffAfterError(s: PortfolioState, actions: seq<Action>)
    requires s.loading == Bool(false)
    requires forall i :: 0 <= i < |actions| ==> actions[i].kind != SetLoading && actions[i].kind != ClearState
    ensures ReduceAll(s, actions).loading == Bool(false)
    decreases |actions|
  {
    if actions != [] {
      LoadingStaysOffAfterError(Reduce(s, actions[0]), actions[1..]);
    }
  }
}
