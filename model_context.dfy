/** The model state of `client/src/context/ModelContext.tsx`: its reducer, and the
    dispatch sequences `updateSettings` and `refreshStatus` run against the server's
    answer. */
module ModelState {
  import opened Wrappers
  import opened Constants

  /** The client's `ModelSettings`. */
  datatype ModelSettings = ModelSettings(
    temperature: real,
    topP: real,
    maxTokens: int,
    frequencyPenalty: real,
    presencePenalty: real,
    stopSequences: seq<string>)

  /** `ModelState`. `settings` is `None` once an `UPDATE_SETTINGS` carries `undefined`. */
  datatype State = State(status: ModelStatus, settings: Option<ModelSettings>, isInitialized: bool,
                         error: Option<string>)

  /** `ModelAction`, with `Unrecognised` for any other action type. */
  datatype Action =
    | SetStatus(status: ModelStatus)
    | UpdateSettings(settings: Option<ModelSettings>)
    | SetError(message: string)
    | ClearError
    | SetInitialized(flag: bool)
    | Unrecognised

  function DefaultSettings(): ModelSettings
  {
    ModelSettings(0.7, 0.9, 512, 0.0, 0.0, [])
  }

  /** `initialState`. */
  function Initial(): (s: State)
    ensures s.status == STOPPED && !s.isInitialized && s.error == None
    ensures s.settings == Some(DefaultSettings())
    ensures s.settings.value.temperature == 0.7 && s.settings.value.maxTokens == 512
            && s.settings.value.topP == 0.9 && s.settings.value.stopSequences == []
  {
    State(STOPPED, Some(DefaultSettings()), false, None)
  }

  /** The reducer: every action sets its own field and leaves the other three alone. */
  function Reduce(s: State, a: Action): (r: State)
    ensures a.SetStatus? ==> r == s.(status := a.status)
    ensures a.UpdateSettings? ==> r == s.(settings := a.settings)
    ensures a.SetError? ==> r == s.(error := Some(a.message))
    ensures a.ClearError? ==> r == s.(error := None)
    ensures a.SetInitialized? ==> r == s.(isInitialized := a.flag)
    ensures a.Unrecognised? ==> r == s
    ensures !a.SetStatus? ==> r.status == s.status
    ensures !a.UpdateSettings? ==> r.settings == s.settings
    ensures !(a.SetError? || a.ClearError?) ==> r.error == s.error
    ensures !a.SetInitialized? ==> r.isInitialized == s.isInitialized
  {
    match a
    case SetStatus(st) => s.(status := st)
    case UpdateSettings(st) => s.(settings := st)
    case SetError(m) => s.(error := Some(m))
    case ClearError => s.(error := None)
    case SetInitialized(f) => s.(isInitialized := f)
    case Unrecognised => s
  }

  function ReduceAll(s: State, actions: seq<Action>): State
    decreases |actions|
  {
    if actions == [] then s else ReduceAll(Reduce(s, actions[0]), actions[1..])
  }

  /** The body of `POST /model/settings` as the client reads it. */
  datatype SettingsResponse = SettingsResponse(settings: Option<ModelSettings>)

  /** The body of `GET /model/status` as the client reads it. */
  datatype StatusResponse = StatusResponse(status: ModelStatus, settings: Option<ModelSettings>)

  /** The actions `updateSettings` dispatches, given the answer (`None`: the request
      threw). */
  function UpdateSettingsActions(response: Option<SettingsResponse>): seq<Action>
  {
    match response
    case Some(r) => [ClearError, UpdateSettings(r.settings)]
    case None => [ClearError, SetError("Failed to update settings")]
  }

  /** The actions `refreshStatus` dispatches, given the answer (`None`: the request
      threw). */
  function RefreshStatusActions(response: Option<StatusResponse>): seq<Action>
  {
    match response
    case Some(r) => [ClearError, SetStatus(r.status)] + (if r.settings.Some? then [UpdateSettings(r.settings)] else [])
    case None => [ClearError, SetError("Failed to fetch model status")]
  }

  /** Dispatching two actions. */
  lemma ReduceTwo(s: State, a: Action, b: Action)
    ensures ReduceAll(s, [a, b]) == Reduce(Reduce(s, a), b)
  {
    assert [a, b][1..] == [b];
    assert [b][1..] == [];
    assert ReduceAll(s, [a, b]) == ReduceAll(Reduce(s, a), [b]);
    assert ReduceAll(Reduce(s, a), [b]) == ReduceAll(Reduce(Reduce(s, a), b), []);
  }

  /** `updateSettings` ends with no error and the answer's settings, or with the failure
      message and the settings it started with; status and the initialized flag never
      change. */
  lemma UpdateSettingsOutcome(s: State, response: Option<SettingsResponse>)
    ensures var r := ReduceAll(s, UpdateSettingsActions(response));
            && r.status == s.status && r.isInitialized == s.isInitialized
            && (response.Some? ==> r.error == None && r.settings == response.value.settings)
            && (response.None? ==> r.error == Some("Failed to update settings") && r.settings == s.settings)
  {
    var acts := UpdateSettingsActions(response);
    assert acts == [acts[0], acts[1]];
    ReduceTwo(s, acts[0], acts[1]);
  }

  /** `refreshStatus` sets the status from any answer and the settings only when the
      answer carries them; on failure it records the message and keeps status and
      settings. */
  lemma RefreshStatusOutcome(s: State, response: Option<StatusResponse>)
    ensures var r := ReduceAll(s, RefreshStatusActions(response));
            && r.isInitialized == s.isInitialized
            && (response.Some? ==>
                  && r.error == None && r.status == response.value.status
                  && r.settings == (if response.value.settings.Some? then response.value.settings else s.settings))
            && (response.None? ==>
                  r.error == Some("Failed to fetch model status") && r.status == s.status && r.settings == s.settings)
  {
    var acts := RefreshStatusActions(response);
    var s2 := Reduce(Reduce(s, acts[0]), acts[1]);
    assert ReduceAll(s, acts) == ReduceAll(s2, acts[2..]) by {
      assert acts[1..][1..] == acts[2..];
    }
    if response.Some? && response.value.settings.Some? {
      assert acts[2..] == [UpdateSettings(response.value.settings)];
      assert ReduceAll(s2, acts[2..]) == Reduce(s2, acts[2]) by {
        assert acts[2..][1..] == [];
      }
    } else {
      assert acts[2..] == [];
    }
  }

  /** `refreshStatus` as written. `ApiService` in `client/src/services/api.ts` defines
      no `getModelStatus`, so the call reads `undefined`, throws a `TypeError` inside the
      `try`, and every run takes the failure path whatever the server would answer. */
  function RefreshStatusAsWritten(s: State): (r: State)
    ensures r.error == Some("Failed to fetch model status")
    ensures r.status == s.status && r.settings == s.settings && r.isInitialized == s.isInitialized
  {
    RefreshStatusOutcome(s, None);
    ReduceAll(s, RefreshStatusActions(None))
  }

  /** As written the provider never adopts a status from the server: an answer with a
      different status is not what a refresh leaves behind, and the check run on mount
      leaves the initial state STOPPED with the failure message. */
  lemma AsWrittenNeverAdoptsStatus(s: State, response: StatusResponse)
    requires response.status != s.status
    ensures RefreshStatusAsWritten(s) != ReduceAll(s, RefreshStatusActions(Some(response)))
    ensures RefreshStatusAsWritten(Initial()).status == STOPPED
    ensures RefreshStatusAsWritten(Initial()).error == Some("Failed to fetch model status")
  {
    RefreshStatusOutcome(s, Some(response));
  }

  /** The provider holding the reducer's state. */
  class ModelProvider {
    var state: State

    constructor ()
      ensures state == Initial()
    {
      state := Initial();
    }

    method Dispatch(a: Action)
      modifies this
      ensures state == Reduce(old(state), a)
    {
      state := Reduce(state, a);
    }

    /** `updateSettings(settings)`; `response` is what `updateModelSettings` answered,
        `None` when it threw. */
    method UpdateSettingsCall(settings: ModelSettings, response: Option<SettingsResponse>)
      modifies this
      ensures state == ReduceAll(old(state), UpdateSettingsActions(response))
      ensures state.status == old(state).status && state.isInitialized == old(state).isInitialized
      ensures response.Some? ==> state.error == None && state.settings == response.value.settings
      ensures response.None? ==> state.error == Some("Failed to update settings") && state.settings == old(state).settings
    {
      ghost var s0 := state;
      UpdateSettingsOutcome(s0, response);
      Dispatch(ClearError);
      if response.Some? {
        Dispatch(UpdateSettings(response.value.settings));
      } else {
        Dispatch(SetError("Failed to update settings"));
      }
      assert UpdateSettingsActions(response)[1..][1..] == [];
    }

    /** `refreshStatus()` with a working `getModelStatus`: `response` is what it
        answered, `None` when it threw. */
    method RefreshStatus(response: Option<StatusResponse>)
      modifies this
      ensures state == ReduceAll(old(state), RefreshStatusActions(response))
      ensures state.isInitialized == old(state).isInitialized
      ensures response.Some? ==> state.error == None && state.status == response.value.status
      ensures response.Some? ==>
                state.settings == if response.value.settings.Some? then response.value.settings else old(state).settings
      ensures response.None? ==>
                state.error == Some("Failed to fetch model status")
                && state.status == old(state).status && state.settings == old(state).settings
    {
      ghost var s0 := state;
      RefreshStatusOutcome(s0, response);
      ghost var acts := RefreshStatusActions(response);
      Dispatch(ClearError);
      if response.Some? {
        Dispatch(SetStatus(response.value.status));
        if response.value.settings.Some? {
          Dispatch(UpdateSettings(response.value.settings));
          assert acts[1..][1..][1..] == [];
        } else {
          assert acts[1..][1..] == [];
        }
      } else {
        Dispatch(SetError("Failed to fetch model status"));
        assert acts[1..][1..] == [];
      }
    }
  }
}
