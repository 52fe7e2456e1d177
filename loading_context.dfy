/** The `loadingReducer` of `client/src/context/LoadingContext.tsx`: a map from an
    operation's name to whether it is loading. */
module LoadingFlags {

  type LoadingState = map<string, bool>

  /** The dispatched action; `Unrecognised` is any other action type, which falls to the
      `default` branch. */
  datatype LoadingAction = StartLoading(payload: string) | StopLoading(payload: string) | Unrecognised

  /** `loadingReducer`. */
  function Reduce(state: LoadingState, action: LoadingAction): (r: LoadingState)
    ensures action.StartLoading? ==> action.payload in r && r[action.payload]
    ensures action.StopLoading? ==> action.payload in r && !r[action.payload]
    ensures action.Unrecognised? ==> r == state
    ensures forall k :: k in state && !Touches(action, k) ==> k in r && r[k] == state[k]
    ensures r.Keys == state.Keys + (if action.Unrecognised? then {} else {action.payload})
  {
    match action
    case StartLoading(p) => state[p := true]
    case StopLoading(p) => state[p := false]
    case Unrecognised => state
  }

  /** The state after dispatching every action in order. */
  function ReduceAll(state: LoadingState, actions: seq<LoadingAction>): LoadingState
    decreases |actions|
  {
    if actions == [] then state else ReduceAll(Reduce(state, actions[0]), actions[1..])
  }

  /** Whether an action names key `k`. */
  predicate Touches(a: LoadingAction, k: string)
  {
    !a.Unrecognised? && a.payload == k
  }

  /** Dispatching the same action twice is dispatching it once. */
  lemma ReduceIdempotent(state: LoadingState, a: LoadingAction)
    ensures Reduce(Reduce(state, a), a) == Reduce(state, a)
  {
  }

  lemma {:induction false} ReduceAllConcat(state: LoadingState, a: seq<LoadingAction>, b: seq<LoadingAction>)
    ensures ReduceAll(state, a + b) == ReduceAll(ReduceAll(state, a), b)
    decreases |a|
  {
    if a == [] {
      assert a + b == b;
    } else {
      assert (a + b)[0] == a[0] && (a + b)[1..] == a[1..] + b;
      ReduceAllConcat(Reduce(state, a[0]), a[1..], b);
    }
  }

  /** Actions on other keys leave a key's flag, or its absence, as it was. */
  lemma {:induction false} OtherKeysUntouched(state: LoadingState, actions: seq<LoadingAction>, k: string)
    requires forall i :: 0 <= i < |actions| ==> !Touches(actions[i], k)
    ensures k in ReduceAll(state, actions) <==> k in state
    ensures k in state ==> ReduceAll(state, actions)[k] == state[k]
    decreases |actions|
  {
    if actions != [] {
      assert !Touches(actions[0], k);
      OtherKeysUntouched(Reduce(state, actions[0]), actions[1..], k);
    }
  }

  /** The last action naming a key decides its flag: START makes it true, STOP false. */
  lemma LastActionWins(state: LoadingState, before: seq<LoadingAction>, a: LoadingAction,
                       after: seq<LoadingAction>)
    requires !a.Unrecognised?
    requires forall i :: 0 <= i < |after| ==> !Touches(after[i], a.payload)
    ensures var final := ReduceAll(state, before + [a] + after);
            a.payload in final && final[a.payload] == a.StartLoading?
  {
    ReduceAllConcat(state, before + [a], after);
    ReduceAllConcat(state, before, [a]);
    var mid := ReduceAll(state, before + [a]);
    assert mid == Reduce(ReduceAll(state, before), a);
    OtherKeysUntouched(mid, after, a.payload);
  }

  /** The reducer never drops a key: the keys afterwards are the keys before and the
      keys the actions named. */
  lemma {:induction false} KeysOnlyGrow(state: LoadingState, actions: seq<LoadingAction>)
    ensures ReduceAll(state, actions).Keys
            == state.Keys + set i | 0 <= i < |actions| && !actions[i].Unrecognised? :: actions[i].payload
    decreases |actions|
  {
    if actions != [] {
      KeysOnlyGrow(Reduce(state, actions[0]), actions[1..]);
      var named := set i | 0 <= i < |actions| && !actions[i].Unrecognised? :: actions[i].payload;
      var rest := set i | 0 <= i < |actions[1..]| && !actions[1..][i].Unrecognised? :: actions[1..][i].payload;
      var head: set<string> := if actions[0].Unrecognised? then {} else {actions[0].payload};
      assert named == head + rest by {
        forall x | x in named ensures x in head + rest {
          var i :| 0 <= i < |actions| && !actions[i].Unrecognised? && actions[i].payload == x;
          if i > 0 {
            assert actions[1..][i - 1] == actions[i];
          }
        }
        forall x | x in rest ensures x in named {
          var i :| 0 <= i < |actions[1..]| && !actions[1..][i].Unrecognised? && actions[1..][i].payload == x;
          assert actions[i + 1] == actions[1..][i];
        }
      }
    }
  }
}
