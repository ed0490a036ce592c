/**
 * The application state of `src/context/AppContext.tsx`: the list of saved
 * yield predictions, the prediction currently shown, and the reducer that
 * the three actions go through.
 *
 * The reducer builds new state values and changes nothing in place, so it is
 * a function here. JavaScript compares predictions by object identity
 * (`p === state.currentPrediction`); a Dafny datatype only has structural
 * equality, so every prediction carries an explicit `id` standing for the
 * object it is. `UPDATE_ENERGY_DATA` creates a new object; its identity is
 * the parameter `freshId`, which the caller draws from an allocator.
 */
module AppContext {
  import opened Wrappers

  /** The energy figures that can be attached to a prediction. */
  datatype EnergyData = EnergyData(
    irrigationHours: real,
    fertilizerUsage: real,
    energyType: string,
    efficiencyScore: real)

  /** A saved prediction; `id` is the identity of the JavaScript object. */
  datatype PredictionData = PredictionData(
    id: nat,
    crop: string,
    location: string,
    season: string,
    predictedYield: real,
    energyData: Option<EnergyData>)

  datatype AppState = AppState(
    predictions: seq<PredictionData>,
    currentPrediction: Option<PredictionData>)

  /**
   * The three actions of the application, and any other `type` tag a caller
   * might dispatch at run time, which the reducer's `default` branch handles.
   */
  datatype AppAction =
    | AddPrediction(payload: PredictionData)
    | SetCurrentPrediction(payload: PredictionData)
    | UpdateEnergyData(energy: Option<EnergyData>)
    | Unrecognised(kind: string)

  const InitialState: AppState := AppState([], None)

  /** `{ ...p, energyData: e }` as a new object with identity `freshId`. */
  function WithEnergy(p: PredictionData, e: Option<EnergyData>, freshId: nat): (q: PredictionData)
    ensures q.id == freshId && q.energyData == e
    ensures q.crop == p.crop && q.location == p.location
    ensures q.season == p.season && q.predictedYield == p.predictedYield
  {
    p.(id := freshId, energyData := e)
  }

  /** `ps.map(p => p === target ? replacement : p)`, identity being the `id`. */
  function ReplaceIdentical(ps: seq<PredictionData>, target: PredictionData, replacement: PredictionData)
    : (r: seq<PredictionData>)
    ensures |r| == |ps|
    ensures forall i :: 0 <= i < |ps| && ps[i].id == target.id ==> r[i] == replacement
    ensures forall i :: 0 <= i < |ps| && ps[i].id != target.id ==> r[i] == ps[i]
  {
    if ps == [] then []
    else [if ps[0].id == target.id then replacement else ps[0]]
         + ReplaceIdentical(ps[1..], target, replacement)
  }

  /** `appReducer`: the state after one action. */
  function AppReducer(state: AppState, action: AppAction, freshId: nat): (r: AppState)
    ensures action.AddPrediction? ==>
      && |r.predictions| == |state.predictions| + 1
      && r.predictions[..|state.predictions|] == state.predictions
      && r.predictions[|state.predictions|] == action.payload
      && r.currentPrediction == Some(action.payload)
    ensures action.SetCurrentPrediction? ==>
      r.predictions == state.predictions && r.currentPrediction == Some(action.payload)
    ensures action.UpdateEnergyData? && state.currentPrediction.None? ==> r == state
    ensures action.UpdateEnergyData? && state.currentPrediction.Some? ==>
      var old_ := state.currentPrediction.value;
      && r.currentPrediction.Some?
      && r.currentPrediction.value == WithEnergy(old_, action.energy, freshId)
      && |r.predictions| == |state.predictions|
      && (forall i :: 0 <= i < |state.predictions| && state.predictions[i].id == old_.id ==>
            r.predictions[i] == r.currentPrediction.value)
      && (forall i :: 0 <= i < |state.predictions| && state.predictions[i].id != old_.id ==>
            r.predictions[i] == state.predictions[i])
    ensures action.Unrecognised? ==> r == state
  {
    match action
    case AddPrediction(p) =>
      state.(predictions := state.predictions + [p], currentPrediction := Some(p))
    case SetCurrentPrediction(p) =>
      state.(currentPrediction := Some(p))
    case UpdateEnergyData(e) =>
      if state.currentPrediction.None? then state
      else
        var updated := WithEnergy(state.currentPrediction.value, e, freshId);
        state.(currentPrediction := Some(updated),
               predictions := ReplaceIdentical(state.predictions, state.currentPrediction.value, updated))
    case Unrecognised(_) =>
      state
  }

  /** Every object identity in use: the listed predictions and the current one. */
  function Ids(state: AppState): (ids: set<nat>)
    ensures forall i :: 0 <= i < |state.predictions| ==> state.predictions[i].id in ids
    ensures state.currentPrediction.Some? ==> state.currentPrediction.value.id in ids
    ensures forall id :: id in ids ==>
      (exists i :: 0 <= i < |state.predictions| && state.predictions[i].id == id)
      || (state.currentPrediction.Some? && state.currentPrediction.value.id == id)
  {
    (set i | 0 <= i < |state.predictions| :: state.predictions[i].id)
    + (if state.currentPrediction.Some? then {state.currentPrediction.value.id} else {})
  }

  /**
   * Identities are faithful: one object has one content, so two entries with
   * the same identity, or an entry and the current prediction with the same
   * identity, are equal.
   */
  ghost predicate Consistent(state: AppState)
  {
    && (forall i, j ::
          (0 <= i < |state.predictions| && 0 <= j < |state.predictions|
           && state.predictions[i].id == state.predictions[j].id) ==>
          state.predictions[i] == state.predictions[j])
    && (state.currentPrediction.Some? ==>
          forall i ::
            (0 <= i < |state.predictions| && state.predictions[i].id == state.currentPrediction.value.id) ==>
            state.predictions[i] == state.currentPrediction.value)
  }

  /** A payload that reuses an object already in the state is that object. */
  ghost predicate AgreesWith(p: PredictionData, state: AppState)
  {
    && (forall i :: 0 <= i < |state.predictions| && state.predictions[i].id == p.id ==>
          state.predictions[i] == p)
    && (state.currentPrediction.Some? && state.currentPrediction.value.id == p.id ==>
          state.currentPrediction.value == p)
  }

  /** What a caller guarantees: payloads are real objects and a fresh identity is unused. */
  ghost predicate Admissible(state: AppState, action: AppAction, freshId: nat)
  {
    match action
    case AddPrediction(p) => AgreesWith(p, state)
    case SetCurrentPrediction(p) => AgreesWith(p, state)
    case UpdateEnergyData(_) => freshId !in Ids(state)
    case Unrecognised(_) => true
  }

  /** The initial state has no predictions and no current prediction, and is consistent. */
  lemma InitialStateIsEmpty()
    ensures InitialState.predictions == [] && InitialState.currentPrediction == None
    ensures Consistent(InitialState)
    ensures Ids(InitialState) == {}
  {
  }

  /** Every admissible action keeps identities faithful. */
  lemma ReducerPreservesConsistency(state: AppState, action: AppAction, freshId: nat)
    requires Consistent(state)
    requires Admissible(state, action, freshId)
    ensures Consistent(AppReducer(state, action, freshId))
  {
  }

  /**
   * Updating the energy data of a listed current prediction leaves the new
   * current prediction listed, in the same place.
   */
  lemma UpdatedCurrentStaysListed(state: AppState, e: Option<EnergyData>, freshId: nat, i: nat)
    requires state.currentPrediction.Some?
    requires i < |state.predictions| && state.predictions[i] == state.currentPrediction.value
    ensures var r := AppReducer(state, UpdateEnergyData(e), freshId);
      r.currentPrediction.Some? && r.predictions[i] == r.currentPrediction.value
  {
  }

  /**
   * After an update with a fresh identity, the old current object is gone
   * from the list: every entry that was it has been replaced.
   */
  lemma OldCurrentNoLongerListed(state: AppState, e: Option<EnergyData>, freshId: nat)
    requires state.currentPrediction.Some?
    requires freshId !in Ids(state)
    ensures var r := AppReducer(state, UpdateEnergyData(e), freshId);
      forall i :: 0 <= i < |r.predictions| ==> r.predictions[i].id != state.currentPrediction.value.id
  {
  }

  /**
   * Identity, not look-alike content, decides which entries an update
   * touches: an entry equal to the current prediction in every field but its
   * identity keeps its old energy data.
   */
  lemma LookAlikeUntouched(state: AppState, e: Option<EnergyData>, freshId: nat, i: nat)
    requires state.currentPrediction.Some?
    requires i < |state.predictions|
    requires state.predictions[i] == state.currentPrediction.value.(id := state.predictions[i].id)
    requires state.predictions[i].id != state.currentPrediction.value.id
    ensures AppReducer(state, UpdateEnergyData(e), freshId).predictions[i] == state.predictions[i]
  {
  }
}
