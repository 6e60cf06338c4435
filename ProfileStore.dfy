/**
 * The root state held in place, as the store for `ProfileReducer` holds it:
 * the reducer updates its fields directly (`path.append`, `userProfile = …`).
 * Each method is proved to have the effect of the matching function of
 * `ProfileFeature` on the state before the call.
 */
module ProfileStore {
  import opened Models
  import opened StackStates
  import SettingsFeature
  import DetailFeature
  import opened ProfileFeature

  class Store {
    var userProfile: UserProfile
    var settingsState: SettingsFeature.State
    var detailState: DetailFeature.State
    var path: seq<(StackId, PathState)>
    var nextId: StackId

    /** The root state these fields hold. */
    function Current(): ProfileFeature.State
      reads this
    {
      ProfileFeature.State(userProfile, settingsState, detailState, StackState(path, nextId))
    }

    /** The stack's ids are distinct and below the id counter. */
    ghost predicate Valid()
      reads this
    {
      StackStates.Valid(Current().path)
    }

    /** `Store(initialState: ProfileReducer.State())`. */
    constructor ()
      ensures Valid() && Current() == Initial()
    {
      userProfile := EmptyProfile;
      settingsState := SettingsFeature.Initial;
      detailState := DetailFeature.Initial;
      path := [];
      nextId := 0;
    }

    /**
     * The root `Reduce` closure run in place. It sends nothing, pushes only
     * for `ToSetting` / `ToDetail` (earlier entries untouched) and sets the
     * profile only to one that a Settings screen delegated.
     */
    method Reduce(action: Action) returns (effects: seq<Action>)
      requires Valid()
      modifies this
      ensures Valid()
      ensures Current() == ProfileFeature.Reduce(old(Current()), action).state
      ensures effects == ProfileFeature.Reduce(old(Current()), action).effects
      ensures settingsState == old(settingsState) && detailState == old(detailState)
      ensures |path| >= |old(path)| && path[..|old(path)|] == old(path)
    {
      effects := [];
      match action
      case ToSetting =>
        path := path + [(nextId, PathState.Settings(SettingsFeature.Initial))];
        nextId := nextId + 1;
      case ToDetail =>
        path := path + [(nextId, PathState.Detail(DetailFeature.Initial))];
        nextId := nextId + 1;
      case Settings(settingsAction) =>
        if settingsAction.UpdateProfile? {
          userProfile := settingsAction.profile;
        }
      case Detail(_) =>
      case Path(stackAction) =>
        if stackAction.Element? && stackAction.action.Settings? && stackAction.action.settingsAction.UpdateProfile? {
          userProfile := stackAction.action.settingsAction.profile;
        }
    }

    /**
     * One action through the whole reducer body, in place: an element action
     * first runs that entry's reducer and stores the entry's new state, then
     * the root closure runs. `None`, with nothing changed, for the actions
     * outside the model.
     */
    method Send(action: Action) returns (result: Option<seq<Action>>)
      requires Valid()
      modifies this
      ensures Valid()
      ensures Body(old(Current()), action).None? ==> result == None && Current() == old(Current())
      ensures Body(old(Current()), action).Some? ==>
                && Current() == Body(old(Current()), action).value.state
                && result == Some(Body(old(Current()), action).value.effects)
    {
      if !action.Path? {
        var effects := Reduce(action);
        return Some(effects);
      }
      if !action.stackAction.Element? {
        return None;
      }
      var id := action.stackAction.id;
      var found := IndexOf(path, id);
      if found.None? {
        return None;
      }
      var i := found.value;
      var child := PathReduce(path[i].1, action.stackAction.action);
      if child.None? {
        return None;
      }
      path := path[i := (id, child.value.state)];
      var parentEffects := Reduce(action);
      result := Some(WrapElement(id, child.value.effects) + parentEffects);
    }
  }
}
