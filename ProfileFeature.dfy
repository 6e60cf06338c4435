/**
 * The root Profile reducer: it owns the profile shown on the root screen and
 * the navigation stack of Settings and Detail screens, pushes screens on
 * `ToSetting` / `ToDetail`, and takes over any profile a Settings screen
 * delegates upwards. Also here: the routing of a stack entry's actions to
 * that entry's own reducer.
 */
module ProfileFeature {
  import opened Models
  import opened StackStates
  import SettingsFeature
  import DetailFeature

  /** `Path.State`: the screen state held by one stack entry. */
  datatype PathState = Settings(settings: SettingsFeature.State) | Detail(detail: DetailFeature.State)

  /** `Path.Action`: an action for one stack entry's screen. */
  datatype PathAction = Settings(settingsAction: SettingsFeature.Action) | Detail(detailAction: DetailFeature.Action)

  /** `StackActionOf<Path>`: an action addressed to an entry, or a pop or a push of the stack. */
  datatype StackAction =
    | Element(id: StackId, action: PathAction)
    | PopFrom(id: StackId)
    | Push(id: StackId, state: PathState)

  /**
   * The root state. `settingsState` and `detailState` are declared by the
   * source but never given to a child reducer: they stay inert.
   */
  datatype State = State(
    userProfile: UserProfile,
    settingsState: SettingsFeature.State,
    detailState: DetailFeature.State,
    path: StackState<PathState>)

  datatype Action =
    | Settings(settingsAction: SettingsFeature.Action)
    | Detail(detailAction: DetailFeature.Action)
    | Path(stackAction: StackAction)
    | ToSetting
    | ToDetail

  /** `ProfileReducer.State()`: empty profile, default child states, empty stack. */
  function Initial(): (s: State)
    ensures s.userProfile == UserProfile("", "")
    ensures s.path.entries == [] && Valid(s.path)
    ensures s.settingsState == SettingsFeature.Initial && s.detailState == DetailFeature.Initial
  {
    State(EmptyProfile, SettingsFeature.Initial, DetailFeature.Initial, Empty())
  }

  /**
   * The profile carried by a Settings `UpdateProfile`, whether it arrives on
   * the `settings` case or as the action of any stack element (whatever its id).
   */
  function DelegatedProfile(a: Action): Option<UserProfile>
  {
    if a.Settings? && a.settingsAction.UpdateProfile? then Some(a.settingsAction.profile)
    else if a.Path? && a.stackAction.Element? && a.stackAction.action.Settings?
         && a.stackAction.action.settingsAction.UpdateProfile?
    then Some(a.stackAction.action.settingsAction.profile)
    else None
  }

  /**
   * The root `Reduce` closure. It never sends anything, never touches the two
   * inert child states, only pushes onto the stack (and only for `ToSetting`
   * and `ToDetail`), keeps the stack's invariant, and sets the profile to the
   * one a Settings screen delegated, if any.
   */
  function Reduce(s: State, a: Action): (r: Step<State, Action>)
    ensures r.effects == []
    ensures r.state.settingsState == s.settingsState && r.state.detailState == s.detailState
    ensures r.state.path != s.path ==> a.ToSetting? || a.ToDetail?
    ensures Extends(s.path, r.state.path)
    ensures Valid(s.path) ==> Valid(r.state.path)
    ensures r.state.userProfile == if DelegatedProfile(a).Some? then DelegatedProfile(a).value else s.userProfile
  {
    match a
    case ToSetting =>
      Step(s.(path := Append(s.path, PathState.Settings(SettingsFeature.Initial))), [])
    case ToDetail =>
      Step(s.(path := Append(s.path, PathState.Detail(DetailFeature.Initial))), [])
    case Settings(action) =>
      if action.UpdateProfile? then Step(s.(userProfile := action.profile), []) else Step(s, [])
    case Detail(_) =>
      Step(s, [])
    case Path(stackAction) =>
      if stackAction.Element? && stackAction.action.Settings? && stackAction.action.settingsAction.UpdateProfile?
      then Step(s.(userProfile := stackAction.action.settingsAction.profile), [])
      else Step(s, [])
  }

  /** `ToSetting` pushes one default Settings screen and changes nothing else. */
  lemma ToSettingPushesSettings(s: State)
    ensures var r := Reduce(s, ToSetting);
            && |r.state.path.entries| == |s.path.entries| + 1
            && r.state.path.entries[..|s.path.entries|] == s.path.entries
            && r.state.path.entries[|s.path.entries|].1 == PathState.Settings(SettingsFeature.Initial)
            && r.state.userProfile == s.userProfile
            && r.effects == []
  {
  }

  /** `ToDetail` pushes one default Detail screen and changes nothing else. */
  lemma ToDetailPushesDetail(s: State)
    ensures var r := Reduce(s, ToDetail);
            && |r.state.path.entries| == |s.path.entries| + 1
            && r.state.path.entries[..|s.path.entries|] == s.path.entries
            && r.state.path.entries[|s.path.entries|].1 == PathState.Detail(DetailFeature.Initial)
            && r.state.userProfile == s.userProfile
            && r.effects == []
  {
  }

  /** A delegated `UpdateProfile(p)` sets the root profile to exactly `p` and leaves the stack alone. */
  lemma DelegatedUpdateSetsProfile(s: State, a: Action, p: UserProfile)
    requires DelegatedProfile(a) == Some(p)
    ensures Reduce(s, a) == Step(s.(userProfile := p), [])
  {
  }

  /** Every action other than a push or a delegated profile leaves the root state as it is and sends nothing. */
  lemma OtherActionsAreInert(s: State, a: Action)
    requires !a.ToSetting? && !a.ToDetail? && DelegatedProfile(a) == None
    ensures Reduce(s, a) == Step(s, [])
  {
  }

  /** A Path action that commits a typed name on a Settings screen's Edit Name child. */
  predicate Commits(a: PathAction)
  {
    a.Settings? && a.settingsAction.EditName? && a.settingsAction.child.NameUpdated?
  }

  /**
   * The reducer generated for the `Path` enum: a stack entry's action runs
   * that case's reducer on that case's state. An action of the other case is
   * outside this model (`None`).
   */
  function PathReduce(e: PathState, a: PathAction): (r: Option<Step<PathState, PathAction>>)
    ensures r.Some? <==> (e.Settings? <==> a.Settings?)
    ensures r.Some? ==> (r.value.state.Settings? <==> e.Settings?)
    ensures r.Some? ==> |r.value.effects| <= 1
    ensures r.Some? && r.value.effects != [] ==> Commits(a)
    ensures r.Some? ==> forall x <- r.value.effects :: x.Settings? && x.settingsAction.UpdateProfile?
    ensures r.Some? && e.Settings? ==>
              r.value.state == PathState.Settings(SettingsFeature.Body(e.settings, a.settingsAction).state)
    ensures r.Some? && e.Detail? ==>
              r.value.state == PathState.Detail(DetailFeature.Reduce(e.detail, a.detailAction).state)
  {
    match e
    case Settings(settings) =>
      if a.Settings? then
        var step := SettingsFeature.Body(settings, a.settingsAction);
        Some(Step(PathState.Settings(step.state), WrapSettings(step.effects)))
      else None
    case Detail(detail) =>
      if a.Detail? then
        var step := DetailFeature.Reduce(detail, a.detailAction);
        Some(Step(PathState.Detail(step.state), WrapDetail(step.effects)))
      else None
  }

  function WrapSettings(effects: seq<SettingsFeature.Action>): seq<PathAction>
  {
    seq(|effects|, i requires 0 <= i < |effects| => PathAction.Settings(effects[i]))
  }

  function WrapDetail(effects: seq<DetailFeature.Action>): seq<PathAction>
  {
    seq(|effects|, i requires 0 <= i < |effects| => PathAction.Detail(effects[i]))
  }

  /** Actions of entry `id` as root actions, in order. */
  function WrapElement(id: StackId, effects: seq<PathAction>): seq<Action>
  {
    seq(|effects|, i requires 0 <= i < |effects| => Path(Element(id, effects[i])))
  }

  /** `a` is an element action for an entry on the stack, of the kind of screen that entry holds. */
  predicate Routable(s: State, a: Action)
  {
    && a.Path? && a.stackAction.Element?
    && IndexOf(s.path.entries, a.stackAction.id).Some?
    && PathReduce(s.path.entries[IndexOf(s.path.entries, a.stackAction.id).value].1, a.stackAction.action).Some?
  }

  /**
   * The reducer body: the root closure followed by `.forEach(\.path, action:
   * \.path)`. An element action first runs the entry's own reducer on that
   * entry (its effects come back addressed to the same id), then the root
   * closure. An action for an id not on the stack, for the other kind of
   * screen, and pushes and pops handled by the stack itself are outside this
   * model (`None`).
   */
  function Body(s: State, a: Action): (r: Option<Step<State, Action>>)
    ensures !a.Path? ==> r == Some(Reduce(s, a))
    ensures a.Path? ==> (r.Some? <==> Routable(s, a))
    ensures Routable(s, a) ==>
              var i := IndexOf(s.path.entries, a.stackAction.id).value;
              var child := PathReduce(s.path.entries[i].1, a.stackAction.action).value;
              && r.Some?
              && r.value.state.path == SetAt(s.path, i, child.state)
              && r.value.state.userProfile
                 == (if DelegatedProfile(a).Some? then DelegatedProfile(a).value else s.userProfile)
              && r.value.effects == WrapElement(a.stackAction.id, child.effects)
    ensures r.Some? ==> |r.value.effects| <= 1
    ensures r.Some? && r.value.effects != [] ==>
              && a.Path? && a.stackAction.Element? && Commits(a.stackAction.action)
              && r.value.effects[0].Path? && r.value.effects[0].stackAction.Element?
              && r.value.effects[0].stackAction.id == a.stackAction.id
              && DelegatedProfile(r.value.effects[0]).Some?
    ensures r.Some? ==> Extends(s.path, r.value.state.path)
    ensures r.Some? && Valid(s.path) ==> Valid(r.value.state.path)
    ensures r.Some? ==> r.value.state.settingsState == s.settingsState && r.value.state.detailState == s.detailState
  {
    match a
    case Path(stackAction) =>
      if !stackAction.Element? then None
      else (
        match IndexOf(s.path.entries, stackAction.id)
        case None => None
        case Some(i) =>
          match PathReduce(s.path.entries[i].1, stackAction.action)
          case None => None
          case Some(child) =>
            var parent := Reduce(s.(path := SetAt(s.path, i, child.state)), a);
            var effects := WrapElement(stackAction.id, child.effects) + parent.effects;
            assert effects == [] || effects == [Path(Element(stackAction.id, child.effects[0]))];
            Some(Step(parent.state, effects)))
    case _ => Some(Reduce(s, a))
  }
}
