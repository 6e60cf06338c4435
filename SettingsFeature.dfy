/**
 * The Settings screen's reducer. It keeps its own copy of the profile, the
 * Edit Name screen's state, and an optional presented route; a committed
 * name from Edit Name is turned into an `UpdateProfile` sent upwards.
 */
module SettingsFeature {
  import opened Models
  import EditNameFeature

  /** The one screen Settings can present. */
  datatype Route = EditName

  /** A presentation slot's action: show a route, or dismiss it. */
  datatype PresentationAction = Presented(route: Route) | Dismiss

  datatype State = State(userProfile: UserProfile, editNameState: EditNameFeature.State, route: Option<Route>)

  /** `SettingsReducer.State()`: empty profile, empty text field, nothing presented. */
  const Initial: State := State(EmptyProfile, EditNameFeature.Initial, None)

  datatype Action =
    | SetNavigation(navigation: PresentationAction)
    | EditName(child: EditNameFeature.Action)
    | UpdateProfile(profile: UserProfile)

  /** The profile `p` with its name replaced by `name`. */
  function WithName(p: UserProfile, name: string): (r: UserProfile)
    ensures r.name == name && r.email == p.email
  {
    p.(name := name)
  }

  /**
   * The `Reduce` closure. Only navigation touches `route`, only
   * `UpdateProfile` touches the profile, the closure never touches the text
   * field, and the only thing it sends is the current profile with a new name.
   */
  function Reduce(s: State, a: Action): (r: Step<State, Action>)
    ensures r.state.editNameState == s.editNameState
    ensures r.state.route != s.route ==> a.SetNavigation?
    ensures r.state.userProfile != s.userProfile ==> a.UpdateProfile? && r.state.userProfile == a.profile
    ensures |r.effects| <= 1
    ensures r.effects != [] ==> a.EditName? && a.child.NameUpdated?
    ensures forall e <- r.effects :: e.UpdateProfile? && e.profile.email == s.userProfile.email
  {
    match a
    case SetNavigation(Presented(route)) => Step(s.(route := Some(route)), [])
    case SetNavigation(Dismiss) => Step(s.(route := None), [])
    case EditName(child) =>
      if child.NameUpdated? then Step(s, [UpdateProfile(WithName(s.userProfile, child.text))])
      else Step(s, [])
    case UpdateProfile(profile) => Step(s.(userProfile := profile), [])
  }

  /**
   * The whole reducer body: the closure, then `Scope(state: \.editNameState,
   * action: \.editName)` running the Edit Name reducer on the text field for
   * `EditName` actions, its effects wrapped back into `EditName`.
   */
  function Body(s: State, a: Action): (r: Step<State, Action>)
    ensures a.EditName? && a.child.NameChanged? ==> r.state.editNameState.name == a.child.text
    ensures !(a.EditName? && a.child.NameChanged?) ==> r.state.editNameState == s.editNameState
    ensures r.state.route != s.route ==> a.SetNavigation?
    ensures r.state.userProfile != s.userProfile ==> a.UpdateProfile? && r.state.userProfile == a.profile
    ensures |r.effects| <= 1
    ensures r.effects != [] ==> a.EditName? && a.child.NameUpdated?
    ensures forall e <- r.effects :: e.UpdateProfile? && e.profile.email == s.userProfile.email
  {
    var parent := Reduce(s, a);
    match a
    case EditName(childAction) =>
      var child := EditNameFeature.Reduce(parent.state.editNameState, childAction);
      Step(parent.state.(editNameState := child.state), parent.effects + WrapEditName(child.effects))
    case _ => parent
  }

  /** Edit Name's actions as Settings actions, in order. */
  function WrapEditName(effects: seq<EditNameFeature.Action>): seq<Action>
  {
    seq(|effects|, i requires 0 <= i < |effects| => Action.EditName(effects[i]))
  }

  /** Presenting a route sets `route` and keeps the profile and the typed name. */
  lemma PresentKeepsProfileAndText(s: State, route: Route)
    ensures Body(s, SetNavigation(Presented(route))) == Step(s.(route := Some(route)), [])
  {
  }

  /** Dismissing clears `route` and keeps the profile and the typed name. */
  lemma DismissKeepsProfileAndText(s: State)
    ensures Body(s, SetNavigation(Dismiss)) == Step(s.(route := None), [])
  {
  }

  /** Typing in the text field reaches Edit Name through the scope and sends nothing. */
  lemma TypingReachesTextField(s: State, text: string)
    ensures Body(s, Action.EditName(EditNameFeature.NameChanged(text)))
         == Step(s.(editNameState := EditNameFeature.State(text)), [])
  {
  }

  /** `UpdateProfile(p)` makes `p` the Settings copy of the profile, and nothing else. */
  lemma UpdateProfileStoresProfile(s: State, p: UserProfile)
    ensures Body(s, UpdateProfile(p)) == Step(s.(userProfile := p), [])
  {
  }

  /**
   * Committing a name leaves Settings as it is and sends exactly one
   * `UpdateProfile` whose profile has the new name and the current email;
   * feeding that action back in gives Settings that profile.
   */
  lemma CommitNameRoundTrip(s: State, name: string)
    ensures var first := Body(s, Action.EditName(EditNameFeature.NameUpdated(name)));
            && first.state == s
            && first.effects == [UpdateProfile(UserProfile(name, s.userProfile.email))]
            && var second := Body(first.state, first.effects[0]);
               && second.state == s.(userProfile := UserProfile(name, s.userProfile.email))
               && second.effects == []
  {
  }
}
