/** Values shared by every screen of the Profile -> Settings -> Edit Name / Detail flow. */
module Models {

  /** The profile shown on the root screen and copied into Settings. */
  datatype UserProfile = UserProfile(name: string, email: string)

  /** The profile every screen starts from: both fields empty. */
  const EmptyProfile: UserProfile := UserProfile("", "")

  /** An optional value; `None` is Swift's `nil`. */
  datatype Option<+T> = None | Some(value: T)

  /**
   * What one reducer step produces: the new state and the follow-up actions
   * its effect sends back into the store. `.none` is the empty sequence and
   * `.send(a)` the one-element sequence `[a]`.
   */
  datatype Step<S, A> = Step(state: S, effects: seq<A>)
}
