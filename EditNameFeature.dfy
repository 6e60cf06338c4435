/** The Edit Name screen's reducer: it only holds the text field's value. */
module EditNameFeature {
  import opened Models

  datatype State = State(name: string)

  /** A fresh Edit Name screen has an empty text field. */
  const Initial: State := State("")

  datatype Action =
    | NameChanged(text: string)   // the text field changed
    | NameUpdated(text: string)   // "Save" was tapped with the current text

  /** The `Reduce` closure: the text field follows `NameChanged`; `NameUpdated` is left to the parent. */
  function Reduce(s: State, a: Action): (r: Step<State, Action>)
    ensures r.effects == []
    ensures a.NameChanged? ==> r.state.name == a.text
    ensures a.NameUpdated? ==> r.state == s
  {
    match a
    case NameChanged(text) => Step(State(text), [])
    case NameUpdated(_) => Step(s, [])
  }

  /** Applying the same `NameChanged` twice is the same as applying it once. */
  lemma NameChangedIdempotent(s: State, text: string)
    ensures Reduce(Reduce(s, NameChanged(text)).state, NameChanged(text)) == Reduce(s, NameChanged(text))
  {
  }

  /** The state after the store has processed `actions` one after another. */
  function Run(s: State, actions: seq<Action>): State
    decreases |actions|
  {
    if actions == [] then s else Run(Reduce(s, actions[0]).state, actions[1..])
  }

  /** Reference definition: the text of the last `NameChanged` in `actions`, or `current` if there is none. */
  function LastTyped(actions: seq<Action>, current: string): string
    decreases |actions|
  {
    if actions == [] then current
    else if actions[|actions| - 1].NameChanged? then actions[|actions| - 1].text
    else LastTyped(actions[..|actions| - 1], current)
  }

  /** Running a batch of actions splits into running its two halves. */
  lemma {:induction false} RunConcat(s: State, xs: seq<Action>, ys: seq<Action>)
    ensures Run(s, xs + ys) == Run(Run(s, xs), ys)
    decreases |xs|
  {
    if xs == [] {
      assert xs + ys == ys;
    } else {
      assert (xs + ys)[1..] == xs[1..] + ys;
      RunConcat(Reduce(s, xs[0]).state, xs[1..], ys);
    }
  }

  /** After any sequence of actions the field holds the last typed text; `NameUpdated` never changes it. */
  lemma {:induction false} RunKeepsLastTyped(s: State, actions: seq<Action>)
    ensures Run(s, actions).name == LastTyped(actions, s.name)
    decreases |actions|
  {
    if actions != [] {
      var front, last := actions[..|actions| - 1], actions[|actions| - 1];
      assert actions == front + [last];
      RunConcat(s, front, [last]);
      RunKeepsLastTyped(s, front);
    }
  }
}
