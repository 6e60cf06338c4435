/** The Detail screen's reducer: an empty state and one action that does nothing. */
module DetailFeature {
  import opened Models

  datatype State = State

  const Initial: State := State

  datatype Action = Test1

  /** The `Reduce` closure: `test1` changes nothing and sends nothing. */
  function Reduce(s: State, a: Action): (r: Step<State, Action>)
    ensures r.state == s && r.effects == []
  {
    match a
    case Test1 => Step(s, [])
  }
}
