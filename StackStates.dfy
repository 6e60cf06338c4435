/**
 * The navigation stack: an ordered sequence of screen states, each tagged
 * with an identity distinct from its content. New identities come from a
 * counter, so every push gets an id no earlier entry has.
 */
module StackStates {
  import opened Models

  type StackId = nat

  datatype StackState<E> = StackState(entries: seq<(StackId, E)>, nextId: StackId)

  /** An empty stack, as `StackState<Path.State>()` creates it. */
  function Empty<E>(): (st: StackState<E>)
    ensures st.entries == [] && Valid(st)
  {
    StackState([], 0)
  }

  /** The stack's invariant: ids increase with push order and are all below the counter, hence distinct. */
  ghost predicate Valid<E>(st: StackState<E>)
  {
    && (forall i, j :: 0 <= i < j < |st.entries| ==> st.entries[i].0 < st.entries[j].0)
    && (forall i :: 0 <= i < |st.entries| ==> st.entries[i].0 < st.nextId)
  }

  /** The ids of the entries, bottom to top. */
  function Ids<E>(st: StackState<E>): seq<StackId>
  {
    seq(|st.entries|, i requires 0 <= i < |st.entries| => st.entries[i].0)
  }

  /** `path.append(e)`: push `e` on top under a fresh id; the entries below are untouched. */
  function Append<E>(st: StackState<E>, e: E): (r: StackState<E>)
    ensures |r.entries| == |st.entries| + 1
    ensures r.entries[..|st.entries|] == st.entries
    ensures r.entries[|st.entries|].1 == e
    ensures Valid(st) ==> Valid(r) && r.entries[|st.entries|].0 !in Ids(st)
  {
    StackState(st.entries + [(st.nextId, e)], st.nextId + 1)
  }

  /** The position of the entry with id `id`, if there is one. */
  function IndexOf<E>(entries: seq<(StackId, E)>, id: StackId): (r: Option<nat>)
    ensures r.Some? ==> r.value < |entries| && entries[r.value].0 == id
    ensures r.None? ==> forall i :: 0 <= i < |entries| ==> entries[i].0 != id
    decreases |entries|
  {
    if entries == [] then None
    else if entries[0].0 == id then Some(0)
    else match IndexOf(entries[1..], id)
      case None => None
      case Some(k) => Some(k + 1)
  }

  /** In a valid stack, the entry at position `i` is the one `IndexOf` finds for its id. */
  lemma IndexOfUnique<E>(st: StackState<E>, i: nat)
    requires Valid(st) && i < |st.entries|
    ensures IndexOf(st.entries, st.entries[i].0) == Some(i)
  {
  }

  /** Replace the screen state of entry `i`, keeping its id and every other entry. */
  function SetAt<E>(st: StackState<E>, i: nat, e: E): (r: StackState<E>)
    requires i < |st.entries|
    ensures |r.entries| == |st.entries| && r.nextId == st.nextId
    ensures Ids(r) == Ids(st)
    ensures r.entries[i] == (st.entries[i].0, e)
    ensures forall j :: 0 <= j < |st.entries| && j != i ==> r.entries[j] == st.entries[j]
    ensures Valid(st) ==> Valid(r)
  {
    StackState(st.entries[i := (st.entries[i].0, e)], st.nextId)
  }

  /** `a` is `b` with zero or more entries pushed on top. */
  ghost predicate Extends<E>(b: StackState<E>, a: StackState<E>)
  {
    |b.entries| <= |a.entries| && Ids(a)[..|b.entries|] == Ids(b)
  }

  /** Pushing is transitive: a stack grown from one grown from `a` is grown from `a`. */
  lemma ExtendsTransitive<E>(a: StackState<E>, b: StackState<E>, c: StackState<E>)
    requires Extends(a, b) && Extends(b, c)
    ensures Extends(a, c)
  {
  }
}
