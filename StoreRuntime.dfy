/**
 * The store driving the root reducer: one action at a time, each processed
 * together with the follow-up actions its effects send, before the next is
 * admitted. The properties of the whole flow are stated here, above all that
 * a name committed on an Edit Name screen reaches the root profile.
 */
module StoreRuntime {
  import opened Models
  import opened StackStates
  import EditNameFeature
  import SettingsFeature
  import DetailFeature
  import opened ProfileFeature

  /** A measure for the queue: a committed name weighs more than the update it sends. */
  function Rank(a: Action): nat
  {
    if a.Path? && a.stackAction.Element? && Commits(a.stackAction.action) then 2 else 1
  }

  function Weight(queue: seq<Action>): nat
    decreases |queue|
  {
    if queue == [] then 0 else Rank(queue[0]) + Weight(queue[1..])
  }

  lemma {:induction false} WeightConcat(xs: seq<Action>, ys: seq<Action>)
    ensures Weight(xs + ys) == Weight(xs) + Weight(ys)
    decreases |xs|
  {
    if xs == [] {
      assert xs + ys == ys;
    } else {
      assert (xs + ys)[1..] == xs[1..] + ys;
      WeightConcat(xs[1..], ys);
    }
  }

  /** What one action sends back weighs less than the action itself, so processing ends. */
  lemma EffectsWeighLess(s: State, a: Action)
    requires Body(s, a).Some?
    ensures Weight(Body(s, a).value.effects) < Rank(a)
  {
  }

  /**
   * The store processing `queue`: each action runs through the root body and
   * the actions its effect sends are queued behind the rest. `None` when some
   * action falls outside the model.
   */
  function Process(s: State, queue: seq<Action>): Option<State>
    decreases Weight(queue)
  {
    if queue == [] then Some(s)
    else match Body(s, queue[0])
      case None => None
      case Some(step) =>
        EffectsWeighLess(s, queue[0]);
        WeightConcat(queue[1..], step.effects);
        Process(step.state, queue[1..] + step.effects)
  }

  /** The store receiving the user's `actions` one at a time, each processed to the end. */
  function Run(s: State, actions: seq<Action>): Option<State>
    decreases |actions|
  {
    if actions == [] then Some(s)
    else match Process(s, [actions[0]])
      case None => None
      case Some(next) => Run(next, actions[1..])
  }

  /** A run of four actions, each taking the store to the next state. */
  lemma RunOfFour(s0: State, actions: seq<Action>, s1: State, s2: State, s3: State, s4: State)
    requires |actions| == 4
    requires Process(s0, [actions[0]]) == Some(s1) && Process(s1, [actions[1]]) == Some(s2)
    requires Process(s2, [actions[2]]) == Some(s3) && Process(s3, [actions[3]]) == Some(s4)
    ensures Run(s0, actions) == Some(s4)
  {
    assert Run(s3, actions[3..]) == Some(s4);
    assert actions[2..][1..] == actions[3..];
    assert Run(s2, actions[2..]) == Some(s4);
    assert actions[1..][1..] == actions[2..];
    assert Run(s1, actions[1..]) == Some(s4);
  }

  /** "Save" on the Edit Name screen under the Settings entry `id`, with `name` typed. */
  function Commit(id: StackId, name: string): Action
  {
    Path(Element(id, PathAction.Settings(SettingsFeature.Action.EditName(EditNameFeature.NameUpdated(name)))))
  }

  /**
   * Committing `name` under a Settings entry sets that entry's profile and the
   * root profile to the entry's profile with the new name; the email is the
   * entry's own copy. Nothing else changes and no action is left over.
   */
  lemma {:induction false} CommitNameReachesRoot(s: State, i: nat, name: string)
    requires Valid(s.path) && i < |s.path.entries| && s.path.entries[i].1.Settings?
    ensures var settings := s.path.entries[i].1.settings;
            var committed := UserProfile(name, settings.userProfile.email);
            Process(s, [Commit(s.path.entries[i].0, name)])
              == Some(s.(userProfile := committed,
                         path := SetAt(s.path, i, PathState.Settings(settings.(userProfile := committed)))))
  {
    var id := s.path.entries[i].0;
    var settings := s.path.entries[i].1.settings;
    var committed := UserProfile(name, settings.userProfile.email);
    var update := Path(Element(id, PathAction.Settings(SettingsFeature.UpdateProfile(committed))));
    var done := s.(userProfile := committed,
                   path := SetAt(s.path, i, PathState.Settings(settings.(userProfile := committed))));
    IndexOfUnique(s.path, i);
    SettingsFeature.CommitNameRoundTrip(settings, name);
    var commitAction := PathAction.Settings(SettingsFeature.Action.EditName(EditNameFeature.NameUpdated(name)));
    var updateAction := PathAction.Settings(SettingsFeature.UpdateProfile(committed));
    var settingsCommit := SettingsFeature.Body(settings, commitAction.settingsAction);
    assert settingsCommit == Step(settings, [SettingsFeature.UpdateProfile(committed)]);
    assert WrapSettings(settingsCommit.effects) == [updateAction];
    assert PathReduce(s.path.entries[i].1, commitAction)
        == Some(Step(PathState.Settings(settings), [updateAction]));
    assert SetAt(s.path, i, PathState.Settings(settings)) == s.path;
    assert WrapElement(id, [updateAction]) == [update];
    OtherActionsAreInert(s, Commit(id, name));
    assert Commit(id, name) == Path(Element(id, commitAction));
    assert IndexOf(s.path.entries, id) == Some(i);
    assert Reduce(s.(path := SetAt(s.path, i, PathState.Settings(settings))), Commit(id, name)) == Step(s, []);
    assert Body(s, Commit(id, name)) == Some(Step(s, [update]));
    SettingsFeature.UpdateProfileStoresProfile(settings, committed);
    assert PathReduce(s.path.entries[i].1, updateAction)
        == Some(Step(PathState.Settings(settings.(userProfile := committed)), []));
    assert Body(s, update) == Some(Step(done, []));
    assert [Commit(id, name)][1..] + [update] == [update];
    assert Process(s, [Commit(id, name)]) == Process(s, [update]);
    assert Process(s, [update]) == Process(done, []);
  }

  /** Processing keeps the stack's ids distinct, only pushes, and never touches the inert child states. */
  lemma {:induction false} ProcessKeepsStack(s: State, queue: seq<Action>)
    requires Valid(s.path) && Process(s, queue).Some?
    ensures var r := Process(s, queue).value;
            && Valid(r.path) && Extends(s.path, r.path)
            && r.settingsState == s.settingsState && r.detailState == s.detailState
    decreases Weight(queue)
  {
    if queue != [] {
      var step := Body(s, queue[0]).value;
      EffectsWeighLess(s, queue[0]);
      WeightConcat(queue[1..], step.effects);
      ProcessKeepsStack(step.state, queue[1..] + step.effects);
      ExtendsTransitive(s.path, step.state.path, Process(s, queue).value.path);
    }
  }

  /** The same holds for any sequence of user actions. */
  lemma {:induction false} RunKeepsStack(s: State, actions: seq<Action>)
    requires Valid(s.path) && Run(s, actions).Some?
    ensures var r := Run(s, actions).value;
            && Valid(r.path) && Extends(s.path, r.path)
            && r.settingsState == s.settingsState && r.detailState == s.detailState
    decreases |actions|
  {
    if actions != [] {
      ProcessKeepsStack(s, [actions[0]]);
      var next := Process(s, [actions[0]]).value;
      RunKeepsStack(next, actions[1..]);
      ExtendsTransitive(s.path, next.path, Run(s, actions).value.path);
    }
  }

  /**
   * A run of `ToSetting` / `ToDetail` taps pushes one entry per tap, in tap
   * order, on top of the untouched stack, and leaves the profile alone.
   */
  lemma {:induction false} PushesStackInOrder(s: State, actions: seq<Action>)
    requires forall k :: 0 <= k < |actions| ==> actions[k].ToSetting? || actions[k].ToDetail?
    ensures Run(s, actions).Some?
    ensures var r := Run(s, actions).value;
            && |r.path.entries| == |s.path.entries| + |actions|
            && r.path.entries[..|s.path.entries|] == s.path.entries
            && (forall k :: 0 <= k < |actions| ==>
                  (r.path.entries[|s.path.entries| + k].1.Settings? <==> actions[k].ToSetting?))
            && r.userProfile == s.userProfile
    decreases |actions|
  {
    if actions != [] {
      var next := Reduce(s, actions[0]).state;
      assert Process(s, [actions[0]]) == Process(next, []);
      PushesStackInOrder(next, actions[1..]);
      var r := Run(s, actions).value;
      var n := |s.path.entries|;
      assert r == Run(next, actions[1..]).value;
      assert r.path.entries[..n] == r.path.entries[..n + 1][..n];
      forall k | 0 <= k < |actions|
        ensures r.path.entries[n + k].1.Settings? <==> actions[k].ToSetting?
      {
        if k == 0 {
          assert r.path.entries[n] == next.path.entries[n];
        } else {
          assert actions[1..][k - 1] == actions[k];
        }
      }
    }
  }

  /**
   * A Settings action that sends nothing and carries no profile, addressed to
   * Settings entry `i`, updates that entry alone through its own reducer.
   */
  lemma SettingsActionStaysInEntry(s: State, i: nat, a: SettingsFeature.Action)
    requires Valid(s.path) && i < |s.path.entries| && s.path.entries[i].1.Settings?
    requires !a.UpdateProfile? && SettingsFeature.Body(s.path.entries[i].1.settings, a).effects == []
    ensures Process(s, [Path(Element(s.path.entries[i].0, PathAction.Settings(a)))])
         == Some(s.(path := SetAt(s.path, i, PathState.Settings(SettingsFeature.Body(s.path.entries[i].1.settings, a).state))))
  {
    var action := Path(Element(s.path.entries[i].0, PathAction.Settings(a)));
    var next := s.(path := SetAt(s.path, i, PathState.Settings(SettingsFeature.Body(s.path.entries[i].1.settings, a).state)));
    IndexOfUnique(s.path, i);
    OtherActionsAreInert(next, action);
    assert Body(s, action) == Some(Step(next, []));
  }

  /** `test1` sent to a Detail entry leaves the whole root state as it is. */
  lemma DetailActionChangesNothing(s: State, i: nat)
    requires Valid(s.path) && i < |s.path.entries| && s.path.entries[i].1.Detail?
    ensures Process(s, [Path(Element(s.path.entries[i].0, PathAction.Detail(DetailFeature.Test1)))]) == Some(s)
  {
    IndexOfUnique(s.path, i);
    assert SetAt(s.path, i, s.path.entries[i].1) == s.path;
  }

  /**
   * `UpdateProfile(p)` sent to Settings entry `i` gives `p` to that entry and,
   * through the root closure, to the root; nothing else changes.
   */
  lemma UpdateProfileReachesEntryAndRoot(s: State, i: nat, p: UserProfile)
    requires Valid(s.path) && i < |s.path.entries| && s.path.entries[i].1.Settings?
    ensures Process(s, [Path(Element(s.path.entries[i].0, PathAction.Settings(SettingsFeature.UpdateProfile(p))))])
         == Some(s.(userProfile := p,
                    path := SetAt(s.path, i, PathState.Settings(s.path.entries[i].1.settings.(userProfile := p)))))
  {
    var action := Path(Element(s.path.entries[i].0, PathAction.Settings(SettingsFeature.UpdateProfile(p))));
    IndexOfUnique(s.path, i);
    SettingsFeature.UpdateProfileStoresProfile(s.path.entries[i].1.settings, p);
    assert Body(s, action).value.effects == [];
  }

  /** Tapping "Edit Name" on the Settings entry `id`. */
  function PresentEditName(id: StackId): Action
  {
    Path(Element(id, PathAction.Settings(SettingsFeature.SetNavigation(SettingsFeature.Presented(SettingsFeature.Route.EditName)))))
  }

  /** Typing `text` into the Edit Name field under the Settings entry `id`. */
  function TypeName(id: StackId, text: string): Action
  {
    Path(Element(id, PathAction.Settings(SettingsFeature.Action.EditName(EditNameFeature.NameChanged(text)))))
  }

  /** The user's taps for saving `name` through a new Settings screen that gets the id `id`. */
  function OpenEditSave(id: StackId, name: string): seq<Action>
  {
    [ToSetting, PresentEditName(id), TypeName(id, name), Commit(id, name)]
  }

  /**
   * From any root state: open Settings, present Edit Name, type `name` and
   * save. The root profile then reads {name: `name`, email: ""}: the new
   * Settings screen starts from an empty profile, and that copy's email is
   * what reaches the root. The stack holds one more entry, the Settings
   * screen now showing `name`.
   */
  lemma {:induction false} OpenEditSaveFlow(s: State, name: string)
    requires Valid(s.path)
    ensures var id := s.path.nextId;
            var r := Run(s, OpenEditSave(id, name));
            && r.Some?
            && r.value.userProfile == UserProfile(name, "")
            && |r.value.path.entries| == |s.path.entries| + 1
            && r.value.path.entries[..|s.path.entries|] == s.path.entries
            && r.value.path.entries[|s.path.entries|].1.Settings?
            && r.value.path.entries[|s.path.entries|].1.settings.userProfile == UserProfile(name, "")
  {
    var id := s.path.nextId;
    var n := |s.path.entries|;
    var actions := OpenEditSave(id, name);
    var presentAction := SettingsFeature.SetNavigation(SettingsFeature.Presented(SettingsFeature.Route.EditName));
    var typeAction := SettingsFeature.Action.EditName(EditNameFeature.NameChanged(name));

    var s1 := Reduce(s, ToSetting).state;
    assert Process(s, [ToSetting]) == Some(s1) && Valid(s1.path) && |s1.path.entries| == n + 1
        && s1.path.entries[..n] == s.path.entries
        && s1.path.entries[n] == (id, PathState.Settings(SettingsFeature.Initial)) by {
      ToSettingPushesSettings(s);
      assert Process(s, [ToSetting]) == Process(s1, []);
    }

    var settings2 := SettingsFeature.Body(SettingsFeature.Initial, presentAction).state;
    var s2 := s1.(path := SetAt(s1.path, n, PathState.Settings(settings2)));
    assert Process(s1, [PresentEditName(id)]) == Some(s2) && settings2.userProfile == EmptyProfile by {
      SettingsFeature.PresentKeepsProfileAndText(SettingsFeature.Initial, SettingsFeature.Route.EditName);
      SettingsActionStaysInEntry(s1, n, presentAction);
    }
    assert Valid(s2.path) && |s2.path.entries| == n + 1 && s2.path.entries[..n] == s.path.entries
        && s2.path.entries[n] == (id, PathState.Settings(settings2));

    var settings3 := SettingsFeature.Body(settings2, typeAction).state;
    var s3 := s2.(path := SetAt(s2.path, n, PathState.Settings(settings3)));
    assert Process(s2, [TypeName(id, name)]) == Some(s3) && settings3.userProfile == EmptyProfile by {
      SettingsFeature.TypingReachesTextField(settings2, name);
      SettingsActionStaysInEntry(s2, n, typeAction);
    }
    assert Valid(s3.path) && |s3.path.entries| == n + 1 && s3.path.entries[..n] == s.path.entries
        && s3.path.entries[n] == (id, PathState.Settings(settings3));

    var committed := UserProfile(name, "");
    var s4 := s3.(userProfile := committed,
                  path := SetAt(s3.path, n, PathState.Settings(settings3.(userProfile := committed))));
    assert Process(s3, [Commit(id, name)]) == Some(s4) by {
      CommitNameReachesRoot(s3, n, name);
    }
    assert |s4.path.entries| == n + 1 && s4.path.entries[..n] == s.path.entries
        && s4.path.entries[n].1 == PathState.Settings(settings3.(userProfile := committed));

    RunOfFour(s, actions, s1, s2, s3, s4);
  }


  /** The flow above from the initial state with "Ada": the root profile reads {name: "Ada", email: ""}. */
  lemma AdaScenario()
    ensures var r := Run(Initial(), OpenEditSave(0, "Ada"));
            r.Some? && r.value.userProfile == UserProfile("Ada", "")
  {
    OpenEditSaveFlow(Initial(), "Ada");
  }
}
