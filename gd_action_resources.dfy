/**
  The action-map resources of `src/gdclasses/actions`: `OpenXRActionSets`
  holds action sets and interaction profiles, an `OpenXRActionSet` holds
  actions, and an `OpenXRInteractionProfile` holds bindings. Each list is a
  `std::vector` of Godot references that is pushed, erased and popped in
  place; a reference may be empty, and two references are equal when they
  point at the same object. The `*_changed` signals are counted.
 */
module GdActionResources {
  import SeqOps

  // ---------------------------------------------------------------------
  // The vector loops every resource shares

  /** `while (v.size() > 0) { v.back().unref(); v.pop_back(); }`. */
  method PopAll<T>(s: seq<T>) returns (r: seq<T>)
    ensures r == []
  {
    r := s;
    while |r| > 0
      decreases |r|
    {
      r := r[..|r| - 1];
    }
  }

  /**
    The `remove_*` loop: the first element equal to `x` is erased and the
    loop returns; whether one was found decides whether a signal follows.
   */
  method EraseFirst<T(==)>(s: seq<T>, x: T) returns (r: seq<T>, erased: bool)
    ensures erased <==> x in s
    ensures r == SeqOps.RemoveFirst(s, x)
    ensures erased ==> |r| == |s| - 1
  {
    var i := 0;
    while i < |s|
      invariant 0 <= i <= |s|
      invariant forall j :: 0 <= j < i ==> s[j] != x
    {
      if s[i] == x {
        SeqOps.RemoveFirstAt(s, x, i);
        r, erased := s[..i] + s[i + 1..], true;
        return;
      }
      i := i + 1;
    }
    r, erased := s, false;
  }

  /** The `push_back` loop of `get_*` and of `set_*` after clearing: the elements, in order. */
  method CopyInOrder<T>(s: seq<T>) returns (r: seq<T>)
    ensures r == s
  {
    r := [];
    var i := 0;
    while i < |s|
      invariant 0 <= i <= |s|
      invariant r == s[..i]
    {
      r := r + [s[i]];
      i := i + 1;
    }
    assert s[..i] == s;
  }

  // ---------------------------------------------------------------------
  // The resources

  /** `OpenXRAction`: its own fields are not part of this model; it is held by reference. */
  class OpenXRAction {
    constructor ()
    {
    }
  }

  /** `OpenXRBinding`, held by reference. */
  class OpenXRBinding {
    constructor ()
    {
    }
  }

  /** `OpenXRActionSet`: a name, a priority and its actions. */
  class OpenXRActionSet {
    var name: string
    var priority: int
    var actions: seq<OpenXRAction?>
    /** How many `actions_changed` signals were emitted. */
    var actionsChanged: nat

    /** The constructor leaves `priority` uninitialised; its first value is `initialPriority`. */
    constructor (initialPriority: int)
      ensures name == "" && priority == initialPriority && actions == [] && actionsChanged == 0
    {
      name := "";
      priority := initialPriority;
      actions := [];
      actionsChanged := 0;
    }

    /** `set_name`: `get_name` answers the new name; nothing else changes. */
    method SetName(newName: string)
      modifies this
      ensures GetName() == newName
      ensures priority == old(priority) && actions == old(actions) && actionsChanged == old(actionsChanged)
    {
      name := newName;
    }

    function GetName(): (r: string)
      reads this
      ensures r == name
    {
      name
    }

    /** `set_priority`: `get_priority` answers the new priority; nothing else changes. */
    method SetPriority(newPriority: int)
      modifies this
      ensures GetPriority() == newPriority
      ensures name == old(name) && actions == old(actions) && actionsChanged == old(actionsChanged)
    {
      priority := newPriority;
    }

    function GetPriority(): (r: int)
      reads this
      ensures r == priority
    {
      priority
    }

    /** `clear_actions`: no action is left, and one signal is emitted. */
    method ClearActions()
      modifies this
      ensures actions == [] && actionsChanged == old(actionsChanged) + 1
      ensures name == old(name) && priority == old(priority)
    {
      actions := PopAll(actions);
      actionsChanged := actionsChanged + 1;
    }

    /** `add_action`: the action is appended at the back, and one signal is emitted. */
    method AddAction(action: OpenXRAction?)
      modifies this
      ensures actions == old(actions) + [action] && actionsChanged == old(actionsChanged) + 1
      ensures name == old(name) && priority == old(priority)
    {
      actions := actions + [action];
      actionsChanged := actionsChanged + 1;
    }

    /** `remove_action`: the first equal reference is removed with a signal; an absent one changes nothing. */
    method RemoveAction(action: OpenXRAction?)
      modifies this
      ensures actions == SeqOps.RemoveFirst(old(actions), action)
      ensures actionsChanged == if action in old(actions) then old(actionsChanged) + 1 else old(actionsChanged)
      ensures name == old(name) && priority == old(priority)
    {
      var erased;
      actions, erased := EraseFirst(actions, action);
      if erased {
        actionsChanged := actionsChanged + 1;
      }
    }

    /** `get_actions`: the actions in stored order. */
    method GetActions() returns (arr: seq<OpenXRAction?>)
      ensures arr == actions
    {
      arr := CopyInOrder(actions);
    }

    /** `set_actions`: the old actions are dropped and the given ones stored in order, with one signal. */
    method SetActions(newActions: seq<OpenXRAction?>)
      modifies this
      ensures actions == newActions && actionsChanged == old(actionsChanged) + 1
      ensures name == old(name) && priority == old(priority)
    {
      var cleared := PopAll(actions);
      var copied := CopyInOrder(newActions);
      actions := cleared + copied;
      actionsChanged := actionsChanged + 1;
    }
  }

  /** `OpenXRInteractionProfile`: a profile path and its bindings. No signal is emitted. */
  class OpenXRInteractionProfile {
    var path: string
    var bindings: seq<OpenXRBinding?>

    constructor ()
      ensures path == "" && bindings == []
    {
      path := "";
      bindings := [];
    }

    /** `set_path`: `get_path` answers the new path; the bindings are kept. */
    method SetPath(newPath: string)
      modifies this
      ensures GetPath() == newPath && bindings == old(bindings)
    {
      path := newPath;
    }

    function GetPath(): (r: string)
      reads this
      ensures r == path
    {
      path
    }

    /** `number_of_bindings`. */
    function NumberOfBindings(): (n: nat)
      reads this
      ensures n == |bindings|
    {
      |bindings|
    }

    /** `get_binding`: the binding at an index in range, and an empty reference for any other index. */
    function GetBinding(index: int): (b: OpenXRBinding?)
      reads this
      ensures 0 <= index < NumberOfBindings() ==> b == bindings[index]
      ensures (index < 0 || NumberOfBindings() <= index) ==> b == null
    {
      if 0 <= index < |bindings| then bindings[index] else null
    }

    /** `clear_bindings`: no binding is left. */
    method ClearBindings()
      modifies this
      ensures NumberOfBindings() == 0 && path == old(path)
    {
      bindings := PopAll(bindings);
    }

    /** `add_binding`: one more binding, found at the last index; the earlier ones stay where they were. */
    method AddBinding(binding: OpenXRBinding?)
      modifies this
      ensures bindings == old(bindings) + [binding] && path == old(path)
      ensures NumberOfBindings() == old(NumberOfBindings()) + 1
      ensures GetBinding(NumberOfBindings() - 1) == binding
    {
      bindings := bindings + [binding];
    }

    /** `remove_binding`: the first equal reference is removed; an absent one changes nothing. */
    method RemoveBinding(binding: OpenXRBinding?)
      modifies this
      ensures bindings == SeqOps.RemoveFirst(old(bindings), binding) && path == old(path)
      ensures NumberOfBindings() == if binding in old(bindings) then old(NumberOfBindings()) - 1 else old(NumberOfBindings())
    {
      var erased;
      bindings, erased := EraseFirst(bindings, binding);
    }
  }

  /** `OpenXRActionSets`: the action sets and interaction profiles of an action map. */
  class OpenXRActionSets {
    var actionSets: seq<OpenXRActionSet?>
    var interactionProfiles: seq<OpenXRInteractionProfile?>
    /** How many `action_sets_changed` and `interaction_profiles_changed` signals were emitted. */
    var actionSetsChanged: nat
    var profilesChanged: nat

    constructor ()
      ensures actionSets == [] && interactionProfiles == [] && actionSetsChanged == 0 && profilesChanged == 0
    {
      actionSets := [];
      interactionProfiles := [];
      actionSetsChanged := 0;
      profilesChanged := 0;
    }

    /** `clear_action_sets`: no action set is left, with one signal; the profiles are untouched. */
    method ClearActionSets()
      modifies this
      ensures actionSets == [] && actionSetsChanged == old(actionSetsChanged) + 1
      ensures interactionProfiles == old(interactionProfiles) && profilesChanged == old(profilesChanged)
    {
      actionSets := PopAll(actionSets);
      actionSetsChanged := actionSetsChanged + 1;
    }

    /** `add_action_set`: appended at the back, with one signal. */
    method AddActionSet(actionSet: OpenXRActionSet?)
      modifies this
      ensures actionSets == old(actionSets) + [actionSet] && actionSetsChanged == old(actionSetsChanged) + 1
      ensures interactionProfiles == old(interactionProfiles) && profilesChanged == old(profilesChanged)
    {
      actionSets := actionSets + [actionSet];
      actionSetsChanged := actionSetsChanged + 1;
    }

    /** `remove_action_set`: the first equal reference is removed with a signal; an absent one changes nothing and emits nothing. */
    method RemoveActionSet(actionSet: OpenXRActionSet?)
      modifies this
      ensures actionSets == SeqOps.RemoveFirst(old(actionSets), actionSet)
      ensures actionSetsChanged == if actionSet in old(actionSets) then old(actionSetsChanged) + 1 else old(actionSetsChanged)
      ensures interactionProfiles == old(interactionProfiles) && profilesChanged == old(profilesChanged)
    {
      var erased;
      actionSets, erased := EraseFirst(actionSets, actionSet);
      if erased {
        actionSetsChanged := actionSetsChanged + 1;
      }
    }

    /** `get_action_sets`: the action sets in stored order. */
    method GetActionSets() returns (arr: seq<OpenXRActionSet?>)
      ensures arr == actionSets
    {
      arr := CopyInOrder(actionSets);
    }

    /** `set_action_sets`: the old sets are dropped and the given ones stored in order, with one signal. */
    method SetActionSets(sets: seq<OpenXRActionSet?>)
      modifies this
      ensures actionSets == sets && actionSetsChanged == old(actionSetsChanged) + 1
      ensures interactionProfiles == old(interactionProfiles) && profilesChanged == old(profilesChanged)
    {
      var cleared := PopAll(actionSets);
      var copied := CopyInOrder(sets);
      actionSets := cleared + copied;
      actionSetsChanged := actionSetsChanged + 1;
    }

    /** `clear_interaction_profiles`: no profile is left, with one signal; the action sets are untouched. */
    method ClearInteractionProfiles()
      modifies this
      ensures interactionProfiles == [] && profilesChanged == old(profilesChanged) + 1
      ensures actionSets == old(actionSets) && actionSetsChanged == old(actionSetsChanged)
    {
      interactionProfiles := PopAll(interactionProfiles);
      profilesChanged := profilesChanged + 1;
    }

    /** `add_interaction_profile`: appended at the back, with one signal. */
    method AddInteractionProfile(profile: OpenXRInteractionProfile?)
      modifies this
      ensures interactionProfiles == old(interactionProfiles) + [profile] && profilesChanged == old(profilesChanged) + 1
      ensures actionSets == old(actionSets) && actionSetsChanged == old(actionSetsChanged)
    {
      interactionProfiles := interactionProfiles + [profile];
      profilesChanged := profilesChanged + 1;
    }

    /** `remove_interaction_profile`: as `remove_action_set`, for the profiles. */
    method RemoveInteractionProfile(profile: OpenXRInteractionProfile?)
      modifies this
      ensures interactionProfiles == SeqOps.RemoveFirst(old(interactionProfiles), profile)
      ensures profilesChanged == if profile in old(interactionProfiles) then old(profilesChanged) + 1 else old(profilesChanged)
      ensures actionSets == old(actionSets) && actionSetsChanged == old(actionSetsChanged)
    {
      var erased;
      interactionProfiles, erased := EraseFirst(interactionProfiles, profile);
      if erased {
        profilesChanged := profilesChanged + 1;
      }
    }

    /** `get_interaction_profiles`: the profiles in stored order. */
    method GetInteractionProfiles() returns (arr: seq<OpenXRInteractionProfile?>)
      ensures arr == interactionProfiles
    {
      arr := CopyInOrder(interactionProfiles);
    }

    /** `set_interaction_profiles`: the old profiles are dropped and the given ones stored in order, with one signal. */
    method SetInteractionProfiles(profiles: seq<OpenXRInteractionProfile?>)
      modifies this
      ensures interactionProfiles == profiles && profilesChanged == old(profilesChanged) + 1
      ensures actionSets == old(actionSets) && actionSetsChanged == old(actionSetsChanged)
    {
      var cleared := PopAll(interactionProfiles);
      var copied := CopyInOrder(profiles);
      interactionProfiles := cleared + copied;
      profilesChanged := profilesChanged + 1;
    }
  }
}
