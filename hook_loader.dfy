/**
 * The plugin's hook registry (`Missing_Alt_Loader`): two append-only lists of
 * hook records, `actions` and `filters`, that `run` replays to the host CMS.
 * The host's `add_filter` / `add_action` are modelled by the sequence of
 * registrations that `Run` returns, in the order the host receives them.
 */
module HookLoader {

  /** Default priority of an added hook when the caller omits it. */
  const DefaultPriority: int := 10
  /** Default number of arguments passed to the callback when the caller omits it. */
  const DefaultAcceptedArgs: int := 1

  /** The object on which a callback is defined, known only by its identity. */
  datatype Component = Component(ref: nat)

  /** One record of `actions` or `filters`. */
  datatype Hook = Hook(
    hook: string,
    component: Component,
    callback: string,
    priority: int,
    acceptedArgs: int)

  /** What the host is asked to call: a method on a component, or a global function by name. */
  datatype Callable = BoundMethod(component: Component, callback: string) | NamedFunction(name: string)

  datatype HookKind = Filter | Action

  /** One call into the host's `add_filter` or `add_action`. */
  datatype Registration = Registration(
    kind: HookKind,
    hook: string,
    callable: Callable,
    priority: int,
    acceptedArgs: int)

  /** The host call that `run` makes for a stored hook record. */
  function Register(kind: HookKind, h: Hook): Registration
  {
    Registration(kind, h.hook, BoundMethod(h.component, h.callback), h.priority, h.acceptedArgs)
  }

  /**
   * The menu registration `run` makes last: `admin_menu` bound to the global
   * function `missing_alt_menu_item`, with the host's own defaults (10 and 1).
   */
  const MenuRegistration: Registration :=
    Registration(Action, "admin_menu", NamedFunction("missing_alt_menu_item"), DefaultPriority, DefaultAcceptedArgs)

  /**
   * The private helper `add`: an extended copy of `hooks`, which itself is
   * passed by value and left as it was.
   */
  function Add(hooks: seq<Hook>, hook: string, component: Component, callback: string,
               priority: int, acceptedArgs: int): (r: seq<Hook>)
    ensures |r| == |hooks| + 1
    ensures r[..|hooks|] == hooks
    ensures r[|hooks|].hook == hook && r[|hooks|].component == component && r[|hooks|].callback == callback
    ensures r[|hooks|].priority == priority && r[|hooks|].acceptedArgs == acceptedArgs
  {
    hooks + [Hook(hook, component, callback, priority, acceptedArgs)]
  }

  class Loader {
    var actions: seq<Hook>
    var filters: seq<Hook>

    /** A fresh loader holds no actions and no filters. */
    constructor ()
      ensures actions == [] && filters == []
    {
      actions := [];
      filters := [];
    }

    /** `add_action`: append one record to `actions`; `filters` is untouched. */
    method AddAction(hook: string, component: Component, callback: string,
                     priority: int := DefaultPriority, acceptedArgs: int := DefaultAcceptedArgs)
      modifies this
      ensures actions == old(actions) + [Hook(hook, component, callback, priority, acceptedArgs)]
      ensures filters == old(filters)
    {
      actions := Add(actions, hook, component, callback, priority, acceptedArgs);
    }

    /** `add_filter`: append one record to `filters`; `actions` is untouched. */
    method AddFilter(hook: string, component: Component, callback: string,
                     priority: int := DefaultPriority, acceptedArgs: int := DefaultAcceptedArgs)
      modifies this
      ensures filters == old(filters) + [Hook(hook, component, callback, priority, acceptedArgs)]
      ensures actions == old(actions)
    {
      filters := Add(filters, hook, component, callback, priority, acceptedArgs);
    }

    /**
     * `run`'s registration loops: every filter once, in insertion order, then
     * every action once, in insertion order, then the `admin_menu` hook.
     * The loader itself does not change.
     */
    method Run() returns (registered: seq<Registration>)
      ensures |registered| == |filters| + |actions| + 1
      ensures forall k :: 0 <= k < |filters| ==> registered[k] == Register(Filter, filters[k])
      ensures forall k :: 0 <= k < |actions| ==> registered[|filters| + k] == Register(Action, actions[k])
      ensures registered[|filters| + |actions|] == MenuRegistration
    {
      registered := [];
      var i := 0;
      while i < |filters|
        invariant 0 <= i <= |filters|
        invariant |registered| == i
        invariant forall k :: 0 <= k < i ==> registered[k] == Register(Filter, filters[k])
      {
        registered := registered + [Register(Filter, filters[i])];
        i := i + 1;
      }
      var j := 0;
      while j < |actions|
        invariant 0 <= j <= |actions|
        invariant |registered| == |filters| + j
        invariant forall k :: 0 <= k < |filters| ==> registered[k] == Register(Filter, filters[k])
        invariant forall k :: 0 <= k < j ==> registered[|filters| + k] == Register(Action, actions[k])
      {
        registered := registered + [Register(Action, actions[j])];
        j := j + 1;
      }
      registered := registered + [MenuRegistration];
    }
  }

  /**
   * A caller that omits the optional arguments: both records get priority 10
   * and one accepted argument.
   */
  method AddWithDefaults(loader: Loader, hook: string, component: Component, callback: string)
    modifies loader
    ensures loader.actions == old(loader.actions) + [Hook(hook, component, callback, 10, 1)]
    ensures loader.filters == old(loader.filters) + [Hook(hook, component, callback, 10, 1)]
  {
    loader.AddAction(hook, component, callback);
    loader.AddFilter(hook, component, callback);
  }
}
