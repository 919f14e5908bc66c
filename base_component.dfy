/**
 * `ThreedBaseComponent`: the state every scene component shares. A
 * component is bound to the first scene manager that initialises it and
 * keeps the subscriptions it collects until it is destroyed.
 */
module BaseComponents {
  import opened Wrappers

  class ThreedBaseComponent {
    /** The scene manager bound by the first `initialize`, by identity. */
    var sceneManager: Option<nat>
    var initialized: bool
    /** Subscriptions collected by the component, by identity. */
    var subscriptions: seq<nat>
    /** Every `unsubscribe` call made so far, in order. */
    var unsubscribed: seq<nat>

    constructor()
      ensures !initialized && sceneManager.None? && subscriptions == [] && unsubscribed == []
    {
      sceneManager := None;
      initialized := false;
      subscriptions := [];
      unsubscribed := [];
    }

    /** `initialize`: only the first call binds the manager; later calls keep it. */
    method Initialize(manager: nat)
      modifies this`sceneManager, this`initialized
      ensures initialized
      ensures old(initialized) ==> sceneManager == old(sceneManager)
      ensures !old(initialized) ==> sceneManager == Some(manager)
    {
      if initialized {
        return;
      }
      sceneManager := Some(manager);
      initialized := true;
    }

    /** `subscriptions.push`, as done by components that listen to other components. */
    method Subscribe(s: nat)
      modifies this`subscriptions
      ensures subscriptions == old(subscriptions) + [s]
    {
      subscriptions := subscriptions + [s];
    }

    /** `onDestroy`: every collected subscription is unsubscribed, in order. */
    method OnDestroy()
      modifies this`unsubscribed
      ensures unsubscribed == old(unsubscribed) + subscriptions
    {
      var i := 0;
      while i < |subscriptions|
        invariant 0 <= i <= |subscriptions|
        invariant subscriptions == old(subscriptions) && initialized == old(initialized) && sceneManager == old(sceneManager)
        invariant unsubscribed == old(unsubscribed) + subscriptions[..i]
      {
        assert subscriptions[..i + 1] == subscriptions[..i] + [subscriptions[i]];
        unsubscribed := unsubscribed + [subscriptions[i]];
        i := i + 1;
      }
      assert subscriptions[..i] == subscriptions;
    }
  }

  /** Two `initialize` calls in a row bind the first manager, whatever the second one is. */
  method InitializeTwiceKeepsFirst(first: nat, second: nat) returns (c: ThreedBaseComponent)
    ensures c.initialized && c.sceneManager == Some(first)
  {
    c := new ThreedBaseComponent();
    c.Initialize(first);
    c.Initialize(second);
  }
}
