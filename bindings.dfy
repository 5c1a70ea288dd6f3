/** The game's key bindings (src/bindings.rs): a map from input key to game
    action, built by chaining `add_binding` on an empty set of bindings.
    Keys and actions are type parameters. */
module Bindings {
  import opened Common

  datatype Bindings<K(==), A> = Bindings(bindings: map<K, A>)
  {
    /** `Bindings::add_binding`: binds `key` to `action`, replacing any
        earlier action for `key`. */
    function AddBinding(key: K, action: A): (b: Bindings<K, A>)
      ensures b.bindings.Keys == bindings.Keys + {key}
    {
      Bindings(bindings[key := action])
    }

    /** `Bindings::get_action_from_binding`: the action bound to `key`, if any. */
    function GetActionFromBinding(key: K): (r: Option<A>)
      ensures r.Some? <==> key in bindings
    {
      if key in bindings then Some(bindings[key]) else None
    }
  }

  /** `Bindings::new` and `Bindings::default`: no key bound. */
  function New<K(==), A>(): (b: Bindings<K, A>)
    ensures b.bindings == map[]
  {
    Bindings(map[])
  }

  /** Nothing is bound in new bindings. */
  lemma NewBindsNothing<K, A>(key: K)
    ensures New<K, A>().GetActionFromBinding(key) == None
  {
  }

  /** A key looks up the action it was last bound to; binding a key leaves
      every other key's lookup as it was. */
  lemma AddThenGet<K, A>(b: Bindings<K, A>, key: K, action: A, other: K)
    ensures b.AddBinding(key, action).GetActionFromBinding(key) == Some(action)
    ensures other != key ==> b.AddBinding(key, action).GetActionFromBinding(other) == b.GetActionFromBinding(other)
  {
  }

  /** A later binding of the same key overrides the earlier one. */
  lemma LaterBindingWins<K, A>(b: Bindings<K, A>, key: K, first: A, second: A)
    ensures b.AddBinding(key, first).AddBinding(key, second) == b.AddBinding(key, second)
  {
  }
}
