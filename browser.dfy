/**
 * The part of the browser window the components talk to: its list of
 * registered event listeners. Each `addEventListener` call registers a fresh
 * handler identity, as each effect run creates a new closure.
 */
module Browser {

  datatype EventKind = Scroll | Resize

  datatype Listener = Listener(event: EventKind, handler: nat)

  /** `ls` with every registration equal to `l` removed. */
  function Without(ls: seq<Listener>, l: Listener): (r: seq<Listener>)
    ensures l !in r
    ensures forall x :: x in r <==> x in ls && x != l
    ensures |r| <= |ls|
    ensures l !in ls ==> r == ls
  {
    if ls == [] then []
    else if ls[0] == l then Without(ls[1..], l)
    else [ls[0]] + Without(ls[1..], l)
  }

  /** Removing a registration that was appended last restores the list as it was. */
  lemma {:induction false} WithoutAppended(ls: seq<Listener>, l: Listener)
    requires l !in ls
    ensures Without(ls + [l], l) == ls
  {
    if ls == [] {
      assert [l][1..] == [];
    } else {
      assert (ls + [l])[1..] == ls[1..] + [l];
      WithoutAppended(ls[1..], l);
    }
  }

  class Window {
    var listeners: seq<Listener>
    var nextHandler: nat

    /** Every registered handler identity was handed out before. */
    ghost predicate Valid()
      reads this
    {
      forall l :: l in listeners ==> l.handler < nextHandler
    }

    constructor ()
      ensures Valid() && listeners == []
    {
      listeners := [];
      nextHandler := 0;
    }

    predicate Registered(l: Listener)
      reads this
    {
      l in listeners
    }

    /** `addEventListener(event, handler)` for a newly created handler. */
    method AddEventListener(event: EventKind) returns (h: nat)
      requires Valid()
      modifies this
      ensures Valid()
      ensures forall l :: l in old(listeners) ==> l.handler != h
      ensures listeners == old(listeners) + [Listener(event, h)]
    {
      h := nextHandler;
      listeners := listeners + [Listener(event, h)];
      nextHandler := nextHandler + 1;
    }

    /** `removeEventListener(event, handler)`. */
    method RemoveEventListener(event: EventKind, h: nat)
      requires Valid()
      modifies this`listeners
      ensures Valid()
      ensures listeners == Without(old(listeners), Listener(event, h))
    {
      listeners := Without(listeners, Listener(event, h));
    }
  }
}
