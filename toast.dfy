/**
 * `utils/toast.ts`: a module-wide registry of toast listeners. Listeners
 * are compared by identity, so here each one is a number standing for
 * the function object; calling a listener is recorded as a `Call`.
 */
module Toast {
  import ListOps

  datatype ToastType = Success | Error | Info

  /** One listener invocation `l(message, type)`. */
  datatype Call = Call(listener: nat, message: string, kind: ToastType)

  /** The calls `emit` makes: each registry entry once, in registry order. */
  function Calls(listeners: seq<nat>, message: string, kind: ToastType): (r: seq<Call>)
    ensures |r| == |listeners|
    ensures forall i :: 0 <= i < |r| ==> r[i] == Call(listeners[i], message, kind)
  {
    seq(|listeners|, i requires 0 <= i < |listeners| => Call(listeners[i], message, kind))
  }

  class Registry {
    var listeners: seq<nat>

    /** The registry starts empty. */
    constructor()
      ensures listeners == []
    {
      listeners := [];
    }

    /** `subscribe`: the listener goes at the end (a listener subscribed
        twice is there twice). */
    method Subscribe(listener: nat)
      modifies this
      ensures listeners == old(listeners) + [listener]
    {
      listeners := listeners + [listener];
    }

    /** The function `subscribe` returns: every entry equal to the listener
        goes, the others stay in order. */
    method Unsubscribe(listener: nat)
      modifies this
      ensures listeners == ListOps.Remove(old(listeners), listener)
    {
      listeners := ListOps.Remove(listeners, listener);
    }

    /** `emit`: calls every listener with the same message and type. */
    method Emit(message: string, kind: ToastType) returns (calls: seq<Call>)
      ensures calls == Calls(listeners, message, kind)
    {
      calls := [];
      for i := 0 to |listeners|
        invariant calls == Calls(listeners[..i], message, kind)
      {
        calls := calls + [Call(listeners[i], message, kind)];
      }
      assert listeners[..|listeners|] == listeners;
    }

    method ShowSuccess(message: string) returns (calls: seq<Call>)
      ensures calls == Calls(listeners, message, Success)
    {
      calls := Emit(message, Success);
    }

    method ShowError(message: string) returns (calls: seq<Call>)
      ensures calls == Calls(listeners, message, Error)
    {
      calls := Emit(message, Error);
    }

    method ShowInfo(message: string) returns (calls: seq<Call>)
      ensures calls == Calls(listeners, message, Info)
    {
      calls := Emit(message, Info);
    }
  }

  /** Subscribing and then unsubscribing a listener that was not registered
      gives the registry back. */
  lemma SubscribeThenUnsubscribe(listeners: seq<nat>, listener: nat)
    requires listener !in listeners
    ensures ListOps.Remove(listeners + [listener], listener) == listeners
  {
    ListOps.RemoveConcat(listeners, [listener], listener);
    ListOps.RemoveAbsent(listeners, listener);
    assert ListOps.Remove([listener], listener) == [];
  }

  /** Unsubscribing leaves the other listeners' calls in the same order. */
  lemma UnsubscribeKeepsOthersCalls(listeners: seq<nat>, listener: nat, message: string, kind: ToastType)
    ensures forall c :: c in Calls(ListOps.Remove(listeners, listener), message, kind) <==>
      c in Calls(listeners, message, kind) && c.listener != listener
  {
    var r := ListOps.Remove(listeners, listener);
    forall c ensures c in Calls(r, message, kind) <==> c in Calls(listeners, message, kind) && c.listener != listener {
      if c in Calls(r, message, kind) {
        var i :| 0 <= i < |r| && Calls(r, message, kind)[i] == c;
        assert r[i] in listeners;
        var j :| 0 <= j < |listeners| && listeners[j] == r[i];
        assert Calls(listeners, message, kind)[j] == c;
      }
      if c in Calls(listeners, message, kind) && c.listener != listener {
        var j :| 0 <= j < |listeners| && Calls(listeners, message, kind)[j] == c;
        assert listeners[j] in r;
        var i :| 0 <= i < |r| && r[i] == listeners[j];
        assert Calls(r, message, kind)[i] == c;
      }
    }
  }
}
