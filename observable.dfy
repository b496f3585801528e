/**
 * The observer list. Observers are callbacks compared by identity; the model represents each by a
 * value of an equality type F (its identity), and a notification by the log of the calls made.
 */
module Observables {

  /** The closure `subscribe` returns: calling it unsubscribes `func`. */
  datatype Unsubscriber<F> = Unsubscriber(func: F)

  /** `observers.filter((func) => func != inputFunc)`: every other observer, in order. */
  function Remove<F(==,!new)>(observers: seq<F>, inputFunc: F): (r: seq<F>)
    ensures inputFunc !in r
    ensures forall f :: f in r <==> f in observers && f != inputFunc
    ensures |r| <= |observers|
  {
    if observers == [] then []
    else if observers[0] == inputFunc then Remove(observers[1..], inputFunc)
    else [observers[0]] + Remove(observers[1..], inputFunc)
  }

  /** Removing a callback that was never there changes nothing. */
  lemma {:induction false} RemoveAbsent<F(!new)>(observers: seq<F>, inputFunc: F)
    requires inputFunc !in observers
    ensures Remove(observers, inputFunc) == observers
  {
    if observers != [] {
      RemoveAbsent(observers[1..], inputFunc);
      assert observers == [observers[0]] + observers[1..];
    }
  }

  /** Removal distributes over concatenation. */
  lemma {:induction false} RemoveAppend<F(!new)>(a: seq<F>, b: seq<F>, inputFunc: F)
    ensures Remove(a + b, inputFunc) == Remove(a, inputFunc) + Remove(b, inputFunc)
  {
    if a == [] {
      assert a + b == b;
    } else {
      assert (a + b)[1..] == a[1..] + b;
      RemoveAppend(a[1..], b, inputFunc);
    }
  }

  /** With the filter's result kept, subscribing a new callback and then unsubscribing it restores the list. */
  lemma SubscribeThenRemove<F(!new)>(observers: seq<F>, func: F)
    requires func !in observers
    ensures Remove(observers + [func], func) == observers
  {
    RemoveAppend(observers, [func], func);
    RemoveAbsent(observers, func);
    assert Remove([func], func) == [];
  }

  class Observable<F(==,!new)> {
    var observers: seq<F>

    constructor ()
      ensures observers == []
    {
      observers := [];
    }

    /** Appends the callback and returns the closure that unsubscribes it. */
    method Subscribe(func: F) returns (unsubscribe: Unsubscriber<F>)
      modifies this
      ensures observers == old(observers) + [func]
      ensures unsubscribe.func == func
    {
      observers := observers + [func];
      unsubscribe := Unsubscriber(func);
    }

    /**
     * As written: the filtered list is computed and dropped, so the observer list stays as it is
     * and nothing is modified.
     */
    method Unsubscribe(inputFunc: F) returns (discarded: seq<F>)
      ensures discarded == Remove(observers, inputFunc)
    {
      discarded := Remove(observers, inputFunc);
    }

    /** Calling the closure that `subscribe` returned: the same as Unsubscribe. */
    method CallUnsubscriber(u: Unsubscriber<F>) returns (discarded: seq<F>)
      ensures discarded == Remove(observers, u.func)
    {
      discarded := Unsubscribe(u.func);
    }

    /** What unsubscribe evidently means to do: keep the filtered list. */
    method UnsubscribeAndKeep(inputFunc: F)
      modifies this
      ensures observers == Remove(old(observers), inputFunc)
    {
      observers := Remove(observers, inputFunc);
    }

    /** Calls every observer once, in subscription order, with the same data; the log lists the calls. */
    method Notify<D>(data: D) returns (calls: seq<(F, D)>)
      ensures |calls| == |observers|
      ensures forall i :: 0 <= i < |calls| ==> calls[i] == (observers[i], data)
    {
      calls := [];
      var i := 0;
      while i < |observers|
        invariant 0 <= i <= |observers|
        invariant |calls| == i
        invariant forall k :: 0 <= k < i ==> calls[k] == (observers[k], data)
      {
        calls := calls + [(observers[i], data)];
        i := i + 1;
      }
    }
  }

  /**
   * As written, unsubscribing does not remove anything: after subscribing a callback and calling
   * the returned closure, the callback is still an observer and is still notified.
   */
  method UnsubscribeKeepsObserver<F(==,!new), D(==)>(func: F, data: D) returns (stillObserver: bool, notified: bool)
    ensures stillObserver && notified
  {
    var o := new Observable<F>();
    var u := o.Subscribe(func);
    var _ := o.CallUnsubscriber(u);
    stillObserver := func in o.observers;
    var calls := o.Notify(data);
    notified := |calls| == 1 && calls[0].0 == func && calls[0].1 == data;
  }

  /** With the filtered list kept, the callback is gone and every other observer stays, in order. */
  method UnsubscribeAndKeepRemoves<F(==,!new)>(others: seq<F>, func: F) returns (stillObserver: bool, observers: seq<F>)
    requires func !in others
    ensures !stillObserver && observers == others
  {
    var o := new Observable<F>();
    o.observers := others;
    var u := o.Subscribe(func);
    o.UnsubscribeAndKeep(u.func);
    SubscribeThenRemove(others, func);
    stillObserver := func in o.observers;
    observers := o.observers;
  }
}
