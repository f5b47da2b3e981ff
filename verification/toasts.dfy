/**
 * Notifications: `ToastService` numbers and emits toasts; `ToastContainerComponent` lists the
 * toasts it has received and removes one when it is closed. The subject between them is modelled
 * by the container's `OnToast` being called with each emitted toast.
 */
module Toasts {
  import opened Lists

  datatype ToastType = Success | Error | Info

  datatype Toast = Toast(id: int, message: string, toastType: ToastType, duration: int)

  /** The default display time, in milliseconds, of `show` and of each helper. */
  const DefaultDuration := 5000

  /** `toasts.filter(toast => toast.id !== id)`. */
  function Without(toasts: seq<Toast>, id: int): (r: seq<Toast>)
    ensures |r| <= |toasts|
    ensures forall i :: 0 <= i < |r| ==> r[i].id != id
  {
    Filter(toasts, (t: Toast) => t.id != id)
  }

  /** Every toast with another id survives, as many times as it was there. */
  lemma WithoutKeepsOthers(toasts: seq<Toast>, id: int, t: Toast)
    requires t.id != id
    ensures multiset(Without(toasts, id))[t] == multiset(toasts)[t]
  {
  }

  /** Removing an id that no toast has leaves the list as it was. */
  lemma {:induction false} WithoutAbsent(toasts: seq<Toast>, id: int)
    requires forall i :: 0 <= i < |toasts| ==> toasts[i].id != id
    ensures Without(toasts, id) == toasts
  {
    if toasts != [] {
      WithoutAbsent(toasts[1..], id);
      assert toasts == [toasts[0]] + toasts[1..];
    }
  }

  /** Closing the same toast twice is closing it once. */
  lemma WithoutIdempotent(toasts: seq<Toast>, id: int)
    ensures Without(Without(toasts, id), id) == Without(toasts, id)
  {
    WithoutAbsent(Without(toasts, id), id);
  }

  /**
   * Closing a toast keeps the others in the order they arrived: removing from two runs of toasts
   * one after the other removes from each run and keeps the runs in that order.
   */
  lemma WithoutConcat(older: seq<Toast>, newer: seq<Toast>, id: int)
    ensures Without(older + newer, id) == Without(older, id) + Without(newer, id)
  {
    FilterConcat(older, newer, (t: Toast) => t.id != id);
  }

  /** Removing after appending: the appended toast survives exactly when its id is another one. */
  lemma WithoutAppend(toasts: seq<Toast>, t: Toast, id: int)
    ensures Without(toasts + [t], id) == Without(toasts, id) + (if t.id == id then [] else [t])
  {
    FilterAppend(toasts, t, (t: Toast) => t.id != id);
  }

  class ToastService {
    var id: int
    /** Every toast emitted so far, in order. */
    var emitted: seq<Toast>

    /** The counter is the number of emissions and the emitted ids are 1, 2, 3, ... */
    ghost predicate Valid()
      reads this
    {
      id == |emitted| && forall i :: 0 <= i < |emitted| ==> emitted[i].id == i + 1
    }

    constructor ()
      ensures Valid() && id == 0 && emitted == []
    {
      id, emitted := 0, [];
    }

    /** `show`: increment the counter, then emit a toast carrying it. */
    method Show(message: string, toastType: ToastType, duration: int := DefaultDuration) returns (toast: Toast)
      requires Valid()
      modifies this
      ensures Valid()
      ensures toast == Toast(old(id) + 1, message, toastType, duration)
      ensures emitted == old(emitted) + [toast]
      ensures forall i :: 0 <= i < |old(emitted)| ==> emitted[i].id < toast.id
    {
      id := id + 1;
      toast := Toast(id, message, toastType, duration);
      emitted := emitted + [toast];
    }

    method ShowSuccess(message: string, duration: int := DefaultDuration) returns (toast: Toast)
      requires Valid()
      modifies this
      ensures Valid() && emitted == old(emitted) + [toast]
      ensures toast == Toast(old(id) + 1, message, Success, duration)
    {
      toast := Show(message, Success, duration);
    }

    method ShowError(message: string, duration: int := DefaultDuration) returns (toast: Toast)
      requires Valid()
      modifies this
      ensures Valid() && emitted == old(emitted) + [toast]
      ensures toast == Toast(old(id) + 1, message, Error, duration)
    {
      toast := Show(message, Error, duration);
    }

    method ShowInfo(message: string, duration: int := DefaultDuration) returns (toast: Toast)
      requires Valid()
      modifies this
      ensures Valid() && emitted == old(emitted) + [toast]
      ensures toast == Toast(old(id) + 1, message, Info, duration)
    {
      toast := Show(message, Info, duration);
    }
  }

  /** In a valid service the emitted ids are strictly increasing, hence distinct. */
  lemma EmittedIdsIncrease(s: ToastService, i: int, j: int)
    requires s.Valid() && 0 <= i < j < |s.emitted|
    ensures s.emitted[i].id < s.emitted[j].id
  {
  }

  class ToastContainer {
    var toasts: seq<Toast>

    constructor ()
      ensures toasts == []
    {
      toasts := [];
    }

    /** The subscriber: the toast goes at the end, earlier toasts stay where they are. */
    method OnToast(toast: Toast)
      modifies this
      ensures toasts == old(toasts) + [toast]
    {
      toasts := toasts + [toast];
    }

    /** `removeToast`: drop every toast with the id, keep the others in order. */
    method RemoveToast(id: int)
      modifies this
      ensures toasts == Without(old(toasts), id)
    {
      toasts := Without(toasts, id);
    }
  }
}
