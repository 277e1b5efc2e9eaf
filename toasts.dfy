/** The toast queue (`contexts/ToastContext.tsx`): toasts are appended,
    stamped with the current millisecond as their id, and dismissed by id.
    The clock is the `now` parameter. */
module Toasts {
  import opened Types
  import opened Collections

  datatype Toast = Toast(id: int, message: string, kind: ToastType)

  /** `prev.filter(toast => toast.id !== id)`. */
  function Dismissed(toasts: seq<Toast>, id: int): (r: seq<Toast>)
    ensures forall t :: t in r <==> t in toasts && t.id != id
  {
    Filter(toasts, (t: Toast) => t.id != id)
  }

  /** Dismissal keeps the order of the rest: dismissing from a
      concatenation dismisses from each part. */
  lemma DismissedAppend(a: seq<Toast>, b: seq<Toast>, id: int)
    ensures Dismissed(a + b, id) == Dismissed(a, id) + Dismissed(b, id)
  {
    FilterAppend(a, b, (t: Toast) => t.id != id);
  }

  /** One toast is kept exactly when it has another id. */
  lemma DismissedSingle(t: Toast, id: int)
    ensures Dismissed([t], id) == if t.id != id then [t] else []
  {
    assert [t][..0] == [];
  }

  /** Dismissing a toast just shown removes it together with every earlier
      toast that got the same millisecond as id, and leaves the rest as
      before. */
  lemma DismissJustShown(toasts: seq<Toast>, message: string, kind: ToastType, now: int)
    ensures Dismissed(toasts + [Toast(now, message, kind)], now) == Dismissed(toasts, now)
  {
    FilterAppend(toasts, [Toast(now, message, kind)], (t: Toast) => t.id != now);
    assert [Toast(now, message, kind)][..0] == [];
  }

  /** Two toasts shown in the same millisecond are dismissed together. */
  lemma SameMillisecond(toasts: seq<Toast>, a: string, b: string, ka: ToastType, kb: ToastType, now: int)
    ensures Dismissed(toasts + [Toast(now, a, ka), Toast(now, b, kb)], now) == Dismissed(toasts, now)
  {
    assert toasts + [Toast(now, a, ka), Toast(now, b, kb)] == (toasts + [Toast(now, a, ka)]) + [Toast(now, b, kb)];
    DismissJustShown(toasts + [Toast(now, a, ka)], b, kb, now);
    DismissJustShown(toasts, a, ka, now);
  }

  /** Dismissing an id no toast carries changes nothing. */
  lemma {:induction false} DismissUnknown(toasts: seq<Toast>, id: int)
    requires forall i :: 0 <= i < |toasts| ==> toasts[i].id != id
    ensures Dismissed(toasts, id) == toasts
    decreases |toasts|
  {
    if toasts != [] {
      var p := toasts[..|toasts| - 1];
      DismissUnknown(p, id);
      assert toasts == p + [toasts[|toasts| - 1]];
    }
  }

  class ToastQueue {
    var toasts: seq<Toast>

    constructor()
      ensures toasts == []
    {
      toasts := [];
    }

    /** `showToast`: appends one toast, `success` unless told otherwise;
        the toasts already shown are unchanged. */
    method Show(message: string, now: int, kind: ToastType := Success)
      modifies this
      ensures toasts == old(toasts) + [Toast(now, message, kind)]
    {
      toasts := toasts + [Toast(now, message, kind)];
    }

    /** `removeToast`. */
    method Remove(id: int)
      modifies this
      ensures toasts == Dismissed(old(toasts), id)
    {
      toasts := Dismissed(toasts, id);
    }
  }
}
