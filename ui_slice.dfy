/**
 * `uiSlice`: the global loading flag and the list of toasts. A toast's id is
 * built from the clock and a random number, so `AddToast` takes it as input.
 */
module UiSlice {
  import opened Wrappers
  import opened Lists

  datatype ToastType = Success | Error | Info | Warning

  /** The payload of `addToast`: a toast without its id. */
  datatype ToastContent = ToastContent(kind: ToastType, message: string, duration: Option<int>)

  datatype Toast = Toast(id: string, content: ToastContent)

  /** `toasts.filter((toast) => toast.id !== id)`. */
  function WithoutToast(toasts: seq<Toast>, id: string): (r: seq<Toast>)
    ensures forall t :: t in r <==> t in toasts && t.id != id
  {
    Keep(toasts, (t: Toast) => t.id != id)
  }

  /** Removing a toast that was just added under a fresh id gives back the
      list from before. */
  lemma RemoveUndoesAdd(toasts: seq<Toast>, content: ToastContent, id: string)
    requires forall t :: t in toasts ==> t.id != id
    ensures WithoutToast(toasts + [Toast(id, content)], id) == toasts
  {
    KeepDropsAppended(toasts, Toast(id, content), (t: Toast) => t.id != id);
  }

  /** Toasts with other ids keep their order when one id is removed. */
  lemma RemoveKeepsOrder(before: seq<Toast>, after: seq<Toast>, id: string)
    ensures WithoutToast(before + after, id) == WithoutToast(before, id) + WithoutToast(after, id)
  {
    KeepAppend(before, after, (t: Toast) => t.id != id);
  }

  class Ui {
    var globalLoading: bool
    var toasts: seq<Toast>

    /** `initialState`. */
    constructor ()
      ensures !globalLoading && toasts == []
    {
      globalLoading := false;
      toasts := [];
    }

    method SetGlobalLoading(on: bool)
      modifies this
      ensures globalLoading == on && toasts == old(toasts)
    {
      globalLoading := on;
    }

    /** `addToast`: the payload with its new id goes at the end. */
    method AddToast(content: ToastContent, id: string)
      modifies this
      ensures toasts == old(toasts) + [Toast(id, content)] && globalLoading == old(globalLoading)
    {
      toasts := toasts + [Toast(id, content)];
    }

    method RemoveToast(id: string)
      modifies this
      ensures toasts == WithoutToast(old(toasts), id) && globalLoading == old(globalLoading)
    {
      toasts := WithoutToast(toasts, id);
    }

    method ClearToasts()
      modifies this
      ensures toasts == [] && globalLoading == old(globalLoading)
    {
      toasts := [];
    }
  }
}
