/**
 * `useConfirmationDialog`: the `{ open, item }` state of a confirmation
 * dialog, the confirm action that calls `onConfirm` with the item and
 * reports the outcome in a toast, and the dialog's description; and
 * `useDeleteConfirmation`, its configuration for deleting an entity.
 * The promise `onConfirm` returns is given to `HandleConfirm` as its
 * outcome; the `sonner` toasts are recorded in the order they are shown.
 */
module ConfirmDialog {
  import opened Wrappers
  import opened Text
  import UiSlice

  datatype Item = Item(id: string, name: string)

  /** What `onConfirm` rejected with: `err instanceof Error`, and its `message`. */
  datatype Thrown = Thrown(isError: bool, message: string)

  datatype SuccessMessage = SuccessText(text: string) | SuccessFrom(f: Item -> string)
  datatype ErrorMessage = ErrorText(text: string) | ErrorFrom(f: Thrown -> string)
  datatype Description = DescriptionText(text: string) | DescriptionFrom(f: Item -> string)

  datatype Config = Config(
    title: string,
    description: Option<Description>,
    actionLabel: string,
    cancelLabel: string,
    successMessage: SuccessMessage,
    errorMessage: ErrorMessage,
    successToastType: UiSlice.ToastType,
    errorToastType: UiSlice.ToastType,
    showSuccessToast: bool,
    showErrorToast: bool)

  /** The configuration with every default of the destructuring filled in. */
  const Defaults := Config(
    "Are you sure?", None, "Confirm", "Cancel",
    SuccessText("Action completed successfully"), ErrorText("Failed to complete action"),
    UiSlice.Success, UiSlice.Error, true, true)

  /** The success toast's text for `item`. */
  function SuccessFor(config: Config, item: Item): string {
    match config.successMessage
    case SuccessText(text) => text
    case SuccessFrom(f) => f(item)
  }

  /** The error toast's text: the configured function if there is one, else
      the message of an `Error`, else the configured text. */
  function ErrorFor(config: Config, err: Thrown): (message: string)
    ensures config.errorMessage.ErrorFrom? ==> message == config.errorMessage.f(err)
    ensures config.errorMessage.ErrorText? && err.isError ==> message == err.message
    ensures config.errorMessage.ErrorText? && !err.isError ==> message == config.errorMessage.text
  {
    match config.errorMessage
    case ErrorFrom(f) => f(err)
    case ErrorText(text) => if err.isError then err.message else text
  }

  /** The fallback description of `getDescription`. */
  function DefaultDescription(item: Item): string {
    "This will permanently delete \"" + item.name + "\". This action cannot be undone."
  }

  /** `getDescription()`: nothing without an item; a configured description
      when it is a function or a non-empty text; the fallback otherwise. */
  function DescriptionFor(config: Config, item: Option<Item>): (r: Option<string>)
    ensures item.None? <==> r.None?
    ensures item.Some? && (config.description.None? || config.description.value == DescriptionText("")) ==>
      r == Some(DefaultDescription(item.value))
    ensures (item.Some? && config.description.Some? && config.description.value.DescriptionText? &&
             config.description.value.text != "") ==> r == Some(config.description.value.text)
  {
    match item
    case None => None
    case Some(it) =>
      match config.description
      case None => Some(DefaultDescription(it))
      case Some(DescriptionText(text)) => if text != "" then Some(text) else Some(DefaultDescription(it))
      case Some(DescriptionFrom(f)) => Some(f(it))
  }

  /** `useDeleteConfirmation({ onDelete, entityName })`. */
  function DeleteConfig(entityName: string): Config {
    Defaults.(
      actionLabel := "Delete",
      successMessage := SuccessText(Capitalize(entityName) + " deleted successfully"),
      errorMessage := ErrorText("Failed to delete " + entityName))
  }

  /** The delete dialog names the entity, capitalised, on success; on failure
      it shows an `Error`'s own message, or "Failed to delete <entity>" for
      anything else thrown (such as the string a rejected thunk gives). */
  lemma DeleteMessages(entityName: string, item: Item, err: Thrown)
    ensures var s := SuccessFor(DeleteConfig(entityName), item);
      && |s| == |entityName| + 21
      && s[|entityName|..] == " deleted successfully"
      && (entityName != "" ==> s[0] == UpperChar(entityName[0]) && s[1..|entityName|] == entityName[1..])
    ensures ErrorFor(DeleteConfig(entityName), err) == if err.isError then err.message else "Failed to delete " + entityName
    ensures DeleteConfig(entityName).title == "Are you sure?" && DeleteConfig(entityName).actionLabel == "Delete"
  {
    var s := SuccessFor(DeleteConfig(entityName), item);
    assert s == Capitalize(entityName) + " deleted successfully";
    if entityName != "" {
      assert s[1..|entityName|] == Capitalize(entityName)[1..];
    }
  }

  /** The toast `handleConfirm` shows for `it` once `onConfirm` has settled
      with `outcome`, if that toast is enabled. */
  function ConfirmToasts(config: Config, it: Item, outcome: Option<Thrown>): seq<(UiSlice.ToastType, string)> {
    match outcome
    case None => if config.showSuccessToast then [(config.successToastType, SuccessFor(config, it))] else []
    case Some(err) => if config.showErrorToast then [(config.errorToastType, ErrorFor(config, err))] else []
  }

  class Dialog {
    const config: Config
    var open: bool
    var item: Option<Item>
    /** The items `onConfirm` was called with, in order. */
    var confirmed: seq<Item>
    /** The toasts shown, in order. */
    var toasts: seq<(UiSlice.ToastType, string)>

    constructor (config: Config)
      ensures this.config == config
      ensures !open && item == None && confirmed == [] && toasts == []
    {
      this.config := config;
      open := false;
      item := None;
      confirmed := [];
      toasts := [];
    }

    method OpenDialog(it: Item)
      modifies this
      ensures open && item == Some(it)
      ensures confirmed == old(confirmed) && toasts == old(toasts)
    {
      open := true;
      item := Some(it);
    }

    method CloseDialog()
      modifies this
      ensures !open && item == None
      ensures confirmed == old(confirmed) && toasts == old(toasts)
    {
      open := false;
      item := None;
    }

    /** `onOpenChange`: closing the dialog from outside clears it. */
    method OnOpenChange(nowOpen: bool)
      modifies this
      ensures !nowOpen ==> !open && item == None
      ensures nowOpen ==> open == old(open) && item == old(item)
      ensures confirmed == old(confirmed) && toasts == old(toasts)
    {
      if !nowOpen {
        CloseDialog();
      }
    }

    /** `handleConfirm`, with `outcome` the rejection of `onConfirm`'s
        promise, `None` when it resolves. */
    method HandleConfirm(outcome: Option<Thrown>)
      modifies this
      ensures old(item).None? ==>
        open == old(open) && item == old(item) && confirmed == old(confirmed) && toasts == old(toasts)
      ensures old(item).Some? ==> confirmed == old(confirmed) + [old(item).value]
      ensures old(item).Some? ==> toasts == old(toasts) + ConfirmToasts(config, old(item).value, outcome)
      ensures old(item).Some? && outcome.None? ==> !open && item == None
      ensures old(item).Some? && outcome.Some? ==> open == old(open) && item == old(item)
    {
      if item.None? {
        return;
      }
      var it := item.value;
      confirmed := confirmed + [it];
      match outcome {
        case None =>
          if config.showSuccessToast {
            toasts := toasts + [(config.successToastType, SuccessFor(config, it))];
          }
          CloseDialog();
        case Some(err) =>
          if config.showErrorToast {
            toasts := toasts + [(config.errorToastType, ErrorFor(config, err))];
          }
      }
    }

    /** A click on the dialog's Action button: its `onClick` is
        `handleConfirm`, after which the Action closes the dialog through
        `onOpenChange(false)`. `handleConfirm` works on the item it read
        before the close, so running it to the end first and closing after
        gives the same state. After every click the dialog is closed, also
        when the delete failed. */
    method ClickAction(outcome: Option<Thrown>)
      modifies this
      ensures !open && item == None
      ensures old(item).None? ==> confirmed == old(confirmed) && toasts == old(toasts)
      ensures old(item).Some? ==>
        && confirmed == old(confirmed) + [old(item).value]
        && toasts == old(toasts) + ConfirmToasts(config, old(item).value, outcome)
    {
      HandleConfirm(outcome);
      OnOpenChange(false);
    }

    function GetDescription(): (r: Option<string>)
      reads this
      ensures item.None? <==> r.None?
    {
      DescriptionFor(config, item)
    }
  }
}
