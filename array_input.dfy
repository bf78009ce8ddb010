/**
 * `ArrayInput`: a text box with a list of strings under it. Enter or the add
 * button appends the trimmed text when it is new; each entry can be removed.
 * The same two list updates back the three list inputs of the older
 * experience form.
 */
module ArrayInput {
  import opened Text
  import opened Lists

  /** Whether `addItem` accepts `input` for `items`. */
  predicate Accepts(items: seq<string>, input: string) {
    Trim(input) != "" && Trim(input) !in items
  }

  /** `[...items, input.trim()]` when the trimmed input is non-empty and not
      yet listed, otherwise `items` unchanged. */
  function Added(items: seq<string>, input: string): (r: seq<string>)
    ensures Accepts(items, input) ==> r == items + [Trim(input)]
    ensures !Accepts(items, input) ==> r == items
    ensures Trim(input) != "" ==> Trim(input) in r
  {
    if Accepts(items, input) then items + [Trim(input)] else items
  }

  /** `items.filter((v) => v !== item)`. */
  function WithoutItem(items: seq<string>, item: string): (r: seq<string>)
    ensures forall x :: x in r <==> x in items && x != item
  {
    Keep(items, (v: string) => v != item)
  }

  /** A list without duplicates stays without duplicates. */
  lemma AddedNoDuplicates(items: seq<string>, input: string)
    requires NoDuplicates(items)
    ensures NoDuplicates(Added(items, input))
  {
  }

  lemma WithoutItemNoDuplicates(items: seq<string>, item: string)
    requires NoDuplicates(items)
    ensures NoDuplicates(WithoutItem(items, item))
  {
    KeepNoDuplicates(items, (v: string) => v != item);
  }

  /** Adding an entry and then removing it gives back the list. */
  lemma RemoveUndoesAdd(items: seq<string>, input: string)
    requires Accepts(items, input)
    ensures WithoutItem(Added(items, input), Trim(input)) == items
  {
    KeepDropsAppended(items, Trim(input), (v: string) => v != Trim(input));
  }

  /** Removing keeps the order of the entries that stay. */
  lemma WithoutItemKeepsOrder(before: seq<string>, after: seq<string>, item: string)
    ensures WithoutItem(before + after, item) == WithoutItem(before, item) + WithoutItem(after, item)
  {
    KeepAppend(before, after, (v: string) => v != item);
  }

  /** The component with the list it edits (its `value`, updated through
      `onChange`). */
  class ListInput {
    var input: string
    var items: seq<string>

    constructor (items: seq<string>)
      ensures input == "" && this.items == items
    {
      input := "";
      this.items := items;
    }

    /** `addItem`: the box is cleared only when the entry was added. */
    method AddItem()
      modifies this
      ensures items == Added(old(items), old(input))
      ensures input == if Accepts(old(items), old(input)) then "" else old(input)
    {
      var entry := Trim(input);
      if entry != "" && entry !in items {
        items := items + [entry];
        input := "";
      }
    }

    method RemoveItem(item: string)
      modifies this
      ensures items == WithoutItem(old(items), item) && input == old(input)
    {
      items := WithoutItem(items, item);
    }

    /** `handleKeyPress`: only Enter adds. */
    method HandleKeyPress(key: string)
      modifies this
      ensures key == "Enter" ==> items == Added(old(items), old(input))
      ensures key == "Enter" ==> input == if Accepts(old(items), old(input)) then "" else old(input)
      ensures key != "Enter" ==> items == old(items) && input == old(input)
    {
      if key == "Enter" {
        AddItem();
      }
    }
  }
}
