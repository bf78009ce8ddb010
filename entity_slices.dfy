/**
 * The four entity slices of the admin's Redux store (`projectsSlice`,
 * `experienceSlice`, `skillsSlice`, `certificationsSlice`). They are the same
 * code with different names: a cache `{items, loading, error}` of the rows of
 * one table, changed by the pending / fulfilled / rejected cases of four
 * thunks and by `clearError`. The thunks' network calls are not modelled;
 * what each thunk resolves or rejects with, given the reply it got, is.
 */
module EntitySlices {
  import opened Wrappers
  import opened Json
  import opened Lists
  import ImportCommon

  /** The id of a cached row. */
  function IdOf(item: Record): Value {
    Column(item, "id")
  }

  /** `items.filter((item) => item.id !== id)`: every row with the id is gone,
      every other row stays, in order. */
  function Removed(items: seq<Record>, id: Value): (r: seq<Record>)
    ensures forall x :: x in r <==> x in items && IdOf(x) != id
    ensures |r| <= |items|
  {
    Keep(items, x => IdOf(x) != id)
  }

  /** `const i = items.findIndex((item) => item.id === payload.id); if (i !== -1) items[i] = payload`. */
  function Replaced(items: seq<Record>, item: Record): (r: seq<Record>)
    ensures |r| == |items|
    ensures (forall j :: 0 <= j < |items| ==> IdOf(items[j]) != IdOf(item)) ==> r == items
    ensures forall i :: 0 <= i < |items| && IdOf(items[i]) == IdOf(item) &&
                        (forall j :: 0 <= j < i ==> IdOf(items[j]) != IdOf(item)) ==>
              r == items[i := item]
  {
    ReplaceFirstEffect(items, x => IdOf(x) == IdOf(item), item);
    ReplaceFirst(items, x => IdOf(x) == IdOf(item), item)
  }

  /** An update never changes which ids the cache holds, nor where. */
  lemma ReplacedKeepsIds(items: seq<Record>, item: Record)
    ensures forall k :: 0 <= k < |items| ==> IdOf(Replaced(items, item)[k]) == IdOf(items[k])
  {
    var i := IndexOfFirst(items, x => IdOf(x) == IdOf(item));
    if i != -1 {
      assert Replaced(items, item) == items[i := item];
    }
  }

  /** Deleting the id of a row that was just created, when no other cached
      row had that id, gives back the cache from before the create. */
  lemma DeleteUndoesCreate(items: seq<Record>, item: Record)
    requires forall x :: x in items ==> IdOf(x) != IdOf(item)
    ensures Removed(items + [item], IdOf(item)) == items
  {
    KeepDropsAppended(items, item, x => IdOf(x) != IdOf(item));
  }

  /** Deleting twice is deleting once. */
  lemma RemovedIdempotent(items: seq<Record>, id: Value)
    ensures Removed(Removed(items, id), id) == Removed(items, id)
  {
    KeepEverything(Removed(items, id), x => IdOf(x) != id);
  }

  /** The state of one slice. */
  class EntitySlice {
    /** `name` of `createSlice`: the table the slice caches. */
    const name: string
    var items: seq<Record>
    var loading: bool
    var error: Option<string>

    /** `initialState`. */
    constructor (name: string)
      ensures this.name == name && items == [] && !loading && error == None
    {
      this.name := name;
      items := [];
      loading := false;
      error := None;
    }

    /** The `pending` case of every thunk. */
    method Pending()
      modifies this
      ensures loading && error == None && items == old(items)
    {
      loading := true;
      error := None;
    }

    /** The `rejected` case of every thunk, with the thunk's message. */
    method Rejected(message: string)
      modifies this
      ensures !loading && error == Some(message) && items == old(items)
    {
      loading := false;
      error := Some(message);
    }

    /** `fetch<Plural>.fulfilled`: the fetched rows replace the cache. */
    method FetchFulfilled(payload: seq<Record>)
      modifies this
      ensures !loading && items == payload && error == old(error)
    {
      loading := false;
      items := payload;
    }

    /** `create<Entity>.fulfilled`: the created row is appended. */
    method CreateFulfilled(payload: Record)
      modifies this
      ensures !loading && items == old(items) + [payload] && error == old(error)
    {
      loading := false;
      items := items + [payload];
    }

    /** `update<Entity>.fulfilled`: the first row with the payload's id is overwritten. */
    method UpdateFulfilled(payload: Record)
      modifies this
      ensures !loading && items == Replaced(old(items), payload) && error == old(error)
    {
      loading := false;
      var i := IndexOfFirst(items, x => IdOf(x) == IdOf(payload));
      if i != -1 {
        items := items[i := payload];
      }
    }

    /** `delete<Entity>.fulfilled`: every row with the deleted id is dropped. */
    method DeleteFulfilled(id: Value)
      modifies this
      ensures !loading && items == Removed(old(items), id) && error == old(error)
    {
      loading := false;
      items := Removed(items, id);
    }

    /** `clearError`. */
    method ClearError()
      modifies this
      ensures error == None && items == old(items) && loading == old(loading)
    {
      error := None;
    }
  }

  method ProjectsSlice() returns (s: EntitySlice)
    ensures fresh(s) && s.name == "projects" && s.items == [] && !s.loading && s.error == None
  {
    s := new EntitySlice("projects");
  }

  method ExperienceSlice() returns (s: EntitySlice)
    ensures fresh(s) && s.name == "experience" && s.items == [] && !s.loading && s.error == None
  {
    s := new EntitySlice("experience");
  }

  method SkillsSlice() returns (s: EntitySlice)
    ensures fresh(s) && s.name == "skills" && s.items == [] && !s.loading && s.error == None
  {
    s := new EntitySlice("skills");
  }

  method CertificationsSlice() returns (s: EntitySlice)
    ensures fresh(s) && s.name == "certifications" && s.items == [] && !s.loading && s.error == None
  {
    s := new EntitySlice("certifications");
  }

  /** What `fetch` gave a thunk: it threw (`Unreachable`), or a response with
      its `ok` flag and its body, `None` when `res.json()` throws. */
  datatype Reply = Unreachable | Reply(ok: bool, body: Option<Value>)

  /** The singular name in the thunks' messages ("project", "skill", ...) and
      the plural one ("projects", "experience", ...). */
  datatype Names = Names(singular: string, plural: string)

  /** `fetch<Plural>`: the rows, or the message it rejects with. `thrown` is
      the message of whatever the runtime threw (a network or JSON error). */
  function FetchThunk(names: Names, reply: Reply, thrown: string): (r: Result<Value, string>)
    ensures r.Ok? <==> reply.Reply? && reply.ok && reply.body.Some?
    ensures r.Ok? ==> r.value == reply.body.value
    ensures reply.Reply? && !reply.ok ==> r == Err("Failed to fetch " + names.plural)
  {
    match reply
    case Unreachable => Err(thrown)
    case Reply(ok, body) =>
      if !ok then Err("Failed to fetch " + names.plural)
      else if body.None? then Err(thrown)
      else Ok(body.value)
  }

  /** `create<Entity>` and `update<Entity>` (`verb` is "create" or "update"):
      the saved row, or the server's `error` field, or the fallback message.
      `String(x)` of a number is `numText(x)`. */
  function SaveThunk(names: Names, verb: string, reply: Reply, thrown: string, numText: real -> string): (r: Result<Value, string>)
    ensures r.Ok? <==> reply.Reply? && reply.ok && reply.body.Some?
    ensures r.Ok? ==> r.value == reply.body.value
    ensures reply.Reply? && !reply.ok && reply.body.Some? && !Nullish(reply.body.value) ==>
      var e := Get(reply.body.value, "error");
      && (e.Str? && e.s != "" ==> r == Err(e.s))
      && (!Truthy(e) ==> r == Err("Failed to " + verb + " " + names.singular))
  {
    match reply
    case Unreachable => Err(thrown)
    case Reply(ok, body) =>
      if body.None? then Err(thrown)
      else if ok then Ok(body.value)
      else if Nullish(body.value) then Err(thrown)
      else Err(ImportCommon.ValueText(Or(Get(body.value, "error"), Str("Failed to " + verb + " " + names.singular)), numText))
  }

  /** `delete<Entity>`: it resolves with the id it was given, and never reads
      the body. */
  function DeleteThunk(names: Names, id: Value, reply: Reply, thrown: string): (r: Result<Value, string>)
    ensures r.Ok? <==> reply.Reply? && reply.ok
    ensures r.Ok? ==> r.value == id
    ensures reply.Reply? && !reply.ok ==> r == Err("Failed to delete " + names.singular)
  {
    match reply
    case Unreachable => Err(thrown)
    case Reply(ok, _) => if ok then Ok(id) else Err("Failed to delete " + names.singular)
  }
}
