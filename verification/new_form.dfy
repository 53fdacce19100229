/**
 * The starter client's `NewForm` component: a keyed state object edited by
 * `handleChange`, and `handleSubmit`, which posts the name and hands the
 * server's record to the parent `App`.
 */
module NewForm {
  import opened Fetch
  import opened HolidayList
  import StarterApp

  class NewForm {
    /** The component state, keyed as in JavaScript; `handleChange` may add keys. */
    var state: map<string, string>
    /** The parent whose `handleAddHoliday` is passed in as a prop. */
    const parent: StarterApp.App

    ghost predicate Valid()
      reads this
    {
      "name" in state
    }

    constructor (parent: StarterApp.App)
      ensures Valid() && this.parent == parent
      ensures state == map["name" := "", "test" := "this is test"]
    {
      this.parent := parent;
      state := map["name" := "", "test" := "this is test"];
    }

    /** `handleChange`: stores the input's value under the key named by the input's id. */
    method HandleChange(targetId: string, value: string)
      requires Valid()
      modifies this
      ensures Valid()
      ensures state == old(state)[targetId := value]
      ensures state.Keys == old(state.Keys) + {targetId} && state[targetId] == value
      ensures forall k :: k in old(state) && k != targetId ==> state[k] == old(state)[k]
    {
      state := state[targetId := value];
    }

    /**
     * `handleSubmit`: posts `{name}` (and nothing else) from the current
     * state. On a parsed reply the record goes, unchanged, to the parent's
     * `handleAddHoliday` and then the field is cleared; a rejected request or
     * unparsable reply is only logged.
     */
    method HandleSubmit(reply: FetchReply<Holiday>) returns (req: Request)
      requires Valid()
      modifies this, parent
      ensures Valid()
      ensures req == Request(POST, "/holidays", NameBody(old(state)["name"]))
      ensures reply.Parsed? ==> parent.holidays == [reply.value] + old(parent.holidays)
      ensures reply.Parsed? ==> state == old(state)["name" := ""]
      ensures reply.Parsed? ==> parent.name == Some("") && parent.holiday == old(parent.holiday)
      ensures !reply.Parsed? ==> state == old(state)
      ensures !reply.Parsed? ==> parent.holidays == old(parent.holidays) && parent.name == old(parent.name)
      ensures !reply.Parsed? ==> parent.holiday == old(parent.holiday)
    {
      req := Request(POST, "/holidays", NameBody(state["name"]));
      if reply.Parsed? {
        parent.HandleAddHoliday(reply.value);
        state := state["name" := ""];
      }
    }
  }
}
