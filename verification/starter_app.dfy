/**
 * The starter holidays client's `App` component: its `holidays` list, the
 * `holiday` selected for the `Show` component, and the handlers that update
 * them once a server reply arrives.
 *
 * React's `setState` is an assignment to the fields named; rendering is not
 * modelled.
 */
module StarterApp {
  import opened Fetch
  import opened HolidayList

  /** `state.holiday`: the initial empty object `{}` or the record last hovered over. */
  datatype Selection = EmptyObject | Chosen(holiday: Holiday)

  class App {
    var holidays: seq<Holiday>
    var holiday: Selection
    /** The `name` key `handleAddHoliday` writes into the App's state; absent until then. */
    var name: Option<string>

    constructor ()
      ensures holidays == [] && holiday == EmptyObject && name == None
    {
      holidays := [];
      holiday := EmptyObject;
      name := None;
    }

    /** `getHoliday`: selects a record and leaves the list alone. */
    method GetHoliday(h: Holiday)
      modifies this
      ensures holiday == Chosen(h)
      ensures holidays == old(holidays) && name == old(name)
    {
      holiday := Chosen(h);
    }

    /** `getHolidays` (also what `componentDidMount` runs): fetches the list and replaces it. */
    method GetHolidays(reply: FetchReply<seq<Holiday>>) returns (req: Request)
      modifies this
      ensures req == Request(GET, "/holidays", NoBody)
      ensures holidays == Reloaded(old(holidays), reply)
      ensures holiday == old(holiday) && name == old(name)
    {
      req := Request(GET, "/holidays", NoBody);
      if reply.Parsed? {
        holidays := reply.value;
      }
    }

    /** `handleAddHoliday`: puts the server's new record in front of a copy of the list. */
    method HandleAddHoliday(h: Holiday)
      modifies this
      ensures holidays == [h] + old(holidays)
      ensures |holidays| == |old(holidays)| + 1 && holidays[0] == h && holidays[1..] == old(holidays)
      ensures name == Some("") && holiday == old(holiday)
    {
      var copyHolidays := holidays;
      copyHolidays := [h] + copyHolidays;
      holidays := copyHolidays;
      name := Some("");
    }

    /**
     * `deleteHoliday`: once any response to the DELETE arrives (whatever its
     * status), the records with that id are filtered out of the list held at
     * that moment. A rejected request changes nothing.
     */
    method DeleteHoliday(id: string, responded: bool) returns (req: Request)
      modifies this
      ensures req == Request(DELETE, "/holidays/" + id, NoBody)
      ensures !responded ==> holidays == old(holidays)
      ensures responded ==> holidays == WithoutId(old(holidays), id)
      ensures responded ==> forall j :: 0 <= j < |holidays| ==> holidays[j].id != id
      ensures |holidays| <= |old(holidays)|
      ensures holiday == old(holiday) && name == old(name)
    {
      req := Request(DELETE, "/holidays/" + id, NoBody);
      if responded {
        var holidaysArr := WithoutId(holidays, id);
        holidays := holidaysArr;
      }
    }

    /**
     * `toggleCelebrated`: asks the server to store the negation of the
     * record's `celebrated`, then writes the server's value into the first
     * record whose id equals the reply's id. The write goes through a shallow
     * copy of the list, so it changes the very object the previous state (and
     * the selected `holiday`, when it is that record) holds. With no matching
     * record `findIndex` gives -1 and the write throws: nothing changes and
     * `applied` is false. A rejected request or unparsable reply changes
     * nothing either.
     */
    method ToggleCelebrated(h: Holiday, reply: FetchReply<UpdatedHoliday>) returns (req: Request, applied: bool)
      modifies this, holidays
      ensures req == Request(PUT, "/holidays/" + h.id, CelebratedBody(!old(h.celebrated)))
      ensures holidays == old(holidays) && holiday == old(holiday) && name == old(name)
      ensures applied <==> reply.Parsed? && FindIndex(holidays, reply.value.id) != -1
      ensures applied ==>
        var i := FindIndex(holidays, reply.value.id);
        && old(holidays)[i].celebrated == reply.value.celebrated
        && (holiday.Chosen? && holiday.holiday == old(holidays)[i] ==> holiday.holiday.celebrated == reply.value.celebrated)
        && forall j :: 0 <= j < |holidays| && holidays[j] != holidays[i] ==> holidays[j].celebrated == old(holidays[j].celebrated)
      ensures !applied ==> forall j :: 0 <= j < |holidays| ==> holidays[j].celebrated == old(holidays[j].celebrated)
    {
      req := Request(PUT, "/holidays/" + h.id, CelebratedBody(!h.celebrated));
      applied := false;
      if reply.Parsed? {
        var resJson := reply.value;
        var copyHolidays := holidays;
        var findIndex := FindIndex(holidays, resJson.id);
        if findIndex != -1 {
          copyHolidays[findIndex].celebrated := resJson.celebrated;
          holidays := copyHolidays;
          applied := true;
        }
      }
    }
  }
}
