/**
 * The login example's `App` component: the holiday list, the signed-in
 * `currentUser`, the sign-up and sign-in handlers, and the render gate that
 * shows the holidays only to a signed-in user.
 */
module LoginApp {
  import opened Fetch
  import opened HolidayList

  /** What `render` shows below the heading. */
  datatype Screen =
    | HolidayTable(rows: seq<string>)  // NewForm plus one table row per holiday name
    | AuthForms                        // SignIn and SignUp

  /**
   * The render gate: `currentUser` is read for its truthiness, so an absent
   * (`undefined`) user and the empty string both mean "signed out".
   */
  function Render(currentUser: Option<string>, holidays: seq<Holiday>): (s: Screen)
    ensures s.HolidayTable? <==> currentUser.Some? && |currentUser.value| > 0
    ensures s.HolidayTable? ==>
      |s.rows| == |holidays| && forall i :: 0 <= i < |holidays| ==> s.rows[i] == holidays[i].name
  {
    if currentUser.Some? && currentUser.value != "" then
      HolidayTable(Names(holidays))
    else
      AuthForms
  }

  /** The table rows: each holiday's name, in list order. */
  function Names(holidays: seq<Holiday>): (rows: seq<string>)
    ensures |rows| == |holidays| && forall i :: 0 <= i < |holidays| ==> rows[i] == holidays[i].name
  {
    seq(|holidays|, i requires 0 <= i < |holidays| => holidays[i].name)
  }

  /** A reply whose `username` is missing or empty leaves the user signed out, whatever the list holds. */
  lemma EmptyUsernameSignedOut(holidays: seq<Holiday>)
    ensures Render(Some(""), holidays) == AuthForms && Render(None, holidays) == AuthForms
  {
  }

  class App {
    var holidays: seq<Holiday>
    /** `state.currentUser`: absent until a sign-up or sign-in reply sets it. */
    var currentUser: Option<string>
    /** The `name` key `handleAddHoliday` writes into the App's state; absent until then. */
    var name: Option<string>

    constructor ()
      ensures holidays == [] && currentUser == None && name == None
      ensures Render(currentUser, holidays) == AuthForms
    {
      holidays := [];
      currentUser := None;
      name := None;
    }

    /** `getHolidays` (also what `componentDidMount` runs): fetches the list and replaces it. */
    method GetHolidays(reply: FetchReply<seq<Holiday>>) returns (req: Request)
      modifies this
      ensures req == Request(GET, "/holidays", NoBody)
      ensures holidays == Reloaded(old(holidays), reply)
      ensures currentUser == old(currentUser) && name == old(name)
    {
      req := Request(GET, "/holidays", NoBody);
      if reply.Parsed? {
        holidays := reply.value;
      }
    }

    /** `handleAddHoliday`: puts the new record in front of a copy of the list. */
    method HandleAddHoliday(h: Holiday)
      modifies this
      ensures holidays == [h] + old(holidays)
      ensures |holidays| == |old(holidays)| + 1 && holidays[0] == h && holidays[1..] == old(holidays)
      ensures name == Some("") && currentUser == old(currentUser)
    {
      var copyHolidays := holidays;
      copyHolidays := [h] + copyHolidays;
      holidays := copyHolidays;
      name := Some("");
    }

    /**
     * `handleSignUp`: posts exactly `{username, password}` to `/users`; a
     * parsed reply's `username` (possibly missing) becomes `currentUser`, and
     * a rejected request or unparsable reply is caught and only logged.
     */
    method HandleSignUp(username: string, password: string, reply: FetchReply<Option<string>>)
      returns (req: Request)
      modifies this
      ensures req == Request(POST, "/users", CredentialsBody(username, password))
      ensures reply.Parsed? ==> currentUser == reply.value
      ensures reply.Parsed? && reply.value.Some? && reply.value.value != "" ==>
        Render(currentUser, holidays) == HolidayTable(Names(holidays))
      ensures reply.Parsed? && (reply.value.None? || reply.value.value == "") ==>
        Render(currentUser, holidays) == AuthForms
      ensures !reply.Parsed? ==> currentUser == old(currentUser)
      ensures holidays == old(holidays) && name == old(name)
    {
      req := Request(POST, "/users", CredentialsBody(username, password));
      if reply.Parsed? {
        currentUser := reply.value;
      }
    }

    /**
     * `handleSignIn`: posts exactly `{username, password}` to `/sessions`;
     * the reply is handled as for sign-up.
     */
    method HandleSignIn(username: string, password: string, reply: FetchReply<Option<string>>)
      returns (req: Request)
      modifies this
      ensures req == Request(POST, "/sessions", CredentialsBody(username, password))
      ensures reply.Parsed? ==> currentUser == reply.value
      ensures reply.Parsed? && reply.value.Some? && reply.value.value != "" ==>
        Render(currentUser, holidays) == HolidayTable(Names(holidays))
      ensures reply.Parsed? && (reply.value.None? || reply.value.value == "") ==>
        Render(currentUser, holidays) == AuthForms
      ensures !reply.Parsed? ==> currentUser == old(currentUser)
      ensures holidays == old(holidays) && name == old(name)
    {
      req := Request(POST, "/sessions", CredentialsBody(username, password));
      if reply.Parsed? {
        currentUser := reply.value;
      }
    }
  }
}
