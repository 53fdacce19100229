# Holidays: client state and server rules

A model of the holidays example applications. There are two React clients. The starter client
(`unit_3/w15d3/.../holidays_front_end_starter`) lists, adds, deletes and toggles holiday records.
The login client (`unit_3/w16d3/.../holidays_front_end`) hides the list until someone signs up or
signs in. The Express API (`unit_3/w16d3/.../holidays_api`) contributes two things to the model:
its CORS set-up and its `POST /users` handler.

Modules:

- `Fetch` (`fetch.dfy`): requests as values, `Option` for JavaScript values that may be
  `undefined`, and `FetchReply`. `FetchReply` says how a `fetch(...).then(res => res.json())`
  chain ended: network error, parse error, or a parsed value.
- `HolidayList` (`holiday_list.dfy`): the record class `Holiday` and the list operations both
  clients' handlers use. These are `filter` by `_id`, `findIndex` by `_id`, and the
  reload-on-reply rule.
- `StarterApp` (`starter_app.dfy`): the starter client's `App`, as a class whose fields are its
  React state.
- `NewForm` (`new_form.dfy`): the starter client's `NewForm` component. Its state is a keyed map,
  and its parent is the starter `App`.
- `LoginApp` (`login_app.dfy`): the login client's `App` and its render gate.
- `Server` (`server.dfy`): the origin allow-list, the origin callback, and the middleware
  that is actually installed.
- `UsersController` (`users.dfy`): the user-creation handler.

Conventions:

- Dafny does not allow identifiers that start with an underscore, so the JSON key `_id` is the
  field `id`.
- Records are objects. The clients never write `_id`, `name` or `likes`, so those are constants.
  `celebrated` is the one field a client overwrites in place.
- The `holidays` state field is a list of references. So the toggle write through a shallow copy of the list
  changes the same object that the previous state and the selected `holiday` hold, and
  `ToggleCelebrated` states this.
- Network replies, the bcrypt hash, its salt and the document `User.create` returns are all
  parameters. The handlers return the request they send as a value.
- Behaviour a reader might expect that the code does not have:
  - `deleteHoliday`'s `.then` (starter `App.js:71`) runs on any HTTP response. A not-found or
    error reply still removes the record locally. The model has no server-side errors.
  - The user-creation handler ignores the error argument of `User.create`. When creation fails,
    reading `createdUser._doc` (`users.js:13`) throws a TypeError inside an asynchronous callback,
    which neither the handler nor Express catches, and no response is sent.
  - Cross-origin requests are not restricted, because the allow-list is never installed.
  - A list fetch that fails at the network level sets the list to `undefined` (see Findings).

## Model

| member | source | states |
|---|---|---|
| HolidayList.WithoutId | unit_3/w15d3/student_examples/holidays_front_end_starter/src/App.js:73-75 | the delete filter: no kept record has the id, every kept record comes from the list, every record with another id is kept, the list never grows, and an absent id leaves it unchanged |
| HolidayList.WithoutIdConcat | unit_3/w15d3/student_examples/holidays_front_end_starter/src/App.js:73-75 | filtering distributes over concatenation, so survivors keep their relative order |
| HolidayList.WithoutIdSingle | unit_3/w15d3/student_examples/holidays_front_end_starter/src/App.js:73-75 | a single record is dropped exactly when its `_id` equals the id |
| HolidayList.WithoutIdIdempotent | unit_3/w15d3/student_examples/holidays_front_end_starter/src/App.js:73-75 | deleting the same id twice equals deleting it once |
| HolidayList.WithoutIdLength | unit_3/w15d3/student_examples/holidays_front_end_starter/src/App.js:73-75 | the list shrinks by exactly the number of records carrying the id |
| HolidayList.FindIndex | unit_3/w15d3/student_examples/holidays_front_end_starter/src/App.js:92-94 | -1 exactly when no record has the id; otherwise the first position whose `_id` equals it |
| HolidayList.AddThenDelete | unit_3/w15d3/student_examples/holidays_front_end_starter/src/App.js:59-77 | prepending a record with a new id and then deleting that id gives back the original list |
| HolidayList.AddThenFind | unit_3/w15d3/student_examples/holidays_front_end_starter/src/App.js:59-94 | a record just prepended is the first match for its id |
| HolidayList.DeleteThenFind | unit_3/w15d3/student_examples/holidays_front_end_starter/src/App.js:68-95 | after a delete, a toggle reply for that id finds no index |
| HolidayList.ReloadedAsWritten | unit_3/w15d3/student_examples/holidays_front_end_starter/src/App.js:45-57 | list reload as written: a parsed reply replaces the list, a parse error keeps it, a network error makes it `undefined` |
| HolidayList.ReloadAsWrittenLosesList | unit_3/w15d3/student_examples/holidays_front_end_starter/src/App.js:47-54 | a failed request loses the list held before |
| HolidayList.Reloaded | unit_3/w15d3/student_examples/holidays_front_end_starter/src/App.js:45-57 | list reload as intended: a parsed reply replaces the list; any failure keeps it |
| HolidayList.ReloadedIgnoresPrior | unit_3/w15d3/student_examples/holidays_front_end_starter/src/App.js:51-54 | a successful reload does not depend on or merge with the prior list |
| StarterApp.App.constructor | unit_3/w15d3/student_examples/holidays_front_end_starter/src/App.js:35-38 | initial state: empty list, selection the empty object `{}` |
| StarterApp.App.GetHoliday | unit_3/w15d3/student_examples/holidays_front_end_starter/src/App.js:40-42 | sets the selected holiday and leaves the list untouched |
| StarterApp.App.GetHolidays | unit_3/w15d3/student_examples/holidays_front_end_starter/src/App.js:45-57 | sends `GET /holidays`; the list becomes the reload of the old list by the reply; nothing else changes |
| StarterApp.App.HandleAddHoliday | unit_3/w15d3/student_examples/holidays_front_end_starter/src/App.js:59-66 | the list becomes `[holiday] + old`: one longer, the new record first, old records after it in order; the `name` key becomes `""` |
| StarterApp.App.DeleteHoliday | unit_3/w15d3/student_examples/holidays_front_end_starter/src/App.js:68-78 | sends `DELETE /holidays/id`; after any response no record has the id, the rest are the old list filtered, and the list never grows; without a response nothing changes |
| StarterApp.App.ToggleCelebrated | unit_3/w15d3/student_examples/holidays_front_end_starter/src/App.js:80-98 | the request body is `!holiday.celebrated`; on a reply only the first record with the reply's `_id` changes, and its `celebrated` becomes the server's value, seen through the old state and the selection too; with no match (index -1) or no reply, nothing changes |
| NewForm.NewForm.constructor | unit_3/w15d3/student_examples/holidays_front_end_starter/src/components/NewForm.js:4-7 | initial form state has `name == ""` (and the `test` key) |
| NewForm.NewForm.HandleChange | unit_3/w15d3/student_examples/holidays_front_end_starter/src/components/NewForm.js:33-40 | the key named by the input's id gets its value; every other key is unchanged |
| NewForm.NewForm.HandleSubmit | unit_3/w15d3/student_examples/holidays_front_end_starter/src/components/NewForm.js:9-31 | posts only `{name}` from the current state; on a parsed reply the parent prepends the reply unchanged and then `name` is cleared; on failure neither the parent nor `name` changes |
| LoginApp.Render | unit_3/w16d3/simple_insecure_login_example/holidays_front_end/src/App.js:109-140 | the holiday table (one row per holiday name, in order) shows iff `currentUser` is a non-empty string; otherwise only the sign-in/sign-up forms show |
| LoginApp.Names | unit_3/w16d3/simple_insecure_login_example/holidays_front_end/src/App.js:123-127 | one table row per holiday, holding its name, in list order |
| LoginApp.EmptyUsernameSignedOut | unit_3/w16d3/simple_insecure_login_example/holidays_front_end/src/App.js:114 | an empty or missing username counts as signed out |
| LoginApp.App.constructor | unit_3/w16d3/simple_insecure_login_example/holidays_front_end/src/App.js:37-40 | initial state: empty list and no `currentUser`, so the auth forms show |
| LoginApp.App.GetHolidays | unit_3/w16d3/simple_insecure_login_example/holidays_front_end/src/App.js:42-54 | sends `GET /holidays`; the list becomes the reload of the old list by the reply; `currentUser` is unchanged |
| LoginApp.App.HandleAddHoliday | unit_3/w16d3/simple_insecure_login_example/holidays_front_end/src/App.js:56-63 | prepends the record and keeps the old records in order after it |
| LoginApp.App.HandleSignUp | unit_3/w16d3/simple_insecure_login_example/holidays_front_end/src/App.js:65-85 | posts exactly `{username, password}` to `/users`; a parsed reply sets `currentUser` to its `username`, so a non-empty one shows the current list's names and a missing or empty one shows the auth forms; a failure leaves it unchanged |
| LoginApp.App.HandleSignIn | unit_3/w16d3/simple_insecure_login_example/holidays_front_end/src/App.js:87-107 | posts exactly `{username, password}` to `/sessions`; a parsed reply sets `currentUser` to its `username`, so a non-empty one shows the current list's names and a missing or empty one shows the auth forms; a failure leaves it unchanged |
| Server.IndexOf | unit_3/w16d3/simple_insecure_login_example/holidays_api/server.js:46 | `indexOf` is -1 exactly when the origin is absent or not in the list; otherwise its first position |
| Server.OriginCheck | unit_3/w16d3/simple_insecure_login_example/holidays_api/server.js:44-52 | calls back `(null, true)` iff the origin is exactly one of the three listed; otherwise an error, never `(null, false)` |
| Server.ExactMatchOnly | unit_3/w16d3/simple_insecure_login_example/holidays_api/server.js:39-49 | the list has three entries; a listed origin passes; a trailing slash, a case variant or a missing origin is refused |
| Server.Admits | unit_3/w16d3/simple_insecure_login_example/holidays_api/server.js:44-54 | `cors()` admits every origin; `cors(corsOptions)` admits exactly the origins the callback allows |
| Server.WhitelistNotEnforced | unit_3/w16d3/simple_insecure_login_example/holidays_api/server.js:54 | the installed middleware admits every origin, and it differs from the allow-list exactly on the refused origins |
| UsersController.HashPassword | unit_3/w16d3/simple_insecure_login_example/holidays_api/controllers/users.js:8-11 | the body's password is overwritten in place by its hash and nothing else changes; a missing password throws and changes nothing |
| UsersController.Respond | unit_3/w16d3/simple_insecure_login_example/holidays_api/controllers/users.js:12-16 | status 201; the response has no `password` key; every other key of the document appears with the same value; the document is not written; an undefined document sends nothing |
| UsersController.Post | unit_3/w16d3/simple_insecure_login_example/holidays_api/controllers/users.js:6-17 | what reaches `User.create` carries the hash in place of the raw password and every other field unchanged; when hashing throws, the body is left as it was and nothing reaches `User.create`; after hashing a response is sent iff creation returned a document; it is 201, has no `password`, and carries every other key of the document with the same value; the stored document is unchanged |

## Findings

| source | as written | input that shows it | evidently intended | confidence | as-written member | corrected member |
|---|---|---|---|---|---|---|
| unit_3/w15d3/student_examples/holidays_front_end_starter/src/App.js:47-54 | the rejection handler of the first `.then` only logs and so resolves the chain with `undefined`, which the second `.then` stores as `holidays` (the same pattern is at unit_3/w16d3/simple_insecure_login_example/holidays_front_end/src/App.js:44-51) | a `GET /holidays` that fails at the network level, while the client holds any list | log the failure and keep the list held before | medium, not executed | HolidayList.ReloadAsWrittenLosesList | HolidayList.Reloaded |

## Left out

- `fetch`, promises, and the order in which replies arrive. Each reply is a parameter of the handler it completes. Races between requests in flight are not modelled.
- The module-level fetch that only logs, the choice of base URL from the environment, `console.log`, `preventDefault`, and all JSX, CSS and images. Only the login client's render gate is modelled (`LoginApp.Render`). In the starter client the selected `holiday` starts as `{}`, which is truthy, so `Show` always renders; nothing else about rendering is modelled.
- Reply bodies of an unexpected shape. A list reply that is not an array, a toggle reply that is `null`, a record missing fields, a non-string username or a non-string password are not modelled: each parsed reply has the shape the handler reads.
- HolidayList.ReloadedAsWritten: the model's clients use the corrected `Reloaded` instead, as the Findings row says.
- StarterApp.App.GetHolidays: keeps the list on a network error, where the code (starter `App.js:49,54`) sets it to `undefined`. It follows the corrected `Reloaded` from Findings; the as-written behaviour is `HolidayList.ReloadedAsWritten`.
- LoginApp.App.GetHolidays: keeps the list on a network error, where the code (login `App.js:48,51`) sets it to `undefined`. It follows the corrected `Reloaded` from Findings; the as-written behaviour is `HolidayList.ReloadedAsWritten`.
- UsersController.Respond: models the uncaught TypeError on a failed create only as "no response". The crash or unhandled exception that follows in the Node process is not modelled.
- The holidays and sessions controllers and the `User` model are not part of this model. Whatever `User.create` stores or returns is an input. Nothing is claimed about server-side defaults, not-found handling or password checking.
- bcrypt and salt generation: `hash` is an arbitrary function and `salt` an arbitrary string. Nothing is claimed about their security. The error response Express sends when `hashSync` throws is not modelled.
- MongoDB connection set-up, `express-session`, router mounting and `app.listen` are not modelled: they are framework plumbing. `models/movie.js` is not modelled: it is a schema with no behaviour.
