# kyward-ui page reducers in Dafny

A model of the three page components of the kyward admin UI: the
single-door editor (`DoorPage`), the door list (`Doors`) and the landing page
(`Home`). Each is a small state machine. It receives a tagged message and
updates a few fields. It may also start one HTTP request against the
`/api/v1alpha1/door` backend, and the runtime turns that request's response
into a later message.

Layout, one module per file:

- `models.dfy` (`Models`): the `Door` record, `Option`/`Result`, and the `i32`/`i64` widths.
- `fetch.dfy` (`Fetch`): the request value (verb, URL, headers, body, reply tag). It also holds the `FetchTask` handle class, the backend URLs, and the decimal rendering of a door id inside a URL, with its parse-back round trip.
- `door_page.dfy` (`DoorEditor`): the single-door editor.
- `doors_page.dfy` (`DoorsPage`): the door list.
- `home_page.dfy` (`HomePage`): the counter.

Each page has two parts:

- A pure specification. It has a `State`, a `Step` function that gives the next state and the request issued, if any, and `Run`, which feeds a whole trace of messages. `Run` yields `None` once a step of `update` panics. It tracks `update` panics only. A panic in `view` does not stop `Run`; the `Renderable` predicate and its lemmas cover it.
- A `class` with the component's own fields. Its constructor models `create`, its `Update` method models `update`, and its `Change` method models `change`.

`Update` is proved to leave the object's abstract state equal to `Step` of
the old state. When a request is issued, `fetching` holds a freshly allocated
`FetchTask` carrying exactly that request, so every new request replaces the
old handle. `Change` has no `modifies` clause, so it provably changes nothing.
The `sent` field records the messages that `create` emits through the
component link.

Behaviour as the code has it. The code has no explicit "not found" state for an empty
single-door response. Its requests carry no generation tag that would drop stale responses.
The list is not kept when a fetch fails. Nothing checks that a cached door is the page's own.
The model follows the code:

- The single-door page stores `Some([])` when the backend answers with an empty array. Its `view` then panics (door.rs:135-140). The model proves that this state is reachable from `create` in two messages.
- A failed response on the list page panics (`expect`, doors.rs:56). It is a precondition of `Update` there.
- `Update` (Save) on the single-door page panics unless a door is cached. Save reads the cache before any request is made (door.rs:94-100).
- Delete clears the cache before its response arrives. No request carries a generation or sequence tag. Every `GetResp` that reaches `update` overwrites the cache (or the list). Which responses the runtime still delivers after their task is replaced is not modelled. The trace lemmas cover every order of messages, so they also cover orders the runtime may never produce.
- The single-door page caches whatever `GET /door/{id}` returns (door.rs:51-52) and shows its first door (door.rs:137-185), whatever that door's id. `DoorEditor.ForeignDoorCached` exhibits a cached door whose id differs from the page's.
- `self.value += 1` on the `i64` counter is modelled with its debug-build meaning, a panic at the maximum.

## Model

| member | source | states |
|---|---|---|
| `Fetch.Digits` | kyward-ui/src/pages/door.rs:58-61 | the decimal form of a non-negative id is non-empty, all digits, and has no leading zero |
| `Fetch.ParseDigitsRoundTrip` | kyward-ui/src/pages/door.rs:58-61 | reading the decimal digits of n back gives n |
| `Fetch.FormatIntRoundTrip` | kyward-ui/src/pages/door.rs:58-61 | printing an integer as `format!` does (sign, then digits) and parsing it gives the same integer, negative ids included |
| `Fetch.DoorUrlInjective` | kyward-ui/src/pages/door.rs:58-61 | two door URLs are equal iff the ids are equal, so a GET or DELETE of `DoorUrl(id)` addresses only door `id` |
| `Fetch.FetchTask.constructor` | kyward-ui/src/pages/door.rs:72-73 | a new task handle carries exactly the request it was started with |
| `Fetch.DoorUrl` | kyward-ui/src/pages/door.rs:58-61 | the door URL is the collection URL, a slash, then a segment that parses back to exactly the id |
| `DoorEditor.Deliver` | kyward-ui/src/pages/door.rs:65-70 | the response becomes `GetResp` exactly for a request tagged `ToGetResp`, and then carries the decoded body; `ToReturn` gives `Return` and `ToGet` gives `Get`, whatever the body (door.rs:84-86, 107-109) |
| `DoorEditor.GetRequest` | kyward-ui/src/pages/door.rs:58-70 | a bodiless GET of the page's door URL with no headers, whose response becomes `GetResp` with the decoded body |
| `DoorEditor.DeleteRequest` | kyward-ui/src/pages/door.rs:77-86 | a bodiless DELETE of the page's door URL with no headers, whose response becomes `Return` whatever it holds |
| `DoorEditor.PutRequest` | kyward-ui/src/pages/door.rs:102-109 | a PUT of the collection URL with a JSON content type and the door as body, whose response becomes `Get` whatever it holds |
| `DoorEditor.Panics` | kyward-ui/src/pages/door.rs:94-99 | only `Update` can panic in `update`, and it panics exactly when the cache is `None` (first `expect`) or `Some([])` (second `expect`) |
| `DoorEditor.ForeignDoorCached` | kyward-ui/src/pages/door.rs:50-56 | from `create`, `Get` and a response holding a door with another id cache that door, and the editor shows its fields: the code does not keep the cache to the page's door |
| `DoorEditor.Step` | kyward-ui/src/pages/door.rs:48-117 | no message changes the door id; the stored request changes exactly when a request is issued; every GET and DELETE targets the page's own door URL; a PUT only comes from Update and carries the first cached door; messages other than GetResp and Delete leave the cache alone |
| `DoorEditor.CacheIsLastWrite` | kyward-ui/src/pages/door.rs:48-117 | after any trace that does not panic, the cache is determined by the last GetResp or Delete in it: `Some(ds)` for `GetResp(Ok(ds))`, `None` for a failed GetResp or a Delete, and unchanged if there is none |
| `DoorEditor.Render` | kyward-ui/src/pages/door.rs:134-216 | `view` panics exactly when the cache is `Some([])`; it shows the error notification exactly when the cache is `None`; otherwise the editor shows the first door's name, compartment, level, building and description |
| `DoorEditor.StepRenderable` | kyward-ui/src/pages/door.rs:135-140 | after a step the view can be drawn iff the step is not an empty successful GetResp (for steps that write the cache), or iff it could be drawn before (for the others) |
| `DoorEditor.RenderableWithoutEmptyResponse` | kyward-ui/src/pages/door.rs:135-140 | starting from a drawable state, every trace without an empty successful GetResp ends in a drawable state |
| `DoorEditor.EmptyResponseBreaksView` | kyward-ui/src/pages/door.rs:135-140 | from `create`, `Get` followed by `GetResp(Ok([]))` reaches a state whose `view` panics |
| `DoorEditor.SaveSafeIffEditorShown` | kyward-ui/src/pages/door.rs:93-99 | the Save message does not panic iff the view shows the editor that holds the Save button |
| `DoorEditor.SaveThenRefetch` | kyward-ui/src/pages/door.rs:93-114 | Save issues `PUT /door` with the first cached door; its response becomes `Get`; that `Get` issues `GET /door/{id}`; if the backend echoes the saved door, the cache holds exactly that door, which is the old cache when only one door was cached |
| `DoorEditor.DoorPage.constructor` | kyward-ui/src/pages/door.rs:36-46 | `create`: no cache, no task, the given properties, and exactly one `Get` emitted |
| `DoorEditor.DoorPage.Update` | kyward-ui/src/pages/door.rs:48-118 | requires that Save has a cached door; always asks to re-render; abstract state becomes `Step` of the old one; props and emitted messages unchanged; GetResp sets the cache to `Some(ds)` or `None` and keeps the task; Get keeps the cache and stores a fresh task for `GET /door/{id}`; Delete clears the cache at once and stores a fresh task for `DELETE /door/{id}`; Update keeps the cache and stores a fresh task for the PUT of the first door; Return and Add change nothing |
| `DoorEditor.DoorPage.Change` | kyward-ui/src/pages/door.rs:120-122 | returns false and modifies nothing, props included |
| `DoorsPage.Deliver` | kyward-ui/src/pages/doors.rs:64-69 | the response of the list request becomes `GetResp` carrying the decoded body |
| `DoorsPage.RefreshRequest` | kyward-ui/src/pages/doors.rs:60-69 | a bodiless GET of the collection URL with no headers, whose response becomes `GetResp` with the decoded body |
| `DoorsPage.Panics` | kyward-ui/src/pages/doors.rs:56 | `update` panics exactly on a `GetResp` carrying an error |
| `DoorsPage.Step` | kyward-ui/src/pages/doors.rs:47-76 | the stored request changes exactly when one is issued; the only request is `GET /door`; AddDoor keeps every old entry in place, adds the new door last, and issues nothing; Refresh keeps the list |
| `DoorsPage.LocalAddsAppend` | kyward-ui/src/pages/doors.rs:49-53 | a trace without responses never panics and leaves the old list followed by the locally added doors in order |
| `DoorsPage.LatestResponseWins` | kyward-ui/src/pages/doors.rs:55-58 | after the last successful response `ds` the list is exactly `ds` (also when empty) followed by the doors added after it |
| `DoorsPage.Rows` | kyward-ui/src/pages/doors.rs:110-119 | the table has one row per door, in list order, showing that door's name, compartment, level and building |
| `DoorsPage.AddDoorAppendsRow` | kyward-ui/src/pages/doors.rs:49-53 | after AddDoor the table is the old table plus one row for the new door |
| `DoorsPage.Doors.constructor` | kyward-ui/src/pages/doors.rs:31-45 | `create`: an empty list, no task, and exactly one `Refresh` emitted |
| `DoorsPage.Doors.Update` | kyward-ui/src/pages/doors.rs:47-76 | requires the response to be `Ok`; always asks to re-render; abstract state becomes `Step` of the old one; AddDoor appends and keeps the task; GetResp replaces the list by the body and keeps the task; Refresh keeps the list and stores a fresh task for `GET /door` |
| `DoorsPage.Doors.Change` | kyward-ui/src/pages/doors.rs:78-83 | returns false and modifies nothing |
| `HomePage.Panics` | kyward-ui/src/pages/home.rs:30 | `AddOne` panics exactly when adding one would exceed the i64 maximum |
| `HomePage.RunCounts` | kyward-ui/src/pages/home.rs:27-36 | a trace of `AddOne`s runs without overflow iff the final count fits in an i64, and then adds exactly its length |
| `HomePage.ClicksFromCreate` | kyward-ui/src/pages/home.rs:20-34 | from the initial value 0, n `AddOne`s give the value n |
| `HomePage.Home.constructor` | kyward-ui/src/pages/home.rs:20-25 | `create` sets the value to 0 |
| `HomePage.Home.Update` | kyward-ui/src/pages/home.rs:27-36 | requires the value below the i64 maximum; adds one and asks to re-render |
| `HomePage.Home.Change` | kyward-ui/src/pages/home.rs:38-43 | returns false and modifies nothing |

## Left out

- HTML markup, Bulma/ybc styling and `new_hero` are left out. Only the render precondition and the shown fields are modelled: `DoorEditor.Render` and `DoorsPage.Rows`.
- The network, `FetchService::fetch` and response callbacks are left out. A request is a value with a reply tag, and `Deliver` gives the message its response becomes. The decoded response body is an input.
- The request builder's and `FetchService::fetch`'s `expect("…")` calls are assumed to succeed. Whether they fail depends on the browser runtime.
- JSON serialisation of the PUT body and JSON decoding of responses are left out. The body is the `Door` value itself.
- The `ComponentLink` mechanics are left out. The `sent` field only records which messages `create` emits. When and in what order the runtime delivers messages is not modelled.
- The unused `token` property is left out.
- Cancellation of a replaced request is left out. `fetching` is never read; it only keeps the `FetchTask` alive, and the runtime cancels a request whose task is dropped. The traces still admit a response to a replaced request, so they over-approximate what reaches `update`.
- `HomePage.Home.Update`: does not model the wrap-around that a release build would perform at the i64 maximum. The model follows the debug build, which panics there.
- Door ids are `i32` values whose decimal form appears in URLs. The backend's handling of those URLs is not part of this model.
