/** The single-door editor page (`DoorPage` in door.rs): it caches the
    response of `GET /door/{id}`, saves the first cached door with `PUT /door`,
    deletes the door with `DELETE /door/{id}`, and holds at most one fetch task,
    which every new request replaces. */
module DoorEditor {
  import opened Models
  import opened Fetch

  datatype Msg =
    | Add
    | Get
    | GetResp(resp: Result<seq<Door>, Error>)
    | Update
    | Delete
    | Return

  /** The page's properties; the unused auth token is not modelled. */
  datatype Properties = Properties(id: i32)

  /** Which message the response of a request is turned into. */
  datatype Reply = ToGetResp | ToReturn | ToGet

  type DoorRequest = Request<Reply>

  /** The message the runtime delivers when a response with decoded body
      `data` arrives for a request tagged `reply`; only `GetResp` looks at it. */
  function Deliver(reply: Reply, data: Result<seq<Door>, Error>): (m: Msg)
    ensures m.GetResp? <==> reply == ToGetResp
    ensures m.GetResp? ==> m.resp == data
    ensures reply == ToReturn ==> m == Return
    ensures reply == ToGet ==> m == Get
  {
    match reply
    case ToGetResp => GetResp(data)
    case ToReturn => Return
    case ToGet => Get
  }

  /** `GET /door/{id}`, whose response becomes `GetResp` with the decoded body. */
  function GetRequest(id: i32): (r: DoorRequest)
    ensures r.verb == GET && r.url == DoorUrl(id as int) && r.body.None? && r.headers == []
    ensures forall data :: Deliver(r.reply, data) == GetResp(data)
  {
    Request(GET, DoorUrl(id as int), [], None, ToGetResp)
  }

  /** `DELETE /door/{id}`, whose response, whatever it holds, becomes `Return`. */
  function DeleteRequest(id: i32): (r: DoorRequest)
    ensures r.verb == DELETE && r.url == DoorUrl(id as int) && r.body.None? && r.headers == []
    ensures forall data :: Deliver(r.reply, data) == Return
  {
    Request(DELETE, DoorUrl(id as int), [], None, ToReturn)
  }

  /** `PUT /door` with the door as JSON body, whose response, whatever it
      holds, becomes `Get`. */
  function PutRequest(door: Door): (r: DoorRequest)
    ensures r.verb == PUT && r.url == DoorsUrl && r.body == Some(door)
    ensures r.headers == [("Content-Type", "application/json")]
    ensures forall data :: Deliver(r.reply, data) == Get
  {
    Request(PUT, DoorsUrl, JsonHeaders, Some(door), ToGet)
  }

  /** What the page holds: the door id it edits, the cached response, and the
      request of the fetch task it keeps (if any). */
  datatype State = State(id: i32, doors: Option<seq<Door>>, inFlight: Option<DoorRequest>)

  /** One step of `update`: the next state and the request it starts, if any. */
  datatype Transition = Transition(next: State, issued: Option<DoorRequest>)

  function Init(props: Properties): State
  {
    State(props.id, None, None)
  }

  /** `update` panics on `Update` unless a door is cached (the two `expect`s). */
  predicate Panics(s: State, m: Msg)
    ensures Panics(s, m) ==> m.Update?
    ensures m.Update? ==> (Panics(s, m) <==> s.doors == None || s.doors == Some([]))
  {
    m.Update? && (s.doors.None? || |s.doors.value| == 0)
  }

  function Step(s: State, m: Msg): (t: Transition)
    requires !Panics(s, m)
    ensures t.next.id == s.id
    ensures t.next.inFlight == if t.issued.Some? then t.issued else s.inFlight
    ensures t.issued.Some? && t.issued.value.verb != PUT ==> t.issued.value.url == DoorUrl(s.id as int)
    ensures t.issued.Some? && t.issued.value.verb == PUT ==> m.Update? && t.issued.value.body == Some(s.doors.value[0])
    ensures !TouchesCache(m) ==> t.next.doors == s.doors
  {
    match m
    case GetResp(resp) =>
      Transition(s.(doors := if resp.Ok? then Some(resp.value) else None), None)
    case Get =>
      var r := GetRequest(s.id);
      Transition(s.(inFlight := Some(r)), Some(r))
    case Delete =>
      var r := DeleteRequest(s.id);
      Transition(s.(doors := None, inFlight := Some(r)), Some(r))
    case Update =>
      var r := PutRequest(s.doors.value[0]);
      Transition(s.(inFlight := Some(r)), Some(r))
    case Return => Transition(s, None)
    case Add => Transition(s, None)
  }

  /** Feeds `trace` to `update` in order; None when some step of `update`
      panics. A `view` panic is not a stop here: `Renderable` covers it. */
  function Run(s: State, trace: seq<Msg>): Option<State>
    decreases |trace|
  {
    if trace == [] then Some(s)
    else if Panics(s, trace[0]) then None
    else Run(Step(s, trace[0]).next, trace[1..])
  }

  // The cache, independently of the step function: only GetResp and Delete
  // write it, so it is whatever the last of them in the trace left there.

  predicate TouchesCache(m: Msg)
  {
    m.GetResp? || m.Delete?
  }

  function LastCacheWrite(trace: seq<Msg>): Option<Msg>
  {
    if trace == [] then None
    else if TouchesCache(trace[|trace| - 1]) then Some(trace[|trace| - 1])
    else LastCacheWrite(trace[..|trace| - 1])
  }

  function CacheAfter(initial: Option<seq<Door>>, trace: seq<Msg>): Option<seq<Door>>
  {
    match LastCacheWrite(trace)
    case None => initial
    case Some(m) => if m.GetResp? && m.resp.Ok? then Some(m.resp.value) else None
  }

  lemma {:induction false} LastCacheWriteCons(m: Msg, rest: seq<Msg>)
    ensures LastCacheWrite([m] + rest) ==
      if LastCacheWrite(rest).Some? then LastCacheWrite(rest)
      else if TouchesCache(m) then Some(m)
      else None
    decreases |rest|
  {
    if rest == [] {
      assert [m] + rest == [m];
      assert [m][..0] == [];
    } else {
      var all := [m] + rest;
      assert all[|all| - 1] == rest[|rest| - 1];
      assert all[..|all| - 1] == [m] + rest[..|rest| - 1];
      LastCacheWriteCons(m, rest[..|rest| - 1]);
    }
  }

  /** Whatever the order of messages, the cache holds the payload of the last
      successful GetResp unless a later Delete or failed GetResp cleared it; a
      Get, Update, Return or Add never changes it. */
  lemma {:induction false} CacheIsLastWrite(s: State, trace: seq<Msg>)
    requires Run(s, trace).Some?
    ensures Run(s, trace).value.doors == CacheAfter(s.doors, trace)
    decreases |trace|
  {
    if trace != [] {
      var m, rest := trace[0], trace[1..];
      assert trace == [m] + rest;
      CacheIsLastWrite(Step(s, m).next, rest);
      LastCacheWriteCons(m, rest);
    }
  }

  // Rendering: only the precondition of `view` and the fields it shows.

  /** The box `view` draws: the error notification, or the editor form. */
  datatype Screen =
    | Failure
    | Editor(name: string, compartment: string, level: string, building: string, description: string)

  /** What `view` draws for the cache; None where it panics. */
  function Render(doors: Option<seq<Door>>): (v: Option<Screen>)
    ensures v.None? <==> doors == Some([])
    ensures v == Some(Failure) <==> doors.None?
    ensures v.Some? && v.value.Editor? ==>
      var d := doors.value[0];
      v.value.name == d.name && v.value.compartment == d.compartment && v.value.level == d.level &&
      v.value.building == d.building && v.value.description == d.description
  {
    match doors
    case None => Some(Failure)
    case Some(ds) =>
      if |ds| == 0 then None
      else Some(Editor(ds[0].name, ds[0].compartment, ds[0].level, ds[0].building, ds[0].description))
  }

  predicate Renderable(s: State)
  {
    Render(s.doors).Some?
  }

  /** A step leaves the page unrenderable exactly when it is an empty
      successful response, or the page was unrenderable and the step does not
      write the cache. */
  lemma StepRenderable(s: State, m: Msg)
    requires !Panics(s, m)
    ensures Renderable(Step(s, m).next) <==>
      if TouchesCache(m) then m != GetResp(Ok([])) else Renderable(s)
  {
  }

  /** From a renderable state, the page stays renderable through every trace
      that holds no empty successful GetResp. */
  lemma {:induction false} RenderableWithoutEmptyResponse(s: State, trace: seq<Msg>)
    requires Renderable(s)
    requires Run(s, trace).Some?
    requires forall i :: 0 <= i < |trace| ==> trace[i] != GetResp(Ok([]))
    ensures Renderable(Run(s, trace).value)
    decreases |trace|
  {
    if trace != [] {
      StepRenderable(s, trace[0]);
      RenderableWithoutEmptyResponse(Step(s, trace[0]).next, trace[1..]);
    }
  }

  /** The backend answering `GET /door/{id}` with an empty array leaves a page
      whose `view` panics. */
  lemma EmptyResponseBreaksView(props: Properties)
    ensures Renderable(Init(props))
    ensures Run(Init(props), [Get, GetResp(Ok([]))]).Some?
    ensures !Renderable(Run(Init(props), [Get, GetResp(Ok([]))]).value)
  {
    var s1 := Step(Init(props), Get).next;
    assert Run(Init(props), [Get, GetResp(Ok([]))]) == Run(s1, [GetResp(Ok([]))]);
  }

  /** Nothing checks that the cached door is the page's own: a response
      carrying another door is cached and shown in the editor. */
  lemma ForeignDoorCached(props: Properties, d: Door)
    requires d.id != props.id as int
    ensures Run(Init(props), [Get, GetResp(Ok([d]))]) == Some(State(props.id, Some([d]), Some(GetRequest(props.id))))
    ensures Render(Some([d])) == Some(Editor(d.name, d.compartment, d.level, d.building, d.description))
  {
    var s1 := Step(Init(props), Get).next;
    assert Run(Init(props), [Get, GetResp(Ok([d]))]) == Run(s1, [GetResp(Ok([d]))]);
    assert Run(s1, [GetResp(Ok([d]))]) == Run(Step(s1, GetResp(Ok([d]))).next, []);
  }

  /** `Update` is safe exactly when `view` shows the editor with its Save button. */
  lemma SaveSafeIffEditorShown(s: State)
    ensures !Panics(s, Update) <==> (Render(s.doors).Some? && Render(s.doors).value.Editor?)
  {
  }

  /** Save, then the re-fetch its response triggers: when the backend echoes
      the saved door, the cache holds just that door again. */
  lemma SaveThenRefetch(s: State, d: Door, others: seq<Door>, ack: Result<seq<Door>, Error>)
    requires s.doors == Some([d] + others)
    ensures Step(s, Update).issued == Some(PutRequest(d))
    ensures Deliver(PutRequest(d).reply, ack) == Get
    ensures Step(Step(s, Update).next, Get).issued == Some(GetRequest(s.id))
    ensures Run(s, [Update, Get, Deliver(GetRequest(s.id).reply, Ok([d]))])
      == Some(State(s.id, Some([d]), Some(GetRequest(s.id))))
    ensures others == [] ==> Run(s, [Update, Get, GetResp(Ok([d]))]).value.doors == s.doors
  {
    var s1 := Step(s, Update).next;
    var s2 := Step(s1, Get).next;
    assert Run(s, [Update, Get, GetResp(Ok([d]))]) == Run(s1, [Get, GetResp(Ok([d]))]);
    assert Run(s1, [Get, GetResp(Ok([d]))]) == Run(s2, [GetResp(Ok([d]))]);
    assert Run(s2, [GetResp(Ok([d]))]) == Run(Step(s2, GetResp(Ok([d]))).next, []);
    assert Deliver(GetRequest(s.id).reply, Ok([d])) == GetResp(Ok([d]));
    assert [d] + [] == [d];
  }

  /** The component: its fields are those of the Rust struct, minus the link. */
  class DoorPage {
    var doors: Option<seq<Door>>
    var fetching: Option<FetchTask<Reply>>
    var props: Properties
    /** Messages emitted through the component link, not yet delivered. */
    var sent: seq<Msg>

    function Model(): State
      reads this
    {
      State(props.id, doors, if fetching.Some? then Some(fetching.value.request) else None)
    }

    /** `create`: nothing cached, no task, and one `Get` emitted. */
    constructor (props: Properties)
      ensures Model() == Init(props)
      ensures fetching == None && this.props == props
      ensures sent == [Get]
    {
      this.props := props;
      doors := None;
      fetching := None;
      sent := [Get];
    }

    method Update(msg: Msg) returns (render: bool)
      requires !Panics(Model(), msg)
      modifies this
      ensures render
      ensures Model() == Step(old(Model()), msg).next
      ensures props == old(props) && sent == old(sent)
      ensures Step(old(Model()), msg).issued.None? ==> fetching == old(fetching)
      ensures Step(old(Model()), msg).issued.Some? ==> fetching.Some? && fresh(fetching.value)
      ensures msg.GetResp? ==> doors == (if msg.resp.Ok? then Some(msg.resp.value) else None)
      ensures msg.Get? ==> doors == old(doors) && fetching.value.request == GetRequest(props.id)
      ensures msg.Delete? ==> doors == None && fetching.value.request == DeleteRequest(props.id)
      ensures msg.Update? ==> doors == old(doors) && fetching.value.request == PutRequest(old(doors).value[0])
      ensures msg.Return? || msg.Add? ==> doors == old(doors) && fetching == old(fetching)
    {
      match msg {
        case GetResp(resp) =>
          doors := if resp.Ok? then Some(resp.value) else None;
        case Get =>
          var task := new FetchTask(GetRequest(props.id));
          fetching := Some(task);
        case Delete =>
          var task := new FetchTask(DeleteRequest(props.id));
          doors := None;
          fetching := Some(task);
        case Update =>
          var door := doors.value[0];
          var task := new FetchTask(PutRequest(door));
          fetching := Some(task);
        case Return =>
        case Add =>
      }
      render := true;
    }

    /** `change` ignores the new properties and asks for no re-render. */
    method Change(newProps: Properties) returns (render: bool)
      ensures !render
    {
      render := false;
    }
  }
}
