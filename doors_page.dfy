/** The door list page (`Doors` in doors.rs): it replaces its list with each
    response of `GET /door`, appends doors added locally, and draws one table
    row per door. */
module DoorsPage {
  import opened Models
  import opened Fetch

  datatype Msg =
    | AddDoor(door: Door)
    | GetResp(resp: Result<seq<Door>, Error>)
    | Refresh

  /** The page's properties; the unused auth token is not modelled. */
  datatype Properties = Properties

  /** The list page issues one kind of request, answered by `GetResp`. */
  datatype Reply = ToGetResp

  type ListRequest = Request<Reply>

  /** The message the runtime delivers when the response to a list request
      arrives with decoded body `data`. */
  function Deliver(reply: Reply, data: Result<seq<Door>, Error>): (m: Msg)
    ensures m.GetResp? && m.resp == data
  {
    GetResp(data)
  }

  /** `GET /door`, whose response becomes `GetResp` with the decoded body. */
  function RefreshRequest(): (r: ListRequest)
    ensures r.verb == GET && r.url == DoorsUrl && r.body.None? && r.headers == []
    ensures forall data :: Deliver(r.reply, data) == GetResp(data)
  {
    Request(GET, DoorsUrl, [], None, ToGetResp)
  }

  datatype State = State(doors: seq<Door>, inFlight: Option<ListRequest>)

  datatype Transition = Transition(next: State, issued: Option<ListRequest>)

  function Init(): State
  {
    State([], None)
  }

  /** `update` panics on a failed response (`resp.expect`). */
  predicate Panics(m: Msg)
    ensures Panics(m) <==> exists e :: m == GetResp(Err(e))
  {
    m.GetResp? && m.resp.Err?
  }

  function Step(s: State, m: Msg): (t: Transition)
    requires !Panics(m)
    ensures t.next.inFlight == if t.issued.Some? then t.issued else s.inFlight
    ensures t.issued.Some? ==> t.issued == Some(RefreshRequest())
    ensures m.AddDoor? ==>
      |t.next.doors| == |s.doors| + 1 && t.next.doors[..|s.doors|] == s.doors &&
      t.next.doors[|s.doors|] == m.door && t.issued.None?
    ensures m.Refresh? ==> t.next.doors == s.doors
  {
    match m
    case AddDoor(d) => Transition(s.(doors := s.doors + [d]), None)
    case GetResp(resp) => Transition(s.(doors := resp.value), None)
    case Refresh =>
      var r := RefreshRequest();
      Transition(s.(inFlight := Some(r)), Some(r))
  }

  /** Feeds `trace` to `update` in order; None when some step of `update` panics. */
  function Run(s: State, trace: seq<Msg>): Option<State>
    decreases |trace|
  {
    if trace == [] then Some(s)
    else if Panics(trace[0]) then None
    else Run(Step(s, trace[0]).next, trace[1..])
  }

  lemma {:induction false} RunAppend(s: State, a: seq<Msg>, b: seq<Msg>)
    ensures Run(s, a + b) == match Run(s, a) case None => None case Some(t) => Run(t, b)
    decreases |a|
  {
    if a == [] {
      assert a + b == b;
    } else {
      assert (a + b)[0] == a[0] && (a + b)[1..] == a[1..] + b;
      if !Panics(a[0]) {
        RunAppend(Step(s, a[0]).next, a[1..], b);
      }
    }
  }

  /** The doors added locally by `trace`, in order. */
  function Adds(trace: seq<Msg>): seq<Door>
  {
    if trace == [] then []
    else (if trace[0].AddDoor? then [trace[0].door] else []) + Adds(trace[1..])
  }

  predicate NoResponse(trace: seq<Msg>)
  {
    forall i :: 0 <= i < |trace| ==> !trace[i].GetResp?
  }

  /** Without a response in between, the list keeps every entry in order and
      grows by exactly the locally added doors. */
  lemma {:induction false} LocalAddsAppend(s: State, trace: seq<Msg>)
    requires NoResponse(trace)
    ensures Run(s, trace).Some? && Run(s, trace).value.doors == s.doors + Adds(trace)
    decreases |trace|
  {
    if trace != [] {
      var m := trace[0];
      var s1 := Step(s, m).next;
      assert NoResponse(trace[1..]) by {
        forall i | 0 <= i < |trace[1..]| ensures !trace[1..][i].GetResp? {
          assert trace[1..][i] == trace[i + 1];
        }
      }
      LocalAddsAppend(s1, trace[1..]);
      if m.AddDoor? {
        assert Adds(trace) == [m.door] + Adds(trace[1..]);
        assert s1.doors + Adds(trace[1..]) == s.doors + Adds(trace);
      } else {
        assert Adds(trace) == Adds(trace[1..]);
      }
    }
  }

  /** Last writer wins: the list is the body of the last successful response
      (also when it is empty), followed by the doors added after it. */
  lemma LatestResponseWins(s: State, before: seq<Msg>, ds: seq<Door>, after: seq<Msg>)
    requires NoResponse(after)
    requires Run(s, before + [GetResp(Ok(ds))] + after).Some?
    ensures Run(s, before + [GetResp(Ok(ds))] + after).value.doors == ds + Adds(after)
  {
    var resp := [GetResp(Ok(ds))];
    RunAppend(s, before + resp, after);
    RunAppend(s, before, resp);
    var t := Run(s, before).value;
    assert Run(t, resp) == Some(Step(t, GetResp(Ok(ds))).next);
    LocalAddsAppend(Step(t, GetResp(Ok(ds))).next, after);
  }

  // Rendering: the table of doors.

  /** One table row: the door's name, compartment, level and building. */
  datatype Row = Row(name: string, compartment: string, level: string, building: string)

  function RowOf(d: Door): Row
  {
    Row(d.name, d.compartment, d.level, d.building)
  }

  /** The body of the table `view` draws. */
  function Rows(ds: seq<Door>): (rows: seq<Row>)
    ensures |rows| == |ds|
    ensures forall i :: 0 <= i < |ds| ==>
      rows[i] == Row(ds[i].name, ds[i].compartment, ds[i].level, ds[i].building)
  {
    if ds == [] then [] else [RowOf(ds[0])] + Rows(ds[1..])
  }

  /** `AddDoor` adds one row at the bottom and leaves the others alone. */
  lemma AddDoorAppendsRow(s: State, d: Door)
    ensures Rows(Step(s, AddDoor(d)).next.doors) == Rows(s.doors) + [RowOf(d)]
  {
  }

  /** The component: its fields are those of the Rust struct, minus the link. */
  class Doors {
    var doors: seq<Door>
    var fetching: Option<FetchTask<Reply>>
    var props: Properties
    /** Messages emitted through the component link, not yet delivered. */
    var sent: seq<Msg>

    function Model(): State
      reads this
    {
      State(doors, if fetching.Some? then Some(fetching.value.request) else None)
    }

    /** `create`: an empty list, no task, and one `Refresh` emitted. */
    constructor (props: Properties)
      ensures Model() == Init()
      ensures fetching == None
      ensures sent == [Refresh]
    {
      this.props := props;
      doors := [];
      fetching := None;
      sent := [Refresh];
    }

    method Update(msg: Msg) returns (render: bool)
      requires !Panics(msg)
      modifies this
      ensures render
      ensures Model() == Step(old(Model()), msg).next
      ensures props == old(props) && sent == old(sent)
      ensures msg.AddDoor? ==> doors == old(doors) + [msg.door] && fetching == old(fetching)
      ensures msg.GetResp? ==> doors == msg.resp.value && fetching == old(fetching)
      ensures msg.Refresh? ==>
        doors == old(doors) && fetching.Some? && fresh(fetching.value) &&
        fetching.value.request == RefreshRequest()
    {
      match msg {
        case AddDoor(d) =>
          doors := doors + [d];
        case GetResp(resp) =>
          doors := resp.value;
        case Refresh =>
          var task := new FetchTask(RefreshRequest());
          fetching := Some(task);
      }
      render := true;
    }

    /** `change` ignores the new properties and asks for no re-render. */
    method Change(newProps: Properties) returns (render: bool)
      ensures !render
    {
      render := false;
    }
  }
}
