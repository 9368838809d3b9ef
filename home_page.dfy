/** The landing page (`Home` in home.rs): a counter that `AddOne` increments. */
module HomePage {
  import opened Models

  datatype Msg = AddOne

  /** `self.value += 1` on an i64 overflows at the maximum, which panics. */
  predicate Panics(value: i64, m: Msg)
    ensures Panics(value, m) <==> value as int + 1 > I64_MAX
  {
    value as int == I64_MAX
  }

  /** Feeds `trace` to `update` in order; None when some step overflows. */
  function Run(value: i64, trace: seq<Msg>): Option<i64>
    decreases |trace|
  {
    if trace == [] then Some(value)
    else if Panics(value, trace[0]) then None
    else Run(value + 1, trace[1..])
  }

  /** Each `AddOne` adds exactly one; the trace runs to the end exactly when
      the final count still fits in an i64. */
  lemma {:induction false} RunCounts(value: i64, trace: seq<Msg>)
    ensures Run(value, trace).Some? <==> value as int + |trace| <= I64_MAX
    ensures Run(value, trace).Some? ==> Run(value, trace).value as int == value as int + |trace|
    decreases |trace|
  {
    if trace != [] && !Panics(value, trace[0]) {
      RunCounts(value + 1, trace[1..]);
    }
  }

  /** From `create`, n clicks show the value n. */
  lemma ClicksFromCreate(trace: seq<Msg>)
    requires |trace| <= I64_MAX
    ensures Run(0, trace) == Some(|trace| as i64)
  {
    RunCounts(0, trace);
  }

  class Home {
    var value: i64

    /** `create`: the counter starts at zero. */
    constructor ()
      ensures value == 0
    {
      value := 0;
    }

    method Update(msg: Msg) returns (render: bool)
      requires !Panics(value, msg)
      modifies this
      ensures render
      ensures value as int == old(value) as int + 1
      ensures Run(old(value), [msg]) == Some(value)
    {
      value := value + 1;
      render := true;
    }

    /** `change`: there are no properties; nothing changes and nothing re-renders. */
    method Change() returns (render: bool)
      ensures !render
    {
      render := false;
    }
  }
}
