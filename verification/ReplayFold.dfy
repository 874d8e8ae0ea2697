/** What replaying a log of operations computes: a fold that stops at the first repetition or rejection. */
module ReplayFold {
  import opened Entities
  import opened CoreSpec

  /** A logged call: its operation identifier and the call. */
  datatype Operation = Operation(id: Id, op: Op)

  datatype Replayed = Replayed(core: Core, complete: bool)

  function Ids(ops: seq<Operation>): set<Id> {
    set o | o in ops :: o.id
  }

  function Calls(ops: seq<Operation>): seq<Op> {
    seq(|ops|, i requires 0 <= i < |ops| => ops[i].op)
  }

  /** A repeated identifier or a rejected call ends the replay; what was applied before stays. */
  ghost function ReplayFrom(c: Core, ops: seq<Operation>, seen: set<Id>): Replayed
    decreases |ops|
  {
    if ops == [] then Replayed(c, true)
    else if ops[0].id in seen || !Accepted(c, ops[0].op) then Replayed(c, false)
    else ReplayFrom(Step(c, ops[0].op), ops[1..], seen + {ops[0].id})
  }
}
