/** The transition table of the file transfer: its states and their parents, its rows, the scan, and the machine that
    the table stands for once events bubble up to the parent states. */
module FtTable {
  import opened Options

  const MAX_RETRIES: nat := 3

  datatype State = Root | Idle | Transferring | Sending | Retrying | Complete | Failed

  datatype Event = Start | ChunkSent | AckOk | AckFail | Retry | Done | Abort

  datatype Action = NoAction | Begin | SendChunk | CountRetry

  /** A guarded row fires only while a retry is left. */
  datatype Row = Row(from: State, event: Event, to: State, internal: bool, action: Action, guarded: bool)

  function Parent(s: State): Option<State> {
    match s
    case Root => None
    case Sending => Some(Transferring)
    case Retrying => Some(Transferring)
    case _ => Some(Root)
  }

  function Depth(s: State): nat {
    match s
    case Root => 0
    case Sending => 2
    case Retrying => 2
    case _ => 1
  }

  const TABLE: seq<Row> := [
    Row(Idle, Start, Sending, false, Begin, false),
    Row(Transferring, Abort, Failed, false, NoAction, false),
    Row(Sending, ChunkSent, Sending, true, SendChunk, false),
    Row(Sending, AckOk, Sending, false, NoAction, false),
    Row(Sending, Done, Complete, false, NoAction, false),
    Row(Sending, AckFail, Retrying, false, NoAction, false),
    Row(Retrying, Retry, Sending, false, CountRetry, true),
    Row(Retrying, Retry, Failed, false, NoAction, false)]

  predicate Fires(row: Row, state: State, event: Event, retries: nat) {
    row.from == state && row.event == event && (row.guarded ==> retries < MAX_RETRIES)
  }

  /** The first row from the `i`-th on that fires. */
  function Find(i: nat, state: State, event: Event, retries: nat): Option<Row>
    decreases |TABLE| - i
  {
    if i >= |TABLE| then None
    else if Fires(TABLE[i], state, event, retries) then Some(TABLE[i])
    else Find(i + 1, state, event, retries)
  }

  /** An event without a row in a state goes to the parent. */
  function Bubble(state: State, event: Event, retries: nat): Option<Row>
    decreases Depth(state)
  {
    var found := Find(0, state, event, retries);
    if found.Some? || Parent(state).None? then found else Bubble(Parent(state).value, event, retries)
  }

  // ---------------------------------------------------------------- what the table stands for

  datatype Move = Move(action: Action, to: State)

  /** What an event does in a state. Aborting works in both states of a transfer, an event without a row is ignored. */
  function Next(state: State, event: Event, retries: nat): Move {
    match (state, event)
    case (Idle, Start) => Move(Begin, Sending)
    case (Transferring, Abort) => Move(NoAction, Failed)
    case (Sending, Abort) => Move(NoAction, Failed)
    case (Retrying, Abort) => Move(NoAction, Failed)
    case (Sending, ChunkSent) => Move(SendChunk, Sending)
    case (Sending, Done) => Move(NoAction, Complete)
    case (Sending, AckFail) => Move(NoAction, Retrying)
    case (Retrying, Retry) => if retries < MAX_RETRIES then Move(CountRetry, Sending) else Move(NoAction, Failed)
    case _ => Move(NoAction, state)
  }

  function MoveBy(row: Row, state: State): Move { Move(row.action, if row.internal then state else row.to) }

  /** The second half of the table. */
  lemma FindLater(state: State, event: Event, retries: nat)
    ensures Find(4, state, event, retries) ==
            if state == Sending && event == Done then Some(TABLE[4])
            else if state == Sending && event == AckFail then Some(TABLE[5])
            else if state == Retrying && event == Retry then
              (if retries < MAX_RETRIES then Some(TABLE[6]) else Some(TABLE[7]))
            else None
  {
    assert Find(8, state, event, retries) == None;
    FindEarlier(7, state, event, retries);
    FindEarlier(6, state, event, retries);
    FindEarlier(5, state, event, retries);
    FindEarlier(4, state, event, retries);
  }

  lemma FindUnrolled(state: State, event: Event, retries: nat)
    ensures Find(0, state, event, retries) ==
            if state == Idle && event == Start then Some(TABLE[0])
            else if state == Transferring && event == Abort then Some(TABLE[1])
            else if state == Sending && event == ChunkSent then Some(TABLE[2])
            else if state == Sending && event == AckOk then Some(TABLE[3])
            else Find(4, state, event, retries)
  {
    FindEarlier(3, state, event, retries);
    FindEarlier(2, state, event, retries);
    FindEarlier(1, state, event, retries);
    FindEarlier(0, state, event, retries);
  }

  lemma FindEarlier(i: nat, state: State, event: Event, retries: nat)
    requires i < |TABLE|
    ensures Find(i, state, event, retries)
         == if Fires(TABLE[i], state, event, retries) then Some(TABLE[i]) else Find(i + 1, state, event, retries)
  {
  }

  /** Scanning the table and bubbling up is exactly the machine, in every state, for every event and retry count. */
  lemma TableIsMachine(state: State, event: Event, retries: nat)
    ensures var found := Bubble(state, event, retries);
            && Next(state, event, retries)
               == (if found.Some? then MoveBy(found.value, state) else Move(NoAction, state))
            && (found.Some? && found.value.to in {Complete, Failed} ==> state != found.value.to)
  {
    FindUnrolled(state, event, retries);
    FindLater(state, event, retries);
    FindUnrolled(Transferring, event, retries);
    FindLater(Transferring, event, retries);
    FindUnrolled(Root, event, retries);
    FindLater(Root, event, retries);
    assert Bubble(Root, event, retries) == None;
    assert Bubble(Transferring, event, retries) == if event == Abort then Some(TABLE[1]) else None;
  }

  // ---------------------------------------------------------------- entering a state

  /** `s` is `a` or lies below it. */
  predicate Within(s: State, a: State)
    decreases Depth(s)
  {
    s == a || (Parent(s).Some? && Within(Parent(s).value, a))
  }

  /** The states entered on the way to `to`, from the top: those that `from` is not in. A state reached from itself is
      entered again. */
  function Entered(from: State, to: State): seq<State>
    decreases Depth(to)
  {
    if from == to then [to]
    else if Within(from, to) then []
    else (if Parent(to).Some? && !Within(from, Parent(to).value) then Entered(from, Parent(to).value) else []) + [to]
  }

  lemma WithinRoot(s: State)
    ensures Within(s, Root)
  {
    if Parent(s).Some? && Parent(s).value != Root {
      assert Parent(Parent(s).value) == Some(Root);
    }
  }

  /** Only the way to an end state enters it. */
  lemma {:induction false} EndIsEntered(from: State, to: State, end: State)
    requires end == Complete || end == Failed
    ensures end in Entered(from, to) <==> to == end
    decreases Depth(to)
  {
    WithinRoot(from);
    if from != to && !Within(from, to) && !Within(from, Parent(to).value) {
      EndIsEntered(from, Parent(to).value, end);
    }
  }

  /** An abort finds a row exactly in a transfer, by way of the state above its two inner ones, and fails it. */
  lemma AbortFailsTransfers(state: State, retries: nat)
    ensures var row := Bubble(state, Abort, retries);
            && (row.Some? <==> state == Transferring || state == Sending || state == Retrying)
            && (row.Some? ==> !row.value.internal && row.value.to == Failed && row.value.action == NoAction)
  {
    TableIsMachine(state, Abort, retries);
  }
}
