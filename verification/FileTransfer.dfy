/** The file transfer client: a retry state machine and the driver loop that feeds it, against a
    network that may lose or refuse any chunk. */
module FileTransfer {
  import opened Bits
  import opened FtTable
  import opened Options

  const CHUNK_SIZE: nat := 2048
  const MAX_PAYLOAD_BYTES: nat := 4096

  /** What the network does with one attempt to send a chunk. */
  datatype Net = NoConnection | Dropped | Refused | Accepted

  datatype SendResult = ResOk | ResDone | ResLost | ResRpcFail | ResNoConn

  datatype Attempt = Attempt(chunk: nat, net: Net)

  // ---------------------------------------------------------------- chunks

  /** The number of chunks, in 32-bit arithmetic. */
  function TotalChunks(fileSize: nat): nat { (fileSize + CHUNK_SIZE - 1) % WORD / CHUNK_SIZE }

  /** How many chunks the loop transfers: an empty count still sends one. */
  function ChunksToSend(fileSize: nat): nat {
    if TotalChunks(fileSize) == 0 then 1 else TotalChunks(fileSize)
  }

  /** The length of a chunk, in 32-bit arithmetic. */
  function ChunkLen(fileSize: nat, chunk: nat): (n: nat)
    ensures n <= CHUNK_SIZE
  {
    var offset := chunk * CHUNK_SIZE % WORD;
    var remaining := (fileSize - offset) % WORD;
    if remaining > CHUNK_SIZE then CHUNK_SIZE else remaining
  }

  /** The bytes of the first `k` chunks. */
  function BytesOf(fileSize: nat, k: nat): nat {
    if k == 0 then 0 else BytesOf(fileSize, k - 1) + ChunkLen(fileSize, k - 1)
  }

  /** While chunks lie inside the file, whole chunks add up. */
  lemma {:induction false} WholeChunks(fileSize: nat, k: nat)
    requires fileSize < WORD && k * CHUNK_SIZE <= fileSize
    ensures BytesOf(fileSize, k) == k * CHUNK_SIZE
  {
    if k > 0 {
      WholeChunks(fileSize, k - 1);
    }
  }

  lemma CountWraps(fileSize: nat)
    requires WORD - CHUNK_SIZE < fileSize < WORD
    ensures TotalChunks(fileSize) == 0 && BytesOf(fileSize, 1) == CHUNK_SIZE
  {
    assert BytesOf(fileSize, 1) == BytesOf(fileSize, 0) + ChunkLen(fileSize, 0);
  }

  lemma CountIsCeiling(fileSize: nat)
    requires 0 < fileSize <= WORD - CHUNK_SIZE
    ensures var n := TotalChunks(fileSize);
            n > 0 && (n - 1) * CHUNK_SIZE < fileSize <= n * CHUNK_SIZE
  {
  }

  lemma LastChunk(fileSize: nat, n: nat)
    requires fileSize < WORD && n > 0 && (n - 1) * CHUNK_SIZE < fileSize <= n * CHUNK_SIZE
    ensures ChunkLen(fileSize, n - 1) == fileSize - (n - 1) * CHUNK_SIZE
  {
  }

  lemma ChunksCover(fileSize: nat, n: nat)
    requires fileSize < WORD && n > 0 && (n - 1) * CHUNK_SIZE < fileSize <= n * CHUNK_SIZE
    ensures BytesOf(fileSize, n) == fileSize
  {
    WholeChunks(fileSize, n - 1);
    LastChunk(fileSize, n);
  }

  lemma EmptyFile()
    ensures TotalChunks(0) == 0 && BytesOf(0, 1) == 0
  {
    assert BytesOf(0, 1) == BytesOf(0, 0) + ChunkLen(0, 0);
  }

  /** The chunks add up to the file exactly when the chunk count does not wrap around. */
  lemma ChunksAddUp(fileSize: nat)
    requires fileSize < WORD
    ensures BytesOf(fileSize, ChunksToSend(fileSize)) == fileSize <==> fileSize <= 0x1_0000_0000 - 2048
  {
    if fileSize > WORD - CHUNK_SIZE {
      CountWraps(fileSize);
    } else if fileSize == 0 {
      EmptyFile();
    } else {
      CountIsCeiling(fileSize);
      ChunksCover(fileSize, TotalChunks(fileSize));
    }
  }

  // ---------------------------------------------------------------- what a transfer should do

  datatype Plan = Plan(ok: bool, attempts: nat, acked: nat)

  /** The simple form: every chunk in turn gets up to four tries. `i` attempts have been made, `r` of them
      in vain on chunk `c` of `n`. */
  function Expected(env: nat -> Net, i: nat, c: nat, n: nat, r: nat): Plan
    requires c <= n && r <= MAX_RETRIES
    decreases n - c, MAX_RETRIES - r
  {
    if c == n then Plan(true, i, c)
    else if env(i) == Accepted then Expected(env, i + 1, c + 1, n, 0)
    else if r == MAX_RETRIES then Plan(false, i + 1, c)
    else Expected(env, i + 1, c, n, r + 1)
  }

  lemma ExpectedStep(env: nat -> Net, i: nat, c: nat, n: nat, r: nat)
    requires c < n && r <= MAX_RETRIES
    ensures Expected(env, i, c, n, r) ==
            if env(i) == Accepted then (if c + 1 == n then Plan(true, i + 1, n) else Expected(env, i + 1, c + 1, n, 0))
            else if r == MAX_RETRIES then Plan(false, i + 1, c)
            else Expected(env, i + 1, c, n, r + 1)
  {
  }

  /** How often a chunk was attempted. */
  function Tries(log: seq<Attempt>, chunk: nat): nat {
    if log == [] then 0 else Tries(log[..|log| - 1], chunk) + if log[|log| - 1].chunk == chunk then 1 else 0
  }

  /** The chunks acknowledged, in order. */
  function Acked(log: seq<Attempt>): seq<nat> {
    if log == [] then []
    else Acked(log[..|log| - 1]) + if log[|log| - 1].net == Accepted then [log[|log| - 1].chunk] else []
  }

  function UpTo(n: nat): seq<nat> { seq(n, (i: nat) => i) }

  /** How many attempts ended in a drop. */
  function Drops(log: seq<Attempt>): nat {
    if log == [] then 0 else Drops(log[..|log| - 1]) + if log[|log| - 1].net == Dropped then 1 else 0
  }

  lemma LogMore(log: seq<Attempt>, a: Attempt, chunk: nat)
    ensures Tries(log + [a], chunk) == Tries(log, chunk) + if a.chunk == chunk then 1 else 0
    ensures Acked(log + [a]) == Acked(log) + if a.net == Accepted then [a.chunk] else []
    ensures Drops(log + [a]) == Drops(log) + if a.net == Dropped then 1 else 0
  {
    assert (log + [a])[..|log|] == log;
  }

  /** The last `tries` attempts were all on chunk `c` and all in vain. */
  predicate InVain(log: seq<Attempt>, c: nat, tries: nat) {
    tries <= |log| && forall k :: |log| - tries <= k < |log| ==> log[k].chunk == c && log[k].net != Accepted
  }

  /** Every chunk before `c` was acknowledged, in order, and tried at most four times; `c` was tried `tries` times, one
      after the other and in vain. */
  ghost predicate GoodLog(log: seq<Attempt>, c: nat, tries: nat) {
    && Acked(log) == UpTo(c)
    && (forall k: nat :: Tries(log, k) <= 4)
    && Tries(log, c) == tries && InVain(log, c, tries)
    && (forall k: nat :: k > c ==> Tries(log, k) == 0)
  }

  lemma GoodLogMore(log: seq<Attempt>, c: nat, tries: nat, net: Net)
    requires GoodLog(log, c, tries) && tries <= MAX_RETRIES
    ensures net == Accepted ==> GoodLog(log + [Attempt(c, net)], c + 1, 0)
    ensures net != Accepted ==> GoodLog(log + [Attempt(c, net)], c, tries + 1)
  {
    forall k: nat ensures Tries(log + [Attempt(c, net)], k) == Tries(log, k) + if c == k then 1 else 0 {
      LogMore(log, Attempt(c, net), k);
    }
    LogMore(log, Attempt(c, net), c);
    assert UpTo(c) + [c] == UpTo(c + 1);
  }

  /** A transfer that succeeds acknowledges every chunk. */
  lemma {:induction false} SuccessIsComplete(env: nat -> Net, i: nat, c: nat, n: nat, r: nat)
    requires c <= n && r <= MAX_RETRIES
    ensures var plan := Expected(env, i, c, n, r);
            plan.acked <= n && (plan.ok <==> plan.acked == n)
    decreases n - c, MAX_RETRIES - r
  {
    if c < n {
      if env(i) == Accepted {
        SuccessIsComplete(env, i + 1, c + 1, n, 0);
      } else if r < MAX_RETRIES {
        SuccessIsComplete(env, i + 1, c, n, r + 1);
      }
    }
  }

  /** The network fails four times in a row. */
  predicate FourFailures(env: nat -> Net, i: nat) {
    env(i) != Accepted && env(i + 1) != Accepted && env(i + 2) != Accepted && env(i + 3) != Accepted
  }

  /** How many of the first `i` attempts are accepted. */
  function Accepts(env: nat -> Net, i: nat): nat {
    if i == 0 then 0 else Accepts(env, i - 1) + if env(i - 1) == Accepted then 1 else 0
  }

  /** Wherever the network fails four times in a row, all `n` chunks have been accepted before. */
  ghost predicate Patient(env: nat -> Net, n: nat) {
    forall i: nat :: FourFailures(env, i) ==> Accepts(env, i) >= n
  }

  lemma {:induction false} AcceptsGrow(env: nat -> Net, i: nat, j: nat)
    requires i <= j
    ensures Accepts(env, i) <= Accepts(env, j)
  {
    if i < j {
      AcceptsGrow(env, i, j - 1);
    }
  }

  /** `i` attempts have been made: the last `r` in vain, those before without four failures in a row. */
  ghost predicate OnTheWay(env: nat -> Net, i: nat, c: nat, n: nat, r: nat) {
    && c == Accepts(env, i) <= n && r <= i && r <= 3 && (c == n ==> r == 0)
    && (forall k: nat :: i - r <= k < i ==> env(k) != Accepted)
    && (i > r ==> env(i - r - 1) == Accepted)
    && (forall k: nat :: k + 4 <= i ==> !FourFailures(env, k))
  }

  lemma AllAccepted(env: nat -> Net, i: nat, n: nat)
    requires OnTheWay(env, i, n, n, 0)
    ensures Patient(env, n)
  {
    forall k: nat | FourFailures(env, k) ensures Accepts(env, k) >= n {
      assert i <= k || i > k + 3;
      AcceptsGrow(env, i, k);
    }
  }

  lemma AnotherFailure(env: nat -> Net, i: nat, c: nat, n: nat, r: nat)
    requires OnTheWay(env, i, c, n, r) && c < n && env(i) != Accepted && r < 3
    ensures OnTheWay(env, i + 1, c, n, r + 1)
  {
    if i >= 3 {
      assert !FourFailures(env, i - 3);
    }
  }

  lemma AnotherAccepted(env: nat -> Net, i: nat, c: nat, n: nat, r: nat)
    requires OnTheWay(env, i, c, n, r) && c < n && env(i) == Accepted
    ensures OnTheWay(env, i + 1, c + 1, n, 0)
  {
  }

  lemma {:induction false} ExpectedIff(env: nat -> Net, i: nat, c: nat, n: nat, r: nat)
    requires OnTheWay(env, i, c, n, r)
    ensures Expected(env, i, c, n, r).ok <==> Patient(env, n)
    decreases n - c, MAX_RETRIES - r
  {
    if c == n {
      AllAccepted(env, i, n);
    } else if env(i) == Accepted {
      AnotherAccepted(env, i, c, n, r);
      ExpectedIff(env, i + 1, c + 1, n, 0);
    } else if r == 3 {
      assert FourFailures(env, i - 3);
      AcceptsGrow(env, i - 3, i);
    } else {
      AnotherFailure(env, i, c, n, r);
      ExpectedIff(env, i + 1, c, n, r + 1);
    }
  }

  /** A transfer of `n` chunks succeeds exactly if the network never fails four times in a row before it has accepted
      `n` attempts. */
  lemma SucceedsIff(env: nat -> Net, n: nat)
    ensures Expected(env, 0, 0, n, 0).ok <==> Patient(env, n)
  {
    ExpectedIff(env, 0, 0, n, 0);
  }

  lemma BytesFit(fileSize: nat, k: nat)
    requires fileSize < WORD && k <= ChunksToSend(fileSize)
    ensures BytesOf(fileSize, k) < WORD
  {
    if fileSize > WORD - CHUNK_SIZE {
      CountWraps(fileSize);
    } else if fileSize == 0 {
      EmptyFile();
    } else {
      CountIsCeiling(fileSize);
      if k < TotalChunks(fileSize) {
        ChunksBelow(k, TotalChunks(fileSize) - 1);
        WholeChunks(fileSize, k);
      } else {
        ChunksCover(fileSize, k);
      }
    }
  }

  lemma ChunksBelow(k: nat, n: nat)
    requires k <= n
    ensures k * CHUNK_SIZE <= n * CHUNK_SIZE
  {
  }

  /** The result recorded for an attempt that failed. */
  function FailureOf(net: Net): SendResult
    requires net != Accepted
  {
    match net
    case NoConnection => ResNoConn
    case Dropped => ResLost
    case Refused => ResRpcFail
  }

  /** The chunk counters of a transfer. */
  datatype Counts = Counts(currentChunk: nat, bytesSent: nat, retryCount: nat, chunksOk: nat, chunksRetried: nat)

  // ---------------------------------------------------------------- the transfer

  class FtCtx {
    const fileSize: nat
    var state: State
    var totalChunks: nat
    var currentChunk: nat
    var bytesSent: nat
    var retryCount: nat
    var sendResult: SendResult
    var chunksOk: nat
    var chunksRetried: nat
    var complete: bool
    var success: bool
    ghost var log: seq<Attempt>

    constructor (size: nat)
      requires size < WORD
      ensures fileSize == size && state == Idle
    {
      fileSize := size;
      state := Idle;
      totalChunks, currentChunk, bytesSent, retryCount, chunksOk, chunksRetried := 0, 0, 0, 0, 0, 0;
      sendResult := ResNoConn;
      complete, success := false, false;
      log := [];
    }

    function Tally(): Counts
      reads this
    {
      Counts(currentChunk, bytesSent, retryCount, chunksOk, chunksRetried)
    }

    /** What a row action does to the counters, the result and the log; `net` matters only when a chunk is sent. */
    twostate predicate Acted(action: Action, net: Net)
      reads this
    {
      var was, now := old(Tally()), Tally();
      if action != SendChunk then
        && log == old(log) && sendResult == old(sendResult)
        && now == match action
                  case Begin => was.(currentChunk := 0, bytesSent := 0, retryCount := 0)
                  case CountRetry => was.(retryCount := was.retryCount + 1)
                  case _ => was
      else
        && log == old(log) + [Attempt(was.currentChunk, net)]
        && if net == Accepted then
             && now == Counts(was.currentChunk + 1, (was.bytesSent + ChunkLen(fileSize, was.currentChunk)) % WORD, 0,
                              was.chunksOk + 1, was.chunksRetried)
             && sendResult == if now.currentChunk >= totalChunks then ResDone else ResOk
           else
             && now == was.(chunksRetried := was.chunksRetried + if net == Dropped then 1 else 0)
             && sendResult == FailureOf(net)
    }

    /** Transmit the current chunk and record the result. */
    method ActSend(net: Net)
      modifies this`bytesSent, this`chunksOk, this`retryCount, this`currentChunk, this`sendResult, this`chunksRetried,
               this`log
      ensures Acted(SendChunk, net)
    {
      log := log + [Attempt(currentChunk, net)];
      if net == NoConnection {
        sendResult := ResNoConn;
        return;
      }
      var len := ChunkLen(fileSize, currentChunk);
      if len > MAX_PAYLOAD_BYTES {
        len := MAX_PAYLOAD_BYTES;
      }
      if net == Dropped {
        chunksRetried := chunksRetried + 1;
        sendResult := ResLost;
        return;
      }
      if net == Refused {
        sendResult := ResRpcFail;
        return;
      }
      bytesSent := (bytesSent + len) % WORD;
      chunksOk := chunksOk + 1;
      retryCount := 0;
      currentChunk := currentChunk + 1;
      sendResult := if currentChunk >= totalChunks then ResDone else ResOk;
    }

    /** The scan of the table for one state. */
    method FindTransition(at: State, event: Event) returns (found: Option<Row>)
      ensures found == Find(0, at, event, retryCount)
    {
      for i := 0 to |TABLE|
        invariant Find(i, at, event, retryCount) == Find(0, at, event, retryCount)
      {
        if Fires(TABLE[i], at, event, retryCount) {
          return Some(TABLE[i]);
        }
      }
      return None;
    }

    /** The end states are flagged when they are entered. */
    method OnEntry(entered: State)
      modifies this`complete, this`success
      ensures complete == (old(complete) || entered == Complete || entered == Failed)
      ensures success == if entered == Complete then true else if entered == Failed then false else old(success)
    {
      if entered == Complete {
        complete, success := true, true;
      } else if entered == Failed {
        complete, success := true, false;
      }
    }

    /** Every state on the way is entered, from the top. */
    method TransitionTo(target: State)
      modifies this`state, this`complete, this`success
      ensures state == target && complete == (old(complete) || target == Complete || target == Failed)
      ensures success == if target == Complete then true else if target == Failed then false else old(success)
    {
      var path := Entered(state, target);
      EndIsEntered(state, target, Complete);
      EndIsEntered(state, target, Failed);
      for i := 0 to |path|
        invariant complete == (old(complete) || Complete in path[..i] || Failed in path[..i])
        invariant Complete !in path[..i] && Failed !in path[..i] ==> success == old(success)
        invariant target != Failed && Complete in path[..i] ==> success
        invariant target != Complete && Failed in path[..i] ==> !success
      {
        OnEntry(path[i]);
      }
      assert path[..|path|] == path;
      state := target;
    }

    /** Dispatching an event: the first row that fires in the state or, failing that, in a state above it; without one
        nothing happens. */
    method Dispatch(event: Event, net: Net)
      modifies this`bytesSent, this`chunksOk, this`retryCount, this`currentChunk, this`sendResult, this`chunksRetried,
               this`log, this`state, this`complete, this`success
      ensures state == Next(old(state), event, old(retryCount)).to
      ensures Acted(Next(old(state), event, old(retryCount)).action, net)
      ensures complete == (old(complete) || (state != old(state) && (state == Complete || state == Failed)))
      ensures success == if state == old(state) then old(success)
                         else if state == Complete then true else if state == Failed then false else old(success)
    {
      TableIsMachine(state, event, retryCount);
      var found := FindRow(event);
      if found.Some? {
        Apply(found.value, net);
      }
    }

    /** The state is scanned, then the states above it. */
    method FindRow(event: Event) returns (found: Option<Row>)
      ensures found == Bubble(state, event, retryCount)
    {
      found := FindTransition(state, event);
      var at := Parent(state);
      while found.None? && at.Some?
        invariant if found.Some? || at.None? then found == Bubble(state, event, retryCount)
                  else Bubble(at.value, event, retryCount) == Bubble(state, event, retryCount)
        decreases if at.Some? then Depth(at.value) + 1 else 0
      {
        found := FindTransition(at.value, event);
        at := Parent(at.value);
      }
    }

    /** A row that fires: its action, then its target unless it is internal. */
    method Apply(row: Row, net: Net)
      modifies this`bytesSent, this`chunksOk, this`retryCount, this`currentChunk, this`sendResult, this`chunksRetried,
               this`log, this`state, this`complete, this`success
      ensures state == MoveBy(row, old(state)).to && Acted(row.action, net)
      ensures complete == (old(complete) || (!row.internal && (row.to == Complete || row.to == Failed)))
      ensures success == if row.internal then old(success)
                         else if row.to == Complete then true else if row.to == Failed then false else old(success)
    {
      match row.action {
        case NoAction =>
        case Begin => currentChunk, bytesSent, retryCount := 0, 0, 0;
        case SendChunk => ActSend(net);
        case CountRetry => retryCount := retryCount + 1;
      }
      if !row.internal {
        TransitionTo(row.to);
      }
    }

    /** What is still to come, seen from a turn of the loop. */
    function Rest(env: nat -> Net, i: nat, n: nat): Plan
      requires currentChunk <= n && retryCount <= MAX_RETRIES
      reads this
    {
      if state == Retrying && retryCount < MAX_RETRIES then Expected(env, i, currentChunk, n, retryCount + 1)
      else if state == Sending then Expected(env, i, currentChunk, n, retryCount)
      else Plan(state == Complete, i, currentChunk)
    }

    /** A bound on the turns still to come. */
    function Turns(n: nat): int
      reads this
    {
      if complete then 0
      else 7 * (n - currentChunk) + 1 - 2 * retryCount - if state == Sending then 0 else 1
    }

    ghost predicate Counted(n: nat)
      reads this
    {
      && fileSize < WORD && n == (if totalChunks == 0 then 1 else totalChunks)
      && currentChunk <= n && retryCount <= MAX_RETRIES && (state == Failed ==> retryCount == 3)
      && (complete <==> state == Complete || state == Failed)
      && (complete ==> success == (state == Complete))
      && (!complete ==> (state == Sending || state == Retrying) && currentChunk < n)
      && bytesSent == BytesOf(fileSize, currentChunk)
    }

    ghost predicate Logged()
      reads this
    {
      && GoodLog(log, currentChunk, retryCount + if state == Retrying || state == Failed then 1 else 0)
      && chunksOk == currentChunk && chunksRetried == Drops(log)
    }

    ghost predicate Honest(env: nat -> Net)
      reads this
    {
      forall k :: 0 <= k < |log| ==> log[k].net == env(k)
    }

    /** The turn of the loop in Retrying: the table decides between another try and failure. */
    method RetryTurn(env: nat -> Net, ghost n: nat)
      requires Counted(n) && Logged() && !complete && state == Retrying
      modifies this`bytesSent, this`chunksOk, this`retryCount, this`currentChunk, this`sendResult, this`chunksRetried,
               this`log, this`state, this`complete, this`success
      ensures Counted(n) && Logged() && log == old(log)
      ensures Rest(env, |log|, n) == old(Rest(env, |log|, n)) && 0 <= Turns(n) < old(Turns(n))
    {
      Dispatch(Retry, NoConnection);
    }

    /** The event the result of an attempt calls for. */
    method Follow()
      requires state == Sending && !complete
      modifies this`bytesSent, this`chunksOk, this`retryCount, this`currentChunk, this`sendResult, this`chunksRetried,
               this`log, this`state, this`complete, this`success
      ensures Acted(NoAction, NoConnection)
      ensures state == if sendResult == ResDone then Complete else if sendResult == ResOk then Sending else Retrying
      ensures complete == (sendResult == ResDone) && (complete ==> success)
    {
      match sendResult {
        case ResDone => Dispatch(Done, NoConnection);
        case ResOk => Dispatch(AckOk, NoConnection);
        case _ => Dispatch(AckFail, NoConnection);
      }
    }

    /** One attempt: an accepted chunk adds its bytes. */
    method SendOne(net: Net)
      requires state == Sending && bytesSent == BytesOf(fileSize, currentChunk)
      requires BytesOf(fileSize, currentChunk + 1) < WORD
      modifies this`bytesSent, this`chunksOk, this`retryCount, this`currentChunk, this`sendResult, this`chunksRetried,
               this`log, this`state, this`complete, this`success
      ensures state == Sending && complete == old(complete) && success == old(success)
      ensures log == old(log) + [Attempt(old(currentChunk), net)] && bytesSent == BytesOf(fileSize, currentChunk)
      ensures net == Accepted ==> currentChunk == old(currentChunk) + 1 && retryCount == 0
                                  && sendResult == if currentChunk >= totalChunks then ResDone else ResOk
      ensures net != Accepted ==> currentChunk == old(currentChunk) && retryCount == old(retryCount)
                                  && sendResult == FailureOf(net)
      ensures chunksOk == old(chunksOk) + (if net == Accepted then 1 else 0)
      ensures chunksRetried == old(chunksRetried) + (if net == Dropped then 1 else 0)
    {
      assert BytesOf(fileSize, currentChunk + 1) == bytesSent + ChunkLen(fileSize, currentChunk);
      Dispatch(ChunkSent, net);
    }

    /** The turn of the loop in Sending: one attempt, and the event its result calls for. */
    method SendTurn(net: Net, ghost n: nat)
      requires Counted(n) && Logged() && !complete && state == Sending
      requires BytesOf(fileSize, currentChunk + 1) < WORD
      modifies this`bytesSent, this`chunksOk, this`retryCount, this`currentChunk, this`sendResult, this`chunksRetried,
               this`log, this`state, this`complete, this`success
      ensures Counted(n) && Logged() && log == old(log) + [Attempt(old(currentChunk), net)]
      ensures net == Accepted ==> currentChunk == old(currentChunk) + 1 && retryCount == 0
                                  && state == if currentChunk == n then Complete else Sending
      ensures net != Accepted ==> currentChunk == old(currentChunk) && retryCount == old(retryCount)
                                  && state == Retrying
    {
      GoodLogMore(log, currentChunk, retryCount, net);
      LogMore(log, Attempt(currentChunk, net), currentChunk);
      SendOne(net);
      Follow();
    }

    /** Seen from the loop, the turn follows the simple form and brings the end nearer. */
    method NextTurn(env: nat -> Net, i: nat, ghost n: nat)
      requires Counted(n) && Logged() && !complete && state == Sending && i == |log|
      requires BytesOf(fileSize, currentChunk + 1) < WORD
      modifies this`bytesSent, this`chunksOk, this`retryCount, this`currentChunk, this`sendResult, this`chunksRetried,
               this`log, this`state, this`complete, this`success
      ensures Counted(n) && Logged() && log == old(log) + [Attempt(old(currentChunk), env(i))]
      ensures Rest(env, i + 1, n) == old(Rest(env, i, n)) && 0 <= Turns(n) < old(Turns(n))
    {
      ExpectedStep(env, i, currentChunk, n, retryCount);
      SendTurn(env(i), n);
    }

    method Reset()
      modifies this
      ensures !complete && currentChunk == 0 && bytesSent == 0 && retryCount == 0 && log == []
      ensures chunksOk == 0 && chunksRetried == 0
    {
      complete, success := false, false;
      currentChunk, bytesSent, retryCount, totalChunks := 0, 0, 0, 0;
      chunksOk, chunksRetried := 0, 0;
      log := [];
    }

    /** The driver loop. */
    method Drive(env: nat -> Net, ghost n: nat) returns (ghost turns: nat)
      requires Counted(n) && Logged() && !complete && state == Sending && log == []
      requires forall k: nat :: k <= n ==> BytesOf(fileSize, k) < WORD
      modifies this`bytesSent, this`chunksOk, this`retryCount, this`currentChunk, this`sendResult, this`chunksRetried,
               this`log, this`state, this`complete, this`success
      ensures Counted(n) && Logged() && Honest(env) && complete
      ensures Plan(success, |log|, currentChunk) == old(Expected(env, 0, currentChunk, n, retryCount))
      ensures turns <= old(Turns(n))
    {
      ghost var plan := Expected(env, 0, currentChunk, n, retryCount);
      ghost var most := Turns(n);
      var i := 0;
      turns := 0;
      while !complete
        invariant Counted(n) && Logged() && Honest(env) && i == |log| && Rest(env, i, n) == plan
        invariant Turns(n) >= 0 && turns + Turns(n) <= most
        decreases Turns(n)
      {
        if state != Sending {
          RetryTurn(env, n);
        } else {
          NextTurn(env, i, n);
          i := i + 1;
        }
        turns := turns + 1;
      }
    }

    /** The whole transfer, for every pattern of losses and failures: it ends within eight turns a chunk, makes
        exactly the attempts of the simple form with its result, tries no chunk more than four times, gives up only
        after four attempts in a row on one chunk, and has the chunks acknowledged in order. */
    method RunFileTransfer(connects: bool, env: nat -> Net) returns (ok: bool, ghost turns: nat)
      requires fileSize < WORD
      modifies this
      ensures !connects ==> !ok && log == []
      ensures connects ==>
                var n := ChunksToSend(fileSize);
                var plan := Expected(env, 0, 0, n, 0);
                && ok == plan.ok && |log| == plan.attempts && Honest(env)
                && Acked(log) == UpTo(plan.acked) && bytesSent == BytesOf(fileSize, plan.acked)
                && (forall c: nat :: Tries(log, c) <= 4) && (!ok ==> InVain(log, plan.acked, 4))
                && (ok <==> Patient(env, n)) && chunksOk == plan.acked && chunksRetried == Drops(log)
                && turns <= 8 * n
      ensures ok ==> Acked(log) == UpTo(ChunksToSend(fileSize))
      ensures ok ==> (bytesSent == fileSize <==> fileSize <= 0x1_0000_0000 - 2048)
    {
      Reset();
      turns := 0;
      if !connects {
        return false, 0;
      }
      totalChunks := TotalChunks(fileSize);
      TransitionTo(Idle);
      Dispatch(Start, NoConnection);
      ghost var n := ChunksToSend(fileSize);
      forall k: nat | k <= n ensures BytesOf(fileSize, k) < WORD {
        BytesFit(fileSize, k);
      }
      turns := Drive(env, n);
      SuccessIsComplete(env, 0, 0, n, 0);
      SucceedsIff(env, n);
      ChunksAddUp(fileSize);
      ok := success;
    }
  }
}
