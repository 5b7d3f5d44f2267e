/** Call commands and the single-slot sender that delivers them
    (src/gvs_call_command.c and src/gvs_call_dispatch.c). */
module CallDispatching {
  import opened Words
  import opened Frames
  import opened Sessions
  import SendTransactions

  type AttemptResult = SendTransactions.AttemptResult

  const MAX_ATTEMPTS := SendTransactions.MAX_ATTEMPTS
  const ATTEMPT_TIMEOUT_MS := SendTransactions.ATTEMPT_TIMEOUT_MS
  const RETRY_DELAY_MS := SendTransactions.RETRY_DELAY_MS

  // ---------------------------------------------------------------------------
  // Commands.

  datatype CommandType = NoCommand | Answer | HangUp | HandAsk | HandReply | Call

  /** At most seven bytes of payload. */
  type Payload = p: seq<byte> | |p| <= 7 witness []

  datatype Command = Command(
    valid: bool, kind: CommandType, destination: Address, source: Address,
    generation: u64, opcode: byte, payload: Payload)

  const NO_COMMAND := Command(false, NoCommand, NO_ADDRESS, NO_ADDRESS, 0, 0, [])

  predicate Begins(s: Session, expected: u64, local: Address) {
    expected != 0 && expected == s.generation && local != NO_ADDRESS && s.peer != NO_ADDRESS
  }

  /** A pick-up, bound to the session's generation and peer. */
  function PreparedPick(s: Session, expected: u64, local: Address, primary: u16, secondary: u16, duration: byte,
                        kind: CommandType): Option<Command>
    requires kind == Answer || kind == Call
  {
    if !Begins(s, expected, local) || s.state != (if kind == Answer then Ringing else Preview)
       || primary == 0 || secondary == 0 || duration == 0 then None
    else Some(Command(true, kind, s.peer, local, expected, 0x03,
                      [0x02, primary / 256, primary % 256, 0x00, secondary / 256, secondary % 256, duration]))
  }

  function PreparedHangup(s: Session, expected: u64, local: Address, reason: byte): Option<Command> {
    if !Begins(s, expected, local) || !Active(s.state) then None
    else Some(Command(true, HangUp, s.peer, local, expected, 0x02, [reason]))
  }

  /** The frame a command goes out as, or None when it cannot be printed. */
  function CommandFrame(c: Command): Option<Frame> {
    if c.valid && (c.kind == HandAsk || c.kind == HandReply) then
      if |c.payload| != 0 || c.opcode != (if c.kind == HandAsk then 0x51 else 0x52) || c.generation == 0
         || c.destination == NO_ADDRESS || c.source == NO_ADDRESS then None
      else Some(Frame(c.destination, c.source, 0x03, c.opcode, []))
    else if !c.valid || c.generation == 0 then None
    else if || ((c.kind == Answer || c.kind == Call) && c.opcode == 0x03 && |c.payload| == 7)
            || (c.kind == HangUp && c.opcode == 0x02 && |c.payload| == 1)
    then Some(Frame(c.destination, c.source, 0x03, c.opcode, c.payload))
    else None
  }

  /** What enqueueing rebuilds a command to, from its own fields; None when it refuses. */
  function Rebuilt(c: Command): Option<Command> {
    if (c.kind == Answer || c.kind == Call) && |c.payload| == 7 then
      PreparedPick(Session(if c.kind == Call then Preview else Ringing, c.destination, c.generation, NO_PICK),
                   c.generation, c.source, c.payload[1] as int * 256 + c.payload[2], c.payload[4] as int * 256 + c.payload[5],
                   c.payload[6], c.kind)
    else if c.kind == HangUp && |c.payload| == 1 then
      PreparedHangup(Session(Ringing, c.destination, c.generation, NO_PICK), c.generation, c.source, c.payload[0])
    else if c.kind == HandAsk || c.kind == HandReply then
      if CommandFrame(c).Some? then Some(c) else None
    else None
  }

  predicate Acceptable(c: Command) {
    c.valid && Rebuilt(c).Some? && Rebuilt(c).value.opcode == c.opcode && Rebuilt(c).value.payload == c.payload
  }

  /** A command is acceptable exactly when it is what one of the prepare functions makes of
      some session, or a well-formed keep-alive; it is then kept unchanged. */
  lemma AcceptableIsPrepared(c: Command)
    ensures Acceptable(c) <==>
            || (exists s: Session, primary: u16, secondary: u16, duration: byte ::
                  (c.kind == Answer || c.kind == Call) &&
                  PreparedPick(s, c.generation, c.source, primary, secondary, duration, c.kind) == Some(c))
            || (exists s: Session, reason: byte :: PreparedHangup(s, c.generation, c.source, reason) == Some(c))
            || ((c.kind == HandAsk || c.kind == HandReply) && CommandFrame(c).Some?)
    ensures Acceptable(c) ==> Rebuilt(c) == Some(c) && CommandFrame(c).Some?
  {
    if Acceptable(c) {
      assert Rebuilt(c) == Some(c);
      if c.kind == Answer || c.kind == Call {
        var s := Session(if c.kind == Call then Preview else Ringing, c.destination, c.generation, NO_PICK);
        assert PreparedPick(s, c.generation, c.source, c.payload[1] as int * 256 + c.payload[2],
                            c.payload[4] as int * 256 + c.payload[5], c.payload[6], c.kind) == Some(c);
      } else if c.kind == HangUp {
        var s := Session(Ringing, c.destination, c.generation, NO_PICK);
        assert PreparedHangup(s, c.generation, c.source, c.payload[0]) == Some(c);
      }
    }
    if s: Session, primary: u16, secondary: u16, duration: byte
        :| (c.kind == Answer || c.kind == Call) &&
           PreparedPick(s, c.generation, c.source, primary, secondary, duration, c.kind) == Some(c) {
      PickIsRebuilt(s, c, primary, secondary, duration);
    }
  }

  lemma PickIsRebuilt(s: Session, c: Command, primary: u16, secondary: u16, duration: byte)
    requires c.kind == Answer || c.kind == Call
    requires PreparedPick(s, c.generation, c.source, primary, secondary, duration, c.kind) == Some(c)
    ensures Rebuilt(c) == Some(c)
  {
    assert c.payload[1] as int * 256 + c.payload[2] == primary;
    assert c.payload[4] as int * 256 + c.payload[5] == secondary;
  }

  // ---------------------------------------------------------------------------
  // The slot.

  datatype SlotState = Empty | Queued | Sending | Retry | Sent | Failed | TimedOut | Cancelled

  datatype Dispatch = Dispatch(
    state: SlotState, command: Command, lastNow: u64, deadline: u64, nextId: u64, activeId: u64, attempts: nat)

  function Initial(now: u64): Dispatch {
    Dispatch(Empty, NO_COMMAND, now, 0, 1, 0, 0)
  }

  predicate Busy(state: SlotState) {
    state == Queued || state == Sending || state == Retry
  }

  /** The command still belongs to the session: same generation, peer and station, in a
      state the command is meant for. */
  predicate Current(c: Command, s: Session, local: Address) {
    && c.generation == s.generation && c.destination == s.peer && c.source == local
    && if c.kind == Answer then s.state == Ringing
       else if c.kind == Call then s.state == Preview
       else Active(s.state)
  }

  /** What happens to commands, as seen from outside. */
  datatype Note = Accepted(command: Command, at: u64)
                | Attempted(command: Command, attempt: nat, id: u64, at: u64, session: Session, local: Address)
                | Held(command: Command, at: u64)
                | Settled(command: Command, outcome: SlotState, at: u64)

  datatype Move = Move(d: Dispatch, notes: seq<Note>)

  function Closed(d: Dispatch, outcome: SlotState): Dispatch {
    d.(state := outcome, activeId := 0, deadline := 0)
  }

  function Finished(d: Dispatch, outcome: SlotState, now: u64): Move {
    Move(Closed(d, outcome), [Settled(d.command, outcome, now)])
  }

  function AfterFailure(d: Dispatch, now: u64, timeout: bool): Move {
    if d.attempts >= MAX_ATTEMPTS then Finished(d, if timeout then TimedOut else Failed, now)
    else if now > U64_MAX - RETRY_DELAY_MS then Finished(d, TimedOut, now)
    else Move(d.(activeId := 0, state := Retry, deadline := now + RETRY_DELAY_MS), [Held(d.command, now)])
  }

  function Enqueued(d: Dispatch, c: Command, now: u64): (Move, Status) {
    if now < d.lastNow || !c.valid then (Move(d, []), Invalid)
    else if Busy(d.state) then (Move(d, []), Io)
    else if !Acceptable(c) then (Move(d, []), Invalid)
    else if d.nextId == 0 || now > U64_MAX - ATTEMPT_TIMEOUT_MS then (Move(d, []), Io)
    else (Move(Dispatch(Queued, c, now, now + ATTEMPT_TIMEOUT_MS, d.nextId, 0, 0), [Accepted(c, now)]), Ok)
  }

  function Answered(d: Dispatch, result: AttemptResult, now: u64): Move {
    match result
    case Success => Finished(d, Sent, now)
    case Failure => AfterFailure(d, now, false)
    case Pending => Move(d, [])
  }

  function Stepped(d: Dispatch, s: Session, local: Address, now: u64, response: AttemptResult): (Move, Status) {
    if now < d.lastNow then (Move(d, []), Invalid)
    else
      var next := d.(lastNow := now);
      if !Busy(d.state) then (Move(next, []), Ok)
      else if !Current(d.command, s, local) then (Finished(next, Cancelled, now), Ok)
      else if d.state == Sending then
        (if now >= d.deadline then AfterFailure(next, now, true) else Move(next, []), Ok)
      else if d.state == Retry && now < d.deadline then (Move(next, []), Ok)
      else if (d.state == Queued && now >= d.deadline) || now > U64_MAX - ATTEMPT_TIMEOUT_MS then
        (Finished(next, TimedOut, now), Ok)
      else if d.nextId == 0 then (Finished(next, Failed, now), Ok)
      else
        var sending := next.(activeId := d.nextId, nextId := Increment(d.nextId), attempts := d.attempts + 1,
                             state := Sending, deadline := now + ATTEMPT_TIMEOUT_MS);
        var m := Answered(sending, response, now);
        (Move(m.d, [Attempted(d.command, sending.attempts, sending.activeId, now, s, local)] + m.notes), Ok)
  }

  function Completed(d: Dispatch, s: Session, local: Address, now: u64, id: u64,
                     result: AttemptResult): (Move, Status) {
    if now < d.lastNow || d.state != Sending || id == 0 || id != d.activeId || result == SendTransactions.Pending then
      (Move(d, []), Invalid)
    else
      var next := d.(lastNow := now);
      if !Current(d.command, s, local) then (Finished(next, Cancelled, now), Ok)
      else if now >= d.deadline then (AfterFailure(next, now, true), Ok)
      else (Answered(next, result, now), Ok)
  }

  // ---------------------------------------------------------------------------
  // The life of a command, told by the notes alone.

  datatype Phase = Resting
                 | Waiting(command: Command, attempts: nat, since: u64)
                 | Trying(command: Command, attempt: nat, id: u64, since: u64)

  datatype Reading = Reading(phase: Phase, lastId: u64)

  /** A command is attempted at most three times, first within 250 ms of being accepted and
      then 100 ms or more after a failure, each time with a fresh id and only while it still
      belongs to the session; it settles once, and the next note is of another command. */
  predicate Follows(r: Reading, n: Note) {
    match r.phase
    case Resting => n.Accepted?
    case Waiting(c, attempts, since) =>
      && n.command == c
      && (match n
         case Attempted(_, attempt, id, at, session, local) =>
           && attempt == attempts + 1 <= MAX_ATTEMPTS && id > r.lastId && Current(c, session, local)
           && (if attempts == 0 then since <= at < since + ATTEMPT_TIMEOUT_MS else at >= since + RETRY_DELAY_MS)
         case Settled(_, outcome, at) =>
           || outcome == Cancelled
           || (outcome == TimedOut && (at > U64_MAX - ATTEMPT_TIMEOUT_MS
                                       || (attempts == 0 && at >= since + ATTEMPT_TIMEOUT_MS)))
           || (outcome == Failed && r.lastId == U64_MAX)
         case _ => false)
    case Trying(c, attempt, id, since) =>
      && n.command == c
      && (match n
         case Held(_, at) => attempt < MAX_ATTEMPTS
         case Settled(_, outcome, at) =>
           || outcome == Cancelled
           || (outcome == Sent && since <= at < since + ATTEMPT_TIMEOUT_MS)
           || (outcome == Failed && attempt == MAX_ATTEMPTS)
           || (outcome == TimedOut && (attempt == MAX_ATTEMPTS || at > U64_MAX - RETRY_DELAY_MS))
         case _ => false)
  }

  function Read(r: Reading, n: Note): Option<Reading> {
    if !Follows(r, n) then None
    else
      match n
      case Accepted(c, at) => Some(r.(phase := Waiting(c, 0, at)))
      case Attempted(c, attempt, id, at, _, _) => Some(Reading(Trying(c, attempt, id, at), id))
      case Held(c, at) => if r.phase.Trying? then Some(r.(phase := Waiting(c, r.phase.attempt, at))) else None
      case Settled(_, _, _) => Some(r.(phase := Resting))
  }

  function ReadAll(r: Reading, log: seq<Note>): Option<Reading> {
    if log == [] then Some(r)
    else
      var before := ReadAll(r, log[..|log| - 1]);
      if before.None? then None else Read(before.value, log[|log| - 1])
  }

  lemma ReadMore(r: Reading, log: seq<Note>, n: Note)
    ensures ReadAll(r, log + [n]) == if ReadAll(r, log).None? then None else Read(ReadAll(r, log).value, n)
    ensures ReadAll(r, []) == Some(r)
  {
    hide Read;
    assert (log + [n])[..|log|] == log;
  }

  lemma {:induction false} ReadOn(r: Reading, a: seq<Note>, b: seq<Note>)
    requires ReadAll(r, a).Some?
    ensures ReadAll(r, a + b) == ReadAll(ReadAll(r, a).value, b)
  {
    hide Read, ReadAll;
    var s := ReadAll(r, a).value;
    if b == [] {
      assert a + b == a;
      ReadMore(s, [], Accepted(NO_COMMAND, 0));
    } else {
      var n := |b| - 1;
      ReadOn(r, a, b[..n]);
      ReadMore(r, a + b[..n], b[n]);
      ReadMore(s, b[..n], b[n]);
      assert b == b[..n] + [b[n]] && a + b == (a + b[..n]) + [b[n]];
    }
  }

  lemma ReadOne(r: Reading, a: Note)
    ensures ReadAll(r, [a]) == Read(r, a)
  {
    hide Read;
    assert [a][..0] == [];
  }

  /** The slot is where the notes say. */
  ghost predicate Agrees(d: Dispatch, r: Reading) {
    && (if d.nextId == 0 then r.lastId == U64_MAX else r.lastId < d.nextId)
    && match d.state
       case Queued =>
         && d.attempts == 0 && d.deadline >= ATTEMPT_TIMEOUT_MS && d.deadline - ATTEMPT_TIMEOUT_MS <= d.lastNow
         && r.phase == Waiting(d.command, 0, d.deadline - ATTEMPT_TIMEOUT_MS)
       case Retry =>
         && 1 <= d.attempts < MAX_ATTEMPTS && d.deadline >= RETRY_DELAY_MS
         && r.phase == Waiting(d.command, d.attempts, d.deadline - RETRY_DELAY_MS)
       case Sending =>
         && 1 <= d.attempts <= MAX_ATTEMPTS && d.activeId == r.lastId
         && d.deadline >= ATTEMPT_TIMEOUT_MS && d.deadline - ATTEMPT_TIMEOUT_MS <= d.lastNow
         && r.phase == Trying(d.command, d.attempts, d.activeId, d.deadline - ATTEMPT_TIMEOUT_MS)
       case _ => r.phase == Resting
  }

  ghost predicate ReadsTo(r: Reading, m: Move) {
    ReadAll(r, m.notes).Some? && Agrees(m.d, ReadAll(r, m.notes).value)
  }

  lemma FailureReads(d: Dispatch, now: u64, timeout: bool, r: Reading)
    requires d.state == Sending && Agrees(d, r) && d.lastNow == now
    ensures |AfterFailure(d, now, timeout).notes| == 1 && ReadsTo(r, AfterFailure(d, now, timeout))
  {
    ReadOne(r, AfterFailure(d, now, timeout).notes[0]);
    hide ReadAll;
  }

  lemma AnswerReads(d: Dispatch, result: AttemptResult, now: u64, r: Reading)
    requires d.state == Sending && Agrees(d, r) && d.lastNow == now && now < d.deadline
    ensures ReadsTo(r, Answered(d, result, now))
  {
    match result
    case Pending =>
    case Failure => FailureReads(d, now, false, r);
    case Success =>
      ReadOne(r, Settled(d.command, Sent, now));
      hide ReadAll;
  }

  lemma CancelReads(d: Dispatch, outcome: SlotState, now: u64, r: Reading)
    requires Busy(d.state) && Agrees(d, r)
    requires outcome == Cancelled
             || (outcome == TimedOut && d.state != Sending && now > U64_MAX - ATTEMPT_TIMEOUT_MS)
             || (outcome == TimedOut && d.state == Queued && now >= d.deadline)
             || (outcome == Failed && d.state != Sending && d.nextId == 0)
    ensures ReadsTo(r, Finished(d, outcome, now))
  {
    ReadOne(r, Settled(d.command, outcome, now));
    hide ReadAll;
  }

  lemma StepReads(d: Dispatch, s: Session, local: Address, now: u64, response: AttemptResult, r: Reading)
    requires Agrees(d, r)
    ensures ReadsTo(r, Stepped(d, s, local, now, response).0)
  {
    var next := d.(lastNow := now);
    hide Current, AfterFailure, Finished, Read, ReadsTo;
    if d.lastNow <= now && Busy(d.state) {
      if !Current(d.command, s, local) {
        CancelReads(next, Cancelled, now, r);
      } else if d.state == Sending {
        if now >= d.deadline {
          FailureReads(next, now, true, r);
        } else {
          NothingReads(next, r);
        }
      } else if d.state == Retry && now < d.deadline {
        NothingReads(next, r);
      } else if (d.state == Queued && now >= d.deadline) || now > U64_MAX - ATTEMPT_TIMEOUT_MS {
        CancelReads(next, TimedOut, now, r);
      } else if d.nextId == 0 {
        CancelReads(next, Failed, now, r);
      } else {
        AttemptReads(d, s, local, now, response, r);
      }
    } else {
      NothingReads(if d.lastNow <= now then next else d, r);
    }
  }

  lemma NothingReads(d: Dispatch, r: Reading)
    requires Agrees(d, r)
    ensures ReadsTo(r, Move(d, []))
  {
  }

  lemma AttemptReads(d: Dispatch, s: Session, local: Address, now: u64, response: AttemptResult, r: Reading)
    requires Agrees(d, r) && (d.state == Queued || d.state == Retry) && d.lastNow <= now && d.nextId != 0
    requires Current(d.command, s, local) && now <= U64_MAX - ATTEMPT_TIMEOUT_MS
    requires if d.state == Queued then now < d.deadline else now >= d.deadline
    ensures var sending := d.(lastNow := now, activeId := d.nextId, nextId := Increment(d.nextId),
                              attempts := d.attempts + 1, state := Sending, deadline := now + ATTEMPT_TIMEOUT_MS);
            var m := Answered(sending, response, now);
            ReadsTo(r, Move(m.d, [Attempted(d.command, sending.attempts, sending.activeId, now, s, local)] + m.notes))
  {
    var sending := d.(lastNow := now, activeId := d.nextId, nextId := Increment(d.nextId),
                      attempts := d.attempts + 1, state := Sending, deadline := now + ATTEMPT_TIMEOUT_MS);
    var first := Attempted(d.command, sending.attempts, sending.activeId, now, s, local);
    var mid := Reading(Trying(d.command, sending.attempts, sending.activeId, now), sending.activeId);
    hide Current, Answered, ReadAll;
    ReadOne(r, first);
    assert Read(r, first) == Some(mid);
    AnswerReads(sending, response, now, mid);
    ReadOn(r, [first], Answered(sending, response, now).notes);
    hide Read, Agrees;
  }

  lemma CompleteReads(d: Dispatch, s: Session, local: Address, now: u64, id: u64, result: AttemptResult, r: Reading)
    requires Agrees(d, r)
    ensures ReadsTo(r, Completed(d, s, local, now, id, result).0)
  {
    var next := d.(lastNow := now);
    hide Current, AfterFailure, Finished, Answered, Read, ReadsTo;
    if Completed(d, s, local, now, id, result).1 == Invalid {
      NothingReads(d, r);
    } else if !Current(d.command, s, local) {
      CancelReads(next, Cancelled, now, r);
    } else if now >= d.deadline {
      FailureReads(next, now, true, r);
    } else {
      AnswerReads(next, result, now, r);
    }
  }

  lemma EnqueueReads(d: Dispatch, c: Command, now: u64, r: Reading)
    requires Agrees(d, r)
    ensures ReadsTo(r, Enqueued(d, c, now).0)
  {
    hide Acceptable;
    ReadOne(r, Accepted(c, now));
  }

  // ---------------------------------------------------------------------------
  // Runs, with any session at every step.

  datatype Input = Enqueue(command: Command, now: u64)
                 | Step(session: Session, local: Address, now: u64, response: AttemptResult)
                 | Complete(session: Session, local: Address, now: u64, id: u64, result: AttemptResult)

  function Moved(d: Dispatch, i: Input): Move {
    match i
    case Enqueue(c, now) => Enqueued(d, c, now).0
    case Step(s, local, now, response) => Stepped(d, s, local, now, response).0
    case Complete(s, local, now, id, result) => Completed(d, s, local, now, id, result).0
  }

  /** The slot after a run, and all that was noted. */
  function Run(inputs: seq<Input>, start: u64): Move {
    if inputs == [] then Move(Initial(start), [])
    else
      var before := Run(inputs[..|inputs| - 1], start);
      var m := Moved(before.d, inputs[|inputs| - 1]);
      Move(m.d, before.notes + m.notes)
  }

  const FRESH := Reading(Resting, 0)

  /** On every run, with whatever sessions and answers, the notes tell the life of one
      command after another. */
  lemma {:induction false} EveryRunIsTold(inputs: seq<Input>, start: u64)
    ensures ReadsTo(FRESH, Run(inputs, start))
  {
    if inputs != [] {
      var n := |inputs| - 1;
      EveryRunIsTold(inputs[..n], start);
      var before := Run(inputs[..n], start);
      var r := ReadAll(FRESH, before.notes).value;
      hide Moved, Agrees, ReadAll;
      MoveReads(before.d, inputs[n], r);
      ReadOn(FRESH, before.notes, Moved(before.d, inputs[n]).notes);
    }
  }

  lemma MoveReads(d: Dispatch, i: Input, r: Reading)
    requires Agrees(d, r)
    ensures ReadsTo(r, Moved(d, i))
  {
    match i
    case Enqueue(c, now) => EnqueueReads(d, c, now, r);
    case Step(s, local, now, response) => StepReads(d, s, local, now, response, r);
    case Complete(s, local, now, id, result) => CompleteReads(d, s, local, now, id, result, r);
  }

  lemma {:induction false} ReadPrefix(log: seq<Note>, n: nat)
    requires n <= |log| && ReadAll(FRESH, log).Some?
    ensures ReadAll(FRESH, log[..n]).Some?
    decreases |log|
  {
    hide Read;
    if n == |log| {
      assert log[..n] == log;
    } else {
      ReadPrefix(log[..|log| - 1], n);
      assert log[..|log| - 1][..n] == log[..n];
    }
  }

  lemma {:induction false} IdIsLast(log: seq<Note>, n: nat, i: nat)
    requires i < n <= |log| && ReadAll(FRESH, log).Some? && log[i].Attempted?
    ensures ReadAll(FRESH, log[..n]).Some?
    ensures 0 < log[i].id <= ReadAll(FRESH, log[..n]).value.lastId
  {
    hide ReadAll, Current;
    NoteAt(log, n - 1);
    if i < n - 1 {
      IdIsLast(log, n - 1, i);
    }
  }

  /** The readings before and after note `i`. */
  lemma NoteAt(log: seq<Note>, i: nat)
    requires i < |log| && ReadAll(FRESH, log).Some?
    ensures ReadAll(FRESH, log[..i]).Some? && ReadAll(FRESH, log[..i + 1]).Some?
    ensures ReadAll(FRESH, log[..i + 1]) == Read(ReadAll(FRESH, log[..i]).value, log[i])
    ensures Follows(ReadAll(FRESH, log[..i]).value, log[i])
  {
    hide ReadAll, Follows;
    ReadPrefix(log, i);
    ReadPrefix(log, i + 1);
    assert log[..i + 1] == log[..i] + [log[i]];
    ReadMore(FRESH, log[..i], log[i]);
  }

  /** A note allows the next only in the phase it leads to. */
  lemma NoteLeads(r: Reading, n: Note)
    requires Follows(r, n)
    ensures Read(r, n).Some?
    ensures var s := Read(r, n).value;
            && (n.Settled? ==> s.phase == Resting)
            && (!n.Settled? ==> !s.phase.Resting? && s.phase.command == n.command)
    ensures !n.Accepted? ==> !r.phase.Resting? && r.phase.command == n.command
    ensures r.phase.Resting? ==> n.Accepted?
    ensures n.Attempted? ==> 1 <= n.attempt <= MAX_ATTEMPTS && n.id > r.lastId && Current(n.command, n.session, n.local)
  {
    hide Current;
  }

  /** So on every run no completion id is used twice, every attempt is one of three and made
      while its command belongs to the session at hand, and after a command has settled the
      next note, if any, accepts another. */
  lemma AttemptsOnEveryRun(inputs: seq<Input>, start: u64, i: nat)
    requires i < |Run(inputs, start).notes|
    ensures var log := Run(inputs, start).notes;
            && (log[i].Attempted? ==>
                  && 1 <= log[i].attempt <= MAX_ATTEMPTS
                  && Current(log[i].command, log[i].session, log[i].local)
                  && forall j :: 0 <= j < i && log[j].Attempted? ==> 0 < log[j].id < log[i].id)
            && (log[i].Settled? && i + 1 < |log| ==> log[i + 1].Accepted?)
            && (!log[i].Accepted? ==> i > 0 && log[i - 1].command == log[i].command)
  {
    EveryRunIsTold(inputs, start);
    var log := Run(inputs, start).notes;
    hide Run, ReadAll, Current, Follows, Read, Agrees;
    NoteAt(log, i);
    NoteLeads(ReadAll(FRESH, log[..i]).value, log[i]);
    forall j | 0 <= j < i && log[j].Attempted? && log[i].Attempted? ensures 0 < log[j].id < log[i].id {
      IdIsLast(log, i, j);
    }
    if i > 0 {
      NoteAt(log, i - 1);
      NoteLeads(ReadAll(FRESH, log[..i - 1]).value, log[i - 1]);
    } else {
      assert log[..0] == [];
      ReadMore(FRESH, [], log[0]);
    }
    if i + 1 < |log| {
      NoteAt(log, i + 1);
      NoteLeads(ReadAll(FRESH, log[..i + 1]).value, log[i + 1]);
    }
  }

  // ---------------------------------------------------------------------------
  // In place.

  class CallDispatch {
    var d: Dispatch

    constructor (now: u64)
      ensures d == Initial(now)
    {
      d := Initial(now);
    }

    constructor From(value: Dispatch)
      ensures d == value
    {
      d := value;
    }

    method Finish(outcome: SlotState)
      modifies this
      ensures d == Closed(old(d), outcome)
    {
      d := d.(state := outcome);
      d := d.(activeId := 0);
      d := d.(deadline := 0);
    }

    method FailedAttempt(now: u64, timeout: bool)
      modifies this
      ensures d == AfterFailure(old(d), now, timeout).d
    {
      d := d.(activeId := 0);
      if d.attempts >= MAX_ATTEMPTS {
        Finish(if timeout then TimedOut else Failed);
      } else if now > U64_MAX - RETRY_DELAY_MS {
        Finish(TimedOut);
      } else {
        d := d.(state := Retry);
        d := d.(deadline := now + RETRY_DELAY_MS);
      }
    }

    method Enqueue(c: Command, now: u64) returns (status: Status)
      modifies this
      ensures (d, status) == (Enqueued(old(d), c, now).0.d, Enqueued(old(d), c, now).1)
    {
      if now < d.lastNow || !c.valid {
        return Invalid;
      }
      if Busy(d.state) {
        return Io;
      }
      AcceptableIsPrepared(c);
      var checked := Rebuilt(c);
      if checked.None? || checked.value.opcode != c.opcode || checked.value.payload != c.payload {
        return Invalid;
      }
      if d.nextId == 0 || now > U64_MAX - ATTEMPT_TIMEOUT_MS {
        return Io;
      }
      d := d.(command := checked.value, state := Queued, lastNow := now);
      d := d.(deadline := now + ATTEMPT_TIMEOUT_MS, attempts := 0, activeId := 0);
      return Ok;
    }

    /** `response` is what the send callback answers when it is called. */
    method Step(s: Session, local: Address, now: u64, response: AttemptResult) returns (status: Status)
      modifies this
      ensures (d, status) == (Stepped(old(d), s, local, now, response).0.d, Stepped(old(d), s, local, now, response).1)
    {
      hide Current, AfterFailure;
      if now < d.lastNow {
        return Invalid;
      }
      d := d.(lastNow := now);
      if !Busy(d.state) {
        return Ok;
      }
      if !Current(d.command, s, local) {
        Finish(Cancelled);
        return Ok;
      }
      if d.state == Sending {
        if now >= d.deadline {
          FailedAttempt(now, true);
        }
        return Ok;
      }
      if d.state == Retry && now < d.deadline {
        return Ok;
      }
      if (d.state == Queued && now >= d.deadline) || now > U64_MAX - ATTEMPT_TIMEOUT_MS {
        Finish(TimedOut);
        return Ok;
      }
      if d.nextId == 0 {
        Finish(Failed);
        return Ok;
      }
      d := d.(activeId := d.nextId, nextId := Increment(d.nextId), attempts := d.attempts + 1);
      d := d.(state := Sending, deadline := now + ATTEMPT_TIMEOUT_MS);
      if response == SendTransactions.Success {
        Finish(Sent);
      } else if response != SendTransactions.Pending {
        FailedAttempt(now, false);
      }
      return Ok;
    }

    method Complete(s: Session, local: Address, now: u64, id: u64, result: AttemptResult) returns (status: Status)
      modifies this
      ensures (d, status) ==
              (Completed(old(d), s, local, now, id, result).0.d, Completed(old(d), s, local, now, id, result).1)
    {
      hide Current, AfterFailure;
      if now < d.lastNow || d.state != Sending || id == 0 || id != d.activeId || result == SendTransactions.Pending {
        return Invalid;
      }
      d := d.(lastNow := now);
      if !Current(d.command, s, local) {
        Finish(Cancelled);
      } else if now >= d.deadline {
        FailedAttempt(now, true);
      } else if result == SendTransactions.Success {
        Finish(Sent);
      } else {
        FailedAttempt(now, false);
      }
      return Ok;
    }
  }

  // ---------------------------------------------------------------------------
  // What an attempt's answer decides.

  /** The command is delivered, to be tried again, or given up, as the answer to its attempt
      number `attempt` says. */
  predicate Decided(d: Dispatch, attempt: nat, result: AttemptResult, inTime: bool, now: u64, after: Dispatch) {
    && after.command == d.command
    && if inTime && result == SendTransactions.Success then after.state == Sent
       else if inTime && result == SendTransactions.Pending then after.state == Sending && after.attempts == attempt
       else if attempt < 3 then after.state == Retry && after.deadline == now + 100 && after.attempts == attempt
       else after.state == if inTime then Failed else TimedOut
  }

  /** The slot takes a prepared command exactly when it has none under way, no clock has run
      back, and there are times and numbers left. */
  lemma CommandsAreTaken(d: Dispatch, c: Command, now: u64)
    ensures var (m, status) := Enqueued(d, c, now);
            && (status == Ok <==> Acceptable(c) && !Busy(d.state) && d.lastNow <= now <= U64_MAX - 250 && d.nextId != 0)
            && (if status == Ok then m.d == Dispatch(Queued, c, now, now + 250, d.nextId, 0, 0) else m.d == d)
  {
  }

  /** A step decides about the command under way: it is cancelled when the session is no
      longer the one it was made for; an attempt that is out fails after 250 ms; a turn that
      has come is taken, and the answer decides at once; a first turn that comes too late is
      none. */
  lemma StepsDecide(d: Dispatch, s: Session, local: Address, now: u64, response: AttemptResult)
    requires Busy(d.state) && d.lastNow <= now <= U64_MAX - 250 && d.nextId != 0
    requires if d.state == Sending then d.attempts <= 3 else d.attempts < 3
    ensures var (m, status) := Stepped(d, s, local, now, response);
            && status == Ok && m.d.command == d.command && m.d.lastNow == now
            && if !Current(d.command, s, local) then m.d.state == Cancelled
               else if d.state == Sending then
                 if now < d.deadline then m.d == d.(lastNow := now)
                 else Decided(d, d.attempts, SendTransactions.Failure, false, now, m.d)
               else if d.state == Queued && now >= d.deadline then m.d.state == TimedOut
               else if d.state == Retry && now < d.deadline then m.d == d.(lastNow := now)
               else
                 && Decided(d, d.attempts + 1, response, true, now, m.d)
                 && (response == SendTransactions.Pending ==> m.d.deadline == now + 250 && m.d.activeId == d.nextId)
  {
    hide Current;
  }

  /** A report on the attempt that is out decides it, if it comes within the 250 ms. */
  lemma ReportsDecide(d: Dispatch, s: Session, local: Address, now: u64, id: u64, result: AttemptResult)
    requires d.state == Sending && d.attempts <= 3 && d.lastNow <= now <= U64_MAX - 250
    ensures var (m, status) := Completed(d, s, local, now, id, result);
            if id == 0 || id != d.activeId || result == SendTransactions.Pending then status == Invalid && m.d == d
            else
              && status == Ok
              && if !Current(d.command, s, local) then m.d.state == Cancelled
                 else Decided(d, d.attempts, result, now < d.deadline, now, m.d)
  {
    hide Current;
  }
}
