/** Sending one reply at a time, with bounded retries (src/gvs_send_transaction.c). */
module SendTransactions {
  import opened Words
  import opened ReplyQueues

  const MAX_ATTEMPTS := 3
  const ATTEMPT_TIMEOUT_MS := 250
  const RETRY_DELAY_MS := 100
  const TRACE_CAPACITY := 2

  datatype SendState = Idle | Sending | WaitRetry

  datatype Outcome = Undecided | Succeeded | Failed | TimedOut

  /** What the send callback, or a completion, reports. */
  datatype AttemptResult = Pending | Success | Failure

  datatype Kind = Sent | Retried | Done(outcome: Outcome)

  datatype Event = Event(kind: Kind, attempt: nat, id: u64, timedOut: bool)

  datatype Transaction = Transaction(
    state: SendState, lastOutcome: Outcome, entry: Entry, attempt: nat,
    activeId: u64, nextId: u64, deadline: u64, retryAt: u64, lastNow: u64)

  function Initial(now: u64): Transaction {
    Transaction(Idle, Undecided, Blank(), 0, 0, 1, 0, 0, now)
  }

  function Finished(t: Transaction, outcome: Outcome): Transaction {
    t.(state := Idle, lastOutcome := outcome, deadline := 0, retryAt := 0, activeId := 0, entry := Blank())
  }

  /** The new transaction and the events it adds to the trace. */
  datatype Move = Move(t: Transaction, trace: seq<Event>)

  function Settled(t: Transaction, outcome: Outcome, timedOut: bool): Move {
    Move(Finished(t, outcome), [Event(Done(outcome), t.attempt, t.activeId, timedOut)])
  }

  function AfterFailure(t: Transaction, now: u64, timedOut: bool): Move {
    if t.attempt < MAX_ATTEMPTS then
      if now > U64_MAX - RETRY_DELAY_MS then Settled(t, TimedOut, true)
      else Move(t.(state := WaitRetry, deadline := 0, retryAt := now + RETRY_DELAY_MS),
                [Event(Retried, t.attempt, t.activeId, timedOut)])
    else Settled(t, if timedOut then TimedOut else Failed, timedOut)
  }

  function AfterResult(t: Transaction, result: AttemptResult, now: u64): Move {
    match result
    case Success => Settled(t, Succeeded, false)
    case Failure => AfterFailure(t, now, false)
    case Pending => Move(t, [])
  }

  /** None when the ids or the clock have run out. */
  function Started(t: Transaction, now: u64, response: AttemptResult): Option<Move> {
    if t.nextId == 0 || now > U64_MAX - ATTEMPT_TIMEOUT_MS then None
    else
      var sending := t.(attempt := t.attempt + 1, activeId := t.nextId, nextId := Increment(t.nextId),
                        state := Sending, retryAt := 0, deadline := now + ATTEMPT_TIMEOUT_MS);
      var answered := AfterResult(sending, response, now);
      Some(Move(answered.t, [Event(Sent, sending.attempt, sending.activeId, false)] + answered.trace))
  }

  datatype Step = Step(t: Transaction, q: Queue, status: Status, trace: seq<Event>)

  function Stepped(t: Transaction, q: Queue, now: u64, response: AttemptResult): Step {
    if now < t.lastNow || now < q.lastNow || (t.state == Idle && now > U64_MAX - ATTEMPT_TIMEOUT_MS) then
      Step(t, q, Invalid, [])
    else
      var next := t.(lastNow := now);
      match t.state
      case Sending =>
        if now >= t.deadline then
          var m := AfterFailure(next, now, true);
          Step(m.t, q, Ok, m.trace)
        else Step(next, q, Ok, [])
      case WaitRetry =>
        if now < t.retryAt then Step(next, q, Ok, [])
        else if now > U64_MAX - ATTEMPT_TIMEOUT_MS then
          var m := Settled(next, TimedOut, true);
          Step(m.t, q, Ok, m.trace)
        else
          var m := Started(next, now, response);
          if m.None? then Step(t, q, Io, []) else Step(m.value.t, q, Ok, m.value.trace)
      case Idle =>
        var (after, _, e) := Taken(q, now);
        if e.None? then Step(next, after, Ok, [])
        else
          var m := Started(next.(entry := e.value, attempt := 0, lastOutcome := Undecided), now, response);
          if m.None? then Step(t, q, Io, []) else Step(m.value.t, after, Ok, m.value.trace)
  }

  function Completed(t: Transaction, id: u64, result: AttemptResult, now: u64): (Transaction, Status, seq<Event>) {
    if t.state != Sending || id != t.activeId || now < t.lastNow || result == Pending then (t, Invalid, [])
    else
      var next := t.(lastNow := now);
      var m := if now >= t.deadline then AfterFailure(next, now, true) else AfterResult(next, result, now);
      (m.t, Ok, m.trace)
  }

  // ---------------------------------------------------------------------------
  // The life of a message, told by the events alone.

  /** An event, the message it is about, and when it happened. */
  datatype Note = Note(event: Event, entry: Entry, at: u64)

  /** What may come next: a new message, the end of an attempt, or another attempt. */
  datatype Phase = Resting
                 | Trying(entry: Entry, attempt: nat, id: u64, since: u64)
                 | Holding(entry: Entry, attempt: nat, id: u64, since: u64)

  /** `lastId` is the largest completion id used so far. */
  datatype Reading = Reading(phase: Phase, lastId: u64)

  /** A message is attempted once, and again only after a failed attempt and a pause of
      100 ms, three times at the most; each attempt has an id above all ids before it; it
      ends by one success within 250 ms of an attempt, by a failure after the third, or by
      running out of time; and then the next message begins. */
  function Read(r: Reading, n: Note): Option<Reading> {
    var e := n.event;
    match r.phase
    case Resting =>
      if e.kind == Sent && e.attempt == 1 && e.id > r.lastId && !e.timedOut
      then Some(Reading(Trying(n.entry, 1, e.id, n.at), e.id)) else None
    case Trying(entry, attempt, id, since) =>
      if n.entry != entry || e.attempt != attempt || e.id != id || n.at < since then None
      else if e.timedOut && n.at < since + ATTEMPT_TIMEOUT_MS && n.at <= U64_MAX - RETRY_DELAY_MS then None
      else if || (e == Event(Done(Succeeded), attempt, id, false) && n.at < since + ATTEMPT_TIMEOUT_MS)
              || (e == Event(Done(Failed), attempt, id, false) && attempt == MAX_ATTEMPTS)
              || (&& e == Event(Done(TimedOut), attempt, id, true)
                  && (attempt == MAX_ATTEMPTS || n.at > U64_MAX - RETRY_DELAY_MS))
      then Some(Reading(Resting, r.lastId))
      else if e.kind == Retried && attempt < MAX_ATTEMPTS
      then Some(Reading(Holding(entry, attempt, id, n.at), r.lastId)) else None
    case Holding(entry, attempt, id, since) =>
      if n.entry != entry then None
      else if e.kind == Sent && e.attempt == attempt + 1 && e.id > r.lastId && !e.timedOut
              && n.at >= since + RETRY_DELAY_MS
      then Some(Reading(Trying(entry, attempt + 1, e.id, n.at), e.id))
      else if e == Event(Done(TimedOut), attempt, id, true) && n.at > U64_MAX - ATTEMPT_TIMEOUT_MS
      then Some(Reading(Resting, r.lastId)) else None
  }

  function ReadAll(r: Reading, log: seq<Note>): Option<Reading> {
    if log == [] then Some(r)
    else
      var before := ReadAll(r, log[..|log| - 1]);
      if before.None? then None else Read(before.value, log[|log| - 1])
  }

  lemma ReadMore(r: Reading, log: seq<Note>, n: Note)
    ensures ReadAll(r, log + [n]) == if ReadAll(r, log).None? then None else Read(ReadAll(r, log).value, n)
    ensures ReadAll(r, []) == Some(r)
  {
    hide Read;
    assert (log + [n])[..|log|] == log;
  }

  lemma {:induction false} ReadOn(r: Reading, a: seq<Note>, b: seq<Note>)
    requires ReadAll(r, a).Some?
    ensures ReadAll(r, a + b) == ReadAll(ReadAll(r, a).value, b)
  {
    hide Read, ReadAll;
    var s := ReadAll(r, a).value;
    if b == [] {
      assert a + b == a;
      ReadMore(s, [], Note(Event(Sent, 0, 0, false), Blank(), 0));
    } else {
      var n := |b| - 1;
      ReadOn(r, a, b[..n]);
      ReadMore(r, a + b[..n], b[n]);
      ReadMore(s, b[..n], b[n]);
      assert b == b[..n] + [b[n]] && a + b == (a + b[..n]) + [b[n]];
    }
  }

  lemma ReadTwo(r: Reading, a: Note, b: Note)
    ensures ReadAll(r, [a]) == Read(r, a)
    ensures ReadAll(r, [a, b]) == if Read(r, a).Some? then Read(Read(r, a).value, b) else None
  {
    assert [a, b][..1] == [a] && [a][..0] == [];
    assert ReadAll(r, [a]) == Read(r, a);
  }

  /** The transaction is where the events say. */
  ghost predicate Agrees(t: Transaction, r: Reading) {
    && (if t.nextId == 0 then r.lastId == U64_MAX else r.lastId < t.nextId)
    && match t.state
       case Idle => r.phase == Resting
       case Sending =>
         && 1 <= t.attempt <= MAX_ATTEMPTS && t.activeId == r.lastId
         && t.deadline >= ATTEMPT_TIMEOUT_MS && t.deadline - ATTEMPT_TIMEOUT_MS <= t.lastNow
         && r.phase == Trying(t.entry, t.attempt, t.activeId, t.deadline - ATTEMPT_TIMEOUT_MS)
       case WaitRetry =>
         && 1 <= t.attempt < MAX_ATTEMPTS && t.retryAt >= RETRY_DELAY_MS
         && r.phase == Holding(t.entry, t.attempt, t.activeId, t.retryAt - RETRY_DELAY_MS)
  }

  function Noted(trace: seq<Event>, entry: Entry, now: u64): (notes: seq<Note>)
    ensures |notes| == |trace|
  {
    seq(|trace|, i requires 0 <= i < |trace| => Note(trace[i], entry, now))
  }

  ghost predicate ReadsTo(r: Reading, notes: seq<Note>, t: Transaction) {
    ReadAll(r, notes).Some? && Agrees(t, ReadAll(r, notes).value)
  }

  lemma NotedOne(e: Event, entry: Entry, now: u64)
    ensures Noted([e], entry, now) == [Note(e, entry, now)]
  {
  }

  lemma FailureReads(t: Transaction, now: u64, timedOut: bool, r: Reading)
    requires t.state == Sending && Agrees(t, r) && t.lastNow == now
    requires timedOut ==> now >= t.deadline
    ensures var m := AfterFailure(t, now, timedOut);
            |m.trace| == 1 && ReadsTo(r, Noted(m.trace, t.entry, now), m.t)
  {
    var m := AfterFailure(t, now, timedOut);
    NotedOne(m.trace[0], t.entry, now);
    ReadTwo(r, Note(m.trace[0], t.entry, now), Note(m.trace[0], t.entry, now));
    hide ReadAll, Noted;
  }

  lemma ResultReads(t: Transaction, result: AttemptResult, now: u64, r: Reading)
    requires t.state == Sending && Agrees(t, r) && t.lastNow == now && now < t.deadline
    ensures var m := AfterResult(t, result, now);
            |m.trace| <= 1 && ReadsTo(r, Noted(m.trace, t.entry, now), m.t)
  {
    match result
    case Pending =>
    case Failure => FailureReads(t, now, false, r);
    case Success =>
      var m := AfterResult(t, result, now);
      NotedOne(m.trace[0], t.entry, now);
      ReadTwo(r, Note(m.trace[0], t.entry, now), Note(m.trace[0], t.entry, now));
      hide ReadAll, Noted;
  }

  lemma StartReads(t: Transaction, now: u64, response: AttemptResult, r: Reading)
    requires t.lastNow == now
    requires if t.nextId == 0 then r.lastId == U64_MAX else r.lastId < t.nextId
    requires if t.attempt == 0 then r.phase == Resting
             else && t.attempt < MAX_ATTEMPTS && r.phase.Holding? && r.phase.entry == t.entry
                  && r.phase.attempt == t.attempt && r.phase.since + RETRY_DELAY_MS <= now
    ensures var m := Started(t, now, response);
            m.Some? ==> 1 <= |m.value.trace| <= TRACE_CAPACITY && ReadsTo(r, Noted(m.value.trace, t.entry, now), m.value.t)
  {
    if Started(t, now, response).Some? {
      var sending := t.(attempt := t.attempt + 1, activeId := t.nextId, nextId := Increment(t.nextId),
                        state := Sending, retryAt := 0, deadline := now + ATTEMPT_TIMEOUT_MS);
      var sent := Event(Sent, sending.attempt, sending.activeId, false);
      var first := [Note(sent, t.entry, now)];
      var later := AfterResult(sending, response, now);
      ReadTwo(r, first[0], first[0]);
      var mid := Reading(Trying(t.entry, sending.attempt, sending.activeId, now), sending.activeId);
      assert ReadAll(r, first) == Some(mid) by { hide AfterResult; }
      ResultReads(sending, response, now, mid);
      hide AfterResult, Read, ReadAll, Agrees;
      ReadOn(r, first, Noted(later.trace, t.entry, now));
      assert Noted([sent] + later.trace, t.entry, now) == first + Noted(later.trace, t.entry, now);
    }
  }

  /** The message a step is about: the one in hand, or the one it takes. */
  function Subject(t: Transaction, q: Queue, now: u64): Entry {
    if t.state == Idle && Taken(q, now).2.Some? then Taken(q, now).2.value else t.entry
  }

  lemma StepReads(t: Transaction, q: Queue, now: u64, response: AttemptResult, r: Reading)
    requires Agrees(t, r)
    ensures var s := Stepped(t, q, now, response);
            |s.trace| <= TRACE_CAPACITY && ReadsTo(r, Noted(s.trace, Subject(t, q, now), now), s.t)
  {
    hide AfterFailure, Started, Taken, Read;
    var next := t.(lastNow := now);
    if Stepped(t, q, now, response).status != Invalid {
      match t.state
      case Sending =>
        if now >= t.deadline {
          FailureReads(next, now, true, r);
        }
      case WaitRetry =>
        if now >= t.retryAt {
          if now > U64_MAX - ATTEMPT_TIMEOUT_MS {
            GivingUpReads(next, now, r);
          } else {
            StartReads(next, now, response, r);
          }
        }
      case Idle =>
        var e := Taken(q, now).2;
        if e.Some? {
          StartReads(next.(entry := e.value, attempt := 0, lastOutcome := Undecided), now, response, r);
        }
    }
  }

  lemma GivingUpReads(t: Transaction, now: u64, r: Reading)
    requires t.state == WaitRetry && Agrees(t, r) && now > U64_MAX - ATTEMPT_TIMEOUT_MS
    ensures var m := Settled(t, TimedOut, true);
            |m.trace| == 1 && ReadsTo(r, Noted(m.trace, t.entry, now), m.t)
  {
    var m := Settled(t, TimedOut, true);
    NotedOne(m.trace[0], t.entry, now);
    ReadTwo(r, Note(m.trace[0], t.entry, now), Note(m.trace[0], t.entry, now));
    hide ReadAll, Noted;
  }

  lemma CompleteReads(t: Transaction, id: u64, result: AttemptResult, now: u64, r: Reading)
    requires Agrees(t, r)
    ensures var (after, status, trace) := Completed(t, id, result, now);
            |trace| <= TRACE_CAPACITY && ReadsTo(r, Noted(trace, t.entry, now), after)
  {
    hide AfterFailure, AfterResult, Read;
    if Completed(t, id, result, now).1 != Invalid {
      var next := t.(lastNow := now);
      if now >= t.deadline {
        FailureReads(next, now, true, r);
      } else {
        ResultReads(next, result, now, r);
      }
    }
  }

  // ---------------------------------------------------------------------------
  // Runs of the queue and the sender together.

  datatype Input = Ask(reply: Reply, now: u64)
                 | Tick(now: u64, response: AttemptResult)
                 | Report(id: u64, result: AttemptResult, now: u64)

  datatype World = World(t: Transaction, q: Queue, log: seq<Note>)

  function Next(w: World, i: Input): World {
    match i
    case Ask(reply, now) => w.(q := Enqueued(w.q, reply, now).0)
    case Tick(now, response) =>
      var s := Stepped(w.t, w.q, now, response);
      World(s.t, s.q, w.log + Noted(s.trace, Subject(w.t, w.q, now), now))
    case Report(id, result, now) =>
      var (after, _, trace) := Completed(w.t, id, result, now);
      World(after, w.q, w.log + Noted(trace, w.t.entry, now))
  }

  function Run(inputs: seq<Input>, start: u64): World {
    if inputs == [] then World(Initial(start), Queue([], start), [])
    else Next(Run(inputs[..|inputs| - 1], start), inputs[|inputs| - 1])
  }

  ghost predicate Told(w: World) {
    ReadsTo(Reading(Resting, 0), w.log, w.t)
  }

  lemma NextIsTold(w: World, i: Input)
    requires Told(w)
    ensures Told(Next(w, i))
  {
    var r := ReadAll(Reading(Resting, 0), w.log).value;
    hide ReadAll, Agrees, Stepped, Completed, Noted, Enqueued;
    match i
    case Ask(_, _) =>
    case Tick(now, response) =>
      StepReads(w.t, w.q, now, response, r);
      ReadOn(Reading(Resting, 0), w.log, Noted(Stepped(w.t, w.q, now, response).trace, Subject(w.t, w.q, now), now));
    case Report(id, result, now) =>
      CompleteReads(w.t, id, result, now, r);
      ReadOn(Reading(Resting, 0), w.log, Noted(Completed(w.t, id, result, now).2, w.t.entry, now));
  }

  /** On every run the events tell the life of one message after another. */
  lemma {:induction false} EveryRunIsTold(inputs: seq<Input>, start: u64)
    ensures Told(Run(inputs, start))
  {
    if inputs != [] {
      var n := |inputs| - 1;
      EveryRunIsTold(inputs[..n], start);
      NextIsTold(Run(inputs[..n], start), inputs[n]);
      hide Told;
    }
  }

  /** Completion ids are never reused, on any run. */
  lemma {:induction false} IdsRise(log: seq<Note>, i: nat, j: nat)
    requires ReadAll(Reading(Resting, 0), log).Some?
    requires i < j < |log| && log[i].event.kind == Sent && log[j].event.kind == Sent
    ensures 0 < log[i].event.id < log[j].event.id
  {
    IdIsLast(log, j, i);
    var before := log[..j];
    assert log[..j + 1][..j] == before;
    ReadPrefix(log, j + 1);
  }

  lemma {:induction false} ReadPrefix(log: seq<Note>, n: nat)
    requires n <= |log| && ReadAll(Reading(Resting, 0), log).Some?
    ensures ReadAll(Reading(Resting, 0), log[..n]).Some?
    decreases |log|
  {
    if n == |log| {
      assert log[..n] == log;
    } else {
      ReadPrefix(log[..|log| - 1], n);
      assert log[..|log| - 1][..n] == log[..n];
    }
  }

  /** The largest id of a prefix covers every attempt in it. */
  lemma {:induction false} IdIsLast(log: seq<Note>, n: nat, i: nat)
    requires i < n <= |log| && ReadAll(Reading(Resting, 0), log).Some? && log[i].event.kind == Sent
    ensures ReadAll(Reading(Resting, 0), log[..n]).Some?
    ensures 0 < log[i].event.id <= ReadAll(Reading(Resting, 0), log[..n]).value.lastId
  {
    ReadPrefix(log, n);
    assert log[..n][..n - 1] == log[..n - 1];
    if i < n - 1 {
      IdIsLast(log, n - 1, i);
    }
  }

  /** A message has at most three attempts, and after its outcome nothing more is heard of
      it: the next event opens another message. */
  lemma {:induction false} OutcomeIsFinal(log: seq<Note>, i: nat)
    requires ReadAll(Reading(Resting, 0), log).Some? && i < |log|
    ensures 1 <= log[i].event.attempt <= MAX_ATTEMPTS
    ensures log[i].event.kind.Done? && i + 1 < |log| ==> log[i + 1].event.kind == Sent && log[i + 1].event.attempt == 1
    ensures log[i].event.kind == Sent && log[i].event.attempt > 1 ==>
              i > 0 && log[i - 1].event.kind == Retried && log[i - 1].entry == log[i].entry
              && log[i - 1].event.attempt == log[i].event.attempt - 1
    ensures !log[i].event.kind.Sent? ==> i > 0 && log[i - 1].entry == log[i].entry
  {
    AttemptsAreFew(log, i);
    AttemptsAreFew(log, i + 1);
    assert log[..i + 1][..i] == log[..i];
    if i + 1 < |log| {
      ReadPrefix(log, i + 2);
      assert log[..i + 2][..i + 1] == log[..i + 1];
    }
    if i > 0 {
      assert log[..i][..i - 1] == log[..i - 1];
    }
  }

  lemma {:induction false} AttemptsAreFew(log: seq<Note>, n: nat)
    requires n <= |log| && ReadAll(Reading(Resting, 0), log).Some?
    ensures ReadAll(Reading(Resting, 0), log[..n]).Some?
    ensures var phase := ReadAll(Reading(Resting, 0), log[..n]).value.phase;
            (phase.Trying? ==> 1 <= phase.attempt <= MAX_ATTEMPTS) && (phase.Holding? ==> 1 <= phase.attempt < MAX_ATTEMPTS)
  {
    ReadPrefix(log, n);
    if n > 0 {
      AttemptsAreFew(log, n - 1);
      assert log[..n][..n - 1] == log[..n - 1];
    }
  }

  /** So on every run each attempt has an id above all earlier ones, no message is attempted
      a fourth time, and each has one outcome at most. */
  lemma AttemptsOnEveryRun(inputs: seq<Input>, start: u64, i: nat)
    requires i < |Run(inputs, start).log|
    ensures var log := Run(inputs, start).log;
            && 1 <= log[i].event.attempt <= MAX_ATTEMPTS
            && (log[i].event.kind.Done? && i + 1 < |log| ==>
                  log[i + 1].event.kind == Sent && log[i + 1].event.attempt == 1)
            && (forall j :: 0 <= j < i && log[j].event.kind == Sent && log[i].event.kind == Sent ==>
                  0 < log[j].event.id < log[i].event.id)
  {
    EveryRunIsTold(inputs, start);
    var log := Run(inputs, start).log;
    OutcomeIsFinal(log, i);
    forall j | 0 <= j < i && log[j].event.kind == Sent && log[i].event.kind == Sent
      ensures 0 < log[j].event.id < log[i].event.id
    {
      IdsRise(log, j, i);
    }
  }

  /** A report with another id, or for no attempt at all, changes nothing. */
  lemma StaleReportIsIgnored(w: World, id: u64, result: AttemptResult, now: u64)
    requires w.t.state != Sending || id != w.t.activeId
    ensures Next(w, Report(id, result, now)) == w
  {
    assert w.log + [] == w.log;
  }

  /** A reply leaves the queue only by running out of time or by being attempted: when no
      attempt can be made it stays. */
  lemma TakenIsTried(t: Transaction, q: Queue, now: u64, response: AttemptResult, e: Entry)
    requires e in q.entries && e.expires > now
    ensures var s := Stepped(t, q, now, response);
            e in s.q.entries || (s.trace != [] && s.trace[0].kind == Sent && s.trace[0].attempt == 1 && Subject(t, q, now) == e)
  {
    LiveIsFilter(q.entries, now, e);
    var live := Live(q.entries, now);
    hide Live, AfterResult;
    assert live == [live[0]] + live[1..];
  }

  // ---------------------------------------------------------------------------
  // The sender in place.

  class Trace {
    var events: array<Event>
    var count: nat

    ghost predicate Valid()
      reads this
    {
      events.Length == TRACE_CAPACITY && count <= TRACE_CAPACITY
    }

    ghost function Value(): seq<Event>
      requires Valid()
      reads this, events
    {
      events[..count]
    }

    constructor ()
      ensures Valid() && fresh(events) && Value() == []
    {
      events := new Event[TRACE_CAPACITY](_ => Event(Sent, 0, 0, false));
      count := 0;
    }

    method Reset()
      requires Valid()
      modifies this`count
      ensures Valid() && Value() == []
    {
      count := 0;
    }

    /** There is room for every event: no caller adds a third. */
    method Add(kind: Kind, attempt: nat, id: u64, timedOut: bool)
      requires Valid() && count < TRACE_CAPACITY
      modifies this`count, events
      ensures Valid() && Value() == old(Value()) + [Event(kind, attempt, id, timedOut)]
    {
      events[count] := Event(kind, attempt, id, timedOut);
      count := count + 1;
    }
  }

  class SendTransaction {
    /** The fields of the C struct. */
    var f: Transaction

    constructor (now: u64)
      ensures f == Initial(now)
    {
      f := Initial(now);
    }

    /** A struct assignment. */
    constructor CopyOf(t: SendTransaction)
      ensures f == t.f
    {
      f := t.f;
    }

    method Finish(outcome: Outcome)
      modifies this
      ensures f == Finished(old(f), outcome)
    {
      f := f.(state := Idle, lastOutcome := outcome);
      f := f.(deadline := 0, retryAt := 0, activeId := 0);
      f := f.(entry := Blank());
    }

    method FailedAttempt(now: u64, timedOut: bool, trace: Trace)
      requires trace.Valid() && trace.count < TRACE_CAPACITY
      modifies this, trace`count, trace.events
      ensures trace.Valid()
      ensures var m := AfterFailure(old(f), now, timedOut);
              f == m.t && trace.Value() == old(trace.Value()) + m.trace
    {
      if f.attempt < MAX_ATTEMPTS {
        f := f.(state := WaitRetry, deadline := 0);
        if now > U64_MAX - RETRY_DELAY_MS {
          trace.Add(Done(TimedOut), f.attempt, f.activeId, true);
          Finish(TimedOut);
          return;
        }
        f := f.(retryAt := now + RETRY_DELAY_MS);
        trace.Add(Retried, f.attempt, f.activeId, timedOut);
        return;
      }
      if timedOut {
        trace.Add(Done(TimedOut), f.attempt, f.activeId, true);
        Finish(TimedOut);
      } else {
        trace.Add(Done(Failed), f.attempt, f.activeId, false);
        Finish(Failed);
      }
    }

    method ApplyResult(result: AttemptResult, now: u64, trace: Trace)
      requires trace.Valid() && trace.count < TRACE_CAPACITY
      modifies this, trace`count, trace.events
      ensures trace.Valid()
      ensures var m := AfterResult(old(f), result, now);
              f == m.t && trace.Value() == old(trace.Value()) + m.trace
    {
      hide AfterFailure;
      if result == Success {
        trace.Add(Done(Succeeded), f.attempt, f.activeId, false);
        Finish(Succeeded);
      } else if result == Failure {
        FailedAttempt(now, false, trace);
      }
    }

    /** `response` is what the send callback answers. */
    method StartAttempt(now: u64, response: AttemptResult, trace: Trace) returns (status: Status)
      requires trace.Valid() && trace.Value() == []
      modifies this, trace`count, trace.events
      ensures trace.Valid()
      ensures var m := Started(old(f), now, response);
              if m.None? then status == Io && f == old(f) && trace.Value() == []
              else status == Ok && f == m.value.t && trace.Value() == m.value.trace
    {
      if f.nextId == 0 || now > U64_MAX - ATTEMPT_TIMEOUT_MS {
        return Io;
      }
      hide AfterResult;
      f := f.(attempt := f.attempt + 1, activeId := f.nextId);
      f := f.(nextId := if f.activeId == U64_MAX then 0 else f.activeId + 1);
      f := f.(state := Sending, retryAt := 0, deadline := now + ATTEMPT_TIMEOUT_MS);
      trace.Add(Sent, f.attempt, f.activeId, false);
      ApplyResult(response, now, trace);
      return Ok;
    }

    method Step(queue: ReplyQueue, now: u64, response: AttemptResult, trace: Trace) returns (status: Status)
      requires queue.Valid() && trace.Valid()
      modifies this, queue, trace`count, trace.events
      ensures queue.Valid() && trace.Valid()
      ensures f == Stepped(old(f), old(queue.Value()), now, response).t
      ensures queue.Value() == Stepped(old(f), old(queue.Value()), now, response).q
      ensures status == Stepped(old(f), old(queue.Value()), now, response).status
      ensures trace.Value() == Stepped(old(f), old(queue.Value()), now, response).trace
    {
      hide AfterFailure, Started, Taken, Finished;
      trace.Reset();
      if now < f.lastNow || now < queue.lastNow || (f.state == Idle && now > U64_MAX - ATTEMPT_TIMEOUT_MS) {
        return Invalid;
      }
      var next := new SendTransaction.CopyOf(this);
      next.f := next.f.(lastNow := now);
      if next.f.state == Sending {
        if now >= next.f.deadline {
          next.FailedAttempt(now, true, trace);
        }
        f := next.f;
        return Ok;
      }
      if next.f.state == WaitRetry {
        if now >= next.f.retryAt && now > U64_MAX - ATTEMPT_TIMEOUT_MS {
          trace.Add(Done(TimedOut), next.f.attempt, next.f.activeId, true);
          next.Finish(TimedOut);
          f := next.f;
          return Ok;
        }
        if now >= next.f.retryAt {
          status := next.StartAttempt(now, response, trace);
          if status != Ok {
            return Io;
          }
        }
        f := next.f;
        return Ok;
      }
      status := Fetch(next, queue, now, response, trace);
    }

    /** An idle sender takes the oldest reply and attempts it. */
    method Fetch(next: SendTransaction, queue: ReplyQueue, now: u64, response: AttemptResult, trace: Trace)
      returns (status: Status)
      requires queue.Valid() && trace.Valid() && trace.Value() == [] && next != this
      requires next.f.state == Idle && next.f.lastNow == now && queue.lastNow <= now
      modifies this, next, queue, trace`count, trace.events
      ensures queue.Valid() && trace.Valid()
      ensures var (after, _, e) := Taken(old(queue.Value()), now);
              if e.None? then status == Ok && f == old(next.f) && queue.Value() == after && trace.Value() == []
              else
                var m := Started(old(next.f).(entry := e.value, attempt := 0, lastOutcome := Undecided), now, response);
                if m.None? then status == Io && f == old(f) && queue.Value() == old(queue.Value()) && trace.Value() == []
                else status == Ok && f == m.value.t && queue.Value() == after && trace.Value() == m.value.trace
    {
      var rest := new ReplyQueue.CopyOf(queue);
      var taken, e := rest.Take(now);
      TakenStatus(queue.Value(), now);
      hide Started, Taken;
      if taken == Io {
        f := next.f;
        queue.Commit(rest);
        return Ok;
      }
      next.f := next.f.(entry := e.value, attempt := 0, lastOutcome := Undecided);
      status := next.StartAttempt(now, response, trace);
      if status != Ok {
        return Io;
      }
      f := next.f;
      queue.Commit(rest);
      return Ok;
    }

    method Complete(id: u64, result: AttemptResult, now: u64, trace: Trace) returns (status: Status)
      requires trace.Valid()
      modifies this, trace`count, trace.events
      ensures trace.Valid()
      ensures (f, status, trace.Value()) == Completed(old(f), id, result, now)
    {
      hide AfterFailure, AfterResult;
      trace.Reset();
      if f.state != Sending || id != f.activeId || now < f.lastNow || (result != Success && result != Failure) {
        return Invalid;
      }
      var next := new SendTransaction.CopyOf(this);
      next.f := next.f.(lastNow := now);
      if now >= next.f.deadline {
        next.FailedAttempt(now, true, trace);
      } else {
        next.ApplyResult(result, now, trace);
      }
      f := next.f;
      assert forall s: seq<Event> :: [] + s == s;
      return Ok;
    }
  }

  lemma TakenStatus(q: Queue, now: u64)
    requires q.lastNow <= now
    ensures var (_, status, e) := Taken(q, now);
            (status == Io <==> e.None?) && (status == Ok <==> e.Some?)
  {
  }

  // ---------------------------------------------------------------------------
  // What an attempt's answer decides.

  /** The message is off, to be tried again, or given up for good, as the answer to its
      attempt number `attempt` says. */
  predicate Decided(t: Transaction, attempt: nat, id: u64, result: AttemptResult, inTime: bool, now: u64,
                    after: Transaction, told: seq<Event>)
  {
    if inTime && result == Success then
      && after.state == Idle && after.lastOutcome == Succeeded && after.entry == Blank()
      && told == [Event(Done(Succeeded), attempt, id, false)]
    else if inTime && result == Pending then
      after.state == Sending && after.entry == t.entry && after.activeId == id && told == []
    else if attempt < 3 then
      && after.state == WaitRetry && after.retryAt == now + 100 && after.entry == t.entry && after.attempt == attempt
      && told == [Event(Retried, attempt, id, !inTime)]
    else
      && after.state == Idle && after.lastOutcome == (if inTime then Failed else TimedOut) && after.entry == Blank()
      && told == [Event(Done(after.lastOutcome), attempt, id, !inTime)]
  }

  /** A report on the attempt that is out decides it: success ends the message, anything else
      makes it wait for its next attempt or, after the third, ends it; and after 250 ms the
      report comes too late whatever it says. */
  lemma ReportsDecide(t: Transaction, id: u64, result: AttemptResult, now: u64)
    requires t.state == Sending && t.attempt <= 3 && t.lastNow <= now <= U64_MAX - 100
    ensures var (after, status, told) := Completed(t, id, result, now);
            if id == t.activeId && result != Pending then
              status == Ok && Decided(t, t.attempt, id, result, now < t.deadline, now, after, told)
            else status == Invalid && after == t && told == []
  {
  }

  /** With no report, the attempt fails when its 250 ms are over, and not before. */
  lemma SilenceDecides(t: Transaction, q: Queue, now: u64, response: AttemptResult)
    requires t.state == Sending && t.attempt <= 3 && t.lastNow <= now <= U64_MAX - 100 && q.lastNow <= now
    ensures var s := Stepped(t, q, now, response);
            && s.status == Ok && s.q == q
            && if now < t.deadline then s.t == t.(lastNow := now) && s.trace == []
               else Decided(t, t.attempt, t.activeId, Failure, false, now, s.t, s.trace)
  {
  }

  /** When its turn comes a message is attempted, and the callback's answer decides at once:
      the oldest reply that has not expired when nothing is in hand, the one in hand when its
      pause is over. */
  lemma TurnsAreTaken(t: Transaction, q: Queue, now: u64, response: AttemptResult)
    requires t.state != Sending && t.attempt < 3 && t.nextId != 0
    requires t.lastNow <= now <= U64_MAX - 250 && q.lastNow <= now
    ensures var s := Stepped(t, q, now, response);
            var (later, _, oldest) := Taken(q, now);
            && s.status == Ok
            && (if t.state == Idle then s.q == later else s.q == q)
            && if (t.state == Idle && oldest.None?) || (t.state == WaitRetry && now < t.retryAt) then
                 s.t == t.(lastNow := now) && s.trace == []
               else
                 var entry := if t.state == Idle then oldest.value else t.entry;
                 var attempt := if t.state == Idle then 1 else t.attempt + 1;
                 && s.trace != [] && s.trace[0] == Event(Sent, attempt, t.nextId, false)
                 && Decided(t.(entry := entry), attempt, t.nextId, response, true, now, s.t, s.trace[1..])
                 && (response == Pending ==> s.t.deadline == now + 250)
  {
    hide Taken;
  }
}
