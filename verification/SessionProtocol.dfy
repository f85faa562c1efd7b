/** The control plane's session table (sessions/state.go) and the worker's table
    (worker/state_machine.py), composed through a FIFO of spectate commands and a FIFO of worker
    events.

    The handlers that will connect the two tables are stubs, so the wiring follows the comments
    beside the event names: START and STOP send the matching command; StreamStarted, a fatal
    ErrorEvent and an IDLE status drive the session; anything without an edge is ignored, as
    Agent._advance ignores it. */
module SessionProtocol {
  import opened Wrappers

  datatype SessionState = OFF | STARTING | WATCHING | STOPPING
  datatype SessionEvent = START | STREAM_STARTED | STOP | FATAL_ERROR | WORKER_IDLE

  datatype WorkerState = WStopped | WStarting | WIdle | WSpectating | WStopping
  datatype WorkerEvent = StreamConnected | StartSpectate | StreamStarted | StopSpectate | FatalError | CleanupDone

  datatype Invalid<S, E> = Invalid(from: S, event: E)

  // ----- The two tables

  const TRANSITIONS: map<(SessionState, SessionEvent), SessionState> := map[
    (OFF, START) := STARTING,
    (STARTING, STREAM_STARTED) := WATCHING,
    (STARTING, STOP) := STOPPING,
    (STARTING, FATAL_ERROR) := STOPPING,
    (WATCHING, STOP) := STOPPING,
    (WATCHING, FATAL_ERROR) := STOPPING,
    (STOPPING, WORKER_IDLE) := OFF]

  const WORKER_TRANSITIONS: map<(WorkerState, WorkerEvent), WorkerState> := map[
    (WStopped, StreamConnected) := WIdle,
    (WIdle, StartSpectate) := WStarting,
    (WStarting, StreamStarted) := WSpectating,
    (WStarting, StopSpectate) := WStopping,
    (WStarting, FatalError) := WStopping,
    (WSpectating, StopSpectate) := WStopping,
    (WSpectating, FatalError) := WStopping,
    (WStopping, CleanupDone) := WIdle]

  function Next(cur: SessionState, ev: SessionEvent): Result<SessionState, Invalid<SessionState, SessionEvent>> {
    if (cur, ev) in TRANSITIONS then Ok(TRANSITIONS[(cur, ev)]) else Err(Invalid(cur, ev))
  }

  function NextWorker(cur: WorkerState, ev: WorkerEvent): Result<WorkerState, Invalid<WorkerState, WorkerEvent>> {
    if (cur, ev) in WORKER_TRANSITIONS then Ok(WORKER_TRANSITIONS[(cur, ev)]) else Err(Invalid(cur, ev))
  }

  // ----- The composed system

  datatype Command = CStart | CStop
  datatype Message = Status(state: WorkerState) | Started | Fatal

  datatype System = System(session: SessionState, commands: seq<Command>, worker: WorkerState, events: seq<Message>)

  /** Agent._advance: move along an edge and report the new state, or stay silent. */
  function Advance(w: WorkerState, ev: WorkerEvent): (WorkerState, seq<Message>) {
    match NextWorker(w, ev)
    case Ok(w') => (w', [Status(w')])
    case Err(_) => (w, [])
  }

  function CommandEvent(c: Command): WorkerEvent {
    if c.CStart? then StartSpectate else StopSpectate
  }

  function SessionEventOf(m: Message): Option<SessionEvent> {
    match m
    case Started => Some(STREAM_STARTED)
    case Fatal => Some(FATAL_ERROR)
    case Status(w) => if w == WIdle then Some(WORKER_IDLE) else None
  }

  function React(cur: SessionState, m: Message): SessionState {
    match SessionEventOf(m)
    case None => cur
    case Some(ev) =>
      match Next(cur, ev)
      case Ok(next) => next
      case Err(_) => cur
  }

  /** reportFirst says whether the pipeline reports before or after the status update. */
  datatype Step =
    | UserStart
    | UserStop
    | WorkerTakes
    | PipelineLive(reportFirst: bool)
    | PipelineFails(reportFirst: bool)
    | CleanedUp
    | SessionReads

  predicate Enabled(s: System, a: Step) {
    match a
    case UserStart => Next(s.session, START).Ok?
    case UserStop => Next(s.session, STOP).Ok?
    case WorkerTakes => s.commands != []
    case PipelineLive(_) => s.worker == WStarting
    case PipelineFails(_) => s.worker == WStarting || s.worker == WSpectating
    case CleanedUp => s.worker == WStopping
    case SessionReads => s.events != []
  }

  function Reported(s: System, ev: WorkerEvent, m: Message, reportFirst: bool): System {
    var (w', out) := Advance(s.worker, ev);
    s.(worker := w', events := s.events + (if reportFirst then [m] + out else out + [m]))
  }

  function Do(s: System, a: Step): System
    requires Enabled(s, a)
  {
    match a
    case UserStart => s.(session := Next(s.session, START).value, commands := s.commands + [CStart])
    case UserStop => s.(session := Next(s.session, STOP).value, commands := s.commands + [CStop])
    case WorkerTakes =>
      var (w', out) := Advance(s.worker, CommandEvent(s.commands[0]));
      s.(commands := s.commands[1..], worker := w', events := s.events + out)
    case PipelineLive(first) => Reported(s, StreamStarted, Started, first)
    case PipelineFails(first) => Reported(s, FatalError, Fatal, first)
    case CleanedUp =>
      var (w', out) := Advance(s.worker, CleanupDone);
      s.(worker := w', events := s.events + out)
    case SessionReads => s.(session := React(s.session, s.events[0]), events := s.events[1..])
  }

  ghost predicate Runs(s: System, steps: seq<Step>, t: System)
    decreases |steps|
  {
    if steps == [] then s == t
    else Enabled(s, steps[0]) && Runs(Do(s, steps[0]), steps[1..], t)
  }

  const QUIET := System(OFF, [], WIdle, [])

  ghost predicate Reachable(s: System) {
    exists steps :: Runs(QUIET, steps, s)
  }

  // ----- The invariant

  /** The messages the session does not ignore outright. */
  function Relevant(ms: seq<Message>): seq<Message>
    decreases |ms|
  {
    if ms == [] then []
    else (if SessionEventOf(ms[0]).Some? then [ms[0]] else []) + Relevant(ms[1..])
  }

  lemma {:induction false} RelevantAppend(a: seq<Message>, b: seq<Message>)
    ensures Relevant(a + b) == Relevant(a) + Relevant(b)
    decreases |a|
  {
    if a == [] {
      assert a + b == b;
    } else {
      RelevantAppend(a[1..], b);
      assert (a + b)[1..] == a[1..] + b;
    }
  }

  /** One round of reports still on its way: at most one of each kind, in this order. */
  function Round(started: bool, fatal: bool, idle: bool): seq<Message> {
    (if started then [Started] else []) + (if fatal then [Fatal] else []) + (if idle then [Status(WIdle)] else [])
  }

  lemma RoundGrows(started: bool, fatal: bool)
    ensures Round(false, false, false) + [Started] == Round(true, false, false)
    ensures Round(started, false, false) + [Fatal] == Round(started, true, false)
    ensures Round(started, fatal, false) + [Status(WIdle)] == Round(started, fatal, true)
  {
  }

  lemma RoundShrinks(started: bool, fatal: bool, idle: bool)
    requires Round(started, fatal, idle) != []
    ensures var r := Round(started, fatal, idle);
            if started then r[0] == Started && r[1..] == Round(false, fatal, idle)
            else if fatal then r[0] == Fatal && r[1..] == Round(false, false, idle)
            else r[0] == Status(WIdle) && r[1..] == []
  {
  }

  /** The round's Start is on its way and nothing of the round has been reported. */
  predicate StartQueued(s: System, tail: seq<Command>) {
    && (s.commands == [CStart] + tail || s.commands == [CStop, CStart] + tail)
    && s.worker == WIdle && Relevant(s.events) == []
  }

  predicate NoStartQueued(s: System) {
    s.commands == [] || s.commands == [CStop]
  }

  /** Reports of a round whose Start the worker has taken; fatal tells whether a fatal error has
      been reported and not read, started likewise. */
  predicate InRound(s: System, started: bool, fatal: bool) {
    && Relevant(s.events) == Round(started, fatal, s.worker == WIdle)
    && s.worker != WStopped
    && (s.worker == WStarting ==> !started && !fatal)
    && (s.worker == WSpectating ==> !fatal)
  }

  /** Nobody asked for a stop, so a worker that has left the round reported a fatal error. */
  predicate Unasked(s: System, started: bool) {
    && s.commands == []
    && (if s.worker == WStopping || s.worker == WIdle then InRound(s, started, true)
        else InRound(s, started, false))
  }

  predicate Inv(s: System) {
    match s.session
    case OFF => NoStartQueued(s) && s.worker == WIdle && Relevant(s.events) == []
    case STARTING =>
      || StartQueued(s, [])
      || (Unasked(s, true) && s.worker != WStarting)
      || (Unasked(s, false) && s.worker != WSpectating)
    case WATCHING => Unasked(s, false) && s.worker != WStarting
    case STOPPING =>
      || StartQueued(s, [CStop])
      || (NoStartQueued(s)
          && (s.worker == WStarting || s.worker == WSpectating ==> s.commands == [CStop])
          && exists started, fatal :: InRound(s, started, fatal))
  }

  lemma QuietInv()
    ensures Inv(QUIET)
  {
  }

  lemma CommandReports(s: System)
    requires Enabled(s, WorkerTakes)
    ensures Relevant(Do(s, WorkerTakes).events) == Relevant(s.events)
  {
    var (w', out) := Advance(s.worker, CommandEvent(s.commands[0]));
    RelevantAppend(s.events, out);
    assert out != [] ==> out[1..] == [];
  }

  lemma QueuedCommandKeepsInv(s: System, tail: seq<Command>)
    requires (tail == [] && s.session == STARTING) || (tail == [CStop] && s.session == STOPPING)
    requires StartQueued(s, tail)
    ensures s.commands[0] == CStart ==> s.worker == WIdle
    ensures Inv(Do(s, WorkerTakes))
  {
    var t := Do(s, WorkerTakes);
    CommandReports(s);
    if s.commands[0] == CStart {
      assert t.commands == tail && t.worker == WStarting;
      assert InRound(t, false, false);
    } else {
      assert t.commands == [CStart] + tail;
    }
  }

  lemma LateStopKeepsInv(s: System)
    requires Inv(s) && s.commands == [CStop] && (s.session == OFF || s.session == STOPPING)
    ensures Inv(Do(s, WorkerTakes))
  {
    var t := Do(s, WorkerTakes);
    CommandReports(s);
    assert t.commands == [];
    if s.session == STOPPING {
      assert s.commands != [CStart] + [CStop] && s.commands != [CStop, CStart] + [CStop];
      var started, fatal :| InRound(s, started, fatal);
      assert InRound(t, started, fatal);
    }
  }

  lemma CommandKeepsInv(s: System)
    requires Inv(s) && Enabled(s, WorkerTakes)
    ensures s.commands[0] == CStart ==> s.worker == WIdle
    ensures Inv(Do(s, WorkerTakes))
  {
    if s.session == STARTING {
      QueuedCommandKeepsInv(s, []);
    } else if s.session == STOPPING && StartQueued(s, [CStop]) {
      QueuedCommandKeepsInv(s, [CStop]);
    } else {
      LateStopKeepsInv(s);
    }
  }

  /** What a step of the worker on its own initiative reports, apart from statuses the session
      ignores. */
  function Report(a: Step): Message
    requires a.PipelineLive? || a.PipelineFails? || a.CleanedUp?
  {
    if a.PipelineLive? then Started else if a.PipelineFails? then Fatal else Status(WIdle)
  }

  lemma WorkerReports(s: System, a: Step)
    requires Enabled(s, a)
    requires a.PipelineLive? || a.PipelineFails? || a.CleanedUp?
    ensures Relevant(Do(s, a).events) == Relevant(s.events) + [Report(a)]
    ensures Do(s, a).worker == if a.PipelineLive? then WSpectating else if a.PipelineFails? then WStopping else WIdle
    ensures Do(s, a).commands == s.commands && Do(s, a).session == s.session
  {
    var m := Report(a);
    var t := Do(s, a);
    assert Relevant([m]) == [m] + Relevant([]) by { assert [m][1..] == []; }
    if a.CleanedUp? {
      assert t.events == s.events + [m];
      RelevantAppend(s.events, [m]);
    } else {
      var status := Status(t.worker);
      assert Relevant([status]) == [] by { assert [status][1..] == []; }
      RelevantAppend([m], [status]);
      RelevantAppend([status], [m]);
      assert t.events == s.events + ([m] + [status]) || t.events == s.events + ([status] + [m]);
      RelevantAppend(s.events, [m] + [status]);
      RelevantAppend(s.events, [status] + [m]);
    }
  }

  lemma RoundContinues(s: System, a: Step, started: bool, fatal: bool)
    requires Enabled(s, a) && InRound(s, started, fatal)
    requires a.PipelineLive? || a.PipelineFails? || a.CleanedUp?
    ensures InRound(Do(s, a), started || a.PipelineLive?, fatal || a.PipelineFails?)
  {
    WorkerReports(s, a);
    RoundGrows(started, fatal);
  }

  lemma WorkerKeepsInv(s: System, a: Step)
    requires Inv(s) && Enabled(s, a)
    requires a.PipelineLive? || a.PipelineFails? || a.CleanedUp?
    ensures Inv(Do(s, a))
  {
    WorkerReports(s, a);
    var out := s.worker == WStopping;
    match s.session {
      case OFF =>
      case STARTING =>
        if Unasked(s, true) && s.worker != WStarting {
          RoundContinues(s, a, true, out);
        } else {
          RoundContinues(s, a, false, out);
        }
      case WATCHING => RoundContinues(s, a, false, out);
      case STOPPING =>
        var started, fatal :| InRound(s, started, fatal);
        RoundContinues(s, a, started, fatal);
    }
  }

  lemma ReadShrinks(s: System)
    requires Enabled(s, SessionReads)
    ensures var t := Do(s, SessionReads);
            if SessionEventOf(s.events[0]).None? then Relevant(t.events) == Relevant(s.events) && t.session == s.session
            else Relevant(s.events) != [] && Relevant(s.events)[0] == s.events[0] && Relevant(s.events)[1..] == Relevant(t.events)
  {
  }

  /** Reading the next report of a round leaves the rest of the round. */
  lemma RoundRead(s: System, started: bool, fatal: bool)
    requires Enabled(s, SessionReads) && InRound(s, started, fatal) && SessionEventOf(s.events[0]).Some?
    ensures var t := Do(s, SessionReads);
            if started then s.events[0] == Started && InRound(t, false, fatal)
            else if fatal then s.events[0] == Fatal && InRound(t, false, false)
            else s.events[0] == Status(WIdle) && s.worker == WIdle && Relevant(t.events) == []
  {
    ReadShrinks(s);
    RoundShrinks(started, fatal, s.worker == WIdle);
  }

  lemma SilentReadKeepsInv(s: System)
    requires Inv(s) && Enabled(s, SessionReads) && SessionEventOf(s.events[0]).None?
    ensures Inv(Do(s, SessionReads))
  {
    var t := Do(s, SessionReads);
    ReadShrinks(s);
    if s.session == STOPPING && !StartQueued(s, [CStop]) {
      var started, fatal :| InRound(s, started, fatal);
      assert InRound(t, started, fatal);
    }
  }

  lemma StartingReads(s: System, started: bool)
    requires s.session == STARTING && Enabled(s, SessionReads) && SessionEventOf(s.events[0]).Some?
    requires Unasked(s, started) && s.worker != (if started then WStarting else WSpectating)
    ensures Inv(Do(s, SessionReads))
  {
    var out := s.worker == WStopping || s.worker == WIdle;
    RoundRead(s, started, out);
    if !started {
      assert InRound(Do(s, SessionReads), false, false);
    }
  }

  lemma WatchingReads(s: System)
    requires s.session == WATCHING && Inv(s) && Enabled(s, SessionReads) && SessionEventOf(s.events[0]).Some?
    ensures Inv(Do(s, SessionReads))
  {
    var out := s.worker == WStopping || s.worker == WIdle;
    RoundRead(s, false, out);
    assert InRound(Do(s, SessionReads), false, false);
  }

  lemma StoppingReadsOn(s: System, started: bool, fatal: bool)
    requires s.session == STOPPING && Enabled(s, SessionReads) && SessionEventOf(s.events[0]).Some?
    requires NoStartQueued(s) && InRound(s, started, fatal) && (started || fatal)
    requires s.worker == WStarting || s.worker == WSpectating ==> s.commands == [CStop]
    ensures Inv(Do(s, SessionReads))
  {
    var t := Do(s, SessionReads);
    RoundRead(s, started, fatal);
    assert t.session == STOPPING && t.commands == s.commands && t.worker == s.worker;
    assert InRound(t, false, started && fatal);
  }

  lemma StoppingReadsIdle(s: System)
    requires s.session == STOPPING && Enabled(s, SessionReads) && SessionEventOf(s.events[0]).Some?
    requires NoStartQueued(s) && InRound(s, false, false)
    ensures Inv(Do(s, SessionReads))
  {
    RoundRead(s, false, false);
  }

  lemma StoppingReads(s: System)
    requires s.session == STOPPING && Inv(s) && Enabled(s, SessionReads) && SessionEventOf(s.events[0]).Some?
    ensures Inv(Do(s, SessionReads))
  {
    ReadShrinks(s);
    var started, fatal :| InRound(s, started, fatal);
    if started || fatal {
      StoppingReadsOn(s, started, fatal);
    } else {
      StoppingReadsIdle(s);
    }
  }

  lemma ReadKeepsInv(s: System)
    requires Inv(s) && Enabled(s, SessionReads)
    ensures Inv(Do(s, SessionReads))
  {
    if SessionEventOf(s.events[0]).None? {
      SilentReadKeepsInv(s);
    } else {
      ReadShrinks(s);
      match s.session {
        case OFF => assert false;
        case STARTING => StartingReads(s, Unasked(s, true) && s.worker != WStarting);
        case WATCHING => WatchingReads(s);
        case STOPPING => StoppingReads(s);
      }
    }
  }

  lemma UserKeepsInv(s: System, a: Step)
    requires Inv(s) && Enabled(s, a)
    requires a.UserStart? || a.UserStop?
    ensures Inv(Do(s, a))
  {
    var t := Do(s, a);
    if a.UserStart? {
      assert s.commands == [] ==> t.commands == [CStart] + [];
      assert s.commands == [CStop] ==> t.commands == [CStop, CStart] + [];
    } else if StartQueued(s, []) {
      assert t.commands == [CStart] + [CStop] || t.commands == [CStop, CStart] + [CStop];
    } else {
      var out := s.worker == WStopping || s.worker == WIdle;
      if s.session == STARTING && Unasked(s, true) {
        assert InRound(t, true, out);
      } else {
        assert InRound(t, false, out);
      }
    }
  }

  lemma StepKeepsInv(s: System, a: Step)
    requires Inv(s) && Enabled(s, a)
    ensures Inv(Do(s, a))
  {
    match a {
      case WorkerTakes => CommandKeepsInv(s);
      case SessionReads => ReadKeepsInv(s);
      case UserStart => UserKeepsInv(s, a);
      case UserStop => UserKeepsInv(s, a);
      case PipelineLive(_) => WorkerKeepsInv(s, a);
      case PipelineFails(_) => WorkerKeepsInv(s, a);
      case CleanedUp => WorkerKeepsInv(s, a);
    }
  }

  lemma {:induction false} RunKeepsInv(s: System, steps: seq<Step>, t: System)
    requires Inv(s) && Runs(s, steps, t)
    ensures Inv(t)
    decreases |steps|
  {
    if steps != [] {
      StepKeepsInv(s, steps[0]);
      RunKeepsInv(Do(s, steps[0]), steps[1..], t);
    }
  }

  // ----- What holds in every reachable state

  /** The worker is about to take a Start in a state that has no edge for it. */
  predicate DropsStart(s: System) {
    s.commands != [] && s.commands[0] == CStart && NextWorker(s.worker, StartSpectate).Err?
  }

  /** Something is on its way that ends in the session reading IDLE. */
  predicate StopPending(s: System) {
    || CStart in s.commands
    || ((s.worker == WStarting || s.worker == WSpectating) && CStop in s.commands)
    || s.worker == WStopping
    || Status(WIdle) in s.events
  }

  lemma {:induction false} RelevantFromEvents(ms: seq<Message>, m: Message)
    requires m in Relevant(ms)
    ensures m in ms
    decreases |ms|
  {
    if ms != [] && !(SessionEventOf(ms[0]).Some? && m == ms[0]) {
      RelevantFromEvents(ms[1..], m);
    }
  }

  /** Safety over every run from a quiet start. */
  lemma ReachableSafe(s: System)
    requires Reachable(s)
    ensures !DropsStart(s)
    ensures s.session == OFF ==> s.worker == WIdle && CStart !in s.commands
    ensures s.session == WATCHING ==> s.worker == WSpectating || Fatal in s.events
    ensures s.session == STOPPING ==> StopPending(s)
    ensures |s.commands| <= 3
  {
    var steps :| Runs(QUIET, steps, s);
    QuietInv();
    RunKeepsInv(QUIET, steps, s);
    InvSafe(s);
  }

  lemma InvSafe(s: System)
    requires Inv(s)
    ensures !DropsStart(s)
    ensures s.session == OFF ==> s.worker == WIdle && CStart !in s.commands
    ensures s.session == WATCHING ==> s.worker == WSpectating || Fatal in s.events
    ensures s.session == STOPPING ==> StopPending(s)
    ensures |s.commands| <= 3
  {
    if s.commands != [] {
      CommandKeepsInv(s);
    }
    match s.session {
      case OFF =>
      case STARTING =>
      case WATCHING =>
        if s.worker != WSpectating {
          assert Fatal in Relevant(s.events);
          RelevantFromEvents(s.events, Fatal);
        }
      case STOPPING =>
        if StartQueued(s, [CStop]) {
          assert s.commands == [CStart, CStop] || s.commands == [CStop, CStart, CStop];
          assert s.commands[0] == CStart || s.commands[1] == CStart;
        } else if s.worker == WIdle {
          var started, fatal :| InRound(s, started, fatal);
          assert Round(started, fatal, true)[|Round(started, fatal, true)| - 1] == Status(WIdle);
          RelevantFromEvents(s.events, Status(WIdle));
        } else if s.worker != WStopping {
          assert s.commands[0] == CStop;
        }
    }
  }

  // ----- STOPPING always comes to an end

  function CommandWeight(cs: seq<Command>): nat
    decreases |cs|
  {
    if cs == [] then 0 else (if cs[0].CStart? then 10 else 1) + CommandWeight(cs[1..])
  }

  /** A bound on the steps the system can still take without the user. */
  function Work(s: System): nat {
    |s.events| + CommandWeight(s.commands) +
    match s.worker
    case WStopped => 0
    case WIdle => 0
    case WStopping => 2
    case WSpectating => 5
    case WStarting => 8
  }

  lemma ReportWork(s: System, ev: WorkerEvent, m: Message, first: bool)
    requires NextWorker(s.worker, ev).Ok?
    ensures |Reported(s, ev, m, first).events| == |s.events| + 2
  {
  }

  lemma CommandWork(s: System)
    requires s.commands != [] && s.worker != WStopped
    ensures Work(Do(s, WorkerTakes)) < Work(s)
  {
    var (w', out) := Advance(s.worker, CommandEvent(s.commands[0]));
    assert |out| <= 1;
  }

  lemma StoppingStep(s: System, a: Step)
    requires Inv(s) && s.session == STOPPING && Enabled(s, a)
    ensures Work(Do(s, a)) < Work(s)
    ensures Do(s, a).session == STOPPING || Do(s, a).session == OFF
  {
    match a {
      case UserStart => assert false;
      case UserStop => assert false;
      case WorkerTakes => CommandWork(s);
      case PipelineLive(first) => ReportWork(s, StreamStarted, Started, first);
      case PipelineFails(first) => ReportWork(s, FatalError, Fatal, first);
      case CleanedUp =>
      case SessionReads =>
    }
  }

  lemma StoppingNotStuck(s: System) returns (a: Step)
    requires Inv(s) && s.session == STOPPING
    ensures Enabled(s, a)
  {
    InvSafe(s);
    if s.commands != [] {
      a := WorkerTakes;
    } else if s.worker == WStopping {
      a := CleanedUp;
    } else {
      a := SessionReads;
    }
  }

  /** Some state along the run has the session OFF. */
  ghost predicate PassesOff(s: System, steps: seq<Step>)
    decreases |steps|
  {
    s.session == OFF || (steps != [] && Enabled(s, steps[0]) && PassesOff(Do(s, steps[0]), steps[1..]))
  }

  /** From STOPPING every run gets to OFF: it can always go on, and cannot go on for more than
      Work(s) steps without passing OFF. No fairness is needed. */
  lemma {:induction false} StoppingEnds(s: System, steps: seq<Step>, t: System) returns (next: Step)
    requires Reachable(s) && s.session == STOPPING
    requires Runs(s, steps, t)
    ensures PassesOff(s, steps) || (|steps| <= Work(s) && t.session == STOPPING && Enabled(t, next))
  {
    var before :| Runs(QUIET, before, s);
    QuietInv();
    RunKeepsInv(QUIET, before, s);
    next := StoppingRun(s, steps, t);
  }

  lemma {:induction false} StoppingRun(s: System, steps: seq<Step>, t: System) returns (next: Step)
    requires Inv(s) && s.session == STOPPING && Runs(s, steps, t)
    ensures PassesOff(s, steps) || (|steps| <= Work(s) && t.session == STOPPING && Enabled(t, next))
    decreases |steps|
  {
    if steps == [] {
      next := StoppingNotStuck(s);
    } else {
      StoppingStep(s, steps[0]);
      StepKeepsInv(s, steps[0]);
      next := UserStart;
      if Do(s, steps[0]).session == STOPPING {
        next := StoppingRun(Do(s, steps[0]), steps[1..], t);
      }
    }
  }

  // ----- The quiet start matters
  //
  // On connecting, the worker reports IDLE. A session that starts and stops before reading that
  // report takes it for the end of its own round.

  predicate OnlyStatus(ms: seq<Message>) {
    forall i :: 0 <= i < |ms| ==> ms[i].Status?
  }

  ghost predicate MayDropStart(s: System) {
    exists steps, t :: Runs(s, steps, t) && DropsStart(t)
  }

  lemma {:induction false} RunsAppend(s: System, a: seq<Step>, m: System, b: seq<Step>, t: System)
    requires Runs(s, a, m) && Runs(m, b, t)
    ensures Runs(s, a + b, t)
    decreases |a|
  {
    if a == [] {
      assert a + b == b;
    } else {
      RunsAppend(Do(s, a[0]), a[1..], m, b, t);
      assert (a + b)[0] == a[0] && (a + b)[1..] == a[1..] + b;
    }
  }

  lemma {:induction false} ReadsUpToIdle(s: System) returns (steps: seq<Step>, t: System)
    requires s.session == STOPPING && OnlyStatus(s.events) && Status(WIdle) in s.events
    ensures Runs(s, steps, t)
    ensures t.session == OFF && t.commands == s.commands && t.worker == s.worker
    decreases |s.events|
  {
    var s1 := Do(s, SessionReads);
    if s.events[0] == Status(WIdle) {
      assert Runs(s1, [], s1);
      steps, t := [SessionReads], s1;
      assert [SessionReads][1..] == [];
    } else {
      var rest;
      assert forall i :: 0 <= i < |s1.events| ==> s1.events[i] == s.events[i + 1];
      rest, t := ReadsUpToIdle(s1);
      steps := [SessionReads] + rest;
      assert steps[1..] == rest;
    }
  }

  lemma RunOne(s: System, a: Step)
    requires Enabled(s, a)
    ensures Runs(s, [a], Do(s, a))
  {
    assert [a][1..] == [];
  }

  /** Start, stop, read the stale report, start again; the worker is still stopping. */
  lemma StaleReportDropsStart(s: System)
    requires s.session == OFF && s.commands == [] && s.worker == WIdle
    requires OnlyStatus(s.events) && Status(WIdle) in s.events
    ensures MayDropStart(s)
  {
    var s1 := Do(s, UserStart);
    var s2 := Do(s1, UserStop);
    assert s2.commands == [CStart, CStop];
    RunOne(s, UserStart);
    RunOne(s1, UserStop);
    RunsAppend(s, [UserStart], s1, [UserStop], s2);
    var steps, s3 := ReadsUpToIdle(s2);
    RunsAppend(s, [UserStart] + [UserStop], s2, steps, s3);
    var tail, s6 := LateCommands(s3);
    RunsAppend(s, [UserStart] + [UserStop] + steps, s3, tail, s6);
  }

  lemma LateCommands(s: System) returns (steps: seq<Step>, t: System)
    requires s.session == OFF && s.commands == [CStart, CStop] && s.worker == WIdle
    ensures Runs(s, steps, t) && DropsStart(t)
  {
    var s1 := Do(s, UserStart);
    assert s1.commands == [CStart, CStop, CStart];
    var s2 := Do(s1, WorkerTakes);
    assert s2.commands == [CStop, CStart] && s2.worker == WStarting;
    t := Do(s2, WorkerTakes);
    assert t.commands == [CStart] && t.worker == WStopping;
    RunOne(s, UserStart);
    RunOne(s1, WorkerTakes);
    RunOne(s2, WorkerTakes);
    RunsAppend(s, [UserStart], s1, [WorkerTakes], s2);
    RunsAppend(s, [UserStart] + [WorkerTakes], s2, [WorkerTakes], t);
    steps := [UserStart] + [WorkerTakes] + [WorkerTakes];
  }

  /** A start in which the worker has reported nothing but states can come to drop a Start
      exactly when an IDLE report is still unread. */
  lemma StartDroppedExactly(reports: seq<Message>)
    requires OnlyStatus(reports)
    ensures MayDropStart(QUIET.(events := reports)) <==> Status(WIdle) in reports
  {
    var s := QUIET.(events := reports);
    if Status(WIdle) in reports {
      StaleReportDropsStart(s);
    } else {
      NoReportsRelevant(reports);
      forall steps, t | Runs(s, steps, t)
        ensures !DropsStart(t)
      {
        RunKeepsInv(s, steps, t);
        InvSafe(t);
      }
    }
  }

  lemma {:induction false} NoReportsRelevant(ms: seq<Message>)
    requires OnlyStatus(ms) && Status(WIdle) !in ms
    ensures Relevant(ms) == []
    decreases |ms|
  {
    if ms != [] {
      assert ms[0] in ms;
      NoReportsRelevant(ms[1..]);
    }
  }

  // ----- Every edge is there, and is taken

  /** The user can start exactly from OFF, and stop exactly while starting or watching; the command
      goes out, and the session waits for the worker. */
  lemma UserStepsExactly(s: System)
    ensures Enabled(s, UserStart) <==> s.session == OFF
    ensures Enabled(s, UserStop) <==> s.session == STARTING || s.session == WATCHING
    ensures s.session == OFF ==> Do(s, UserStart) == s.(session := STARTING, commands := s.commands + [CStart])
    ensures s.session == STARTING || s.session == WATCHING ==>
              Do(s, UserStop) == s.(session := STOPPING, commands := s.commands + [CStop])
  {
  }

  /** What the session makes of each report, in each state. */
  lemma ReportsMoveExactly(s: System)
    requires s.events != []
    ensures var (cur, next) := (s.session, Do(s, SessionReads).session);
            match s.events[0]
            case Started => next == if cur == STARTING then WATCHING else cur
            case Fatal => next == if cur == STARTING || cur == WATCHING then STOPPING else cur
            case Status(w) => next == if cur == STOPPING && w == WIdle then OFF else cur
  {
  }

  /** What a command makes of the worker, in each state; a change is reported, anything else is
      dropped without a word. */
  lemma CommandsMoveExactly(s: System)
    requires s.commands != []
    ensures var t := Do(s, WorkerTakes);
            && t.commands == s.commands[1..] && t.session == s.session
            && t.worker == (if s.commands[0] == CStart then (if s.worker == WIdle then WStarting else s.worker)
                            else if s.worker == WStarting || s.worker == WSpectating then WStopping else s.worker)
            && t.events == s.events + (if t.worker != s.worker then [Status(t.worker)] else [])
  {
  }

  lemma First(s: System, a: Step, steps: seq<Step>, t: System)
    requires Enabled(s, a) && Runs(Do(s, a), steps, t)
    ensures Runs(s, [a] + steps, t)
  {
    assert ([a] + steps)[1..] == steps;
  }

  const STARTED := System(STARTING, [], WStarting, [])
  const WATCHED := System(WATCHING, [], WSpectating, [])
  const STOPPED := System(STOPPING, [], WStopping, [])

  lemma Nothing(s: System)
    ensures Runs(s, [], s)
  {
  }

  lemma One(s: System, a: Step, u: System, steps: seq<Step>, t: System)
    requires Enabled(s, a) && Do(s, a) == u && Runs(u, steps, t)
    ensures Runs(s, [a] + steps, t)
  {
    hide Do, Enabled;
    First(s, a, steps, t);
  }

  lemma Starts()
    ensures Runs(QUIET, [UserStart, WorkerTakes, SessionReads], STARTED)
  {
    hide Runs;
    Nothing(STARTED);
    One(System(STARTING, [], WStarting, [Status(WStarting)]), SessionReads, STARTED, [], STARTED);
    assert [SessionReads] + [] == [SessionReads];
    One(System(STARTING, [CStart], WIdle, []), WorkerTakes, System(STARTING, [], WStarting, [Status(WStarting)]), [SessionReads], STARTED);
    assert [WorkerTakes] + [SessionReads] == [WorkerTakes, SessionReads];
    One(QUIET, UserStart, System(STARTING, [CStart], WIdle, []), [WorkerTakes, SessionReads], STARTED);
    assert [UserStart] + [WorkerTakes, SessionReads] == [UserStart, WorkerTakes, SessionReads];
  }

  lemma GoesLive()
    ensures Runs(STARTED, [PipelineLive(true), SessionReads, SessionReads], WATCHED)
  {
    hide Runs;
    Nothing(WATCHED);
    One(System(WATCHING, [], WSpectating, [Status(WSpectating)]), SessionReads, WATCHED, [], WATCHED);
    assert [SessionReads] + [] == [SessionReads];
    One(System(STARTING, [], WSpectating, [Started, Status(WSpectating)]), SessionReads,
        System(WATCHING, [], WSpectating, [Status(WSpectating)]), [SessionReads], WATCHED);
    assert [SessionReads] + [SessionReads] == [SessionReads, SessionReads];
    One(STARTED, PipelineLive(true), System(STARTING, [], WSpectating, [Started, Status(WSpectating)]), [SessionReads, SessionReads], WATCHED);
    assert [PipelineLive(true)] + [SessionReads, SessionReads] == [PipelineLive(true), SessionReads, SessionReads];
  }

  lemma StopsEarly()
    ensures Runs(STARTED, [UserStop, WorkerTakes, SessionReads], STOPPED)
  {
    hide Runs;
    Nothing(STOPPED);
    One(System(STOPPING, [], WStopping, [Status(WStopping)]), SessionReads, STOPPED, [], STOPPED);
    assert [SessionReads] + [] == [SessionReads];
    One(System(STOPPING, [CStop], WStarting, []), WorkerTakes, System(STOPPING, [], WStopping, [Status(WStopping)]), [SessionReads], STOPPED);
    assert [WorkerTakes] + [SessionReads] == [WorkerTakes, SessionReads];
    One(STARTED, UserStop, System(STOPPING, [CStop], WStarting, []), [WorkerTakes, SessionReads], STOPPED);
    assert [UserStop] + [WorkerTakes, SessionReads] == [UserStop, WorkerTakes, SessionReads];
  }

  lemma StopsLate()
    ensures Runs(WATCHED, [UserStop, WorkerTakes, SessionReads], STOPPED)
  {
    hide Runs;
    Nothing(STOPPED);
    One(System(STOPPING, [], WStopping, [Status(WStopping)]), SessionReads, STOPPED, [], STOPPED);
    assert [SessionReads] + [] == [SessionReads];
    One(System(STOPPING, [CStop], WSpectating, []), WorkerTakes, System(STOPPING, [], WStopping, [Status(WStopping)]), [SessionReads], STOPPED);
    assert [WorkerTakes] + [SessionReads] == [WorkerTakes, SessionReads];
    One(WATCHED, UserStop, System(STOPPING, [CStop], WSpectating, []), [WorkerTakes, SessionReads], STOPPED);
    assert [UserStop] + [WorkerTakes, SessionReads] == [UserStop, WorkerTakes, SessionReads];
  }

  lemma FailsEarly()
    ensures Runs(STARTED, [PipelineFails(false), SessionReads, SessionReads], STOPPED)
  {
    hide Runs;
    Nothing(STOPPED);
    One(System(STARTING, [], WStopping, [Fatal]), SessionReads, STOPPED, [], STOPPED);
    assert [SessionReads] + [] == [SessionReads];
    One(System(STARTING, [], WStopping, [Status(WStopping), Fatal]), SessionReads, System(STARTING, [], WStopping, [Fatal]), [SessionReads], STOPPED);
    assert [SessionReads] + [SessionReads] == [SessionReads, SessionReads];
    One(STARTED, PipelineFails(false), System(STARTING, [], WStopping, [Status(WStopping), Fatal]), [SessionReads, SessionReads], STOPPED);
    assert [PipelineFails(false)] + [SessionReads, SessionReads] == [PipelineFails(false), SessionReads, SessionReads];
  }

  lemma FailsLate()
    ensures Runs(WATCHED, [PipelineFails(false), SessionReads, SessionReads], STOPPED)
  {
    hide Runs;
    Nothing(STOPPED);
    One(System(WATCHING, [], WStopping, [Fatal]), SessionReads, STOPPED, [], STOPPED);
    assert [SessionReads] + [] == [SessionReads];
    One(System(WATCHING, [], WStopping, [Status(WStopping), Fatal]), SessionReads, System(WATCHING, [], WStopping, [Fatal]), [SessionReads], STOPPED);
    assert [SessionReads] + [SessionReads] == [SessionReads, SessionReads];
    One(WATCHED, PipelineFails(false), System(WATCHING, [], WStopping, [Status(WStopping), Fatal]), [SessionReads, SessionReads], STOPPED);
    assert [PipelineFails(false)] + [SessionReads, SessionReads] == [PipelineFails(false), SessionReads, SessionReads];
  }

  lemma CleansUp()
    ensures Runs(STOPPED, [CleanedUp, SessionReads], QUIET)
  {
    hide Runs;
    Nothing(QUIET);
    One(System(STOPPING, [], WIdle, [Status(WIdle)]), SessionReads, QUIET, [], QUIET);
    assert [SessionReads] + [] == [SessionReads];
    One(STOPPED, CleanedUp, System(STOPPING, [], WIdle, [Status(WIdle)]), [SessionReads], QUIET);
    assert [CleanedUp] + [SessionReads] == [CleanedUp, SessionReads];
  }

  /** A session comes to be watched and goes again: each of these runs is possible, and between
      them they take every edge of both tables but the worker's first. */
  lemma SessionsComeAndGo()
    ensures Runs(QUIET, [UserStart, WorkerTakes, SessionReads], STARTED)
    ensures Runs(STARTED, [PipelineLive(true), SessionReads, SessionReads], WATCHED)
    ensures Runs(STARTED, [UserStop, WorkerTakes, SessionReads], STOPPED)
    ensures Runs(WATCHED, [UserStop, WorkerTakes, SessionReads], STOPPED)
    ensures Runs(STARTED, [PipelineFails(false), SessionReads, SessionReads], STOPPED)
    ensures Runs(WATCHED, [PipelineFails(false), SessionReads, SessionReads], STOPPED)
    ensures Runs(STOPPED, [CleanedUp, SessionReads], QUIET)
  {
    hide Runs;
    Starts();
    GoesLive();
    StopsEarly();
    StopsLate();
    FailsEarly();
    FailsLate();
    CleansUp();
  }
}
