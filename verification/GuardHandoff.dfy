/** The Steam Guard code handoff (worker/steam_client.py, submit_guard_code and
    _wait_for_guard_code): one code field under a lock, and an event. Any number of link threads
    wait and any number of command threads submit; what is done under the lock, and each
    operation of the event, is one step.

    A link waits once at most, so a waiter is named by its link's request id. A submitted code
    carries the request id of its command, which submit_guard_code does not get to see. */
module GuardHandoff {
  import opened Wrappers
  import Messages

  type RequestId = Messages.RequestId

  // ----- The shared fields

  datatype Cell<T> = Cell(code: Option<T>, signalled: bool)

  function Write<T>(c: Cell<T>, code: T): Cell<T> {
    c.(code := Some(code))
  }

  function Signal<T>(c: Cell<T>): Cell<T> {
    c.(signalled := true)
  }

  function Take<T>(c: Cell<T>): Cell<T> {
    c.(code := None)
  }

  function Clear<T>(c: Cell<T>): Cell<T> {
    c.(signalled := false)
  }

  datatype WaitError = NotInTime | EmptyCode

  class SteamSession {
    var guardCode: Option<string>
    var guardEvent: bool

    ghost function Fields(): Cell<string>
      reads this
    {
      Cell(guardCode, guardEvent)
    }

    constructor ()
      ensures Fields() == Cell(None, false)
    {
      guardCode, guardEvent := None, false;
    }

    method SubmitGuardCode(code: string)
      modifies this
      ensures Fields() == Signal(Write(old(Fields()), code))
    {
      guardCode := Some(code);
      guardEvent := true;
    }

    /** With nothing else running: without an event the wait times out; with one the code is
        consumed and the next wait starts afresh, whatever the code was. */
    method WaitForGuardCode() returns (r: Result<string, WaitError>)
      modifies this
      ensures Fields() == if old(guardEvent) then Clear(Take(old(Fields()))) else old(Fields())
      ensures r == if !old(guardEvent) then Err(NotInTime)
                   else if old(guardCode).None? || old(guardCode).value == "" then Err(EmptyCode)
                   else Ok(old(guardCode).value)
    {
      if !guardEvent {
        return Err(NotInTime);
      }
      var code := guardCode;
      guardCode := None;
      guardEvent := false;
      if code.None? || code.value == "" {
        return Err(EmptyCode);
      }
      return Ok(code.value);
    }
  }

  // ----- All interleavings

  /** A submitted code, the request it was submitted for, and its place in the order of
      submissions. */
  datatype Submission = Submission(number: nat, request: RequestId, code: string)

  /** A waiter is woken by the event being set, or by having been notified when it was; it then
      takes whatever code is there, and clears the event. at is history: how many codes had been
      written when the waiter looked. */
  datatype Waiter =
    | Waiting(notified: bool)
    | Woken
    | Took(got: Option<Submission>, at: nat)
    | Returned(submission: Submission, at: nat)
    | Failed(error: WaitError)

  datatype Submitter = Wrote | Done

  type Waiters = map<RequestId, Waiter>

  /** written and overwritten are history: every submitted code in order, and the submissions
      replaced before anyone took them. */
  datatype System = System(
    cell: Cell<Submission>,
    waiters: Waiters,
    submitters: map<nat, Submitter>,
    written: seq<(RequestId, string)>,
    overwritten: set<nat>)

  const EMPTY := System(Cell(None, false), map[], map[], [], {})

  datatype Step =
    | Prompt(i: RequestId)
    | Wake(i: RequestId)
    | TimeOut(i: RequestId)
    | TakeCode(i: RequestId)
    | ClearEvent(i: RequestId)
    | WriteCode(j: nat, request: RequestId, code: string)
    | SetEvent(j: nat)

  predicate Enabled(s: System, a: Step) {
    match a
    case Prompt(i) => i !in s.waiters
    case Wake(i) => i in s.waiters && s.waiters[i].Waiting? && (s.cell.signalled || s.waiters[i].notified)
    case TimeOut(i) => i in s.waiters && s.waiters[i].Waiting?
    case TakeCode(i) => i in s.waiters && s.waiters[i].Woken?
    case ClearEvent(i) => i in s.waiters && s.waiters[i].Took?
    case WriteCode(j, _, _) => j !in s.submitters
    case SetEvent(j) => j in s.submitters && s.submitters[j].Wrote?
  }

  function Notified(w: Waiter): Waiter {
    if w.Waiting? then Waiting(true) else w
  }

  /** if not code: raise */
  function Finish(got: Option<Submission>, at: nat): Waiter {
    if got.None? || got.value.code == "" then Failed(EmptyCode) else Returned(got.value, at)
  }

  function Do(s: System, a: Step): System
    requires Enabled(s, a)
  {
    match a
    case Prompt(i) => s.(waiters := s.waiters[i := Waiting(false)])
    case Wake(i) => s.(waiters := s.waiters[i := Woken])
    case TimeOut(i) => s.(waiters := s.waiters[i := Failed(NotInTime)])
    case TakeCode(i) =>
      s.(cell := Take(s.cell), waiters := s.waiters[i := Took(s.cell.code, |s.written|)])
    case ClearEvent(i) =>
      s.(cell := Clear(s.cell), waiters := s.waiters[i := Finish(s.waiters[i].got, s.waiters[i].at)])
    case WriteCode(j, request, code) =>
      s.(cell := Write(s.cell, Submission(|s.written|, request, code)),
         submitters := s.submitters[j := Wrote],
         written := s.written + [(request, code)],
         overwritten := if s.cell.code.Some? then s.overwritten + {s.cell.code.value.number} else s.overwritten)
    case SetEvent(j) =>
      s.(cell := Signal(s.cell),
         submitters := s.submitters[j := Done],
         waiters := map i | i in s.waiters :: Notified(s.waiters[i]))
  }

  ghost predicate Runs(s: System, steps: seq<Step>, t: System)
    decreases |steps|
  {
    if steps == [] then s == t
    else Enabled(s, steps[0]) && Runs(Do(s, steps[0]), steps[1..], t)
  }

  ghost predicate Reachable(s: System) {
    exists steps :: Runs(EMPTY, steps, s)
  }

  // ----- Where each submission is

  /** What the waiter has taken, if it got something. */
  function TakenBy(w: Waiter): Option<Submission> {
    match w
    case Took(got, _) => got
    case Returned(submission, _) => Some(submission)
    case _ => None
  }

  function LookedAt(w: Waiter): nat {
    match w
    case Took(_, at) => at
    case Returned(_, at) => at
    case _ => 0
  }

  predicate Holds(waiters: Waiters, i: nat, k: nat) {
    i in waiters && TakenBy(waiters[i]).Some? && TakenBy(waiters[i]).value.number == k
  }

  predicate InField(s: System, k: nat) {
    s.cell.code.Some? && s.cell.code.value.number == k
  }

  predicate IsSubmission(written: seq<(RequestId, string)>, c: Submission) {
    c.number < |written| && written[c.number] == (c.request, c.code)
  }

  /** The waiter's code is the latest written when it looked. */
  predicate FoundLatest(written: seq<(RequestId, string)>, w: Waiter) {
    && (TakenBy(w).Some? ==> IsSubmission(written, TakenBy(w).value) && TakenBy(w).value.number + 1 == LookedAt(w))
    && (w.Returned? ==> w.submission.code != "")
  }

  ghost predicate Latest(s: System) {
    && (s.cell.code.Some? ==> IsSubmission(s.written, s.cell.code.value) && s.cell.code.value.number + 1 == |s.written|)
    && (forall i :: i in s.waiters ==> FoundLatest(s.written, s.waiters[i]))
    && (forall k :: k in s.overwritten ==> k + 1 < |s.written|)
  }

  /** No submission is in two places. */
  ghost predicate Once(s: System) {
    && (forall i, j, k: nat :: Holds(s.waiters, i, k) && Holds(s.waiters, j, k) ==> i == j)
    && (forall i, k: nat :: Holds(s.waiters, i, k) ==> !InField(s, k) && k !in s.overwritten)
    && (s.cell.code.Some? ==> s.cell.code.value.number !in s.overwritten)
  }

  predicate IsEmpty(written: seq<(RequestId, string)>, k: nat) {
    k < |written| && written[k].1 == ""
  }

  /** Every submission is in some place. */
  ghost predicate Accounted(s: System) {
    forall k: nat :: k < |s.written| ==>
      InField(s, k) || k in s.overwritten || IsEmpty(s.written, k) || exists i :: Holds(s.waiters, i, k)
  }

  ghost predicate Inv(s: System) {
    Latest(s) && Once(s) && Accounted(s)
  }

  lemma LatestKept(s: System, a: Step)
    requires Latest(s) && Enabled(s, a)
    ensures Latest(Do(s, a))
  {
    var t := Do(s, a);
    forall i | i in t.waiters
      ensures FoundLatest(t.written, t.waiters[i])
    {
      assert i in s.waiters ==> FoundLatest(s.written, s.waiters[i]);
    }
  }

  lemma OnceKept(s: System, a: Step)
    requires Latest(s) && Once(s) && Enabled(s, a)
    ensures Once(Do(s, a))
  {
    var t := Do(s, a);
    if a.TakeCode? {
      assert forall i, k: nat :: Holds(t.waiters, i, k) ==> Holds(s.waiters, i, k) || (i == a.i && InField(s, k));
    } else {
      assert forall i, k: nat :: Holds(t.waiters, i, k) ==> Holds(s.waiters, i, k);
      assert forall i, k: nat :: Holds(s.waiters, i, k) ==> i in s.waiters && FoundLatest(s.written, s.waiters[i]);
    }
  }

  lemma HoldsKept(s: System, a: Step, i: nat, k: nat)
    requires Enabled(s, a) && Latest(s) && Holds(s.waiters, i, k)
    ensures Holds(Do(s, a).waiters, i, k) || IsEmpty(Do(s, a).written, k)
  {
    assert FoundLatest(s.written, s.waiters[i]);
  }

  lemma AccountedKept(s: System, a: Step)
    requires Latest(s) && Accounted(s) && Enabled(s, a)
    ensures Accounted(Do(s, a))
  {
    var t := Do(s, a);
    forall k: nat | k < |t.written|
      ensures InField(t, k) || k in t.overwritten || IsEmpty(t.written, k) || exists i :: Holds(t.waiters, i, k)
    {
      if k < |s.written| {
        if IsEmpty(s.written, k) {
          assert IsEmpty(t.written, k);
        } else if i :| Holds(s.waiters, i, k) {
          HoldsKept(s, a, i, k);
        } else if a.TakeCode? && InField(s, k) {
          assert Holds(t.waiters, a.i, k);
        }
      }
    }
  }

  lemma {:induction false} RunKeepsInv(s: System, steps: seq<Step>, t: System)
    requires Inv(s) && Runs(s, steps, t)
    ensures Inv(t)
    decreases |steps|
  {
    if steps != [] {
      LatestKept(s, steps[0]);
      OnceKept(s, steps[0]);
      AccountedKept(s, steps[0]);
      hide Latest, Once, Accounted, Do, Enabled;
      RunKeepsInv(Do(s, steps[0]), steps[1..], t);
    }
  }

  lemma ReachableInv(s: System)
    requires Reachable(s)
    ensures Inv(s)
  {
    var steps :| Runs(EMPTY, steps, s);
    RunKeepsInv(EMPTY, steps, s);
  }

  /** However waits and submissions interleave, a submission is returned by at most one waiter,
      and what a waiter returns is a non-empty code that was the latest submitted when it
      looked. */
  lemma ReturnedOnceAndLatest(s: System, i: nat)
    requires Reachable(s) && i in s.waiters && s.waiters[i].Returned?
    ensures var c := s.waiters[i].submission;
            && IsSubmission(s.written, c) && c.code != "" && c.number + 1 == s.waiters[i].at
            && forall j :: j in s.waiters && j != i && s.waiters[j].Returned? ==> s.waiters[j].submission.number != c.number
  {
    ReachableInv(s);
    assert FoundLatest(s.written, s.waiters[i]);
    forall j | j in s.waiters && s.waiters[j].Returned?
      ensures Holds(s.waiters, j, s.waiters[j].submission.number)
    {
    }
    hide Accounted, Latest;
  }

  /** Nothing vanishes: a non-empty submission is in the field, or was replaced by a later one
      before anyone took it, or is with exactly one waiter. */
  lemma SubmissionsConserved(s: System, k: nat)
    requires Reachable(s) && k < |s.written| && s.written[k].1 != ""
    ensures InField(s, k) || k in s.overwritten || exists i :: Holds(s.waiters, i, k)
    ensures forall i, j :: Holds(s.waiters, i, k) && Holds(s.waiters, j, k) ==> i == j
    ensures InField(s, k) ==> k !in s.overwritten && forall i :: !Holds(s.waiters, i, k)
    ensures k in s.overwritten ==> k + 1 < |s.written| && forall i :: !Holds(s.waiters, i, k)
  {
    ReachableInv(s);
  }

  // ----- One prompt, one code

  /** Nobody is waiting or submitting, and no code or event is left over. */
  ghost predicate Clean(s: System) {
    && s.cell == Cell(None, false)
    && (forall i :: i in s.waiters ==> s.waiters[i].Returned? || s.waiters[i].Failed?)
    && (forall j :: j in s.submitters ==> s.submitters[j].Done?)
  }

  /** In the round that waiter i opens from s, submitter j submits one code, once, and the wait
      does not time out. */
  predicate RoundStep(a: Step, i: nat, j: nat, code: string) {
    a == WriteCode(j, i, code) || a == SetEvent(j) || a == Wake(i) || a == TakeCode(i) || a == ClearEvent(i)
  }

  ghost predicate Round(s: System, steps: seq<Step>, t: System, i: nat, j: nat, code: string)
    requires Enabled(s, Prompt(i))
  {
    && (forall a :: a in steps ==> RoundStep(a, i, j, code))
    && Runs(Do(s, Prompt(i)), steps, t)
  }

  /** The six places a round can be in, in order: nothing submitted, written, signalled, woken,
      taken, over. */
  function RoundState(s: System, i: nat, j: nat, code: string, place: nat): System {
    var c := Submission(|s.written|, i, code);
    var submitted := s.(written := s.written + [(i, code)], submitters := s.submitters[j := Done]);
    match place
    case 0 => s.(waiters := s.waiters[i := Waiting(false)])
    case 1 => submitted.(cell := Cell(Some(c), false), submitters := s.submitters[j := Wrote], waiters := s.waiters[i := Waiting(false)])
    case 2 => submitted.(cell := Cell(Some(c), true), waiters := s.waiters[i := Waiting(true)])
    case 3 => submitted.(cell := Cell(Some(c), true), waiters := s.waiters[i := Woken])
    case 4 => submitted.(cell := Cell(None, true), waiters := s.waiters[i := Took(Some(c), |s.written| + 1)])
    case _ => submitted.(waiters := s.waiters[i := Finish(Some(c), |s.written| + 1)])
  }

  function NextInRound(i: nat, j: nat, code: string, place: nat): Step {
    match place
    case 0 => WriteCode(j, i, code)
    case 1 => SetEvent(j)
    case 2 => Wake(i)
    case 3 => TakeCode(i)
    case _ => ClearEvent(i)
  }

  lemma NotifiedOnlyWaiter(s: System, i: nat)
    requires Clean(s) && i !in s.waiters
    ensures var w := s.waiters[i := Waiting(false)];
            (map k | k in w :: Notified(w[k])) == s.waiters[i := Waiting(true)]
  {
    var w := s.waiters[i := Waiting(false)];
    forall k | k in s.waiters
      ensures Notified(s.waiters[k]) == s.waiters[k]
    {
    }
  }

  /** At every place of the round exactly one of its steps can happen, and it leads to the next
      place; after the last none can. */
  lemma RoundAdvances(s: System, i: nat, j: nat, code: string, place: nat, a: Step)
    requires Clean(s) && i !in s.waiters && j !in s.submitters && place <= 5 && RoundStep(a, i, j, code)
    ensures Enabled(RoundState(s, i, j, code, place), a) <==> place < 5 && a == NextInRound(i, j, code, place)
    ensures place < 5 && a == NextInRound(i, j, code, place) ==>
              Do(RoundState(s, i, j, code, place), a) == RoundState(s, i, j, code, place + 1)
  {
    NotifiedOnlyWaiter(s, i);
    hide Clean, Finish;
    var t := RoundState(s, i, j, code, place);
    match place {
      case 0 =>
      case 1 => assert t.submitters[j := Done] == s.submitters[j := Done];
      case 2 => assert t.waiters[i := Woken] == s.waiters[i := Woken];
      case 3 =>
        var took := Took(Some(Submission(|s.written|, i, code)), |s.written| + 1);
        assert t.waiters[i := took] == s.waiters[i := took];
      case 4 =>
        var over := Finish(Some(Submission(|s.written|, i, code)), |s.written| + 1);
        assert t.waiters[i := over] == s.waiters[i := over];
      case _ =>
    }
  }

  lemma {:induction false} RoundRun(s: System, steps: seq<Step>, t: System, i: nat, j: nat, code: string, place: nat)
    requires Clean(s) && i !in s.waiters && j !in s.submitters && place <= 5
    requires forall a :: a in steps ==> RoundStep(a, i, j, code)
    requires Runs(RoundState(s, i, j, code, place), steps, t)
    ensures place + |steps| <= 5 && t == RoundState(s, i, j, code, place + |steps|)
    decreases |steps|
  {
    hide Clean, RoundState, RoundStep, Do, Enabled;
    if steps != [] {
      RoundAdvances(s, i, j, code, place, steps[0]);
      RoundRun(s, steps[1..], t, i, j, code, place + 1);
    }
  }

  lemma RoundOver(s: System, i: nat, j: nat, code: string)
    requires Clean(s) && i !in s.waiters && j !in s.submitters
    ensures var t := RoundState(s, i, j, code, 5);
            Clean(t) && t.waiters[i] == if code == "" then Failed(EmptyCode) else Returned(Submission(|s.written|, i, code), |s.written| + 1)
  {
  }

  lemma RoundGoesOn(s: System, i: nat, j: nat, code: string, place: nat)
    requires Clean(s) && i !in s.waiters && j !in s.submitters && place < 5
    ensures Enabled(RoundState(s, i, j, code, place), NextInRound(i, j, code, place))
    ensures var w := RoundState(s, i, j, code, place).waiters[i]; !w.Returned? && !w.Failed?
  {
    RoundAdvances(s, i, j, code, place, NextInRound(i, j, code, place));
    hide Clean, Enabled;
  }

  /** A prompt answered by one submission before its timeout: the round ends after exactly five
      steps, never gets stuck before, and then the sole waiter has returned exactly that code (or
      refused it for being empty) and the next prompt starts clean again. */
  lemma SoleWaiterReturnsTheCode(s: System, steps: seq<Step>, t: System, i: nat, j: nat, code: string)
    requires Clean(s) && Enabled(s, Prompt(i)) && Enabled(s, WriteCode(j, i, code)) && Round(s, steps, t, i, j, code)
    ensures i in t.waiters && |steps| <= 5
    ensures t.waiters[i].Returned? || t.waiters[i].Failed? <==> |steps| == 5
    ensures |steps| == 5 ==>
              && t.waiters[i] == (if code == "" then Failed(EmptyCode) else Returned(Submission(|s.written|, i, code), |s.written| + 1))
              && Clean(t) && t.written == s.written + [(i, code)]
    ensures |steps| < 5 ==> Enabled(t, NextInRound(i, j, code, |steps|))
  {
    RoundRun(s, steps, t, i, j, code, 0);
    RoundOver(s, i, j, code);
    if |steps| < 5 {
      RoundGoesOn(s, i, j, code, |steps|);
    }
    hide Clean, Round, Enabled, NextInRound;
  }

  // ----- A wakeup that is lost

  predicate Ready(w: Waiter) {
    w.Woken? || (w.Waiting? && w.notified)
  }

  /** Some waiter other than i will still look, or some submitter will still set the event. */
  ghost predicate SomeoneComes(s: System, except: Option<nat>) {
    || (exists j :: j in s.submitters && s.submitters[j].Wrote?)
    || (exists k :: k in s.waiters && Some(k) != except && Ready(s.waiters[k]))
  }

  /** A submitted code lies in the field, and neither the event nor anybody already on the way
      will make a waiter look. */
  ghost predicate Lost(s: System) {
    s.cell.code.Some? && !s.cell.signalled && !SomeoneComes(s, None)
  }

  lemma ComersAfterWaiterStep(s: System, a: Step)
    requires Enabled(s, a) && (a.ClearEvent? || a.TimeOut?)
    ensures SomeoneComes(Do(s, a), None) <==> SomeoneComes(s, Some(a.i))
  {
    var t := Do(s, a);
    if k :| k in t.waiters && Ready(t.waiters[k]) {
      assert k in s.waiters && k != a.i && Ready(s.waiters[k]);
    }
    if k :| k in s.waiters && k != a.i && Ready(s.waiters[k]) {
      assert k in t.waiters && Ready(t.waiters[k]);
    }
  }

  lemma ComersKept(s: System, a: Step)
    requires Enabled(s, a) && !a.ClearEvent? && !a.TimeOut? && !a.TakeCode? && !a.SetEvent?
    ensures SomeoneComes(s, None) ==> SomeoneComes(Do(s, a), None)
    ensures a.WriteCode? || a.Wake? ==> SomeoneComes(Do(s, a), None)
  {
    var t := Do(s, a);
    if a.WriteCode? {
      assert t.submitters[a.j].Wrote?;
    } else if a.Wake? {
      assert Ready(t.waiters[a.i]);
    } else if SomeoneComes(s, None) {
      if k :| k in s.waiters && Ready(s.waiters[k]) {
        assert k in t.waiters && Ready(t.waiters[k]);
      } else {
        assert t.submitters == s.submitters;
      }
    }
  }

  /** The wakeup of a submission is lost in exactly two ways, both with nobody else on the way:
      a waiter clears the event although a code was submitted after it took its own, or the one
      waiter notified of the code times out in that moment. */
  lemma LosesExactly(s: System, a: Step)
    requires Enabled(s, a) && !Lost(s)
    ensures Lost(Do(s, a)) <==>
              && s.cell.code.Some?
              && (a.ClearEvent? || (a.TimeOut? && !s.cell.signalled))
              && !SomeoneComes(s, Some(a.i))
  {
    if a.ClearEvent? || a.TimeOut? {
      ComersAfterWaiterStep(s, a);
      hide SomeoneComes;
    } else if !a.TakeCode? && !a.SetEvent? {
      ComersKept(s, a);
      hide SomeoneComes;
    }
  }

  /** A lost code stays lost until another is submitted: until then every wait can only time
      out. */
  lemma LostStays(s: System, a: Step)
    requires Lost(s) && Enabled(s, a) && !a.WriteCode?
    ensures Lost(Do(s, a)) && !a.Wake? && !a.TakeCode? && !a.SetEvent?
  {
    if a.Wake? || a.TakeCode? {
      assert Ready(s.waiters[a.i]);
    } else if !a.SetEvent? {
      var t := Do(s, a);
      forall k | k in t.waiters
        ensures !Ready(t.waiters[k])
      {
        assert k in s.waiters ==> !Ready(s.waiters[k]);
      }
    }
  }

  lemma {:induction false} RunsSnoc(s: System, steps: seq<Step>, t: System, a: Step)
    requires Runs(s, steps, t) && Enabled(t, a)
    ensures Runs(s, steps + [a], Do(t, a))
    decreases |steps|
  {
    hide Do, Enabled;
    if steps == [] {
      assert ([] + [a])[1..] == [] && [] + [a] == [a];
    } else {
      RunsSnoc(Do(s, steps[0]), steps[1..], t, a);
      assert (steps + [a])[1..] == steps[1..] + [a];
    }
  }

  lemma EmptyReachable()
    ensures Reachable(EMPTY)
  {
    assert Runs(EMPTY, [], EMPTY);
  }

  lemma ReachableStep(s: System, a: Step)
    requires Reachable(s) && Enabled(s, a)
    ensures Reachable(Do(s, a))
  {
    hide Do, Enabled;
    var steps :| Runs(EMPTY, steps, s);
    RunsSnoc(EMPTY, steps, s, a);
  }

  lemma Then(steps: seq<Step>, s: System, a: Step) returns (longer: seq<Step>, t: System)
    requires Runs(EMPTY, steps, s) && Enabled(s, a)
    ensures Runs(EMPTY, longer, t) && t == Do(s, a)
  {
    longer, t := steps + [a], Do(s, a);
    RunsSnoc(EMPTY, steps, s, a);
  }

  lemma FirstCodeSubmitted() returns (steps: seq<Step>, s: System)
    ensures Runs(EMPTY, steps, s)
    ensures s == System(Cell(Some(Submission(0, 0, "a")), true), map[0 := Waiting(true)], map[0 := Done], [(0, "a")], {})
  {
    assert Runs(EMPTY, [], EMPTY);
    hide Runs;
    steps, s := Then([], EMPTY, Prompt(0));
    steps, s := Then(steps, s, WriteCode(0, 0, "a"));
    steps, s := Then(steps, s, SetEvent(0));
  }

  /** A waiter that has taken the first code and not yet cleared the event. */
  lemma FirstCodeTaken() returns (steps: seq<Step>, s: System)
    ensures Runs(EMPTY, steps, s)
    ensures s == System(Cell(None, true), map[0 := Took(Some(Submission(0, 0, "a")), 1)], map[0 := Done], [(0, "a")], {})
  {
    hide Runs;
    steps, s := FirstCodeSubmitted();
    steps, s := Then(steps, s, Wake(0));
    steps, s := Then(steps, s, TakeCode(0));
  }

  /** It does happen: a second code submitted between the first waiter's take and its clear, and
      the waiter of the next prompt is left to time out. */
  lemma LostWakeup() returns (s: System)
    ensures Reachable(s) && Lost(s)
    ensures 0 in s.waiters && 1 in s.waiters && s.waiters[1].Waiting? && !Enabled(s, Wake(1))
    ensures s.cell.code == Some(Submission(1, 1, "b")) && s.waiters[0] == Returned(Submission(0, 0, "a"), 1)
  {
    hide Runs;
    var steps;
    steps, s := FirstCodeTaken();
    steps, s := Then(steps, s, WriteCode(1, 1, "b"));
    steps, s := Then(steps, s, SetEvent(1));
    assert s == System(Cell(Some(Submission(1, 1, "b")), true), map[0 := Took(Some(Submission(0, 0, "a")), 1)],
                       map[0 := Done, 1 := Done], [(0, "a"), (1, "b")], {});
    steps, s := Then(steps, s, ClearEvent(0));
    steps, s := Then(steps, s, Prompt(1));
  }

  // ----- How a run loses a code

  lemma {:induction false} RunsFront(s: System, steps: seq<Step>, t: System) returns (u: System)
    requires Runs(s, steps, t) && steps != []
    ensures var n := |steps| - 1; Runs(s, steps[..n], u) && Enabled(u, steps[n]) && t == Do(u, steps[n])
    decreases |steps|
  {
    hide Do, Enabled;
    var n := |steps| - 1;
    if n == 0 {
      u := s;
      assert steps[1..] == [] && steps[..0] == [];
    } else {
      u := RunsFront(Do(s, steps[0]), steps[1..], t);
      assert steps[1..][..n - 1] == steps[..n][1..];
    }
  }

  predicate NobodySetting(s: System) {
    forall j :: j in s.submitters ==> s.submitters[j].Done?
  }

  /** Step b wrote what is in the field; nobody has looked or written since. */
  ghost predicate WroteField(steps: seq<Step>, s: System, b: nat) {
    && b < |steps| && steps[b].WriteCode? && steps[b].j in s.submitters
    && s.cell.code.Some? && s.cell.code.value.request == steps[b].request && s.cell.code.value.code == steps[b].code
    && forall m :: b < m < |steps| ==> !steps[m].WriteCode? && !steps[m].TakeCode?
  }

  lemma RunsNowhere(s: System, t: System)
    requires Runs(s, [], t)
    ensures s == t
  {
  }

  lemma RunsHead(s: System, steps: seq<Step>, t: System)
    requires Runs(s, steps, t) && steps != []
    ensures Enabled(s, steps[0]) && Runs(Do(s, steps[0]), steps[1..], t)
    ensures |steps| == 1 ==> steps[1..] == []
  {
    hide Do, Enabled;
  }

  lemma {:induction false} FieldStory(steps: seq<Step>, s: System) returns (b: nat)
    requires Runs(EMPTY, steps, s) && s.cell.code.Some?
    ensures WroteField(steps, s, b)
    ensures s.submitters[steps[b].j].Done? ==> exists q :: b < q < |steps| && steps[q] == SetEvent(steps[b].j)
    decreases |steps|
  {
    hide Runs;
    if steps == [] {
      RunsNowhere(EMPTY, s);
      assert false;
    } else {
      var n := |steps| - 1;
      var front, a := steps[..n], steps[n];
      var u := RunsFront(EMPTY, steps, s);
      if a.WriteCode? {
        b := n;
      } else {
        b := FieldStory(front, u);
        assert front[b] == steps[b];
        if s.submitters[steps[b].j].Done? {
          if a == SetEvent(steps[b].j) {
            assert steps[n] == SetEvent(steps[b].j);
          } else {
            var q :| b < q < |front| && front[q] == SetEvent(front[b].j);
            assert steps[q] == SetEvent(steps[b].j);
          }
        }
      }
    }
  }

  lemma {:induction false} TookStory(steps: seq<Step>, s: System, i: RequestId) returns (a: nat)
    requires Runs(EMPTY, steps, s) && i in s.waiters && s.waiters[i].Took?
    ensures a < |steps| && steps[a] == TakeCode(i)
    decreases |steps|
  {
    if steps == [] {
      assert false;
    } else {
      var n := |steps| - 1;
      var u := RunsFront(EMPTY, steps, s);
      if steps[n] == TakeCode(i) {
        a := n;
      } else {
        a := TookStory(steps[..n], u, i);
      }
    }
  }

  /** A waiter's clear came after a whole submission that came after its take. */
  predicate Sandwiched(steps: seq<Step>, i: RequestId, a: nat, b: nat, q: nat, m: nat) {
    && a < b < q < m < |steps|
    && steps[a] == TakeCode(i) && steps[b].WriteCode? && steps[q] == SetEvent(steps[b].j) && steps[m] == ClearEvent(i)
  }

  lemma SandwichAtClear(steps: seq<Step>, u: System, s: System) returns (a: nat, b: nat, q: nat)
    requires steps != [] && steps[|steps| - 1].ClearEvent?
    requires Runs(EMPTY, steps[..|steps| - 1], u) && Enabled(u, steps[|steps| - 1]) && s == Do(u, steps[|steps| - 1])
    requires s.cell.code.Some? && NobodySetting(s)
    ensures Sandwiched(steps, steps[|steps| - 1].i, a, b, q, |steps| - 1) && WroteField(steps, s, b)
  {
    var n := |steps| - 1;
    var front := steps[..n];
    b := FieldStory(front, u);
    a := TookStory(front, u, steps[n].i);
    q :| b < q < |front| && front[q] == SetEvent(front[b].j);
    assert front[a] == steps[a] && front[b] == steps[b] && front[q] == steps[q];
    forall k | b < k < |steps|
      ensures !steps[k].WriteCode? && !steps[k].TakeCode?
    {
      if k < n { assert front[k] == steps[k]; }
    }
  }

  lemma WriterSets(u: System, a: Step)
    requires Enabled(u, a) && a.WriteCode?
    ensures !NobodySetting(Do(u, a))
  {
    assert Do(u, a).submitters[a.j].Wrote?;
  }

  lemma QuietBefore(u: System, a: Step)
    requires Enabled(u, a) && !a.ClearEvent?
    requires var s := Do(u, a); s.cell.code.Some? && !s.cell.signalled && NobodySetting(s)
    ensures !a.WriteCode? && !a.TakeCode? && !a.SetEvent?
    ensures u.cell == Do(u, a).cell && NobodySetting(u) && u.submitters == Do(u, a).submitters
  {
    if a.WriteCode? {
      WriterSets(u, a);
    }
  }

  /** Whenever a code lies in the field with the event clear and everyone's event set, in any run,
      the code was submitted as a whole between some waiter's take and its clear. */
  lemma {:induction false} LostOnlyBetweenTakeAndClear(steps: seq<Step>, s: System)
      returns (i: RequestId, a: nat, b: nat, q: nat, m: nat)
    requires Runs(EMPTY, steps, s)
    requires s.cell.code.Some? && !s.cell.signalled && NobodySetting(s)
    ensures Sandwiched(steps, i, a, b, q, m) && WroteField(steps, s, b)
    decreases |steps|
  {
    if steps == [] {
      assert false;
    } else {
      var n := |steps| - 1;
      var u := RunsFront(EMPTY, steps, s);
      if steps[n].ClearEvent? {
        m, i := n, steps[n].i;
        a, b, q := SandwichAtClear(steps, u, s);
      } else {
        QuietBefore(u, steps[n]);
        i, a, b, q, m := LostOnlyBetweenTakeAndClear(steps[..n], u);
        assert steps[..n][a] == steps[a] && steps[..n][b] == steps[b] && steps[..n][q] == steps[q] && steps[..n][m] == steps[m];
        forall k | b < k < |steps|
          ensures !steps[k].WriteCode? && !steps[k].TakeCode?
        {
          if k < n { assert steps[..n][k] == steps[k]; }
        }
      }
    }
  }

  /** For the sole waiter, with its code taken and its event not yet cleared, a submission is lost
      exactly when both its write and its event come before the clear. */
  lemma PlacementDecides(s: System, i: RequestId, j: nat, request: RequestId, code: string, steps: seq<Step>, t: System)
    requires s.cell.code == None && NobodySetting(s) && j !in s.submitters
    requires i in s.waiters && s.waiters[i].Took?
    requires forall k :: k in s.waiters && k != i ==> s.waiters[k].Returned? || s.waiters[k].Failed?
    requires |steps| == 3 && WriteCode(j, request, code) in steps && SetEvent(j) in steps && ClearEvent(i) in steps
    requires Runs(s, steps, t)
    ensures Lost(t) <==> steps == [WriteCode(j, request, code), SetEvent(j), ClearEvent(i)]
  {
    var w, e, c := WriteCode(j, request, code), SetEvent(j), ClearEvent(i);
    assert steps == [steps[0], steps[1], steps[2]];
    RunsHead(s, steps, t);
    RunsHead(Do(s, steps[0]), steps[1..], t);
    RunsHead(Do(Do(s, steps[0]), steps[1]), steps[1..][1..], t);
    RunsNowhere(Do(Do(Do(s, steps[0]), steps[1]), steps[2]), t);
    hide Runs;
    assert steps[0] != e;
    if steps[0] == w && steps[1] == e {
      assert !exists k :: k in t.waiters && Ready(t.waiters[k]);
      assert NobodySetting(t);
    } else {
      assert steps[1..] == [steps[1], steps[2]];
      assert t.cell.signalled;
    }
  }

  // ----- Who gets a code

  lemma {:induction false} HeldStays(s: System, steps: seq<Step>, t: System, i: RequestId, k: nat)
    requires Inv(s) && Runs(s, steps, t) && Holds(s.waiters, i, k) && !IsEmpty(s.written, k)
    ensures Holds(t.waiters, i, k) && Inv(t)
    decreases |steps|
  {
    hide Once, Accounted;
    if steps != [] {
      var a := steps[0];
      assert FoundLatest(s.written, s.waiters[i]);
      HoldsKept(s, a, i, k);
      LatestKept(s, a);
      OnceKept(s, a);
      AccountedKept(s, a);
      WrittenStays(s, a, k);
      hide Do, Enabled, Latest;
      HeldStays(Do(s, a), steps[1..], t, i, k);
    } else {
      RunKeepsInv(s, steps, t);
    }
  }

  lemma WrittenStays(s: System, a: Step, k: nat)
    requires Enabled(s, a) && k < |s.written|
    ensures k < |Do(s, a).written| && Do(s, a).written[k] == s.written[k]
  {
  }

  lemma OverwrittenStays(s: System, a: Step, k: nat)
    requires Enabled(s, a) && k in s.overwritten
    ensures k in Do(s, a).overwritten
  {
  }

  lemma {:induction false} OverwrittenRun(s: System, steps: seq<Step>, t: System, k: nat)
    requires Inv(s) && Runs(s, steps, t) && k in s.overwritten
    ensures Inv(t) && k in t.overwritten && forall i :: !Holds(t.waiters, i, k)
    decreases |steps|
  {
    if steps == [] {
    } else {
      StepKeepsInv(s, steps[0]);
      OverwrittenStays(s, steps[0], k);
      hide Do, Enabled, Inv;
      OverwrittenRun(Do(s, steps[0]), steps[1..], t, k);
    }
  }

  lemma StepKeepsInv(s: System, a: Step)
    requires Inv(s) && Enabled(s, a)
    ensures Inv(Do(s, a))
  {
    LatestKept(s, a);
    OnceKept(s, a);
    AccountedKept(s, a);
    hide Latest, Once, Accounted;
  }

  /** The first login to look, if one does before the next code is submitted. */
  function FirstLook(steps: seq<Step>): Option<RequestId>
    decreases |steps|
  {
    if steps == [] || steps[0].WriteCode? then None
    else if steps[0].TakeCode? then Some(steps[0].i)
    else FirstLook(steps[1..])
  }

  lemma OneHolder(s: System, i: RequestId, j: RequestId, k: nat)
    requires Once(s) && Holds(s.waiters, i, k) && Holds(s.waiters, j, k)
    ensures i == j
  {
    hide Holds, InField;
  }

  lemma FieldStep(s: System, a: Step, k: nat)
    requires Inv(s) && Enabled(s, a) && InField(s, k)
    ensures a.TakeCode? ==> Holds(Do(s, a).waiters, a.i, k)
    ensures a.WriteCode? ==> k in Do(s, a).overwritten
    ensures !a.TakeCode? && !a.WriteCode? ==> InField(Do(s, a), k)
    ensures k < |s.written|
  {
    hide Once, Accounted;
  }

  lemma InFieldNotHeld(s: System, k: nat)
    requires Inv(s) && InField(s, k)
    ensures forall i :: !Holds(s.waiters, i, k)
  {
    hide Latest, Accounted;
  }

  lemma {:induction false} FieldGoesToFirstLook(s: System, steps: seq<Step>, t: System, k: nat, i: RequestId)
    requires Inv(s) && Runs(s, steps, t) && InField(s, k) && !IsEmpty(s.written, k)
    ensures Holds(t.waiters, i, k) <==> FirstLook(steps) == Some(i)
    decreases |steps|
  {
    if steps == [] {
      InFieldNotHeld(s, k);
    } else {
      var a := steps[0];
      var u := Do(s, a);
      FieldStep(s, a, k);
      StepKeepsInv(s, a);
      WrittenStays(s, a, k);
      hide Inv, Do, Enabled, InField, Holds;
      if a.TakeCode? {
        HeldStays(u, steps[1..], t, a.i, k);
        InvOnce(t);
        if Holds(t.waiters, i, k) {
          OneHolder(t, i, a.i, k);
        }
      } else if a.WriteCode? {
        OverwrittenRun(u, steps[1..], t, k);
      } else {
        FieldGoesToFirstLook(u, steps[1..], t, k, i);
      }
    }
  }

  lemma InvOnce(s: System)
    requires Inv(s)
    ensures Once(s)
  {
    hide Latest, Once, Accounted;
  }

  /** In every run, a code that is not empty goes to the login that is first to look after it was
      written and before the next one is, whatever request it was submitted for. */
  lemma CodeGoesToFirstLook(before: seq<Step>, s: System, write: Step, after: seq<Step>, t: System, i: RequestId)
    requires Runs(EMPTY, before, s) && Enabled(s, write) && write.WriteCode? && write.code != ""
    requires Runs(Do(s, write), after, t)
    ensures Holds(t.waiters, i, |s.written|) <==> FirstLook(after) == Some(i)
  {
    EmptyInv();
    RunKeepsInv(EMPTY, before, s);
    StepKeepsInv(s, write);
    var k := |s.written|;
    assert InField(Do(s, write), k) && !IsEmpty(Do(s, write).written, k);
    hide Inv;
    FieldGoesToFirstLook(Do(s, write), after, t, k, i);
  }

  lemma EmptyInv()
    ensures Inv(EMPTY)
  {
  }

  // ----- When a code can go astray

  /** The event is set, or a submitter is about to set it. */
  ghost predicate WillSignal(s: System) {
    s.cell.signalled || exists j :: j in s.submitters && s.submitters[j].Wrote?
  }

  /** Login i can come to look before another code is submitted; logins are the ones that may
      still be prompted. */
  ghost predicate CanLook(s: System, i: RequestId, logins: set<RequestId>) {
    if i in s.waiters then Ready(s.waiters[i]) || (s.waiters[i].Waiting? && WillSignal(s))
    else i in logins && WillSignal(s)
  }

  ghost predicate PromptsAmong(steps: seq<Step>, logins: set<RequestId>) {
    forall a :: a in steps && a.Prompt? ==> a.i in logins
  }

  /** In some continuation, a login other than r takes submission k. */
  ghost predicate MayGoAstray(s: System, k: nat, r: RequestId, logins: set<RequestId>) {
    exists steps, t, i :: Runs(s, steps, t) && PromptsAmong(steps, logins) && i != r && Holds(t.waiters, i, k)
  }

  ghost predicate OthersLook(s: System, r: RequestId, logins: set<RequestId>) {
    exists i :: i != r && CanLook(s, i, logins)
  }

  lemma NobodyStartsToLook(s: System, a: Step, i: RequestId, logins: set<RequestId>)
    requires Enabled(s, a) && !a.WriteCode? && (a.Prompt? ==> a.i in logins)
    requires CanLook(Do(s, a), i, logins)
    ensures CanLook(s, i, logins)
  {
    var t := Do(s, a);
    if WillSignal(t) && !WillSignal(s) {
      assert a.SetEvent? ==> s.submitters[a.j].Wrote?;
    }
  }

  lemma {:induction false} OnlyLookersTake(s: System, steps: seq<Step>, t: System, k: nat, r: RequestId, i: RequestId,
                                           logins: set<RequestId>)
    requires Inv(s) && Runs(s, steps, t) && PromptsAmong(steps, logins) && InField(s, k) && !IsEmpty(s.written, k)
    requires i != r && Holds(t.waiters, i, k)
    ensures CanLook(s, i, logins)
    decreases |steps|
  {
    FieldGoesToFirstLook(s, steps, t, k, i);
    if steps != [] {
      var a := steps[0];
      FieldStep(s, a, k);
      StepKeepsInv(s, a);
      WrittenStays(s, a, k);
      if a.TakeCode? {
        assert s.waiters[i].Woken?;
      } else {
        hide Inv, InField, Holds, IsEmpty;
        assert PromptsAmong(steps[1..], logins);
        OnlyLookersTake(Do(s, a), steps[1..], t, k, r, i, logins);
        NobodyStartsToLook(s, a, i, logins);
      }
    }
  }

  /** From a state in which i can look, steps after which it has the code in the field. */
  lemma LookerTakes(s: System, k: nat, i: RequestId, logins: set<RequestId>) returns (steps: seq<Step>, t: System)
    requires InField(s, k) && CanLook(s, i, logins)
    ensures Runs(s, steps, t) && PromptsAmong(steps, logins) && Holds(t.waiters, i, k)
  {
    var woken;
    steps, woken := LookerWakes(s, i, logins);
    assert woken.cell.code == s.cell.code;
    t := Do(woken, TakeCode(i));
    RunsSnoc(s, steps, woken, TakeCode(i));
    steps := steps + [TakeCode(i)];
  }

  lemma LookerWakes(s: System, i: RequestId, logins: set<RequestId>) returns (steps: seq<Step>, t: System)
    requires CanLook(s, i, logins)
    ensures Runs(s, steps, t) && PromptsAmong(steps, logins)
    ensures i in t.waiters && t.waiters[i].Woken? && t.cell.code == s.cell.code
  {
    steps, t := [], s;
    if i !in s.waiters {
      RunsSnoc(s, steps, t, Prompt(i));
      steps, t := [Prompt(i)], Do(s, Prompt(i));
    }
    if t.waiters[i].Waiting? {
      if !t.cell.signalled && !t.waiters[i].notified {
        var j :| j in t.submitters && t.submitters[j].Wrote?;
        RunsSnoc(s, steps, t, SetEvent(j));
        steps, t := steps + [SetEvent(j)], Do(t, SetEvent(j));
      }
      RunsSnoc(s, steps, t, Wake(i));
      steps, t := steps + [Wake(i)], Do(t, Wake(i));
    }
  }

  /** A code submitted for r, still in the field, can go to another login if and only if another
      login can look: one that is waiting or woken, or one that may yet be prompted. So with one
      login at a time codes stay with their request, and with two they need not. */
  lemma GoesAstrayExactly(s: System, k: nat, r: RequestId, logins: set<RequestId>)
    requires Reachable(s) && InField(s, k) && !IsEmpty(s.written, k)
    ensures MayGoAstray(s, k, r, logins) <==> OthersLook(s, r, logins)
  {
    ReachableInv(s);
    hide Inv, InField, IsEmpty;
    if MayGoAstray(s, k, r, logins) {
      var steps, t, i :| Runs(s, steps, t) && PromptsAmong(steps, logins) && i != r && Holds(t.waiters, i, k);
      OnlyLookersTake(s, steps, t, k, r, i, logins);
    }
    if OthersLook(s, r, logins) {
      var i :| i != r && CanLook(s, i, logins);
      var steps, t := LookerTakes(s, k, i, logins);
      assert Runs(s, steps, t) && PromptsAmong(steps, logins) && i != r && Holds(t.waiters, i, k);
    }
  }

  lemma TwoLoginsOneCode() returns (steps: seq<Step>, s: System)
    ensures Runs(EMPTY, steps, s)
    ensures s == System(Cell(Some(Submission(0, 0, "a")), true), map[0 := Waiting(true), 1 := Waiting(true)], map[0 := Done], [(0, "a")], {})
  {
    assert Runs(EMPTY, [], EMPTY);
    hide Runs;
    steps, s := Then([], EMPTY, Prompt(0));
    steps, s := Then(steps, s, Prompt(1));
    assert s == System(Cell(None, false), map[0 := Waiting(false), 1 := Waiting(false)], map[], [], {});
    steps, s := Then(steps, s, WriteCode(0, 0, "a"));
    steps, s := Then(steps, s, SetEvent(0));
  }

  lemma BothTookOneCode() returns (steps: seq<Step>, s: System)
    ensures Runs(EMPTY, steps, s)
    ensures s == System(Cell(None, true), map[0 := Took(None, 1), 1 := Took(Some(Submission(0, 0, "a")), 1)], map[0 := Done], [(0, "a")], {})
  {
    hide Runs;
    steps, s := TwoLoginsOneCode();
    steps, s := Then(steps, s, Wake(1));
    steps, s := Then(steps, s, Wake(0));
    assert s.waiters == map[0 := Woken, 1 := Woken];
    steps, s := Then(steps, s, TakeCode(1));
    steps, s := Then(steps, s, TakeCode(0));
  }

  /** Two logins are waiting; the code submitted for the first goes to the second, and the first
      fails for want of a code. */
  lemma CodeGoesAstray() returns (s: System)
    ensures Reachable(s) && 0 in s.waiters && 1 in s.waiters
    ensures s.waiters[1] == Returned(Submission(0, 0, "a"), 1) && s.waiters[0] == Failed(EmptyCode)
  {
    hide Runs;
    var steps;
    steps, s := BothTookOneCode();
    steps, s := Then(steps, s, ClearEvent(1));
    steps, s := Then(steps, s, ClearEvent(0));
  }

  // ----- Progress

  /** A login that waits can always time out, and can wake exactly when the event is set or it was
      notified of it; once woken it goes on to take and clear; a submitter can always go on to set
      the event, which wakes whoever waits. */
  lemma WaitersGoOn(s: System, i: RequestId, j: nat)
    ensures i in s.waiters ==>
              match s.waiters[i]
              case Waiting(notified) =>
                && Enabled(s, TimeOut(i)) && Do(s, TimeOut(i)).waiters[i] == Failed(NotInTime)
                && (Enabled(s, Wake(i)) <==> s.cell.signalled || notified)
              case Woken => Enabled(s, TakeCode(i)) && Do(s, TakeCode(i)).waiters[i] == Took(s.cell.code, |s.written|)
              case Took(got, at) =>
                && Enabled(s, ClearEvent(i))
                && Do(s, ClearEvent(i)).waiters[i] == if got.Some? && got.value.code != "" then Returned(got.value, at) else Failed(EmptyCode)
              case _ => true
    ensures j in s.submitters && s.submitters[j].Wrote? ==>
              && Enabled(s, SetEvent(j)) && Do(s, SetEvent(j)).cell.signalled
              && forall k :: k in s.waiters && s.waiters[k].Waiting? ==> Enabled(Do(s, SetEvent(j)), Wake(k))
  {
  }
}
