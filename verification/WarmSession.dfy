/** The warm Steam session under concurrent friends requests (worker/agent.py, _on_list_friends;
    worker/steam_client.py, login_with_token and list_friends): one client and one remembered
    Steam id, no lock, and a thread for every request.

    Each access to the client or to the remembered id is one step, and so is each answer of
    Steam. A thread waits for a logon answer, not for the answer to its own logon; an answer may
    come after its thread has stopped waiting; the connection may drop at any time. */
module WarmSession {
  import opened Wrappers

  /** Where a request's thread is; id is the subject of its token. Comparing has found the client
      logged on; Waiting has sent its logon and may have heard an answer; Listed has the owner it
      reports and the account whose friends it read. */
  datatype Thread =
    | Starting(id: string)
    | Comparing(id: string)
    | Connecting(id: string)
    | Waiting(id: string, heard: Option<bool>)
    | LoggedIn(id: string)
    | Listed(owner: string, friendsOf: Option<string>)
    | Failed

  type Threads = map<nat, Thread>

  /** account is the one whose friends the client holds, that of its last logon; pending holds
      the logons sent and not answered. */
  datatype Session = Session(loggedOn: bool, account: Option<string>, steamId: Option<string>, pending: map<nat, string>, threads: Threads)

  const EMPTY := Session(false, None, None, map[], map[])

  datatype Step =
    | Begin(t: nat, id: string)
    | LookAtClient(t: nat)
    | CompareId(t: nat)
    | SendLogon(t: nat)
    | Answer(t: nat, ok: bool)
    | Finish(t: nat)
    | ReadList(t: nat)
    | GiveUp(t: nat)
    | Drop

  predicate Enabled(s: Session, a: Step) {
    match a
    case Begin(t, _) => t !in s.threads
    case LookAtClient(t) => t in s.threads && s.threads[t].Starting?
    case CompareId(t) => t in s.threads && s.threads[t].Comparing?
    case SendLogon(t) => t in s.threads && s.threads[t].Connecting?
    case Answer(t, _) => t in s.pending
    case Finish(t) => t in s.threads && s.threads[t].Waiting? && s.threads[t].heard.Some?
    case ReadList(t) => t in s.threads && s.threads[t].LoggedIn?
    case GiveUp(t) => t in s.threads && MayGiveUp(s.threads[t])
    case Drop => true
  }

  /** No connection, no answer in time, or an exception while listing. */
  predicate MayGiveUp(h: Thread) {
    h.Connecting? || h.LoggedIn? || (h.Waiting? && h.heard.None?)
  }

  function Hears(h: Thread, ok: bool): Thread {
    if h.Waiting? && h.heard.None? then Waiting(h.id, Some(ok)) else h
  }

  function HeardBy(threads: Threads, ok: bool): (r: Threads)
    ensures r.Keys == threads.Keys
  {
    map t | t in threads :: Hears(threads[t], ok)
  }

  function Answered(s: Session, t: nat, ok: bool): Session
    requires t in s.pending
  {
    var u := s.(pending := s.pending - {t}, threads := HeardBy(s.threads, ok));
    if ok then u.(loggedOn := true, account := Some(s.pending[t])) else u
  }

  function Finished(s: Session, t: nat): Session
    requires t in s.threads && s.threads[t].Waiting? && s.threads[t].heard.Some?
  {
    var id := s.threads[t].id;
    if s.threads[t].heard.value then s.(steamId := Some(id), threads := s.threads[t := LoggedIn(id)])
    else s.(threads := s.threads[t := Failed])
  }

  function Do(s: Session, a: Step): Session
    requires Enabled(s, a)
  {
    match a
    case Begin(t, id) => s.(threads := s.threads[t := Starting(id)])
    case LookAtClient(t) =>
      var id := s.threads[t].id;
      s.(threads := s.threads[t := if s.loggedOn then Comparing(id) else Connecting(id)])
    case CompareId(t) =>
      var id := s.threads[t].id;
      s.(threads := s.threads[t := if s.steamId == Some(id) then LoggedIn(id) else Connecting(id)])
    case SendLogon(t) =>
      var id := s.threads[t].id;
      s.(threads := s.threads[t := Waiting(id, None)], pending := s.pending[t := id])
    case Answer(t, ok) => Answered(s, t, ok)
    case Finish(t) => Finished(s, t)
    case ReadList(t) => s.(threads := s.threads[t := Listed(s.threads[t].id, s.account)])
    case GiveUp(t) => s.(threads := s.threads[t := Failed])
    case Drop => s.(loggedOn := false, pending := map[])
  }

  ghost predicate Runs(s: Session, steps: seq<Step>, t: Session)
    decreases |steps|
  {
    if steps == [] then s == t
    else Enabled(s, steps[0]) && Runs(Do(s, steps[0]), steps[1..], t)
  }

  // ----- Whose friends are listed

  /** The account a step logs the client on as, if it does. */
  function Logon(s: Session, a: Step): Option<string> {
    if a.Answer? && a.ok && a.t in s.pending then Some(s.pending[a.t]) else None
  }

  /** The account of the last logon in a run. */
  ghost function LastLogon(s: Session, steps: seq<Step>): Option<string>
    decreases |steps|
  {
    if steps == [] || !Enabled(s, steps[0]) then None
    else
      var later := LastLogon(Do(s, steps[0]), steps[1..]);
      if later.Some? then later else Logon(s, steps[0])
  }

  function OrElse<T>(a: Option<T>, b: Option<T>): Option<T> {
    if a.Some? then a else b
  }

  lemma {:induction false} AccountIsLastLogon(s: Session, steps: seq<Step>, u: Session)
    requires Runs(s, steps, u)
    ensures u.account == OrElse(LastLogon(s, steps), s.account)
    decreases |steps|
  {
    if steps != [] {
      var t := Do(s, steps[0]);
      assert t.account == OrElse(Logon(s, steps[0]), s.account);
      hide Do, Enabled, Logon;
      AccountIsLastLogon(t, steps[1..], u);
    }
  }

  /** In every run, a request that lists friends reports the subject of its own token as their
      owner, and they are that account's if and only if the client's last logon was for it,
      whichever thread that logon was of. */
  lemma ListsOwnExactly(steps: seq<Step>, s: Session, t: nat)
    requires Runs(EMPTY, steps, s) && Enabled(s, ReadList(t))
    ensures var h := Do(s, ReadList(t)).threads[t];
            h.Listed? && h.owner == s.threads[t].id && (h.friendsOf == Some(h.owner) <==> LastLogon(EMPTY, steps) == Some(h.owner))
  {
    AccountIsLastLogon(EMPTY, steps, s);
  }

  /** Once a login has ended with the client on its account, the list read later is its own if
      and only if no logon for another account comes last between the two. */
  lemma OwnUnlessLoggedOver(s: Session, between: seq<Step>, u: Session, t: nat)
    requires t in s.threads && s.threads[t].LoggedIn? && s.account == Some(s.threads[t].id)
    requires Runs(s, between, u) && Enabled(u, ReadList(t))
    ensures var h := Do(u, ReadList(t)).threads[t];
            && h == Listed(s.threads[t].id, u.account)
            && (h.friendsOf == Some(h.owner) <==> LastLogon(s, between) in {None, Some(h.owner)})
  {
    AccountIsLastLogon(s, between, u);
    LoggedInStays(s, between, u, t);
  }

  lemma {:induction false} LoggedInStays(s: Session, steps: seq<Step>, u: Session, t: nat)
    requires t in s.threads && s.threads[t].LoggedIn? && Runs(s, steps, u) && t in u.threads && u.threads[t].LoggedIn?
    ensures u.threads[t] == s.threads[t]
    decreases |steps|
  {
    if steps != [] {
      var v := Do(s, steps[0]);
      if v.threads[t] == s.threads[t] {
        hide Do, Enabled;
        LoggedInStays(v, steps[1..], u, t);
      } else {
        assert Ended(v.threads[t]);
        hide Do, Enabled;
        EndedStays(v, steps[1..], u, t);
      }
    }
  }

  predicate Ended(h: Thread) {
    h.Listed? || h.Failed?
  }

  lemma {:induction false} EndedStays(s: Session, steps: seq<Step>, u: Session, t: nat)
    requires t in s.threads && Ended(s.threads[t]) && Runs(s, steps, u)
    ensures t in u.threads && u.threads[t] == s.threads[t]
    decreases |steps|
  {
    if steps != [] {
      var v := Do(s, steps[0]);
      assert t in v.threads && v.threads[t] == s.threads[t];
      hide Do, Enabled;
      EndedStays(v, steps[1..], u, t);
    }
  }

  // ----- One request at a time

  ghost predicate AllEnded(threads: Threads) {
    forall t :: t in threads ==> Ended(threads[t])
  }

  /** A request begins when no other is under way, and a logon is accepted only while its thread
      still waits to hear of it. */
  ghost predicate TidyStep(s: Session, a: Step) {
    && (a.Begin? ==> AllEnded(s.threads))
    && (a.Answer? && a.ok ==> a.t in s.threads && s.threads[a.t].Waiting? && s.threads[a.t].heard.None?)
  }

  ghost predicate TidyRuns(s: Session, steps: seq<Step>, t: Session)
    decreases |steps|
  {
    if steps == [] then s == t
    else Enabled(s, steps[0]) && TidyStep(s, steps[0]) && TidyRuns(Do(s, steps[0]), steps[1..], t)
  }

  predicate OwnList(h: Thread) {
    h.Listed? ==> h.friendsOf == Some(h.owner)
  }

  /** The client is on the account the session remembers, or on that of a thread that is about to
      have it remembered. */
  predicate ThreadTidy(s: Session, h: Thread) {
    && OwnList(h)
    && (h.LoggedIn? ==> s.account == Some(h.id))
    && (h.Waiting? && h.heard == Some(true) ==> s.account == Some(h.id))
  }

  predicate Heard(h: Thread) {
    h.Waiting? && h.heard == Some(true)
  }

  ghost predicate Remembers(s: Session) {
    s.steamId.Some? && s.account != s.steamId ==> exists t :: t in s.threads && Heard(s.threads[t])
  }

  ghost predicate OneActive(threads: Threads) {
    forall t, q :: t in threads && q in threads && !Ended(threads[t]) && !Ended(threads[q]) ==> t == q
  }

  ghost predicate PendingMatch(s: Session) {
    forall t :: t in s.pending ==> t in s.threads && (s.threads[t].Waiting? ==> s.threads[t].id == s.pending[t])
  }

  ghost predicate Tidy(s: Session) {
    && OneActive(s.threads) && PendingMatch(s) && Remembers(s)
    && forall t :: t in s.threads ==> ThreadTidy(s, s.threads[t])
  }

  lemma OneActiveKept(s: Session, a: Step)
    requires OneActive(s.threads) && Enabled(s, a) && TidyStep(s, a)
    ensures OneActive(Do(s, a).threads)
  {
  }

  lemma PendingMatchKept(s: Session, a: Step)
    requires PendingMatch(s) && Enabled(s, a)
    ensures PendingMatch(Do(s, a))
  {
  }

  lemma RemembersKept(s: Session, a: Step)
    requires Tidy(s) && Enabled(s, a) && TidyStep(s, a)
    ensures Remembers(Do(s, a))
  {
    var u := Do(s, a);
    if a.Answer? && a.ok {
      assert Heard(u.threads[a.t]);
    } else if a.Finish? {
      assert ThreadTidy(s, s.threads[a.t]);
    } else if s.steamId.Some? && s.account != s.steamId {
      var q :| q in s.threads && Heard(s.threads[q]);
      assert q in u.threads && Heard(u.threads[q]);
    }
  }

  lemma StepKeepsTidy(s: Session, a: Step)
    requires Tidy(s) && Enabled(s, a) && TidyStep(s, a)
    ensures Tidy(Do(s, a))
  {
    OneActiveKept(s, a);
    PendingMatchKept(s, a);
    var u := Do(s, a);
    forall t | t in u.threads
      ensures ThreadTidy(u, u.threads[t])
    {
      if t in s.threads {
        assert ThreadTidy(s, s.threads[t]);
      }
    }
    RemembersKept(s, a);
  }

  lemma {:induction false} TidyRunKeepsTidy(s: Session, steps: seq<Step>, u: Session)
    requires Tidy(s) && TidyRuns(s, steps, u)
    ensures Tidy(u)
    decreases |steps|
  {
    if steps != [] {
      StepKeepsTidy(s, steps[0]);
      hide Do, Enabled, Tidy, TidyStep;
      TidyRunKeepsTidy(Do(s, steps[0]), steps[1..], u);
    }
  }

  /** With one request at a time and no answer after its thread gave up, every request lists the
      friends of its own token's account, warm session or not. */
  lemma OneAtATimeListsOwn(steps: seq<Step>, s: Session, t: nat)
    requires TidyRuns(EMPTY, steps, s) && t in s.threads && s.threads[t].Listed?
    ensures s.threads[t].friendsOf == Some(s.threads[t].owner)
  {
    TidyRunKeepsTidy(EMPTY, steps, s);
    assert ThreadTidy(s, s.threads[t]);
  }

  // ----- Both halves of the discipline are needed

  lemma {:induction false} RunsSnoc(s: Session, steps: seq<Step>, t: Session, a: Step)
    requires Runs(s, steps, t) && Enabled(t, a)
    ensures Runs(s, steps + [a], Do(t, a))
    decreases |steps|
  {
    hide Do, Enabled;
    if steps == [] {
      assert ([] + [a])[1..] == [] && [] + [a] == [a];
    } else {
      RunsSnoc(Do(s, steps[0]), steps[1..], t, a);
      assert (steps + [a])[1..] == steps[1..] + [a];
    }
  }

  lemma Then(steps: seq<Step>, s: Session, a: Step) returns (longer: seq<Step>, t: Session)
    requires Runs(EMPTY, steps, s) && Enabled(s, a)
    ensures Runs(EMPTY, longer, t) && t == Do(s, a)
  {
    longer, t := steps + [a], Do(s, a);
    RunsSnoc(EMPTY, steps, s, a);
  }

  /** Thread 0 has logged on anew. */
  lemma FirstLogin(a: string) returns (steps: seq<Step>, s: Session)
    ensures Runs(EMPTY, steps, s) && s == Session(true, Some(a), Some(a), map[], map[0 := LoggedIn(a)])
  {
    assert Runs(EMPTY, [], EMPTY);
    hide Runs;
    steps, s := Then([], EMPTY, Begin(0, a));
    steps, s := Then(steps, s, LookAtClient(0));
    steps, s := Then(steps, s, SendLogon(0));
    assert s == Session(false, None, None, map[0 := a], map[0 := Waiting(a, None)]);
    steps, s := Then(steps, s, Answer(0, true));
    steps, s := Then(steps, s, Finish(0));
  }

  /** The connection drops and thread 1 sends its logon. */
  lemma SecondLogonSent(a: string, b: string, first: Thread, before: seq<Step>, s0: Session) returns (steps: seq<Step>, s: Session)
    requires Runs(EMPTY, before, s0) && s0 == Session(true, Some(a), Some(a), map[], map[0 := first])
    ensures Runs(EMPTY, steps, s)
    ensures s == Session(false, Some(a), Some(a), map[1 := b], map[0 := first, 1 := Waiting(b, None)])
  {
    hide Runs;
    steps, s := Then(before, s0, Drop);
    steps, s := Then(steps, s, Begin(1, b));
    steps, s := Then(steps, s, LookAtClient(1));
    steps, s := Then(steps, s, SendLogon(1));
  }

  /** Two requests overlap: the second logs on between the first's login and its read. */
  lemma OverlapListsAnother(a: string, b: string) returns (steps: seq<Step>, s: Session)
    requires a != b
    ensures Runs(EMPTY, steps, s) && 0 in s.threads && s.threads[0] == Listed(a, Some(b))
  {
    hide Runs;
    steps, s := FirstLogin(a);
    steps, s := SecondLogonSent(a, b, LoggedIn(a), steps, s);
    steps, s := Then(steps, s, Answer(1, true));
    assert s.threads[0] == LoggedIn(a);
    steps, s := Then(steps, s, ReadList(0));
  }

  /** One request at a time, but the second's logon is accepted after it gave up: the client is
      on its account while the session still remembers the first's, and a third request with
      the first's token takes the session for its own. */
  lemma LateLogonListsAnother(a: string, b: string) returns (steps: seq<Step>, s: Session)
    requires a != b
    ensures Runs(EMPTY, steps, s) && 2 in s.threads && s.threads[2] == Listed(a, Some(b))
  {
    hide Runs;
    steps, s := FirstLogin(a);
    steps, s := Then(steps, s, ReadList(0));
    steps, s := SecondLogonSent(a, b, Listed(a, Some(a)), steps, s);
    steps, s := Then(steps, s, GiveUp(1));
    steps, s := Then(steps, s, Answer(1, true));
    assert s.loggedOn && s.account == Some(b) && s.steamId == Some(a) && s.threads.Keys == {0, 1};
    steps, s := Then(steps, s, Begin(2, a));
    steps, s := Then(steps, s, LookAtClient(2));
    steps, s := Then(steps, s, CompareId(2));
    steps, s := Then(steps, s, ReadList(2));
  }

  // ----- Progress

  /** A request can always take its next step: a session found logged on is used if it is
      remembered as the token's, and otherwise a logon is sent; a thread that waits can hear of
      the answer to its own logon, or give up; a refused one fails. */
  lemma RequestsGoOn(s: Session, t: nat)
    requires t in s.threads
    ensures match s.threads[t]
            case Starting(id) =>
              Enabled(s, LookAtClient(t)) && Do(s, LookAtClient(t)).threads[t] == if s.loggedOn then Comparing(id) else Connecting(id)
            case Comparing(id) =>
              Enabled(s, CompareId(t)) && Do(s, CompareId(t)).threads[t] == if s.steamId == Some(id) then LoggedIn(id) else Connecting(id)
            case Connecting(id) =>
              && Enabled(s, SendLogon(t)) && Enabled(s, GiveUp(t))
              && Do(s, SendLogon(t)).threads[t] == Waiting(id, None) && Do(s, SendLogon(t)).pending == s.pending[t := id]
            case Waiting(id, None) =>
              && Enabled(s, GiveUp(t)) && Do(s, GiveUp(t)).threads[t] == Failed
              && (t in s.pending ==> forall ok :: Enabled(s, Answer(t, ok)) && Do(s, Answer(t, ok)).threads[t] == Waiting(id, Some(ok)))
            case Waiting(id, Some(ok)) =>
              && Enabled(s, Finish(t)) && Do(s, Finish(t)).threads[t] == (if ok then LoggedIn(id) else Failed)
              && Do(s, Finish(t)).steamId == if ok then Some(id) else s.steamId
            case LoggedIn(id) => Enabled(s, ReadList(t)) && Do(s, ReadList(t)).threads[t] == Listed(id, s.account)
            case Listed(_, _) => true
            case Failed => true
  {
  }

  /** Only an accepted logon moves the client to another account; a dropped connection takes the
      logons on their way with it, and leaves what the client holds. */
  lemma ClientMovesExactly(s: Session, t: nat, ok: bool)
    ensures t in s.pending ==>
              && Do(s, Answer(t, ok)).account == (if ok then Some(s.pending[t]) else s.account)
              && Do(s, Answer(t, ok)).loggedOn == (ok || s.loggedOn) && Do(s, Answer(t, ok)).steamId == s.steamId
    ensures Do(s, Drop) == s.(loggedOn := false, pending := map[])
  {
  }
}
