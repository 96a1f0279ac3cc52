/** RACTestScheduler: blocks stepped through in order of date, scheduling and cancelling others as they run. */
module TestScheduler {
  import Lists
  import opened Options

  /** What running a block does to its scheduler; blocks and scheduled actions are named by numbers. */
  datatype Effect = Schedule(block: nat) | After(date: real, block: nat) | Dispose(action: nat)

  /** `number` is the count -schedule: took its date from; None for an action scheduled for a date. */
  datatype Scheduled = Scheduled(date: real, block: nat, number: Option<nat>)

  datatype Ran = Ran(action: nat, number: Option<nat>)

  /** `pending` is the heap; actions are numbered in order of creation. */
  datatype State = State(
    pending: map<nat, Scheduled>, disposed: set<nat>, created: nat, numberOfDirectlyScheduledBlocks: nat,
    ran: seq<Ran>)

  /**
   * What each block does when it runs. It may depend on everything that has happened: on how often the
   * block has run, and through `created` on the names of the actions it is about to schedule.
   */
  type Code = (State, nat) -> seq<Effect>

  const Initial := State(map[], {}, 0, 0, [])

  const UIntMax: nat := 0xFFFF_FFFF_FFFF_FFFF

  function Perform(s: State, e: Effect): State {
    match e
    case Schedule(block) =>
      var n := s.numberOfDirectlyScheduledBlocks;
      s.(pending := s.pending[s.created := Scheduled(n as real, block, Some(n))], created := s.created + 1,
         numberOfDirectlyScheduledBlocks := n + 1)
    case After(date, block) =>
      s.(pending := s.pending[s.created := Scheduled(date, block, None)], created := s.created + 1)
    case Dispose(action) => s.(disposed := s.disposed + {action})
  }

  function PerformAll(s: State, effects: seq<Effect>): State
    decreases |effects|
  {
    if effects == [] then s else PerformAll(Perform(s, effects[0]), effects[1..])
  }

  /** No action is due before `a`; the heap may hold several of the same date. */
  ghost predicate IsMinimum(s: State, a: nat) {
    a in s.pending && forall b :: b in s.pending ==> s.pending[a].date <= s.pending[b].date
  }

  function Start(s: State, a: nat): State
    requires a in s.pending
  {
    s.(pending := s.pending - {a}, ran := s.ran + [Ran(a, s.pending[a].number)])
  }

  /** One turn of the loop on the minimum `a`: a disposed action is dropped but uses up the tick. */
  function Turn(code: Code, s: State, a: nat): State
    requires a in s.pending
  {
    if a in s.disposed then s.(pending := s.pending - {a})
    else PerformAll(Start(s, a), code(Start(s, a), s.pending[a].block))
  }

  ghost predicate Ticked(code: Code, s: State, t: State) {
    exists a :: IsMinimum(s, a) && t == Turn(code, s, a)
  }

  /** The turns on the actions `picks`, in order. */
  function Turns(code: Code, s: State, picks: seq<nat>): State
    decreases |picks|
  {
    if picks == [] then s
    else
      var before, a := Turns(code, s, picks[..|picks| - 1]), picks[|picks| - 1];
      if a in before.pending then Turn(code, before, a) else before
  }

  /** Each pick is a minimum of the heap when its turn comes. */
  ghost predicate Picked(code: Code, s: State, picks: seq<nat>)
    decreases |picks|
  {
    picks == [] ||
    (Picked(code, s, picks[..|picks| - 1]) && IsMinimum(Turns(code, s, picks[..|picks| - 1]), picks[|picks| - 1]))
  }

  /** -step: of `ticks` leads from `s` to `t` by these picks. */
  ghost predicate SteppedBy(code: Code, s: State, ticks: nat, picks: seq<nat>, t: State) {
    Picked(code, s, picks) && t == Turns(code, s, picks) && |picks| <= ticks && (|picks| < ticks ==> t.pending == map[])
  }

  ghost predicate Stepped(code: Code, s: State, ticks: nat, t: State) {
    exists picks :: SteppedBy(code, s, ticks, picks, t)
  }

  // ----- steps compose

  lemma {:induction false} TurnsConcat(code: Code, s: State, p: seq<nat>, q: seq<nat>)
    ensures Turns(code, s, p + q) == Turns(code, Turns(code, s, p), q)
    ensures Picked(code, s, p + q) <==> Picked(code, s, p) && Picked(code, Turns(code, s, p), q)
    decreases |q|
  {
    if q == [] {
      Lists.ConcatEmpty(p);
    } else {
      var front, a := q[..|q| - 1], q[|q| - 1];
      TurnsConcat(code, s, p, front);
      Lists.FrontAndLast(q);
      Lists.ConcatAssociates(p, front, [a]);
      Lists.WithoutLast(p + front, a);
    }
  }

  lemma StepsCompose(code: Code, s: State, m: nat, p: seq<nat>, mid: State, n: nat, q: seq<nat>, t: State)
    requires SteppedBy(code, s, m, p, mid) && SteppedBy(code, mid, n, q, t)
    ensures SteppedBy(code, s, m + n, p + q, t)
  {
    TurnsConcat(code, s, p, q);
    if mid.pending == map[] { NothingPicked(code, mid, q); }
  }

  lemma {:induction false} NothingPicked(code: Code, s: State, picks: seq<nat>)
    requires s.pending == map[] && Picked(code, s, picks)
    ensures picks == []
    decreases |picks|
  {
    if picks != [] { NothingPicked(code, s, picks[..|picks| - 1]); }
  }

  lemma StepsSplit(code: Code, s: State, m: nat, n: nat, picks: seq<nat>, t: State)
    requires SteppedBy(code, s, m + n, picks, t)
    ensures exists mid :: Stepped(code, s, m, mid) && Stepped(code, mid, n, t)
  {
    if |picks| <= m {
      assert SteppedBy(code, s, m, picks, t) && SteppedBy(code, t, n, [], t);
      assert Stepped(code, s, m, t) && Stepped(code, t, n, t);
    } else {
      var p, q := picks[..m], picks[m..];
      Lists.TakeAndDrop(picks, m);
      TurnsConcat(code, s, p, q);
      var mid := Turns(code, s, p);
      assert SteppedBy(code, s, m, p, mid) && SteppedBy(code, mid, n, q, t);
      assert Stepped(code, s, m, mid) && Stepped(code, mid, n, t);
    }
  }

  /** Stepping by `m` and then by `n` can do exactly what stepping by m + n can. */
  lemma StepTwiceIffStepOnce(code: Code, s: State, m: nat, n: nat, t: State)
    ensures Stepped(code, s, m + n, t) <==> exists mid :: Stepped(code, s, m, mid) && Stepped(code, mid, n, t)
  {
    if Stepped(code, s, m + n, t) {
      var picks :| SteppedBy(code, s, m + n, picks, t);
      StepsSplit(code, s, m, n, picks, t);
    }
    if mid :| Stepped(code, s, m, mid) && Stepped(code, mid, n, t) {
      var p :| SteppedBy(code, s, m, p, mid);
      var q :| SteppedBy(code, mid, n, q, t);
      StepsCompose(code, s, m, p, mid, n, q, t);
    }
  }

  // ----- every run

  ghost predicate NumbersOk(s: State) {
    && (forall a :: a in s.pending ==> a < s.created)
    && (forall a :: a in s.pending && s.pending[a].number.Some? ==>
        && s.pending[a].number.value < s.numberOfDirectlyScheduledBlocks
        && s.pending[a].date == s.pending[a].number.value as real)
  }

  /** Each action ran at most once, and is no longer pending. */
  ghost predicate RanOk(s: State) {
    && (forall i :: 0 <= i < |s.ran| ==> s.ran[i].action < s.created && s.ran[i].action !in s.pending)
    && (forall i, j :: 0 <= i < j < |s.ran| ==> s.ran[i].action != s.ran[j].action)
  }

  /** Directly scheduled blocks ran in the order in which they were scheduled, and before those still pending. */
  ghost predicate OrderOk(s: State) {
    && (forall i, j :: 0 <= i < j < |s.ran| && s.ran[i].number.Some? && s.ran[j].number.Some? ==>
        s.ran[i].number.value < s.ran[j].number.value)
    && (forall i :: 0 <= i < |s.ran| && s.ran[i].number.Some? ==>
        s.ran[i].number.value < s.numberOfDirectlyScheduledBlocks)
    && (forall i, a :: 0 <= i < |s.ran| && a in s.pending && s.ran[i].number.Some? && s.pending[a].number.Some? ==>
        s.ran[i].number.value < s.pending[a].number.value)
    && (forall a, b ::
        (a in s.pending && b in s.pending && a != b && s.pending[a].number.Some? && s.pending[b].number.Some?) ==>
        s.pending[a].number.value != s.pending[b].number.value)
  }

  ghost predicate Inv(s: State) {
    NumbersOk(s) && RanOk(s) && OrderOk(s)
  }

  lemma ScheduleKeeps(s: State, block: nat)
    requires Inv(s)
    ensures Inv(Perform(s, Schedule(block)))
  {
    assert s.created !in s.pending;
  }

  lemma AfterKeeps(s: State, date: real, block: nat)
    requires Inv(s)
    ensures Inv(Perform(s, After(date, block)))
  {
    assert s.created !in s.pending;
  }

  lemma PerformKeeps(s: State, e: Effect)
    requires Inv(s)
    ensures Inv(Perform(s, e))
  {
    match e
    case Schedule(block) => ScheduleKeeps(s, block);
    case After(date, block) => AfterKeeps(s, date, block);
    case Dispose(_) =>
  }

  lemma {:induction false} PerformAllKeeps(s: State, effects: seq<Effect>)
    requires Inv(s)
    ensures Inv(PerformAll(s, effects))
    decreases |effects|
  {
    if effects != [] {
      PerformKeeps(s, effects[0]);
      PerformAllKeeps(Perform(s, effects[0]), effects[1..]);
    }
  }

  lemma DropKeeps(s: State, a: nat)
    requires Inv(s)
    ensures Inv(s.(pending := s.pending - {a}))
  {
  }

  lemma StartKeepsRan(s: State, a: nat)
    requires NumbersOk(s) && RanOk(s) && a in s.pending
    ensures NumbersOk(Start(s, a)) && RanOk(Start(s, a))
  {
  }

  /** The numbers of the directly scheduled blocks are their dates, so the minimum has the least. */
  lemma StartKeepsOrder(s: State, a: nat)
    requires NumbersOk(s) && OrderOk(s) && IsMinimum(s, a)
    ensures OrderOk(Start(s, a))
  {
    var r, n := Start(s, a), |s.ran|;
    assert forall i :: 0 <= i < n ==> r.ran[i] == s.ran[i];
    assert r.ran[n] == Ran(a, s.pending[a].number);
    if s.pending[a].number.Some? {
      forall b | b in r.pending && r.pending[b].number.Some?
        ensures s.pending[a].number.value < r.pending[b].number.value
      {
        assert s.pending[a].date <= s.pending[b].date;
      }
    }
  }

  lemma TurnKeeps(code: Code, s: State, a: nat)
    requires Inv(s) && IsMinimum(s, a)
    ensures Inv(Turn(code, s, a))
  {
    DropKeeps(s, a);
    if a !in s.disposed {
      StartKeepsRan(s, a);
      StartKeepsOrder(s, a);
      PerformAllKeeps(Start(s, a), code(Start(s, a), s.pending[a].block));
    }
  }

  /** Between steps, and from other threads, blocks are scheduled and actions disposed of. */
  ghost predicate Moved(code: Code, s: State, t: State) {
    Ticked(code, s, t) || exists e :: t == Perform(s, e)
  }

  ghost predicate Trace(code: Code, states: seq<State>) {
    states != [] && forall i :: 0 <= i < |states| - 1 ==> Moved(code, states[i], states[i + 1])
  }

  /** What ran stays, only live pending actions are added to it, and what becomes pending is new. */
  ghost predicate Grows(s: State, t: State) {
    && |s.ran| <= |t.ran| && (forall i :: 0 <= i < |s.ran| ==> t.ran[i] == s.ran[i])
    && (forall i :: |s.ran| <= i < |t.ran| ==> t.ran[i].action in s.pending && t.ran[i].action !in s.disposed)
    && s.disposed <= t.disposed && s.created <= t.created
    && (forall a :: a in t.pending ==> a in s.pending || s.created <= a)
  }

  lemma PerformGrows(s: State, e: Effect)
    ensures Grows(s, Perform(s, e)) && Perform(s, e).ran == s.ran
  {
  }

  lemma StartGrows(s: State, a: nat)
    requires a in s.pending && a !in s.disposed
    ensures Grows(s, Start(s, a)) && Start(s, a).created == s.created
  {
  }

  lemma TurnGrows(code: Code, s: State, a: nat)
    requires a in s.pending
    ensures Grows(s, Turn(code, s, a))
  {
    if a !in s.disposed {
      StartGrows(s, a);
      PerformAllGrows(Start(s, a), code(Start(s, a), s.pending[a].block));
    }
  }

  lemma MovedKeeps(code: Code, s: State, t: State)
    requires Inv(s) && Moved(code, s, t)
    ensures Inv(t) && Grows(s, t)
  {
    if Ticked(code, s, t) {
      var a :| IsMinimum(s, a) && t == Turn(code, s, a);
      TurnKeeps(code, s, a);
      TurnGrows(code, s, a);
    } else {
      var e :| t == Perform(s, e);
      PerformKeeps(s, e);
      PerformGrows(s, e);
    }
  }

  lemma {:induction false} PerformAllGrows(s: State, effects: seq<Effect>)
    ensures Grows(s, PerformAll(s, effects)) && PerformAll(s, effects).ran == s.ran
    decreases |effects|
  {
    if effects != [] {
      PerformGrows(s, effects[0]);
      PerformAllGrows(Perform(s, effects[0]), effects[1..]);
    }
  }

  /**
   * In every run of steps, blocks scheduled and actions disposed of: no action runs twice, and the
   * blocks given to -schedule: run in the order in which they were, whatever else is scheduled.
   */
  lemma {:induction false} EveryRun(code: Code, states: seq<State>)
    requires Trace(code, states) && states[0] == Initial
    ensures Inv(states[|states| - 1])
    decreases |states|
  {
    if |states| > 1 {
      var n := |states| - 1;
      EveryRun(code, states[..n]);
      assert Moved(code, states[n - 1], states[n]);
      MovedKeeps(code, states[n - 1], states[n]);
    }
  }

  /** An action disposed of before it began never runs. */
  lemma {:induction false} DisposedNeverRuns(code: Code, states: seq<State>, a: nat)
    requires Trace(code, states) && Inv(states[0]) && a in states[0].disposed
    requires forall i :: 0 <= i < |states[0].ran| ==> states[0].ran[i].action != a
    ensures
      var s := states[|states| - 1];
      Inv(s) && a in s.disposed && forall i :: 0 <= i < |s.ran| ==> s.ran[i].action != a
    decreases |states|
  {
    if |states| > 1 {
      var n := |states| - 1;
      DisposedNeverRuns(code, states[..n], a);
      assert Moved(code, states[n - 1], states[n]);
      MovedKeeps(code, states[n - 1], states[n]);
    }
  }

  // ----- the agenda: what was asked for, and in which order it is started

  datatype Request = Direct(block: nat) | At(date: real, block: nat)

  /**
   * The scheduler without a heap: everything asked for, in order, so that an action is the number of its
   * request; which actions have been taken out and disposed of; and which have been started, in order.
   */
  datatype Agenda = Agenda(requests: seq<Request>, gone: set<nat>, disposed: set<nat>, started: seq<nat>)

  function DirectOnes(requests: seq<Request>, n: nat): nat
    requires n <= |requests|
  {
    if n == 0 then 0 else DirectOnes(requests, n - 1) + if requests[n - 1].Direct? then 1 else 0
  }

  function NumberOf(requests: seq<Request>, a: nat): Option<nat> {
    if a < |requests| && requests[a].Direct? then Some(DirectOnes(requests, a)) else None
  }

  /** The date asked for; blocks scheduled directly are for dates 0, 1, 2, ... */
  function DateOf(requests: seq<Request>, a: nat): real
    requires a < |requests|
  {
    if requests[a].Direct? then DirectOnes(requests, a) as real else requests[a].date
  }

  function Ask(g: Agenda, e: Effect): Agenda {
    match e
    case Schedule(block) => g.(requests := g.requests + [Direct(block)])
    case After(date, block) => g.(requests := g.requests + [At(date, block)])
    case Dispose(action) => g.(disposed := g.disposed + {action})
  }

  function AskAll(g: Agenda, effects: seq<Effect>): Agenda
    decreases |effects|
  {
    if effects == [] then g else AskAll(Ask(g, effects[0]), effects[1..])
  }

  predicate Waits(g: Agenda, a: nat) {
    a < |g.requests| && a !in g.gone
  }

  /** No waiting action was asked for an earlier date. */
  ghost predicate Earliest(g: Agenda, a: nat) {
    Waits(g, a) && forall b: nat :: Waits(g, b) ==> DateOf(g.requests, a) <= DateOf(g.requests, b)
  }

  function Scheduling(requests: seq<Request>, a: nat): Scheduled
    requires a < |requests|
  {
    Scheduled(DateOf(requests, a), requests[a].block, NumberOf(requests, a))
  }

  /** What the scheduler keeps of an agenda. */
  function AsState(g: Agenda): State {
    State(
      map a: nat | 0 <= a < |g.requests| && a !in g.gone :: Scheduling(g.requests, a),
      g.disposed, |g.requests|, DirectOnes(g.requests, |g.requests|),
      seq(|g.started|, i requires 0 <= i < |g.started| => Ran(g.started[i], NumberOf(g.requests, g.started[i]))))
  }

  /** The turn of an action: unless it was disposed of, the block asked for runs, and asks for more. */
  function TakeUp(code: Code, g: Agenda, a: nat): Agenda
    requires Waits(g, a)
  {
    if a in g.disposed then g.(gone := g.gone + {a})
    else
      var started := g.(gone := g.gone + {a}, started := g.started + [a]);
      AskAll(started, code(AsState(started), g.requests[a].block))
  }

  ghost predicate Goes(code: Code, g: Agenda, h: Agenda) {
    (exists a: nat :: Earliest(g, a) && h == TakeUp(code, g, a)) || exists e :: h == Ask(g, e)
  }

  lemma {:induction false} DirectOnesPrefix(requests: seq<Request>, r: Request, n: nat)
    requires n <= |requests|
    ensures DirectOnes(requests + [r], n) == DirectOnes(requests, n)
  {
    if n > 0 { DirectOnesPrefix(requests, r, n - 1); }
  }

  lemma RequestsKept(requests: seq<Request>, r: Request, a: nat)
    requires a < |requests|
    ensures Scheduling(requests + [r], a) == Scheduling(requests, a)
    ensures NumberOf(requests + [r], a) == NumberOf(requests, a)
  {
    DirectOnesPrefix(requests, r, a);
  }

  /** Started actions were asked for. */
  ghost predicate AgendaOk(g: Agenda) {
    && (forall i :: 0 <= i < |g.started| ==> g.started[i] < |g.requests| && g.started[i] in g.gone)
    && (forall a :: a in g.gone ==> a < |g.requests|)
  }

  lemma AskIsPerform(g: Agenda, e: Effect)
    requires AgendaOk(g)
    ensures AgendaOk(Ask(g, e)) && AsState(Ask(g, e)) == Perform(AsState(g), e)
  {
    if !e.Dispose? {
      var n, h := |g.requests|, Ask(g, e);
      var r := h.requests[n];
      assert h.requests == g.requests + [r];
      DirectOnesPrefix(g.requests, r, n);
      forall a: nat | a < n
        ensures Scheduling(h.requests, a) == Scheduling(g.requests, a)
        ensures NumberOf(h.requests, a) == NumberOf(g.requests, a)
      {
        RequestsKept(g.requests, r, a);
      }
      assert AsState(h).pending == Perform(AsState(g), e).pending;
      assert AsState(h).ran == AsState(g).ran;
    }
  }

  lemma {:induction false} AskAllIsPerformAll(g: Agenda, effects: seq<Effect>)
    requires AgendaOk(g)
    ensures AgendaOk(AskAll(g, effects)) && AsState(AskAll(g, effects)) == PerformAll(AsState(g), effects)
    decreases |effects|
  {
    if effects != [] {
      AskIsPerform(g, effects[0]);
      AskAllIsPerformAll(Ask(g, effects[0]), effects[1..]);
    }
  }

  lemma EarliestIsMinimum(g: Agenda, a: nat)
    ensures Earliest(g, a) <==> IsMinimum(AsState(g), a)
    ensures a in AsState(g).pending <==> Waits(g, a)
  {
    var s := AsState(g);
    assert forall b: nat :: b in s.pending <==> Waits(g, b);
    assert forall b: nat :: Waits(g, b) ==> s.pending[b].date == DateOf(g.requests, b);
  }

  lemma BeginIsStart(g: Agenda, a: nat)
    requires AgendaOk(g) && Waits(g, a) && a in AsState(g).pending
    ensures
      var h := g.(gone := g.gone + {a}, started := g.started + [a]);
      AgendaOk(h) && AsState(h) == Start(AsState(g), a)
  {
    var h := g.(gone := g.gone + {a}, started := g.started + [a]);
    assert AsState(h).pending == Start(AsState(g), a).pending;
    assert AsState(h).ran == Start(AsState(g), a).ran;
  }

  lemma TakeUpIsTurn(code: Code, g: Agenda, a: nat)
    requires AgendaOk(g) && Waits(g, a)
    ensures a in AsState(g).pending
    ensures AgendaOk(TakeUp(code, g, a)) && AsState(TakeUp(code, g, a)) == Turn(code, AsState(g), a)
  {
    EarliestIsMinimum(g, a);
    if a in g.disposed {
      assert AsState(g.(gone := g.gone + {a})).pending == AsState(g).pending - {a};
    } else {
      BeginIsStart(g, a);
      var h := g.(gone := g.gone + {a}, started := g.started + [a]);
      AskAllIsPerformAll(h, code(AsState(h), g.requests[a].block));
    }
  }

  /** One move of the scheduler is one of the agenda. */
  lemma MovedGoes(code: Code, g: Agenda, t: State) returns (h: Agenda)
    requires AgendaOk(g) && Moved(code, AsState(g), t)
    ensures AgendaOk(h) && AsState(h) == t && Goes(code, g, h)
  {
    if Ticked(code, AsState(g), t) {
      var a :| IsMinimum(AsState(g), a) && t == Turn(code, AsState(g), a);
      EarliestIsMinimum(g, a);
      TakeUpIsTurn(code, g, a);
      h := TakeUp(code, g, a);
    } else {
      var e :| t == Perform(AsState(g), e);
      AskIsPerform(g, e);
      h := Ask(g, e);
    }
  }

  ghost predicate AgendaTrace(code: Code, agendas: seq<Agenda>) {
    && agendas != [] && agendas[0] == Agenda([], {}, {}, [])
    && forall i :: 0 <= i < |agendas| - 1 ==> Goes(code, agendas[i], agendas[i + 1])
  }

  /** Every run is a run of an agenda, of which the heap, the counters and the dates are what they should be. */
  lemma {:induction false} FollowsAgenda(code: Code, states: seq<State>) returns (agendas: seq<Agenda>)
    requires Trace(code, states) && states[0] == Initial
    ensures AgendaTrace(code, agendas) && |agendas| == |states|
    ensures forall i :: 0 <= i < |states| ==> AgendaOk(agendas[i]) && AsState(agendas[i]) == states[i]
    decreases |states|
  {
    if |states| == 1 {
      agendas := [Agenda([], {}, {}, [])];
      assert AsState(agendas[0]) == Initial;
    } else {
      var n := |states| - 1;
      var before := FollowsAgenda(code, states[..n]);
      assert Moved(code, states[n - 1], states[n]);
      var h := MovedGoes(code, before[n - 1], states[n]);
      agendas := before + [h];
    }
  }

  lemma {:induction false} AskAllGrows(g: Agenda, effects: seq<Effect>)
    ensures AskAll(g, effects).gone == g.gone && g.requests <= AskAll(g, effects).requests
    decreases |effects|
  {
    if effects != [] { AskAllGrows(Ask(g, effects[0]), effects[1..]); }
  }

  lemma {:induction false} DatesStay(requests: seq<Request>, more: seq<Request>, n: nat)
    requires requests <= more && n <= |requests|
    ensures DirectOnes(more, n) == DirectOnes(requests, n)
    ensures n < |requests| ==> DateOf(more, n) == DateOf(requests, n)
  {
    if n > 0 { DatesStay(requests, more, n - 1); }
  }

  lemma GoesInOrder(code: Code, g: Agenda, h: Agenda, a: nat, b: nat)
    requires Goes(code, g, h) && Waits(g, a) && Waits(g, b) && DateOf(g.requests, a) < DateOf(g.requests, b)
    ensures g.requests <= h.requests && DateOf(h.requests, a) < DateOf(h.requests, b)
    ensures Waits(h, a) ==> Waits(h, b)
  {
    if c: nat :| Earliest(g, c) && h == TakeUp(code, g, c) {
      var started := g.(gone := g.gone + {c}, started := g.started + [c]);
      AskAllGrows(started, code(AsState(started), g.requests[c].block));
    }
    DatesStay(g.requests, h.requests, a);
    DatesStay(g.requests, h.requests, b);
  }

  /**
   * In every run, of two actions waiting at one time the one asked for a later date is not taken up, so
   * does not run, while the other one waits.
   */
  lemma {:induction false} RunsInDateOrder(code: Code, agendas: seq<Agenda>, i: nat, j: nat, a: nat, b: nat)
    requires AgendaTrace(code, agendas) && i <= j < |agendas|
    requires Waits(agendas[i], a) && Waits(agendas[i], b)
    requires DateOf(agendas[i].requests, a) < DateOf(agendas[i].requests, b)
    requires Waits(agendas[j], a)
    ensures Waits(agendas[j], b) && DateOf(agendas[j].requests, a) < DateOf(agendas[j].requests, b)
    decreases j - i
  {
    if i < j {
      assert Goes(code, agendas[j - 1], agendas[j]);
      StillWaited(code, agendas[j - 1], agendas[j], a);
      GoneOrAsked(code, agendas, i, j - 1, a);
      RunsInDateOrder(code, agendas, i, j - 1, a, b);
      GoesInOrder(code, agendas[j - 1], agendas[j], a, b);
    }
  }

  lemma StillWaited(code: Code, g: Agenda, h: Agenda, a: nat)
    requires Goes(code, g, h)
    ensures g.requests <= h.requests && g.gone <= h.gone
    ensures a < |g.requests| && Waits(h, a) ==> Waits(g, a)
  {
    if c: nat :| Earliest(g, c) && h == TakeUp(code, g, c) {
      var started := g.(gone := g.gone + {c}, started := g.started + [c]);
      AskAllGrows(started, code(AsState(started), g.requests[c].block));
    }
  }

  lemma {:induction false} GoneOrAsked(code: Code, agendas: seq<Agenda>, i: nat, j: nat, a: nat)
    requires AgendaTrace(code, agendas) && i <= j < |agendas| && a < |agendas[i].requests|
    ensures a < |agendas[j].requests|
    decreases j - i
  {
    if i < j {
      GoneOrAsked(code, agendas, i, j - 1, a);
      assert Goes(code, agendas[j - 1], agendas[j]);
      StillWaited(code, agendas[j - 1], agendas[j], a);
    }
  }

  // ----- how far a step gets

  /** No pick is of an action disposed of before its turn. */
  predicate AllLive(code: Code, s: State, picks: seq<nat>) {
    forall k :: 0 <= k < |picks| ==> picks[k] !in Turns(code, s, picks[..k]).disposed
  }

  lemma AllLiveLast(code: Code, s: State, picks: seq<nat>)
    requires picks != []
    ensures
      var n := |picks| - 1;
      AllLive(code, s, picks) <==> AllLive(code, s, picks[..n]) && picks[n] !in Turns(code, s, picks[..n]).disposed
  {
    var n := |picks| - 1;
    assert forall k :: 0 <= k < n ==> picks[..n][..k] == picks[..k];
  }

  /** Each pick of a live action runs a block, and each of a disposed one runs none. */
  lemma {:induction false} TurnsRun(code: Code, s: State, picks: seq<nat>)
    requires Picked(code, s, picks)
    ensures |s.ran| <= |Turns(code, s, picks).ran| <= |s.ran| + |picks|
    ensures |Turns(code, s, picks).ran| == |s.ran| + |picks| <==> AllLive(code, s, picks)
    decreases |picks|
  {
    if picks != [] {
      var front, a := picks[..|picks| - 1], picks[|picks| - 1];
      var before := Turns(code, s, front);
      TurnsRun(code, s, front);
      AllLiveLast(code, s, picks);
      if a !in before.disposed {
        PerformAllGrows(Start(before, a), code(Start(before, a), before.pending[a].block));
      }
    }
  }

  /**
   * With blocks left over, -step: of `ticks` has run that many, as documented, if and only if none of the
   * actions it picked had been disposed of by then.
   */
  lemma RunsTicksBlocksIff(code: Code, s: State, ticks: nat, picks: seq<nat>, t: State)
    requires SteppedBy(code, s, ticks, picks, t) && t.pending != map[]
    ensures |t.ran| - |s.ran| == ticks <==> AllLive(code, s, picks)
  {
    TurnsRun(code, s, picks);
  }

  /** A single step on a disposed action runs nothing although another block is waiting. */
  lemma DisposedActionUsesUpStep(code: Code)
    ensures
      var s := Perform(Perform(Perform(Initial, Schedule(0)), Schedule(1)), Dispose(0));
      exists t :: Stepped(code, s, 1, t) && t.ran == [] && 1 in t.pending
  {
    var s := Perform(Perform(Perform(Initial, Schedule(0)), Schedule(1)), Dispose(0));
    var t := s.(pending := s.pending - {0});
    assert IsMinimum(s, 0);
    assert [0][..0] == [];
    assert SteppedBy(code, s, 1, [0], t);
  }

  // ----- stepAll

  ghost predicate Unused(s: State) {
    forall a :: a in s.pending ==> a < s.created
  }

  lemma {:induction false} PerformAllSchedules(s: State, effects: seq<Effect>)
    requires Unused(s)
    ensures
      var t := PerformAll(s, effects);
      Unused(t) && |t.pending| - |s.pending| == t.created - s.created >= 0
    decreases |effects|
  {
    if effects != [] {
      PerformOne(s, effects[0]);
      PerformAllSchedules(Perform(s, effects[0]), effects[1..]);
    }
  }

  lemma PerformOne(s: State, e: Effect)
    requires Unused(s)
    ensures
      var t := Perform(s, e);
      Unused(t) && |t.pending| - |s.pending| == t.created - s.created >= 0
  {
    assert s.created !in s.pending;
    assert Perform(s, e).pending.Keys == if e.Dispose? then s.pending.Keys else s.pending.Keys + {s.created};
  }

  lemma TurnSchedules(code: Code, s: State, a: nat)
    requires Unused(s) && a in s.pending
    ensures
      var t := Turn(code, s, a);
      Unused(t) && |t.pending| + 1 - |s.pending| == t.created - s.created >= 0
  {
    assert (s.pending - {a}).Keys == s.pending.Keys - {a};
    if a !in s.disposed { PerformAllSchedules(Start(s, a), code(Start(s, a), s.pending[a].block)); }
  }

  /** What is pending afterwards was pending or has been scheduled since, less one for each pick. */
  lemma {:induction false} TurnsSchedule(code: Code, s: State, picks: seq<nat>)
    requires Unused(s) && Picked(code, s, picks)
    ensures
      var t := Turns(code, s, picks);
      Unused(t) && |t.pending| + |picks| == |s.pending| + t.created - s.created
    decreases |picks|
  {
    if picks != [] {
      var front := picks[..|picks| - 1];
      TurnsSchedule(code, s, front);
      TurnSchedules(code, Turns(code, s, front), picks[|picks| - 1]);
    }
  }

  /**
   * -step: leaves nothing pending if and only if the actions that were, with those scheduled meanwhile, are
   * at most its ticks, whatever blocks reschedule themselves for a while or are never run.
   */
  lemma StepEmptiesIff(code: Code, s: State, ticks: nat, t: State)
    requires Inv(s) && Stepped(code, s, ticks, t)
    ensures t.pending == map[] <==> |s.pending| + t.created - s.created <= ticks
  {
    var picks :| SteppedBy(code, s, ticks, picks, t);
    TurnsSchedule(code, s, picks);
  }

  /** So -stepAll ends with nothing pending when fewer than 2^64 blocks are scheduled in all. */
  lemma StepAllEmpties(code: Code, s: State, t: State)
    requires Inv(s) && Stepped(code, s, UIntMax, t) && |s.pending| + t.created - s.created <= UIntMax
    ensures t.pending == map[]
  {
    StepEmptiesIff(code, s, UIntMax, t);
  }

  ghost predicate IsLeast(pending: map<nat, Scheduled>, actions: set<nat>, a: nat)
    requires actions <= pending.Keys
  {
    a in actions && forall b :: b in actions ==> pending[a].date <= pending[b].date
  }

  lemma {:induction false} LeastExists(pending: map<nat, Scheduled>, actions: set<nat>)
    requires actions != {} && actions <= pending.Keys
    ensures exists a :: IsLeast(pending, actions, a)
    decreases |actions|
  {
    var a :| a in actions;
    var rest := actions - {a};
    assert actions == rest + {a};
    if rest == {} {
      assert IsLeast(pending, actions, a);
    } else {
      LeastExists(pending, rest);
      var m :| IsLeast(pending, rest, m);
      var least := if pending[a].date <= pending[m].date then a else m;
      assert IsLeast(pending, actions, least);
    }
  }

  // ----- the object

  class Scheduler {
    var scheduledActions: map<nat, Scheduled>
    var disposed: set<nat>
    var created: nat
    var numberOfDirectlyScheduledBlocks: nat
    var ran: seq<Ran>

    ghost function View(): State
      reads this
    {
      State(scheduledActions, disposed, created, numberOfDirectlyScheduledBlocks, ran)
    }

    constructor ()
      ensures View() == Initial
    {
      scheduledActions, disposed, created, numberOfDirectlyScheduledBlocks, ran := map[], {}, 0, 0, [];
    }

    method Do(e: Effect) returns (action: nat)
      modifies this
      ensures View() == Perform(old(View()), e)
      ensures !e.Dispose? ==> action == old(created)
    {
      action := created;
      match e {
        case Schedule(block) =>
          var uniqueDate := numberOfDirectlyScheduledBlocks as real;
          var action := Scheduled(uniqueDate, block, Some(numberOfDirectlyScheduledBlocks));
          scheduledActions := scheduledActions[created := action];
          numberOfDirectlyScheduledBlocks := numberOfDirectlyScheduledBlocks + 1;
          created := created + 1;
        case After(date, block) =>
          scheduledActions := scheduledActions[created := Scheduled(date, block, None)];
          created := created + 1;
        case Dispose(a) => disposed := disposed + {a};
      }
    }

    method RunBlock(effects: seq<Effect>)
      modifies this
      ensures View() == PerformAll(old(View()), effects)
    {
      ghost var s := View();
      for i := 0 to |effects|
        invariant PerformAll(View(), effects[i..]) == PerformAll(s, effects)
      {
        assert effects[i..][0] == effects[i] && effects[i..][1..] == effects[i + 1..];
        var _ := Do(effects[i]);
      }
      assert effects[|effects|..] == [];
    }

    method Step(code: Code, ticks: nat) returns (ghost picks: seq<nat>)
      modifies this
      ensures SteppedBy(code, old(View()), ticks, picks, View())
    {
      ghost var s := View();
      picks := [];
      for i := 0 to ticks
        invariant Picked(code, s, picks) && View() == Turns(code, s, picks) && |picks| == i
      {
        if scheduledActions == map[] { break; }
        LeastExists(scheduledActions, scheduledActions.Keys);
        var a :| a in scheduledActions && forall b :: b in scheduledActions ==>
          scheduledActions[a].date <= scheduledActions[b].date;
        var action := scheduledActions[a];
        scheduledActions := scheduledActions - {a};
        Lists.WithoutLast(picks, a);
        picks := picks + [a];
        if a in disposed { continue; }
        ran := ran + [Ran(a, action.number)];
        var now := State(scheduledActions, disposed, created, numberOfDirectlyScheduledBlocks, ran);
        RunBlock(code(now, action.block));
      }
    }
  }
}
