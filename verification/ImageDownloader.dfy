/** AFImageDownloader: merged requests, a bounded number of active downloads, and cancellation. */
module ImageDownloader {
  import Lists
  import opened Options
  import opened Sums

  type Url = string
  type Receipt = int
  type Image = int

  datatype Outcome = Downloaded(image: Image) | FromCache(image: Image) | Failed(error: int) | Cancelled | BadUrl

  datatype SessionState = Suspended | Running | Canceling | Completed

  /** How far the completion handler of a task has got on the response queue. */
  datatype Phase =
    | Waiting
    | Called
    | Replying(next: nat)
    | Decrementing
    | StartingNext
    | Done

  /** A merged task with its data task; `started` remembers that it was resumed, `result` what the session reported. */
  datatype Task = Task(
    url: Url, session: SessionState, started: bool, result: Option<Outcome>, phase: Phase, handlers: seq<Receipt>)

  /** A block sent to the main queue, by a task's completion handler or directly by a call. */
  datatype Reply =
    | Direct(receipt: Receipt, outcome: Outcome)
    | ByTask(receipt: Receipt, outcome: Outcome, task: nat)

  /** `tasks` are all merged tasks ever created, in order; the others name them by position. */
  datatype State = State(
    maximum: int, lifo: bool,
    tasks: seq<Task>, merged: map<Url, nat>, queue: seq<nat>, active: int,
    issued: seq<Receipt>, replies: seq<Reply>)

  /** Blocks of the synchronization queue, and the sections of a completion handler between them. */
  datatype Action =
    | Download(request: Option<Url>, receipt: Receipt, cached: Option<Image>)
    | Cancel(url: Url, receipt: Receipt)
    | SessionCompletes(task: nat, outcome: Outcome)
    | Handle(task: nat)

  function Initial(maximum: int, lifo: bool): State {
    State(maximum, lifo, [], map[], [], 0, [], [])
  }

  predicate Is(s: State, t: nat, session: SessionState) {
    t < |s.tasks| && s.tasks[t].session == session
  }

  predicate IsMerged(s: State, t: nat) {
    t < |s.tasks| && s.tasks[t].url in s.merged && s.merged[s.tasks[t].url] == t
  }

  function Say(s: State, reply: Reply): State {
    s.(replies := s.replies + [reply])
  }

  function Set(s: State, t: nat, task: Task): State
    requires t < |s.tasks|
  {
    s.(tasks := s.tasks[t := task])
  }

  function Start(s: State, t: nat): State
    requires t < |s.tasks|
  {
    Set(s, t, s.tasks[t].(session := Running, started := true)).(active := s.active + 1)
  }

  function Enqueue(s: State, t: nat): State {
    s.(queue := if s.lifo then [t] + s.queue else s.queue + [t])
  }

  /** removeObject: drops every occurrence. */
  function Without(queue: seq<nat>, t: nat): (r: seq<nat>)
    ensures |r| <= |queue|
    ensures t in queue ==> |r| < |queue|
  {
    if queue == [] then []
    else if queue[0] == t then Without(queue[1..], t)
    else [queue[0]] + Without(queue[1..], t)
  }

  /** Dequeues until a task that is still suspended has been started or the queue is empty. */
  function StartFromQueue(s: State): State
    decreases |s.queue|
  {
    if s.queue == [] then s
    else
      var t, rest := s.queue[0], s.(queue := Without(s.queue, s.queue[0]));
      if Is(s, t, Suspended) then Start(rest, t) else StartFromQueue(rest)
  }

  function StartNext(s: State): State {
    if s.active < s.maximum then StartFromQueue(s) else s
  }

  function Add(s: State, url: Url, receipt: Receipt): State {
    var t := |s.tasks|;
    var task := Task(url, Suspended, false, None, Waiting, [receipt]);
    var added := s.(tasks := s.tasks + [task], merged := s.merged[url := t]);
    if s.active < s.maximum then Start(added, t) else Enqueue(added, t)
  }

  function Attach(s: State, t: nat, receipt: Receipt): State
    requires t < |s.tasks|
  {
    Set(s, t, s.tasks[t].(handlers := s.tasks[t].handlers + [receipt]))
  }

  /** The handlers without the first one of this receipt. */
  function Remove(handlers: seq<Receipt>, receipt: Receipt): seq<Receipt> {
    if handlers == [] then []
    else if handlers[0] == receipt then handlers[1..]
    else [handlers[0]] + Remove(handlers[1..], receipt)
  }

  function Detach(s: State, t: nat, receipt: Receipt): State
    requires t < |s.tasks|
  {
    if receipt in s.tasks[t].handlers then
      Say(Set(s, t, s.tasks[t].(handlers := Remove(s.tasks[t].handlers, receipt))), Direct(receipt, Cancelled))
    else s
  }

  /** A pending task without handlers is cancelled and forgotten, but stays in the queue. */
  function Abandon(s: State, t: nat): State
    requires t < |s.tasks|
  {
    if s.tasks[t].handlers == [] && s.tasks[t].session == Suspended then
      Set(s, t, s.tasks[t].(session := Canceling)).(merged := s.merged - {s.tasks[t].url})
    else s
  }

  function Section(s: State, t: nat): State
    requires t < |s.tasks|
  {
    var task := s.tasks[t];
    match task.phase
    case Called =>
      if IsMerged(s, t) then Set(s, t, task.(phase := Replying(0))).(merged := s.merged - {task.url})
      else Set(s, t, task.(phase := Decrementing))
    case Replying(next) =>
      if next < |task.handlers| && task.result.Some? then
        Say(Set(s, t, task.(phase := Replying(next + 1))), ByTask(task.handlers[next], task.result.value, t))
      else Set(s, t, task.(phase := Decrementing))
    case Decrementing =>
      Set(s, t, task.(phase := StartingNext)).(active := if s.active > 0 then s.active - 1 else s.active)
    case StartingNext => StartNext(Set(s, t, task.(phase := Done)))
    case _ => s
  }

  function Apply(s: State, a: Action): State {
    match a
    case Download(request, receipt, cached) =>
      var i := s.(issued := s.issued + [receipt]);
      if request.None? then Say(i, Direct(receipt, BadUrl))
      else if request.value in s.merged && s.merged[request.value] < |s.tasks| then
        Attach(i, s.merged[request.value], receipt)
      else if cached.Some? then Say(i, Direct(receipt, FromCache(cached.value)))
      else Add(i, request.value, receipt)
    case Cancel(url, receipt) =>
      if url in s.merged && s.merged[url] < |s.tasks| then Abandon(Detach(s, s.merged[url], receipt), s.merged[url])
      else s
    case SessionCompletes(t, outcome) =>
      if Is(s, t, Running) || Is(s, t, Canceling) then
        Set(s, t, s.tasks[t].(session := Completed, result := Some(outcome), phase := Called))
      else s
    case Handle(t) => if t < |s.tasks| then Section(s, t) else s
  }

  function Run(s: State, actions: seq<Action>): State
    decreases |actions|
  {
    if actions == [] then s else Apply(Run(s, actions[..|actions| - 1]), actions[|actions| - 1])
  }

  // ----- counts over all tasks

  /** Downloads that hold a slot: resumed, and not yet past their decrement. */
  function Slot(task: Task): nat {
    if task.started && !task.phase.StartingNext? && !task.phase.Done? then 1 else 0
  }

  function Live(s: State): nat {
    Sum(s.tasks, Slot)
  }

  /** Handlers about to look for a task to start. */
  function Starter(task: Task): nat {
    if task.phase.StartingNext? then 1 else 0
  }

  // ----- invariants of every run

  /** The dictionary names tasks not yet handled, and only those still have handlers to come. */
  ghost predicate MergedOk(s: State) {
    && (forall url :: url in s.merged ==> s.merged[url] < |s.tasks|)
    && (forall url :: url in s.merged ==> s.tasks[s.merged[url]].url == url && Pending(s.tasks[s.merged[url]]))
    && (forall t: nat :: t < |s.tasks| && Pending(s.tasks[t]) && !IsMerged(s, t) ==> s.tasks[t].handlers == [])
  }

  /** The completion handler has not looked the task up yet. */
  predicate Pending(task: Task) {
    task.phase.Waiting? || task.phase.Called?
  }

  predicate TaskOk(task: Task) {
    && (task.phase.Waiting? <==> task.session != Completed)
    && (task.phase.Waiting? <==> task.result.None?)
    && (task.phase.Replying? ==> task.phase.next <= |task.handlers|)
    && (task.session == Running ==> task.started)
    && (task.session == Suspended || task.session == Canceling ==> !task.started)
  }

  ghost predicate TasksOk(s: State) {
    forall t: nat :: t < |s.tasks| ==> TaskOk(s.tasks[t])
  }

  /** The queue holds every suspended task, no started one, in arrival order or the reverse. */
  ghost predicate QueueOk(s: State) {
    && (forall t :: t in s.queue ==> t < |s.tasks| && !s.tasks[t].started)
    && (forall t: nat :: Is(s, t, Suspended) ==> t in s.queue)
    && (forall i, j :: 0 <= i < j < |s.queue| ==> if s.lifo then s.queue[i] > s.queue[j] else s.queue[i] < s.queue[j])
  }

  ghost predicate SlotsOk(s: State) {
    && 0 <= s.active <= Live(s)
    && (s.active > 0 ==> s.active <= s.maximum)
    && ((exists t: nat :: Is(s, t, Suspended)) ==> s.active + Sum(s.tasks, Starter) >= s.maximum)
  }

  ghost predicate Inv(s: State) {
    MergedOk(s) && TasksOk(s) && QueueOk(s) && SlotsOk(s)
  }

  // ----- each block keeps them

  /** One task changed, in place, without becoming suspended; the queue is as it was. */
  ghost predicate Changed(s: State, t: nat, r: State) {
    && t < |s.tasks| == |r.tasks| && r.tasks == s.tasks[t := r.tasks[t]]
    && r.tasks[t].url == s.tasks[t].url && r.tasks[t].started == s.tasks[t].started && TaskOk(r.tasks[t])
    && (r.tasks[t].session == Suspended ==> s.tasks[t].session == Suspended)
    && r.queue == s.queue && r.lifo == s.lifo && r.maximum == s.maximum
  }

  lemma ChangeKeepsMerged(s: State, t: nat, r: State)
    requires MergedOk(s) && Changed(s, t, r)
    requires
      || (r.merged == s.merged && (Pending(s.tasks[t]) <==> Pending(r.tasks[t]))
          && (IsMerged(s, t) || r.tasks[t].handlers == s.tasks[t].handlers))
      || (IsMerged(s, t) && r.merged == s.merged - {s.tasks[t].url}
          && (Pending(r.tasks[t]) ==> r.tasks[t].handlers == []))
      || (r.merged == s.merged && !IsMerged(s, t) && !Pending(r.tasks[t]))
    ensures MergedOk(r)
  {
    assert forall u: nat :: u < |s.tasks| && u != t ==> (IsMerged(r, u) <==> IsMerged(s, u));
  }

  lemma ChangeKeepsQueue(s: State, t: nat, r: State)
    requires TasksOk(s) && QueueOk(s) && Changed(s, t, r)
    ensures TasksOk(r) && QueueOk(r)
  {
    assert forall u: nat :: Is(r, u, Suspended) ==> Is(s, u, Suspended);
  }

  lemma ChangeOfSums(s: State, t: nat, r: State)
    requires Changed(s, t, r)
    ensures Live(r) == Live(s) - Slot(s.tasks[t]) + Slot(r.tasks[t])
    ensures Sum(r.tasks, Starter) == Sum(s.tasks, Starter) - Starter(s.tasks[t]) + Starter(r.tasks[t])
    ensures (exists u: nat :: Is(r, u, Suspended)) ==> exists u: nat :: Is(s, u, Suspended)
  {
    SumSet(s.tasks, t, r.tasks[t], Slot);
    SumSet(s.tasks, t, r.tasks[t], Starter);
    assert forall u: nat :: Is(r, u, Suspended) ==> Is(s, u, Suspended);
  }

  lemma AttachKeeps(s: State, t: nat, receipt: Receipt)
    requires Inv(s) && IsMerged(s, t)
    ensures Inv(Attach(s, t, receipt))
  {
    var r := Attach(s, t, receipt);
    ChangeKeepsMerged(s, t, r);
    ChangeKeepsQueue(s, t, r);
    ChangeOfSums(s, t, r);
  }

  lemma DetachKeeps(s: State, t: nat, receipt: Receipt)
    requires Inv(s) && IsMerged(s, t)
    ensures Inv(Detach(s, t, receipt)) && IsMerged(Detach(s, t, receipt), t)
  {
    var r := Detach(s, t, receipt);
    if receipt in s.tasks[t].handlers {
      ChangeKeepsMerged(s, t, r);
      ChangeKeepsQueue(s, t, r);
      ChangeOfSums(s, t, r);
    }
  }

  lemma AbandonKeeps(s: State, t: nat)
    requires Inv(s) && IsMerged(s, t)
    ensures Inv(Abandon(s, t))
  {
    var r := Abandon(s, t);
    if r != s {
      ChangeKeepsMerged(s, t, r);
      ChangeKeepsQueue(s, t, r);
      ChangeOfSums(s, t, r);
    }
  }

  lemma CompleteKeeps(s: State, t: nat, outcome: Outcome)
    requires Inv(s) && (Is(s, t, Running) || Is(s, t, Canceling))
    ensures Inv(Apply(s, SessionCompletes(t, outcome)))
  {
    var r := Apply(s, SessionCompletes(t, outcome));
    assert TaskOk(s.tasks[t]);
    ChangeKeepsMerged(s, t, r);
    ChangeKeepsQueue(s, t, r);
    ChangeOfSums(s, t, r);
  }

  lemma AddKeepsMerged(s: State, url: Url, receipt: Receipt)
    requires MergedOk(s) && url !in s.merged
    ensures MergedOk(Add(s, url, receipt))
  {
    var r, t := Add(s, url, receipt), |s.tasks|;
    assert r.tasks == s.tasks + [r.tasks[t]];
    assert r.merged == s.merged[url := t];
    assert forall u: nat :: u < t ==> (IsMerged(r, u) <==> IsMerged(s, u));
    assert IsMerged(r, t);
  }

  lemma AddKeepsTasks(s: State, url: Url, receipt: Receipt)
    requires TasksOk(s)
    ensures TasksOk(Add(s, url, receipt))
  {
    var r, t := Add(s, url, receipt), |s.tasks|;
    assert forall u: nat :: u < t ==> r.tasks[u] == s.tasks[u];
  }

  lemma AddKeepsQueue(s: State, url: Url, receipt: Receipt)
    requires TasksOk(s) && QueueOk(s)
    ensures TasksOk(Add(s, url, receipt)) && QueueOk(Add(s, url, receipt))
  {
    var r, t := Add(s, url, receipt), |s.tasks|;
    AddKeepsTasks(s, url, receipt);
    assert forall u: nat :: u < t ==> r.tasks[u] == s.tasks[u];
    assert forall i :: 0 <= i < |s.queue| ==> s.queue[i] in s.queue;
    assert s.active >= s.maximum ==> t in r.queue;
  }

  lemma AddKeepsSlots(s: State, url: Url, receipt: Receipt)
    requires SlotsOk(s)
    ensures SlotsOk(Add(s, url, receipt))
  {
    var r, t := Add(s, url, receipt), |s.tasks|;
    assert r.tasks == s.tasks + [r.tasks[t]];
    SumAppend(s.tasks, r.tasks[t], Slot);
    SumAppend(s.tasks, r.tasks[t], Starter);
    assert s.active < s.maximum ==> !Is(r, t, Suspended);
    assert forall u: nat :: u < t ==> (Is(r, u, Suspended) <==> Is(s, u, Suspended));
  }

  /** Everything but the last clause of `SlotsOk`, which may be one starter short. */
  ghost predicate OneShort(s: State) {
    && MergedOk(s) && TasksOk(s) && QueueOk(s)
    && 0 <= s.active <= Live(s)
    && (s.active > 0 ==> s.active <= s.maximum)
    && ((exists t: nat :: Is(s, t, Suspended)) ==> s.active + Sum(s.tasks, Starter) + 1 >= s.maximum)
  }

  lemma CalledKeeps(s: State, t: nat)
    requires Inv(s) && t < |s.tasks| && s.tasks[t].phase.Called?
    ensures Inv(Section(s, t))
  {
    var r := Section(s, t);
    assert TaskOk(s.tasks[t]);
    ChangeKeepsMerged(s, t, r);
    ChangeKeepsQueue(s, t, r);
    ChangeOfSums(s, t, r);
  }

  lemma ReplyingKeeps(s: State, t: nat)
    requires Inv(s) && t < |s.tasks| && s.tasks[t].phase.Replying?
    ensures Inv(Section(s, t))
  {
    var r := Section(s, t);
    assert TaskOk(s.tasks[t]);
    NotMerged(s, t);
    ChangeKeepsMerged(s, t, r);
    ChangeKeepsQueue(s, t, r);
    ChangeOfSums(s, t, r);
  }

  lemma NotMerged(s: State, t: nat)
    requires MergedOk(s) && t < |s.tasks| && !Pending(s.tasks[t])
    ensures !IsMerged(s, t)
  {
  }

  lemma DecrementKeeps(s: State, t: nat)
    requires Inv(s) && t < |s.tasks| && s.tasks[t].phase.Decrementing?
    ensures Inv(Section(s, t))
  {
    var r := Section(s, t);
    assert TaskOk(s.tasks[t]);
    NotMerged(s, t);
    ChangeKeepsMerged(s, t, r);
    ChangeKeepsQueue(s, t, r);
    ChangeOfSums(s, t, r);
    SumPositive(s.tasks, Slot);
  }

  lemma SectionKeeps(s: State, t: nat)
    requires Inv(s) && t < |s.tasks| && !s.tasks[t].phase.StartingNext?
    ensures Inv(Section(s, t))
  {
    match s.tasks[t].phase
    case Called => CalledKeeps(s, t);
    case Replying(_) => ReplyingKeeps(s, t);
    case Decrementing => DecrementKeeps(s, t);
    case _ =>
  }

  lemma LastSectionKeeps(s: State, t: nat)
    requires Inv(s) && t < |s.tasks| && s.tasks[t].phase.StartingNext?
    ensures OneShort(Set(s, t, s.tasks[t].(phase := Done)))
  {
    assert TaskOk(s.tasks[t]);
    var r := Set(s, t, s.tasks[t].(phase := Done));
    ChangeKeepsMerged(s, t, r);
    ChangeKeepsQueue(s, t, r);
    ChangeOfSums(s, t, r);
  }

  /** Whether `t` is the suspended task that is first by the prioritization. */
  ghost predicate IsNext(s: State, t: nat) {
    && Is(s, t, Suspended)
    && forall u: nat :: Is(s, u, Suspended) ==> if s.lifo then u <= t else t <= u
  }

  lemma {:induction false} WithoutAbsent(queue: seq<nat>, t: nat)
    requires t !in queue
    ensures Without(queue, t) == queue
    decreases |queue|
  {
    if queue != [] { WithoutAbsent(queue[1..], t); }
  }

  lemma DequeueFirst(s: State)
    requires QueueOk(s) && s.queue != []
    ensures Without(s.queue, s.queue[0]) == s.queue[1..]
    ensures !Is(s, s.queue[0], Suspended) ==> QueueOk(s.(queue := s.queue[1..]))
  {
    WithoutAbsent(s.queue[1..], s.queue[0]);
    var r := s.(queue := s.queue[1..]);
    assert forall t :: t in r.queue ==> t in s.queue;
    forall t: nat | Is(r, t, Suspended) && t != s.queue[0] ensures t in r.queue {
      assert Is(s, t, Suspended);
    }
  }

  /** `r` is `s` with the first suspended task started, and it and those before it out of the queue. */
  ghost predicate FirstStarted(s: State, r: State) {
    exists t: nat, rest :: IsNext(s, t) && r == Start(s.(queue := rest), t)
  }

  lemma HeadIsNext(s: State)
    requires QueueOk(s) && s.queue != [] && Is(s, s.queue[0], Suspended)
    ensures IsNext(s, s.queue[0])
    ensures QueueOk(Start(s.(queue := s.queue[1..]), s.queue[0]))
  {
    var r := Start(s.(queue := s.queue[1..]), s.queue[0]);
    assert forall u :: u in r.queue ==> u in s.queue;
    assert forall u: nat :: Is(r, u, Suspended) ==> Is(s, u, Suspended) && u != s.queue[0];
    assert forall u: nat :: Is(s, u, Suspended) ==> u in s.queue;
  }

  /** The queue gives out the first suspended task of the prioritization, if there is any. */
  lemma {:induction false} StartsFirst(s: State)
    requires QueueOk(s)
    ensures QueueOk(StartFromQueue(s))
    ensures (exists t: nat :: Is(s, t, Suspended)) ==> FirstStarted(s, StartFromQueue(s))
    ensures !(exists t: nat :: Is(s, t, Suspended)) ==> StartFromQueue(s) == s.(queue := [])
    decreases |s.queue|
  {
    if s.queue == [] {
      assert s == s.(queue := []);
    } else {
      DequeueFirst(s);
      var rest := s.(queue := s.queue[1..]);
      if Is(s, s.queue[0], Suspended) {
        HeadIsNext(s);
        assert StartFromQueue(s) == Start(s.(queue := s.queue[1..]), s.queue[0]);
      } else {
        StartsFirst(rest);
        assert forall u: nat :: Is(rest, u, Suspended) <==> Is(s, u, Suspended);
        if FirstStarted(rest, StartFromQueue(rest)) {
          var u: nat, q :| IsNext(rest, u) && StartFromQueue(rest) == Start(rest.(queue := q), u);
          assert IsNext(s, u) && StartFromQueue(s) == Start(s.(queue := q), u);
        }
      }
    }
  }

  /** Whatever the queue holds: at most one suspended task is started, and nothing else changes but the queue. */
  lemma {:induction false} NextStarted(s: State) returns (t: Option<nat>, rest: seq<nat>)
    ensures t.Some? ==> Is(s, t.value, Suspended)
    ensures StartFromQueue(s) == if t.None? then s.(queue := rest) else Start(s.(queue := rest), t.value)
    decreases |s.queue|
  {
    if s.queue == [] {
      t, rest := None, [];
    } else {
      var left := s.(queue := Without(s.queue, s.queue[0]));
      if Is(s, s.queue[0], Suspended) { t, rest := Some(s.queue[0]), left.queue; }
      else { t, rest := NextStarted(left); }
    }
  }

  lemma StartKeeps(s: State, t: nat, rest: seq<nat>)
    requires OneShort(s) && Is(s, t, Suspended) && s.active < s.maximum
    requires QueueOk(Start(s.(queue := rest), t))
    ensures Inv(Start(s.(queue := rest), t))
  {
    var r := Start(s.(queue := rest), t);
    assert TaskOk(s.tasks[t]);
    SumSet(s.tasks, t, r.tasks[t], Slot);
    SumSet(s.tasks, t, r.tasks[t], Starter);
    assert forall u: nat :: Is(r, u, Suspended) ==> Is(s, u, Suspended);
    assert forall u: nat :: u < |s.tasks| ==> (IsMerged(r, u) <==> IsMerged(s, u));
    StartKeepsMerged(s, t, rest);
  }

  lemma StartKeepsMerged(s: State, t: nat, rest: seq<nat>)
    requires MergedOk(s) && Is(s, t, Suspended)
    ensures MergedOk(Start(s.(queue := rest), t))
  {
    var r := Start(s.(queue := rest), t);
    assert forall u: nat :: u < |s.tasks| ==> (IsMerged(r, u) <==> IsMerged(s, u));
  }

  lemma StartNextKeeps(s: State)
    requires OneShort(s)
    ensures Inv(StartNext(s))
  {
    if s.active < s.maximum {
      StartsFirst(s);
      var r := StartFromQueue(s);
      if exists t: nat :: Is(s, t, Suspended) {
        var t: nat, rest :| IsNext(s, t) && r == Start(s.(queue := rest), t);
        StartKeeps(s, t, rest);
      } else {
        assert forall t: nat :: Is(r, t, Suspended) ==> Is(s, t, Suspended);
        assert forall u: nat :: u < |s.tasks| ==> (IsMerged(r, u) <==> IsMerged(s, u));
      }
    }
  }

  lemma DownloadKeeps(s: State, a: Action)
    requires Inv(s) && a.Download?
    ensures Inv(Apply(s, a))
  {
    var i := s.(issued := s.issued + [a.receipt]);
    SameTasks(s, i);
    if a.request.Some? && a.request.value in s.merged {
      AttachKeeps(i, s.merged[a.request.value], a.receipt);
    } else if a.request.Some? && a.cached.None? {
      AddKeepsMerged(i, a.request.value, a.receipt);
      AddKeepsQueue(i, a.request.value, a.receipt);
      AddKeepsSlots(i, a.request.value, a.receipt);
    } else {
      SameTasks(s, Apply(s, a));
    }
  }

  lemma CancelKeeps(s: State, a: Action)
    requires Inv(s) && a.Cancel?
    ensures Inv(Apply(s, a))
  {
    if a.url in s.merged {
      DetachKeeps(s, s.merged[a.url], a.receipt);
      AbandonKeeps(Detach(s, s.merged[a.url], a.receipt), s.merged[a.url]);
    }
  }

  lemma HandleKeeps(s: State, t: nat)
    requires Inv(s) && t < |s.tasks|
    ensures Inv(Section(s, t))
  {
    if s.tasks[t].phase.StartingNext? {
      LastSectionKeeps(s, t);
      StartNextKeeps(Set(s, t, s.tasks[t].(phase := Done)));
    } else {
      SectionKeeps(s, t);
    }
  }

  lemma ApplyKeeps(s: State, a: Action)
    requires Inv(s)
    ensures Inv(Apply(s, a))
  {
    match a
    case Download(_, _, _) => DownloadKeeps(s, a);
    case Cancel(_, _) => CancelKeeps(s, a);
    case SessionCompletes(t, outcome) =>
      if Is(s, t, Running) || Is(s, t, Canceling) { CompleteKeeps(s, t, outcome); }
    case Handle(t) => if t < |s.tasks| { HandleKeeps(s, t); }
  }

  lemma SameTasks(s: State, r: State)
    requires Inv(s) && r == s.(issued := r.issued, replies := r.replies)
    ensures Inv(r)
  {
    assert forall u: nat :: u < |s.tasks| ==> (IsMerged(r, u) <==> IsMerged(s, u));
    assert forall t: nat :: Is(r, t, Suspended) <==> Is(s, t, Suspended);
  }

  // ----- every receipt is answered at most once

  function Count(receipts: seq<Receipt>, receipt: Receipt): nat {
    if receipts == [] then 0
    else Count(receipts[..|receipts| - 1], receipt) + if receipts[|receipts| - 1] == receipt then 1 else 0
  }

  function Answers(replies: seq<Reply>, receipt: Receipt): nat {
    if replies == [] then 0
    else Answers(replies[..|replies| - 1], receipt) + if replies[|replies| - 1].receipt == receipt then 1 else 0
  }

  /** The position of the first handler that has not been called. */
  function Answered(task: Task): nat {
    match task.phase
    case Waiting => 0
    case Called => 0
    case Replying(next) => if next <= |task.handlers| then next else |task.handlers|
    case _ => |task.handlers|
  }

  function Owed(task: Task, receipt: Receipt): nat {
    CountAfter(task.handlers, Answered(task), receipt)
  }

  function CountAfter(handlers: seq<Receipt>, n: nat, receipt: Receipt): nat
    decreases |handlers| - n
  {
    if n >= |handlers| then 0
    else CountAfter(handlers, n + 1, receipt) + if handlers[n] == receipt then 1 else 0
  }

  lemma {:induction false} CountSplits(handlers: seq<Receipt>, n: nat, receipt: Receipt)
    requires n <= |handlers|
    ensures Count(handlers[..n], receipt) + CountAfter(handlers, n, receipt) == Count(handlers, receipt)
    decreases |handlers| - n
  {
    if n == |handlers| {
      assert handlers[..n] == handlers;
    } else {
      CountSplits(handlers, n + 1, receipt);
      assert handlers[..n + 1][..n] == handlers[..n];
    }
  }

  function OwedTo(receipt: Receipt): Task -> nat {
    (task: Task) => Owed(task, receipt)
  }

  /** Every receipt ever given out is either answered or still held by exactly one task. */
  ghost predicate Ledger(s: State, receipt: Receipt) {
    Count(s.issued, receipt) == Answers(s.replies, receipt) + Sum(s.tasks, OwedTo(receipt))
  }

  lemma CountAppend(receipts: seq<Receipt>, x: Receipt, receipt: Receipt)
    ensures Count(receipts + [x], receipt) == Count(receipts, receipt) + if x == receipt then 1 else 0
  {
    assert (receipts + [x])[..|receipts|] == receipts;
  }

  lemma CountOne(x: Receipt, receipt: Receipt)
    ensures Count([x], receipt) == if x == receipt then 1 else 0
  {
    assert [x][..0] == [];
  }

  lemma {:induction false} CountConcat(a: seq<Receipt>, b: seq<Receipt>, receipt: Receipt)
    ensures Count(a + b, receipt) == Count(a, receipt) + Count(b, receipt)
    decreases |b|
  {
    if b == [] {
      assert a + b == a;
    } else {
      var n := |b| - 1;
      CountConcat(a, b[..n], receipt);
      assert (a + b)[..|a + b| - 1] == a + b[..n];
    }
  }

  lemma {:induction false} CountRemove(handlers: seq<Receipt>, x: Receipt, receipt: Receipt)
    requires x in handlers
    ensures Count(handlers, receipt) == Count(Remove(handlers, x), receipt) + if x == receipt then 1 else 0
    decreases |handlers|
  {
    var tail := handlers[1..];
    assert handlers == [handlers[0]] + tail;
    CountConcat([handlers[0]], tail, receipt);
    assert [handlers[0]][..0] == [];
    if handlers[0] != x {
      CountRemove(tail, x, receipt);
      CountConcat([handlers[0]], Remove(tail, x), receipt);
    }
  }

  lemma AnswersAppend(replies: seq<Reply>, reply: Reply, receipt: Receipt)
    ensures Answers(replies + [reply], receipt) == Answers(replies, receipt) + if reply.receipt == receipt then 1 else 0
  {
    assert (replies + [reply])[..|replies|] == replies;
  }

  /** A change of one task keeps the ledger when what it owes and what was answered balance. */
  lemma Balanced(s: State, t: nat, r: State, receipt: Receipt)
    requires Ledger(s, receipt) && t < |s.tasks| == |r.tasks| && r.tasks == s.tasks[t := r.tasks[t]]
    requires Count(r.issued, receipt) - Count(s.issued, receipt)
      == Answers(r.replies, receipt) - Answers(s.replies, receipt)
         + Owed(r.tasks[t], receipt) - Owed(s.tasks[t], receipt)
    ensures Ledger(r, receipt)
  {
    SumSet(s.tasks, t, r.tasks[t], OwedTo(receipt));
  }

  lemma PendingOwes(task: Task, receipt: Receipt)
    requires Pending(task)
    ensures Owed(task, receipt) == Count(task.handlers, receipt)
  {
    CountSplits(task.handlers, 0, receipt);
  }

  lemma AttachKeepsLedger(s: State, i: State, t: nat, x: Receipt, receipt: Receipt)
    requires Ledger(s, receipt) && t < |s.tasks| && Pending(s.tasks[t]) && i == s.(issued := s.issued + [x])
    ensures Ledger(Attach(i, t, x), receipt)
  {
    var r := Attach(i, t, x);
    CountAppend(s.issued, x, receipt);
    CountAppend(s.tasks[t].handlers, x, receipt);
    PendingOwes(s.tasks[t], receipt);
    PendingOwes(r.tasks[t], receipt);
    Balanced(s, t, r, receipt);
  }

  /** The merged task of a new download. */
  function NewTask(s: State, url: Url, x: Receipt): Task {
    Task(url, if s.active < s.maximum then Running else Suspended, s.active < s.maximum, None, Waiting, [x])
  }

  lemma AddAppends(s: State, url: Url, x: Receipt)
    ensures Add(s, url, x).tasks == s.tasks + [NewTask(s, url, x)]
  {
  }

  lemma NewTaskOwes(s: State, url: Url, x: Receipt, receipt: Receipt)
    ensures Owed(NewTask(s, url, x), receipt) == if x == receipt then 1 else 0
  {
    PendingOwes(NewTask(s, url, x), receipt);
    CountOne(x, receipt);
  }

  lemma AddKeepsLedger(s: State, i: State, url: Url, x: Receipt, receipt: Receipt)
    requires Ledger(s, receipt) && i == s.(issued := s.issued + [x])
    ensures Ledger(Add(i, url, x), receipt)
  {
    AddAppends(i, url, x);
    NewTaskOwes(i, url, x, receipt);
    SumAppend(i.tasks, NewTask(i, url, x), OwedTo(receipt));
    CountAppend(s.issued, x, receipt);
  }

  lemma DownloadKeepsLedger(s: State, a: Action, receipt: Receipt)
    requires MergedOk(s) && Ledger(s, receipt) && a.Download?
    ensures Ledger(Apply(s, a), receipt)
  {
    var i := s.(issued := s.issued + [a.receipt]);
    if a.request.Some? && a.request.value in s.merged {
      AttachKeepsLedger(s, i, s.merged[a.request.value], a.receipt, receipt);
    } else if a.request.Some? && a.cached.None? {
      AddKeepsLedger(s, i, a.request.value, a.receipt, receipt);
    } else {
      CountAppend(s.issued, a.receipt, receipt);
      AnswersAppend(s.replies, Direct(a.receipt, if a.request.None? then BadUrl else FromCache(a.cached.value)),
        receipt);
    }
  }

  lemma DetachKeepsLedger(s: State, t: nat, x: Receipt, receipt: Receipt)
    requires Ledger(s, receipt) && t < |s.tasks| && Pending(s.tasks[t])
    ensures Ledger(Detach(s, t, x), receipt)
  {
    var r := Detach(s, t, x);
    if x in s.tasks[t].handlers {
      CountRemove(s.tasks[t].handlers, x, receipt);
      AnswersAppend(s.replies, Direct(x, Cancelled), receipt);
      PendingOwes(s.tasks[t], receipt);
      PendingOwes(r.tasks[t], receipt);
      Balanced(s, t, r, receipt);
    }
  }

  lemma AbandonKeepsLedger(s: State, t: nat, receipt: Receipt)
    requires Ledger(s, receipt) && t < |s.tasks|
    ensures Ledger(Abandon(s, t), receipt)
  {
    var r := Abandon(s, t);
    if r != s { Balanced(s, t, r, receipt); }
  }

  lemma CancelKeepsLedger(s: State, a: Action, receipt: Receipt)
    requires MergedOk(s) && Ledger(s, receipt) && a.Cancel?
    ensures Ledger(Apply(s, a), receipt)
  {
    if a.url in s.merged {
      var t := s.merged[a.url];
      var mid := Detach(s, t, a.receipt);
      DetachKeepsLedger(s, t, a.receipt, receipt);
      AbandonKeepsLedger(mid, t, receipt);
    }
  }

  lemma OwedAfterReply(task: Task, receipt: Receipt)
    requires task.phase.Replying? && task.phase.next < |task.handlers|
    ensures Owed(task, receipt) == Owed(task.(phase := Replying(task.phase.next + 1)), receipt)
      + if task.handlers[task.phase.next] == receipt then 1 else 0
  {
  }

  lemma ReplyKeepsLedger(s: State, t: nat, receipt: Receipt)
    requires Ledger(s, receipt) && t < |s.tasks| && s.tasks[t].phase.Replying? && TaskOk(s.tasks[t])
    ensures Ledger(Section(s, t), receipt)
  {
    var task := s.tasks[t];
    if task.phase.next < |task.handlers| {
      var reply := ByTask(task.handlers[task.phase.next], task.result.value, t);
      var after := task.(phase := Replying(task.phase.next + 1));
      OwedAfterReply(task, receipt);
      AnswersAppend(s.replies, reply, receipt);
      Balanced(s, t, Say(Set(s, t, after), reply), receipt);
    } else {
      Balanced(s, t, Set(s, t, task.(phase := Decrementing)), receipt);
    }
  }

  lemma StartFromQueueOwes(s: State, receipt: Receipt)
    ensures StartFromQueue(s).issued == s.issued && StartFromQueue(s).replies == s.replies
    ensures Sum(StartFromQueue(s).tasks, OwedTo(receipt)) == Sum(s.tasks, OwedTo(receipt))
  {
    var t, rest := NextStarted(s);
    if t.Some? { SumSet(s.tasks, t.value, StartFromQueue(s).tasks[t.value], OwedTo(receipt)); }
  }

  lemma CalledKeepsLedger(s: State, t: nat, receipt: Receipt)
    requires MergedOk(s) && Ledger(s, receipt) && t < |s.tasks| && s.tasks[t].phase.Called?
    ensures Ledger(Section(s, t), receipt)
  {
    Balanced(s, t, Section(s, t), receipt);
  }

  lemma HandleKeepsLedger(s: State, t: nat, receipt: Receipt)
    requires Inv(s) && Ledger(s, receipt) && t < |s.tasks|
    ensures Ledger(Section(s, t), receipt)
  {
    var task := s.tasks[t];
    match task.phase
    case Replying(_) => ReplyKeepsLedger(s, t, receipt);
    case StartingNext =>
      var done := Set(s, t, task.(phase := Done));
      LastSectionKeeps(s, t);
      Balanced(s, t, done, receipt);
      StartFromQueueOwes(done, receipt);
    case Called => CalledKeepsLedger(s, t, receipt);
    case Decrementing => Balanced(s, t, Section(s, t), receipt);
    case _ =>
  }

  ghost predicate Ledgers(s: State) {
    forall receipt :: Ledger(s, receipt)
  }

  /** Every step keeps every receipt's account. */
  lemma ApplyKeepsLedgers(s: State, a: Action)
    requires Inv(s) && Ledgers(s)
    ensures Ledgers(Apply(s, a))
  {
    forall receipt ensures Ledger(Apply(s, a), receipt) {
      assert Ledger(s, receipt);
      match a
      case Download(_, _, _) => DownloadKeepsLedger(s, a, receipt);
      case Cancel(_, _) => CancelKeepsLedger(s, a, receipt);
      case SessionCompletes(t, _) => SessionKeepsLedger(s, a, receipt);
      case Handle(t) => if t < |s.tasks| { HandleKeepsLedger(s, t, receipt); }
    }
  }

  lemma SessionKeepsLedger(s: State, a: Action, receipt: Receipt)
    requires TasksOk(s) && Ledger(s, receipt) && a.SessionCompletes?
    ensures Ledger(Apply(s, a), receipt)
  {
    if Is(s, a.task, Running) || Is(s, a.task, Canceling) {
      assert TaskOk(s.tasks[a.task]);
      Balanced(s, a.task, Apply(s, a), receipt);
    }
  }

  // ----- and in the order the handlers were attached, with what the session reported

  /** The receipts a task's completion handler has called back, in order. */
  function Told(replies: seq<Reply>, t: nat): seq<Receipt> {
    if replies == [] then []
    else
      var before, last := Told(replies[..|replies| - 1], t), replies[|replies| - 1];
      if last.ByTask? && last.task == t then before + [last.receipt] else before
  }

  ghost predicate InAttachOrder(s: State, t: nat) {
    Told(s.replies, t) == if t < |s.tasks| then s.tasks[t].handlers[..Answered(s.tasks[t])] else []
  }

  predicate SaysResult(s: State, reply: Reply) {
    reply.ByTask? ==> reply.task < |s.tasks| && s.tasks[reply.task].result == Some(reply.outcome)
  }

  ghost predicate OutcomesOk(s: State) {
    forall i :: 0 <= i < |s.replies| ==> SaysResult(s, s.replies[i])
  }

  lemma ToldAppend(replies: seq<Reply>, reply: Reply, t: nat)
    ensures Told(replies + [reply], t)
      == if reply.ByTask? && reply.task == t then Told(replies, t) + [reply.receipt] else Told(replies, t)
  {
    assert (replies + [reply])[..|replies|] == replies;
  }

  lemma StartNextSays(s: State)
    ensures StartNext(s).replies == s.replies && |StartNext(s).tasks| == |s.tasks|
  {
    var u, rest := NextStarted(s);
  }

  /** Looking for a task to start changes at most whether a task has been started. */
  lemma StartNextFrame(s: State, t: nat)
    requires t < |s.tasks|
    ensures |StartNext(s).tasks| == |s.tasks|
    ensures
      var after := StartNext(s).tasks[t];
      after == s.tasks[t].(session := after.session, started := after.started)
  {
    var u, rest := NextStarted(s);
  }

  /** From `s` to `r` no task lost a result, and at most one reply was sent. */
  ghost predicate Extends(s: State, r: State) {
    && |s.tasks| <= |r.tasks|
    && (forall t: nat :: t < |s.tasks| && s.tasks[t].result.Some? ==> r.tasks[t].result == s.tasks[t].result)
    && (r.replies == s.replies
        || (|r.replies| == |s.replies| + 1 && r.replies[..|s.replies|] == s.replies
          && SaysResult(r, r.replies[|s.replies|])))
  }

  lemma ExtendsOutcomes(s: State, r: State)
    requires OutcomesOk(s) && Extends(s, r)
    ensures OutcomesOk(r)
  {
    forall i | 0 <= i < |r.replies| ensures SaysResult(r, r.replies[i]) {
      if i < |s.replies| {
        assert r.replies[i] == r.replies[..|s.replies|][i] == s.replies[i];
        assert SaysResult(s, s.replies[i]);
      }
    }
  }

  lemma SayKeepsOrder(s: State, reply: Reply, t: nat)
    requires InAttachOrder(s, t) && !(reply.ByTask? && reply.task == t)
    ensures InAttachOrder(Say(s, reply), t)
  {
    ToldAppend(s.replies, reply, t);
  }

  lemma AddKeepsOrder(s: State, url: Url, receipt: Receipt, t: nat)
    requires InAttachOrder(s, t)
    ensures InAttachOrder(Add(s, url, receipt), t) && Extends(s, Add(s, url, receipt))
  {
  }

  lemma AttachKeepsOrder(s: State, u: nat, receipt: Receipt, t: nat)
    requires InAttachOrder(s, t) && u < |s.tasks| && Pending(s.tasks[u])
    ensures InAttachOrder(Attach(s, u, receipt), t) && Extends(s, Attach(s, u, receipt))
  {
  }

  lemma DownloadKeepsOrder(s: State, a: Action, t: nat)
    requires MergedOk(s) && InAttachOrder(s, t) && a.Download?
    ensures InAttachOrder(Apply(s, a), t) && Extends(s, Apply(s, a))
  {
    var i := s.(issued := s.issued + [a.receipt]);
    if a.request.None? {
      SayKeepsOrder(i, Direct(a.receipt, BadUrl), t);
    } else if a.request.value in s.merged {
      AttachKeepsOrder(i, s.merged[a.request.value], a.receipt, t);
    } else if a.cached.Some? {
      SayKeepsOrder(i, Direct(a.receipt, FromCache(a.cached.value)), t);
    } else {
      AddKeepsOrder(i, a.request.value, a.receipt, t);
    }
  }

  lemma SetKeepsOrder(s: State, u: nat, task: Task, t: nat)
    requires InAttachOrder(s, t) && u < |s.tasks|
    requires task.handlers[..Answered(task)] == s.tasks[u].handlers[..Answered(s.tasks[u])]
    ensures InAttachOrder(Set(s, u, task), t)
  {
  }

  lemma DetachKeepsOrder(s: State, u: nat, x: Receipt, t: nat)
    requires InAttachOrder(s, t) && u < |s.tasks| && Pending(s.tasks[u])
    ensures InAttachOrder(Detach(s, u, x), t) && Extends(s, Detach(s, u, x))
  {
    if x in s.tasks[u].handlers {
      var task := s.tasks[u].(handlers := Remove(s.tasks[u].handlers, x));
      SetKeepsOrder(s, u, task, t);
      SayKeepsOrder(Set(s, u, task), Direct(x, Cancelled), t);
    }
  }

  lemma AbandonKeepsOrder(s: State, u: nat, t: nat)
    requires InAttachOrder(s, t) && u < |s.tasks|
    ensures InAttachOrder(Abandon(s, u), t)
  {
    SetKeepsOrder(s, u, s.tasks[u].(session := Canceling), t);
  }

  lemma AbandonExtends(s: State, m: State, u: nat)
    requires Extends(s, m) && u < |s.tasks| == |m.tasks|
    ensures Extends(s, Abandon(m, u))
  {
  }

  lemma CancelKeepsOrder(s: State, a: Action, t: nat)
    requires MergedOk(s) && InAttachOrder(s, t) && a.Cancel?
    ensures InAttachOrder(Apply(s, a), t) && Extends(s, Apply(s, a))
  {
    if a.url in s.merged {
      var u := s.merged[a.url];
      DetachKeepsOrder(s, u, a.receipt, t);
      AbandonKeepsOrder(Detach(s, u, a.receipt), u, t);
      AbandonExtends(s, Detach(s, u, a.receipt), u);
    }
  }

  lemma ReplyKeepsOrder(s: State, u: nat, t: nat)
    requires InAttachOrder(s, t) && u < |s.tasks| && s.tasks[u].phase.Replying? && TaskOk(s.tasks[u])
    ensures InAttachOrder(Section(s, u), t)
  {
    var task := s.tasks[u];
    if task.phase.next >= |task.handlers| {
      SetKeepsOrder(s, u, task.(phase := Decrementing), t);
    } else if t == u {
      TellNext(s, t);
    } else {
      OtherToldSame(s, u, t);
    }
  }

  lemma OtherToldSame(s: State, u: nat, t: nat)
    requires InAttachOrder(s, t) && u < |s.tasks| && s.tasks[u].phase.Replying? && TaskOk(s.tasks[u])
    requires s.tasks[u].phase.next < |s.tasks[u].handlers| && t != u
    ensures InAttachOrder(Section(s, u), t)
  {
    var task := s.tasks[u];
    var reply := ByTask(task.handlers[task.phase.next], task.result.value, u);
    var after := task.(phase := Replying(task.phase.next + 1));
    OtherSetSame(s, u, after, t);
    SayKeepsOrder(Set(s, u, after), reply, t);
  }

  lemma OtherSetSame(s: State, u: nat, task: Task, t: nat)
    requires InAttachOrder(s, t) && u < |s.tasks| && t != u
    ensures InAttachOrder(Set(s, u, task), t)
  {
  }

  lemma ReplyExtends(s: State, u: nat)
    requires u < |s.tasks| && s.tasks[u].phase.Replying? && TaskOk(s.tasks[u])
    ensures Extends(s, Section(s, u))
  {
    var task := s.tasks[u];
    if task.phase.next < |task.handlers| {
      Lists.WithoutLast(s.replies, ByTask(task.handlers[task.phase.next], task.result.value, u));
    }
  }

  lemma TellNext(s: State, t: nat)
    requires InAttachOrder(s, t) && t < |s.tasks| && s.tasks[t].phase.Replying? && TaskOk(s.tasks[t])
    requires s.tasks[t].phase.next < |s.tasks[t].handlers|
    ensures
      var task := s.tasks[t];
      var reply := ByTask(task.handlers[task.phase.next], task.result.value, t);
      Told(s.replies + [reply], t) == task.handlers[..task.phase.next + 1]
  {
    var task := s.tasks[t];
    ToldAppend(s.replies, ByTask(task.handlers[task.phase.next], task.result.value, t), t);
    Lists.TakeOneMore(task.handlers, task.phase.next);
  }

  lemma CalledKeepsOrder(s: State, u: nat, t: nat)
    requires MergedOk(s) && InAttachOrder(s, t) && u < |s.tasks| && s.tasks[u].phase.Called?
    ensures InAttachOrder(Section(s, u), t) && Extends(s, Section(s, u))
  {
  }

  lemma StartNextKeepsOrder(s: State, t: nat)
    requires QueueOk(s) && InAttachOrder(s, t)
    ensures InAttachOrder(StartNext(s), t) && StartNext(s).replies == s.replies && |StartNext(s).tasks| == |s.tasks|
  {
    StartNextSays(s);
    if t < |s.tasks| { StartNextFrame(s, t); }
  }

  lemma LastKeepsOrder(s: State, u: nat, t: nat)
    requires Inv(s) && InAttachOrder(s, t) && u < |s.tasks| && s.tasks[u].phase.StartingNext?
    ensures InAttachOrder(Section(s, u), t) && Extends(s, Section(s, u))
  {
    var done := Set(s, u, s.tasks[u].(phase := Done));
    LastSectionKeeps(s, u);
    SetKeepsOrder(s, u, done.tasks[u], t);
    StartNextKeepsOrder(done, t);
    forall v: nat | v < |s.tasks| && s.tasks[v].result.Some?
      ensures Section(s, u).tasks[v].result == s.tasks[v].result
    {
      StartNextFrame(done, v);
    }
  }

  lemma CompleteKeepsOrder(s: State, u: nat, outcome: Outcome, t: nat)
    requires TasksOk(s) && InAttachOrder(s, t)
    ensures
      var r := Apply(s, SessionCompletes(u, outcome));
      InAttachOrder(r, t) && Extends(s, r)
  {
    if Is(s, u, Running) || Is(s, u, Canceling) {
      assert TaskOk(s.tasks[u]);
      SetKeepsOrder(s, u, s.tasks[u].(session := Completed, result := Some(outcome), phase := Called), t);
    }
  }

  lemma SectionKeepsOrder(s: State, u: nat, t: nat)
    requires Inv(s) && InAttachOrder(s, t) && u < |s.tasks|
    ensures InAttachOrder(Section(s, u), t) && Extends(s, Section(s, u))
  {
    assert TaskOk(s.tasks[u]);
    match s.tasks[u].phase
    case Called => CalledKeepsOrder(s, u, t);
    case Replying(_) =>
      ReplyKeepsOrder(s, u, t);
      ReplyExtends(s, u);
    case StartingNext => LastKeepsOrder(s, u, t);
    case Decrementing => SetKeepsOrder(s, u, s.tasks[u].(phase := StartingNext), t);
    case _ =>
  }

  lemma ApplyKeepsOrder(s: State, a: Action, t: nat)
    requires Inv(s) && InAttachOrder(s, t)
    ensures InAttachOrder(Apply(s, a), t) && Extends(s, Apply(s, a))
  {
    match a
    case Download(_, _, _) => DownloadKeepsOrder(s, a, t);
    case Cancel(_, _) => CancelKeepsOrder(s, a, t);
    case SessionCompletes(u, outcome) => CompleteKeepsOrder(s, u, outcome, t);
    case Handle(u) => if u < |s.tasks| { SectionKeepsOrder(s, u, t); }
  }

  // ----- every run

  /** The machine's invariants, the ledger of every receipt, and order and outcome of all answers. */
  ghost predicate Correct(s: State) {
    && Inv(s) && OutcomesOk(s)
    && Ledgers(s)
    && (forall t: nat :: InAttachOrder(s, t))
  }

  /** They hold in every run of downloads, cancellations, completions and handler sections, in any order. */
  lemma {:induction false} EveryRun(maximum: int, lifo: bool, actions: seq<Action>)
    ensures Correct(Run(Initial(maximum, lifo), actions))
    decreases |actions|
  {
    if actions != [] {
      var s, a := Run(Initial(maximum, lifo), actions[..|actions| - 1]), actions[|actions| - 1];
      EveryRun(maximum, lifo, actions[..|actions| - 1]);
      ApplyKeepsCorrect(s, a);
    }
  }

  /** A receipt is never answered more often than it was given out: not twice, not after a cancellation. */
  lemma AnsweredAtMostOnce(maximum: int, lifo: bool, actions: seq<Action>, receipt: Receipt)
    ensures
      var s := Run(Initial(maximum, lifo), actions);
      Answers(s.replies, receipt) <= Count(s.issued, receipt)
  {
    EveryRun(maximum, lifo, actions);
    assert Ledger(Run(Initial(maximum, lifo), actions), receipt);
  }

  /** Work the session and the handlers can still do without a further call. */
  predicate Enabled(s: State, a: Action) {
    match a
    case SessionCompletes(t, _) => Is(s, t, Running) || Is(s, t, Canceling)
    case Handle(t) => t < |s.tasks| && !s.tasks[t].phase.Waiting? && !s.tasks[t].phase.Done?
    case _ => false
  }

  function Rank(task: Task): nat {
    match task.phase
    case Waiting => |task.handlers| + 6
    case Called => |task.handlers| + 5
    case Replying(next) => if next <= |task.handlers| then |task.handlers| - next + 3 else 3
    case Decrementing => 2
    case StartingNext => 1
    case Done => 0
  }

  lemma StartNextKeepsRank(s: State)
    requires QueueOk(s)
    ensures Sum(StartNext(s).tasks, Rank) == Sum(s.tasks, Rank)
  {
    var r := StartNext(s);
    StartNextSays(s);
    forall t: nat | t < |s.tasks| ensures Rank(s.tasks[t]) == Rank(r.tasks[t]) {
      StartNextFrame(s, t);
      assert r.tasks[t].phase == s.tasks[t].phase && r.tasks[t].handlers == s.tasks[t].handlers;
    }
    SumEqual(s.tasks, r.tasks, Rank);
  }

  lemma LastWorkDecreases(s: State, t: nat)
    requires Inv(s) && t < |s.tasks| && s.tasks[t].phase.StartingNext?
    ensures Sum(Section(s, t).tasks, Rank) < Sum(s.tasks, Rank)
  {
    var done := Set(s, t, s.tasks[t].(phase := Done));
    LastSectionKeeps(s, t);
    SumSet(s.tasks, t, done.tasks[t], Rank);
    StartNextKeepsRank(done);
  }

  /** Completing, and each section but the last, changes one task and ranks it lower. */
  lemma OneTaskWorks(s: State, a: Action)
    requires TasksOk(s) && Enabled(s, a) && !(a.Handle? && s.tasks[a.task].phase.StartingNext?)
    ensures |Apply(s, a).tasks| == |s.tasks| && Apply(s, a).tasks == s.tasks[a.task := Apply(s, a).tasks[a.task]]
    ensures Rank(Apply(s, a).tasks[a.task]) < Rank(s.tasks[a.task])
  {
    assert TaskOk(s.tasks[a.task]);
  }

  /** Such work cannot go on for ever. */
  lemma WorkDecreases(s: State, a: Action)
    requires Inv(s) && Enabled(s, a)
    ensures Sum(Apply(s, a).tasks, Rank) < Sum(s.tasks, Rank)
  {
    if a.Handle? && s.tasks[a.task].phase.StartingNext? {
      LastWorkDecreases(s, a.task);
    } else {
      OneTaskWorks(s, a);
      SumSet(s.tasks, a.task, Apply(s, a).tasks[a.task], Rank);
    }
  }

  /** With a positive maximum it ends only when every receipt has been answered as often as it was given out. */
  lemma StopsOnlyWhenAllAnswered(s: State, receipt: Receipt)
    requires Correct(s) && s.maximum > 0 && forall a :: !Enabled(s, a)
    ensures Answers(s.replies, receipt) == Count(s.issued, receipt)
    ensures forall t: nat :: t < |s.tasks| ==> s.tasks[t].phase.Done?
  {
    forall t: nat | t < |s.tasks| ensures s.tasks[t].phase.Done? {
      AllDone(s, t);
    }
    SumPositive(s.tasks, OwedTo(receipt));
    assert Ledger(s, receipt);
    assert forall t: nat :: t < |s.tasks| ==> OwedTo(receipt)(s.tasks[t]) == 0;
  }

  /** With nothing left to do, a task is done or still suspended, so no slot is held or about to be filled. */
  lemma NobodyHoldsSlot(s: State)
    requires Inv(s) && forall a :: !Enabled(s, a)
    ensures forall t: nat :: t < |s.tasks| ==> s.tasks[t].phase.Done? || Is(s, t, Suspended)
    ensures Live(s) == 0 && Sum(s.tasks, Starter) == 0
  {
    forall t: nat | t < |s.tasks|
      ensures s.tasks[t].phase.Done? || Is(s, t, Suspended)
      ensures Slot(s.tasks[t]) == 0 && Starter(s.tasks[t]) == 0
    {
      assert TaskOk(s.tasks[t]);
      assert !Enabled(s, Handle(t));
      assert !Enabled(s, SessionCompletes(t, Cancelled));
    }
    SumPositive(s.tasks, Starter);
    SumPositive(s.tasks, Slot);
  }

  lemma AllDone(s: State, t: nat)
    requires Inv(s) && s.maximum > 0 && t < |s.tasks| && forall a :: !Enabled(s, a)
    ensures s.tasks[t].phase.Done?
  {
    NobodyHoldsSlot(s);
    assert !exists u: nat :: Is(s, u, Suspended);
  }

  // ----- slots and starting order

  /** While a task is suspended, no slot is free unless a handler is about to fill it. */
  lemma NoIdleSlot(s: State)
    requires Inv(s) && forall t: nat :: t < |s.tasks| ==> !s.tasks[t].phase.StartingNext?
    requires exists t: nat :: Is(s, t, Suspended)
    ensures s.active >= s.maximum
  {
    SumPositive(s.tasks, Starter);
  }

  predicate NewlyStarted(s: State, a: Action, t: nat) {
    t < |Apply(s, a).tasks| && Apply(s, a).tasks[t].started && !(t < |s.tasks| && s.tasks[t].started)
  }

  /** Only a new download and the end of a completion handler start tasks. */
  lemma StartedBy(s: State, a: Action, t: nat)
    requires MergedOk(s) && NewlyStarted(s, a, t)
    ensures a.Download? ==> t == |s.tasks|
    ensures !a.Download? ==> a.Handle? && a.task < |s.tasks| && s.tasks[a.task].phase.StartingNext?
  {
  }

  lemma StartNextStartsFirst(s: State, t: nat)
    requires QueueOk(s) && t < |StartNext(s).tasks| && StartNext(s).tasks[t].started
    requires t < |s.tasks| ==> !s.tasks[t].started
    ensures IsNext(s, t)
  {
    StartsFirst(s);
    var v: nat, rest :| IsNext(s, v) && StartFromQueue(s) == Start(s.(queue := rest), v);
  }

  lemma LastSectionStartsFirst(s: State, u: nat, t: nat)
    requires Inv(s) && u < |s.tasks| && s.tasks[u].phase.StartingNext? && NewlyStarted(s, Handle(u), t)
    ensures IsNext(s, t)
  {
    var done := Set(s, u, s.tasks[u].(phase := Done));
    LastSectionKeeps(s, u);
    assert Apply(s, Handle(u)) == StartNext(done);
    StartNextStartsFirst(done, t);
    assert forall v: nat :: Is(done, v, Suspended) <==> Is(s, v, Suspended);
  }

  /**
   * A task is started in the order of the prioritization unless, first in first out, it is a new
   * download that is started at once while others wait for a slot just given back.
   */
  lemma StartsInOrderIff(s: State, a: Action, t: nat)
    requires Inv(s) && NewlyStarted(s, a, t)
    ensures (forall u: nat :: Is(s, u, Suspended) && u != t ==> if s.lifo then u < t else t < u)
      <==> s.lifo || !a.Download? || !exists u: nat :: Is(s, u, Suspended)
  {
    StartedBy(s, a, t);
    if a.Handle? { LastSectionStartsFirst(s, a.task, t); }
  }

  // ----- the maximum

  /** The completion of a task cancelled before it was started gives back a slot it never took. */
  predicate Phantom(s: State, a: Action) {
    && a.Handle? && a.task < |s.tasks| && s.tasks[a.task].phase.Decrementing?
    && !s.tasks[a.task].started && s.active > 0
  }

  predicate Unpaid(s: State, a: Action) {
    && a.Handle? && a.task < |s.tasks| && s.tasks[a.task].phase.Decrementing?
    && s.tasks[a.task].started && s.active == 0
  }

  function Uncounted(s: State): int {
    Live(s) - s.active
  }

  lemma UncountedSet(s: State, t: nat, r: State)
    requires t < |s.tasks| == |r.tasks| && r.tasks == s.tasks[t := r.tasks[t]] && r.maximum == s.maximum
    ensures Uncounted(r) - Uncounted(s) == Slot(r.tasks[t]) - Slot(s.tasks[t]) + s.active - r.active
  {
    SumSet(s.tasks, t, r.tasks[t], Slot);
  }

  lemma AddUncounted(s: State, url: Url, x: Receipt)
    ensures Uncounted(Add(s, url, x)) == Uncounted(s)
  {
    AddAppends(s, url, x);
    SumAppend(s.tasks, NewTask(s, url, x), Slot);
  }

  lemma DownloadUncounted(s: State, a: Action)
    requires MergedOk(s) && a.Download?
    ensures Uncounted(Apply(s, a)) == Uncounted(s)
  {
    var i := s.(issued := s.issued + [a.receipt]);
    if a.request.Some? && a.request.value in s.merged {
      UncountedSet(s, s.merged[a.request.value], Apply(s, a));
    } else if a.request.Some? && a.cached.None? {
      AddUncounted(i, a.request.value, a.receipt);
    }
  }

  lemma LastSectionUncounted(s: State, t: nat)
    requires Inv(s) && t < |s.tasks| && s.tasks[t].phase.StartingNext?
    ensures Uncounted(Section(s, t)) == Uncounted(s) && Section(s, t).maximum == s.maximum
  {
    var done := Set(s, t, s.tasks[t].(phase := Done));
    LastSectionKeeps(s, t);
    UncountedSet(s, t, done);
    StartNextUncounted(done);
  }

  lemma StartNextUncounted(s: State)
    requires TasksOk(s)
    ensures Uncounted(StartNext(s)) == Uncounted(s) && StartNext(s).maximum == s.maximum
  {
    var u, rest := NextStarted(s);
    if u.Some? && s.active < s.maximum {
      assert TaskOk(s.tasks[u.value]);
      UncountedSet(s, u.value, StartNext(s));
    }
  }

  lemma SectionUncounted(s: State, t: nat)
    requires Inv(s) && t < |s.tasks| && !s.tasks[t].phase.StartingNext?
    ensures Uncounted(Section(s, t)) ==
      Uncounted(s) + (if Phantom(s, Handle(t)) then 1 else if Unpaid(s, Handle(t)) then -1 else 0)
  {
    assert s.active >= 0;
    UncountedSet(s, t, Section(s, t));
  }

  lemma CancelUncounted(s: State, a: Action)
    requires MergedOk(s) && a.Cancel?
    ensures Uncounted(Apply(s, a)) == Uncounted(s) && Apply(s, a).maximum == s.maximum
  {
    if a.url in s.merged { UncountedSet(s, s.merged[a.url], Apply(s, a)); }
  }

  lemma UncountedStep(s: State, a: Action)
    requires Inv(s)
    ensures Uncounted(Apply(s, a)) == Uncounted(s) + (if Phantom(s, a) then 1 else if Unpaid(s, a) then -1 else 0)
    ensures Apply(s, a).maximum == s.maximum
  {
    match a
    case Download(_, _, _) => DownloadUncounted(s, a);
    case Cancel(_, _) => CancelUncounted(s, a);
    case SessionCompletes(t, _) =>
      if Enabled(s, a) {
        assert TaskOk(s.tasks[t]);
        UncountedSet(s, t, Apply(s, a));
      }
    case Handle(t) =>
      if t < |s.tasks| {
        if s.tasks[t].phase.StartingNext? { LastSectionUncounted(s, t); } else { SectionUncounted(s, t); }
      }
  }

  /** Without such completions the downloads in progress never exceed the maximum. */
  lemma {:induction false} WithinMaximum(maximum: int, lifo: bool, actions: seq<Action>)
    requires forall k :: 0 <= k < |actions| ==> !Phantom(Run(Initial(maximum, lifo), actions[..k]), actions[k])
    ensures
      var s := Run(Initial(maximum, lifo), actions);
      && s.maximum == maximum && Live(s) == s.active && (Live(s) > 0 ==> Live(s) <= maximum)
      && RunningNow(s) <= Live(s)
    decreases |actions|
  {
    if actions != [] {
      var n := |actions| - 1;
      assert forall k :: 0 <= k < n ==> actions[..n][..k] == actions[..k];
      WithinMaximum(maximum, lifo, actions[..n]);
      EveryRun(maximum, lifo, actions[..n]);
      EveryRun(maximum, lifo, actions);
      UncountedStep(Run(Initial(maximum, lifo), actions[..n]), actions[n]);
      LiveRunOrFinish(Run(Initial(maximum, lifo), actions).tasks);
    }
  }

  /** How many completions in a run give back a slot they never took. */
  function Phantoms(start: State, actions: seq<Action>): nat {
    if actions == [] then 0
    else
      var front, last := actions[..|actions| - 1], actions[|actions| - 1];
      Phantoms(start, front) + if Phantom(Run(start, front), last) then 1 else 0
  }

  /** How many give back none, because none was counted. */
  function Unpaids(start: State, actions: seq<Action>): nat {
    if actions == [] then 0
    else
      var front, last := actions[..|actions| - 1], actions[|actions| - 1];
      Unpaids(start, front) + if Unpaid(Run(start, front), last) then 1 else 0
  }

  /** Over every run the downloads in progress and not counted are the first less the second. */
  lemma {:induction false} UncountedOverRun(maximum: int, lifo: bool, actions: seq<Action>)
    ensures
      var s := Run(Initial(maximum, lifo), actions);
      && s.maximum == maximum
      && Live(s) - s.active == Phantoms(Initial(maximum, lifo), actions) - Unpaids(Initial(maximum, lifo), actions)
    decreases |actions|
  {
    if actions != [] {
      var n := |actions| - 1;
      UncountedOverRun(maximum, lifo, actions[..n]);
      EveryRun(maximum, lifo, actions[..n]);
      UncountedStep(Run(Initial(maximum, lifo), actions[..n]), actions[n]);
    }
  }

  function Fetch(urls: seq<Url>): seq<Action> {
    if urls == [] then [] else Fetch(urls[..|urls| - 1]) + [Download(Some(urls[|urls| - 1]), 0, None)]
  }

  ghost predicate Fresh(s: State, urls: seq<Url>) {
    && (forall i :: 0 <= i < |urls| ==> urls[i] !in s.merged)
    && (forall i, j :: 0 <= i < j < |urls| ==> urls[i] != urls[j])
  }

  /** Downloads whose session task is running. */
  function InSession(task: Task): nat {
    if task.session == Running then 1 else 0
  }

  function RunningNow(s: State): nat {
    Sum(s.tasks, InSession)
  }

  lemma AddRuns(s: State, url: Url, x: Receipt)
    requires s.active < s.maximum
    ensures RunningNow(Add(s, url, x)) == RunningNow(s) + 1
  {
    AddAppends(s, url, x);
    SumAppend(s.tasks, NewTask(s, url, x), InSession);
  }

  /** A new download takes a free slot and runs. */
  lemma FetchOne(s: State, url: Url)
    requires Inv(s) && url !in s.merged && s.active < s.maximum
    ensures
      var r := Apply(s, Download(Some(url), 0, None));
      && Inv(r) && r.maximum == s.maximum && r.active == s.active + 1 && Uncounted(r) == Uncounted(s)
      && RunningNow(r) == RunningNow(s) + 1
      && r.merged.Keys == s.merged.Keys + {url}
  {
    ApplyKeeps(s, Download(Some(url), 0, None));
    DownloadUncounted(s, Download(Some(url), 0, None));
    AddRuns(s.(issued := s.issued + [0]), url, 0);
  }

  lemma {:induction false} FetchTakesSlots(s: State, urls: seq<Url>)
    requires Inv(s) && Fresh(s, urls) && s.active + |urls| <= s.maximum
    ensures
      var r := Run(s, Fetch(urls));
      && Inv(r) && r.maximum == s.maximum && r.active == s.active + |urls| && Uncounted(r) == Uncounted(s)
      && RunningNow(r) == RunningNow(s) + |urls|
      && forall url :: url in r.merged.Keys <==> url in s.merged || url in urls
    decreases |urls|
  {
    if urls != [] {
      var n := |urls| - 1;
      FetchTakesSlots(s, urls[..n]);
      RunStep(s, Fetch(urls[..n]), Download(Some(urls[n]), 0, None));
      FetchOne(Run(s, Fetch(urls[..n])), urls[n]);
      Lists.FrontAndLast(urls);
    }
  }

  /** Downloads whose session has completed and that have not yet given back their slot. */
  function Finishing(task: Task): nat {
    if task.started && !task.phase.Waiting? then Slot(task) else 0
  }

  lemma {:induction false} LiveRunOrFinish(tasks: seq<Task>)
    requires forall t: nat :: t < |tasks| ==> TaskOk(tasks[t])
    ensures Sum(tasks, Slot) == Sum(tasks, InSession) + Sum(tasks, Finishing)
    decreases |tasks|
  {
    if tasks != [] {
      var n := |tasks| - 1;
      assert TaskOk(tasks[n]);
      assert forall t: nat :: t < n ==> TaskOk(tasks[..n][t]);
      LiveRunOrFinish(tasks[..n]);
    }
  }

  /**
   * New downloads that fill the free slots exceed the maximum if and only if some download is not counted:
   * the slots in use, if one in use is not, and the running sessions, if more run than are counted.
   */
  lemma MaximumExceededIff(s: State, urls: seq<Url>)
    requires Inv(s) && Fresh(s, urls) && s.active + |urls| == s.maximum
    ensures RunningNow(Run(s, Fetch(urls))) > s.maximum <==> RunningNow(s) > s.active
    ensures Live(Run(s, Fetch(urls))) > s.maximum <==> Live(s) > s.active
  {
    FetchTakesSlots(s, urls);
  }

  /**
   * After any run, new downloads that fill the free slots exceed the maximum if and only if more
   * completions of the run gave back a slot never taken than gave back none; and more sessions run than
   * the maximum if and only if there are more such completions even when those finishing are added.
   */
  lemma MaximumExceededInRunIff(maximum: int, lifo: bool, actions: seq<Action>, urls: seq<Url>)
    requires
      var s := Run(Initial(maximum, lifo), actions);
      Fresh(s, urls) && s.active + |urls| == maximum
    ensures
      var s, start := Run(Initial(maximum, lifo), actions), Initial(maximum, lifo);
      && (Live(Run(s, Fetch(urls))) > maximum <==> Phantoms(start, actions) > Unpaids(start, actions))
      && (RunningNow(Run(s, Fetch(urls))) > maximum
        <==> Phantoms(start, actions) > Unpaids(start, actions) + Sum(s.tasks, Finishing))
  {
    var s := Run(Initial(maximum, lifo), actions);
    EveryRun(maximum, lifo, actions);
    UncountedOverRun(maximum, lifo, actions);
    FetchTakesSlots(s, urls);
    LiveRunOrFinish(s.tasks);
  }

  lemma RunStep(s: State, actions: seq<Action>, a: Action)
    ensures Run(s, actions + [a]) == Apply(Run(s, actions), a)
  {
    assert (actions + [a])[..|actions|] == actions;
  }

  const First: Task := Task("a", Running, true, None, Waiting, [1])

  function Second(session: SessionState, result: Option<Outcome>, phase: Phase): Task {
    Task("b", session, false, result, phase, [])
  }

  /** One download runs; the one pending behind it has been cancelled but not completed. */
  function OnePendingCancelled(second: Task, active: int): State {
    State(1, false, [First, second], map["a" := 0], [1], active, [1, 2], [Direct(2, Cancelled)])
  }

  /** One download is started, and the one behind it waits. */
  function OneWaits(first: Task, merged: map<Url, nat>, active: int, replies: seq<Reply>): State {
    State(1, false, [first, Task("b", Suspended, false, None, Waiting, [2])], merged, [1], active, [1, 2], replies)
  }

  lemma TwoRequested() returns (actions: seq<Action>)
    ensures Run(Initial(1, false), actions) == OneWaits(First, map["a" := 0, "b" := 1], 1, [])
  {
    var a, b := Download(Some("a"), 1, None), Download(Some("b"), 2, None);
    var s1 := State(1, false, [First], map["a" := 0], [], 1, [1], []);
    RunStep(Initial(1, false), [], a);
    assert Apply(Initial(1, false), a) == s1;
    RunStep(Initial(1, false), [] + [a], b);
    assert "a" != "b";
    actions := [] + [a] + [b];
  }

  /** The first download has failed, and its handler has got so far. */
  function FirstFailed(phase: Phase, merged: map<Url, nat>, active: int, replies: seq<Reply>): State {
    OneWaits(Task("a", Completed, true, Some(Failed(0)), phase, [1]), merged, active, replies)
  }

  lemma FirstFails()
    ensures
      var both := map["a" := 0, "b" := 1];
      Apply(OneWaits(First, both, 1, []), SessionCompletes(0, Failed(0))) == FirstFailed(Called, both, 1, [])
  {
  }

  lemma FirstLookedUp()
    ensures Apply(FirstFailed(Called, map["a" := 0, "b" := 1], 1, []), Handle(0))
      == FirstFailed(Replying(0), map["b" := 1], 1, [])
  {
    assert "a" != "b";
    assert map["a" := 0, "b" := 1] - {"a"} == map["b" := 1];
  }

  lemma FirstReplies()
    ensures
      var b, told := map["b" := 1], [ByTask(1, Failed(0), 0)];
      && Apply(FirstFailed(Replying(0), b, 1, []), Handle(0)) == FirstFailed(Replying(1), b, 1, told)
      && Apply(FirstFailed(Replying(1), b, 1, told), Handle(0)) == FirstFailed(Decrementing, b, 1, told)
      && Apply(FirstFailed(Decrementing, b, 1, told), Handle(0)) == FirstFailed(StartingNext, b, 0, told)
  {
  }

  lemma SlotFree() returns (actions: seq<Action>)
    ensures Run(Initial(1, false), actions)
      == FirstFailed(StartingNext, map["b" := 1], 0, [ByTask(1, Failed(0), 0)])
  {
    var start, h := Initial(1, false), Handle(0);
    actions := TwoRequested();
    RunStep(start, actions, SessionCompletes(0, Failed(0)));
    actions := actions + [SessionCompletes(0, Failed(0))];
    FirstFails();
    FirstLookedUp();
    FirstReplies();
    RunStep(start, actions, h);
    RunStep(start, actions + [h], h);
    RunStep(start, actions + [h] + [h], h);
    RunStep(start, actions + [h] + [h] + [h], h);
    actions := actions + [h] + [h] + [h] + [h];
  }

  /** First in first out, with a maximum of one: the third download is started while the second waits. */
  lemma NewDownloadJumpsQueue() returns (actions: seq<Action>)
    ensures
      var s := Run(Initial(1, false), actions);
      Is(s, 1, Suspended) && NewlyStarted(s, Download(Some("c"), 3, None), 2)
      && Is(Apply(s, Download(Some("c"), 3, None)), 1, Suspended)
  {
    actions := SlotFree();
    assert "c" != "b";
  }

  lemma PendingCancelled() returns (actions: seq<Action>)
    ensures Run(Initial(1, false), actions) == OnePendingCancelled(Second(Canceling, None, Waiting), 1)
  {
    var both := TwoRequested();
    var c := Cancel("b", 2);
    var pending := Task("b", Suspended, false, None, Waiting, [2]);
    var s2 := OneWaits(First, map["a" := 0, "b" := 1], 1, []);
    assert "a" != "b" && Remove([2], 2) == [];
    assert Detach(s2, 1, 2) == s2.(tasks := [First, pending.(handlers := [])], replies := [Direct(2, Cancelled)]);
    RunStep(Initial(1, false), both, c);
    actions := both + [c];
  }

  lemma SlotGivenBack() returns (actions: seq<Action>)
    ensures Run(Initial(1, false), actions) == OnePendingCancelled(Second(Completed, Some(Cancelled), StartingNext), 0)
  {
    var before := PendingCancelled();
    RunStep(Initial(1, false), before, SessionCompletes(1, Cancelled));
    var s1 := OnePendingCancelled(Second(Completed, Some(Cancelled), Called), 1);
    assert Run(Initial(1, false), before + [SessionCompletes(1, Cancelled)]) == s1;
    RunStep(Initial(1, false), before + [SessionCompletes(1, Cancelled)], Handle(1));
    assert !IsMerged(s1, 1);
    var s2 := OnePendingCancelled(Second(Completed, Some(Cancelled), Decrementing), 1);
    assert Apply(s1, Handle(1)) == s2;
    RunStep(Initial(1, false), before + [SessionCompletes(1, Cancelled)] + [Handle(1)], Handle(1));
    actions := before + [SessionCompletes(1, Cancelled)] + [Handle(1)] + [Handle(1)];
  }

  /** With a maximum of one: the completion of a download cancelled while pending gives back the running one's slot. */
  lemma MaximumExceeded()
    ensures exists actions ::
      var s := Run(Initial(1, false), actions); Is(s, 0, Running) && Is(s, 2, Running) && s.maximum == 1
  {
    var before := SlotGivenBack();
    RunStep(Initial(1, false), before, Download(Some("c"), 3, None));
    var s := Run(Initial(1, false), before + [Download(Some("c"), 3, None)]);
    assert Is(s, 0, Running) && Is(s, 2, Running) && s.maximum == 1;
  }

  // ----- the object

  class AFImageDownloader {
    const maximumActiveDownloads: int
    var lifo: bool
    var tasks: seq<Task>
    var mergedTasks: map<Url, nat>
    var queuedMergedTasks: seq<nat>
    var activeRequestCount: int
    var mainQueue: seq<Reply>
    ghost var issued: seq<Receipt>

    ghost function View(): State
      reads this
    {
      State(maximumActiveDownloads, lifo, tasks, mergedTasks, queuedMergedTasks, activeRequestCount, issued, mainQueue)
    }

    constructor (maximumActiveDownloads: int, lifo: bool)
      ensures View() == Initial(maximumActiveDownloads, lifo) && Correct(View())
    {
      this.maximumActiveDownloads, this.lifo := maximumActiveDownloads, lifo;
      tasks, mergedTasks, queuedMergedTasks, activeRequestCount, mainQueue, issued := [], map[], [], 0, [], [];
      new;
      EveryRun(maximumActiveDownloads, lifo, []);
    }

    /**
     * -downloadImageForURLRequest:withReceiptID:success:failure:, `cached` being what the cache policy lets
     * the cache answer.
     */
    method DownloadImage(request: Option<Url>, receipt: Receipt, cached: Option<Image>) returns (task: Option<nat>)
      requires MergedOk(View())
      modifies this
      ensures View() == Apply(old(View()), Download(request, receipt, cached))
      ensures task.Some? <==> request.Some? && (request.value in old(mergedTasks) || cached.None?)
      ensures task.Some? ==>
        task.value < |tasks| && receipt in tasks[task.value].handlers && tasks[task.value].url == request.value
      ensures task.None? ==>
        && tasks == old(tasks)
        && mainQueue == old(mainQueue) + [Direct(receipt, if request.None? then BadUrl else FromCache(cached.value))]
    {
      task := None;
      issued := issued + [receipt];
      if request.None? {
        mainQueue := mainQueue + [Direct(receipt, BadUrl)];
        return;
      }
      var url := request.value;
      if url in mergedTasks {
        var t := mergedTasks[url];
        tasks := tasks[t := tasks[t].(handlers := tasks[t].handlers + [receipt])];
        return Some(t);
      }
      if cached.Some? {
        mainQueue := mainQueue + [Direct(receipt, FromCache(cached.value))];
        return;
      }
      var t := |tasks|;
      tasks := tasks + [Task(url, Suspended, false, None, Waiting, [receipt])];
      mergedTasks := mergedTasks[url := t];
      if activeRequestCount < maximumActiveDownloads {
        StartMergedTask(t);
      } else {
        queuedMergedTasks := if lifo then [t] + queuedMergedTasks else queuedMergedTasks + [t];
      }
      task := Some(t);
    }

    method StartMergedTask(t: nat)
      requires t < |tasks|
      modifies this`tasks, this`activeRequestCount
      ensures View() == Start(old(View()), t)
    {
      tasks := tasks[t := tasks[t].(session := Running, started := true)];
      activeRequestCount := activeRequestCount + 1;
    }

    method CancelTask(url: Url, receipt: Receipt)
      requires MergedOk(View())
      modifies this
      ensures View() == Apply(old(View()), Cancel(url, receipt))
      ensures mainQueue == old(mainQueue)
        + if url in old(mergedTasks) && receipt in old(tasks)[old(mergedTasks)[url]].handlers
          then [Direct(receipt, Cancelled)] else []
    {
      if url in mergedTasks {
        var t := mergedTasks[url];
        if receipt in tasks[t].handlers {
          tasks := tasks[t := tasks[t].(handlers := Remove(tasks[t].handlers, receipt))];
          mainQueue := mainQueue + [Direct(receipt, Cancelled)];
        }
        if tasks[t].handlers == [] && tasks[t].session == Suspended {
          tasks := tasks[t := tasks[t].(session := Canceling)];
          mergedTasks := mergedTasks - {url};
        }
      }
    }

    /** Dequeues until one suspended task is started: the first of the prioritization. */
    method StartNextTaskIfNecessary()
      requires QueueOk(View())
      modifies this
      ensures View() == StartNext(old(View()))
      ensures QueueOk(View())
      ensures old(activeRequestCount < maximumActiveDownloads) && (exists t: nat :: Is(old(View()), t, Suspended)) ==>
        FirstStarted(old(View()), View())
    {
      ghost var s := View();
      StartsFirst(s);
      if activeRequestCount < maximumActiveDownloads {
        while |queuedMergedTasks| > 0
          invariant QueueOk(View()) && StartFromQueue(View()) == StartFromQueue(s)
          decreases |queuedMergedTasks|
        {
          var t := queuedMergedTasks[0];
          DequeueFirst(View());
          assert t in queuedMergedTasks;
          queuedMergedTasks := Without(queuedMergedTasks, t);
          if tasks[t].session == Suspended {
            StartMergedTask(t);
            return;
          }
        }
      }
    }

    /** The first section: find the merged task and take it out of the dictionary if it is still this one. */
    method LookUp(t: nat)
      requires MergedOk(View()) && t < |tasks| && tasks[t].phase.Called?
      modifies this
      ensures View() == Section(old(View()), t)
    {
      var url := tasks[t].url;
      if url in mergedTasks && mergedTasks[url] == t {
        mergedTasks := mergedTasks - {url};
        tasks := tasks[t := tasks[t].(phase := Replying(0))];
      } else {
        tasks := tasks[t := tasks[t].(phase := Decrementing)];
      }
    }

    /** The enumeration of the handlers, `n` of them called so far. */
    method ReplyNext(t: nat)
      requires t < |tasks| && tasks[t].phase.Replying? && TaskOk(tasks[t])
      modifies this
      ensures View() == Section(old(View()), t)
    {
      var task := tasks[t];
      if task.phase.next < |task.handlers| {
        tasks := tasks[t := task.(phase := Replying(task.phase.next + 1))];
        mainQueue := mainQueue + [ByTask(task.handlers[task.phase.next], task.result.value, t)];
      } else {
        tasks := tasks[t := task.(phase := Decrementing)];
      }
    }

    method DecrementActiveTaskCount(t: nat)
      requires t < |tasks| && tasks[t].phase.Decrementing?
      modifies this
      ensures View() == Section(old(View()), t)
    {
      tasks := tasks[t := tasks[t].(phase := StartingNext)];
      if activeRequestCount > 0 {
        activeRequestCount := activeRequestCount - 1;
      }
    }

    /** The last section, after which the handler is done. */
    method Finish(t: nat)
      requires Inv(View()) && t < |tasks| && tasks[t].phase.StartingNext?
      modifies this
      ensures View() == Section(old(View()), t)
    {
      LastSectionKeeps(View(), t);
      tasks := tasks[t := tasks[t].(phase := Done)];
      StartNextTaskIfNecessary();
    }

    /** The next section of a completion handler that has been called. */
    method RunSection(t: nat)
      requires Correct(View()) && Enabled(View(), Handle(t))
      modifies this
      ensures View() == Apply(old(View()), Handle(t)) && Correct(View())
      ensures t < |tasks| && tasks[t].handlers == old(tasks[t].handlers)
      ensures !tasks[t].phase.Waiting? && Rank(tasks[t]) < old(Rank(tasks[t]))
    {
      assert TaskOk(View().tasks[t]);
      ApplyKeepsCorrect(View(), Handle(t));
      SectionProgress(View(), t);
      match tasks[t].phase
      case Called => LookUp(t);
      case Replying(_) => ReplyNext(t);
      case Decrementing => DecrementActiveTaskCount(t);
      case StartingNext => Finish(t);
    }

    /** A whole completion handler when nothing runs between its sections: every handler is called, in order. */
    method Complete(t: nat) returns (ghost n: nat)
      requires Correct(View()) && t < |tasks| && tasks[t].phase.Called?
      modifies this
      ensures View() == Run(old(View()), Sections(t, n)) && Correct(View())
      ensures t < |tasks| && tasks[t].phase.Done? && tasks[t].handlers == old(tasks[t].handlers)
      ensures Told(mainQueue, t) == old(tasks[t].handlers)
    {
      ghost var s := View();
      n := 0;
      while !tasks[t].phase.Done?
        invariant View() == Run(s, Sections(t, n))
        invariant Correct(View())
        invariant t < |tasks| && tasks[t].handlers == s.tasks[t].handlers && !tasks[t].phase.Waiting?
        decreases Rank(tasks[t])
      {
        RunSection(t);
        RunStep(s, Sections(t, n), Handle(t));
        n := n + 1;
      }
      DoneToldAll(View(), t);
    }
  }

  function Sections(t: nat, n: nat): seq<Action> {
    if n == 0 then [] else Sections(t, n - 1) + [Handle(t)]
  }

  lemma ApplyKeepsCorrect(s: State, a: Action)
    requires Correct(s)
    ensures Correct(Apply(s, a))
  {
    ApplyKeeps(s, a);
    ApplyKeepsOrder(s, a, 0);
    ExtendsOutcomes(s, Apply(s, a));
    ApplyKeepsLedgers(s, a);
    forall t: nat { ApplyKeepsOrder(s, a, t); }
  }

  lemma SectionProgress(s: State, t: nat)
    requires Inv(s) && Enabled(s, Handle(t))
    ensures t < |Section(s, t).tasks| && Section(s, t).tasks[t].handlers == s.tasks[t].handlers
    ensures !Section(s, t).tasks[t].phase.Waiting? && Rank(Section(s, t).tasks[t]) < Rank(s.tasks[t])
  {
    if s.tasks[t].phase.StartingNext? {
      var done := Set(s, t, s.tasks[t].(phase := Done));
      StartNextFrame(done, t);
    } else {
      OneTaskWorks(s, Handle(t));
    }
  }

  lemma DoneToldAll(s: State, t: nat)
    requires Correct(s) && t < |s.tasks| && s.tasks[t].phase.Done?
    ensures Told(s.replies, t) == s.tasks[t].handlers
  {
    assert InAttachOrder(s, t);
  }
}
