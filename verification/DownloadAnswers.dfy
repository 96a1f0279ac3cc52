/** What AFImageDownloader answers to whom, from what was asked of it and what the session reported. */
module DownloadAnswers {
  import Lists
  import opened Options
  import opened ImageDownloader

  /**
   * For every merged task its URL, the receipts attached to it, in order, and what the session reported;
   * which task a URL can be attached to; and the answers given without a task.
   */
  datatype Book = Book(
    open: map<Url, nat>, urls: seq<Url>, handlers: seq<seq<Receipt>>, reported: seq<Option<Outcome>>,
    issued: seq<Receipt>, direct: seq<Reply>)

  function FirstAt(receipts: seq<Receipt>, receipt: Receipt): (i: nat)
    requires receipt in receipts
    ensures i < |receipts| && receipts[i] == receipt && receipt !in receipts[..i]
  {
    if receipts[0] == receipt then 0 else 1 + FirstAt(receipts[1..], receipt)
  }

  function WithoutFirst(receipts: seq<Receipt>, receipt: Receipt): seq<Receipt> {
    if receipt in receipts then
      receipts[..FirstAt(receipts, receipt)] + receipts[FirstAt(receipts, receipt) + 1..]
    else receipts
  }

  predicate Opened(b: Book, url: Url) {
    url in b.open && b.open[url] < |b.handlers|
  }

  /** A download with no URL is told so; one for a URL with a task joins it; else the cache may answer it. */
  function Asked(b: Book, request: Option<Url>, receipt: Receipt, cached: Option<Image>): Book {
    var i := b.(issued := b.issued + [receipt]);
    if request.None? then i.(direct := b.direct + [Direct(receipt, BadUrl)])
    else if Opened(b, request.value) then
      i.(handlers := b.handlers[b.open[request.value] := b.handlers[b.open[request.value]] + [receipt]])
    else if cached.Some? then i.(direct := b.direct + [Direct(receipt, FromCache(cached.value))])
    else
      i.(open := b.open[request.value := |b.urls|], urls := b.urls + [request.value],
         handlers := b.handlers + [[receipt]], reported := b.reported + [None])
  }

  /** A receipt taken off a task is told that it was cancelled. */
  function Struck(b: Book, t: nat, receipt: Receipt): Book
    requires t < |b.handlers|
  {
    if receipt in b.handlers[t] then
      b.(handlers := b.handlers[t := WithoutFirst(b.handlers[t], receipt)],
         direct := b.direct + [Direct(receipt, Cancelled)])
    else b
  }

  /** A task that was never started is closed when it has no receipt left. */
  function Closed(b: Book, suspended: bool, t: nat, url: Url): Book
    requires t < |b.handlers|
  {
    if b.handlers[t] == [] && suspended then b.(open := b.open - {url}) else b
  }

  function CancelledBy(b: Book, s: State, url: Url, receipt: Receipt): Book {
    if !Opened(b, url) then b
    else
      var t := b.open[url];
      Closed(Struck(b, t, receipt), Is(s, t, Suspended), t, url)
  }

  /** `s` says only how far the session and the handlers have got. */
  function NextBook(b: Book, s: State, a: Action): Book {
    match a
    case Download(request, receipt, cached) => Asked(b, request, receipt, cached)
    case Cancel(url, receipt) => CancelledBy(b, s, url, receipt)
    case SessionCompletes(t, outcome) =>
      if t < |b.reported| && (Is(s, t, Running) || Is(s, t, Canceling))
      then b.(reported := b.reported[t := Some(outcome)])
      else b
    case Handle(t) =>
      if t < |b.urls| && t < |s.tasks| && s.tasks[t].phase.Called? && b.urls[t] in b.open && b.open[b.urls[t]] == t
      then b.(open := b.open - {b.urls[t]})
      else b
  }

  function BookOf(start: State, actions: seq<Action>): Book {
    if actions == [] then Book(map[], [], [], [], [], [])
    else
      var front := actions[..|actions| - 1];
      NextBook(BookOf(start, front), Run(start, front), actions[|actions| - 1])
  }

  function Directs(replies: seq<Reply>): seq<Reply> {
    if replies == [] then []
    else
      var last := replies[|replies| - 1];
      Directs(replies[..|replies| - 1]) + if last.Direct? then [last] else []
  }

  ghost predicate TaskOnBook(s: State, b: Book, t: nat)
    requires t < |s.tasks| == |b.urls| == |b.handlers| == |b.reported|
  {
    s.tasks[t].url == b.urls[t] && s.tasks[t].handlers == b.handlers[t] && s.tasks[t].result == b.reported[t]
  }

  ghost predicate OnBook(s: State, b: Book) {
    && |s.tasks| == |b.urls| == |b.handlers| == |b.reported|
    && s.merged == b.open && s.issued == b.issued && Directs(s.replies) == b.direct
    && forall t: nat :: t < |s.tasks| ==> TaskOnBook(s, b, t)
  }

  lemma DirectsAppend(replies: seq<Reply>, reply: Reply)
    ensures Directs(replies + [reply]) == if reply.Direct? then Directs(replies) + [reply] else Directs(replies)
  {
    Lists.WithoutLast(replies, reply);
    Lists.ConcatEmpty(Directs(replies));
  }

  lemma {:induction false} RemoveIsWithoutFirst(receipts: seq<Receipt>, receipt: Receipt)
    requires receipt in receipts
    ensures Remove(receipts, receipt) == WithoutFirst(receipts, receipt)
  {
    if receipts[0] == receipt {
      Lists.ConcatEmpty(receipts[1..]);
    } else {
      RemoveIsWithoutFirst(receipts[1..], receipt);
      SlicesBehind(receipts, FirstAt(receipts[1..], receipt));
    }
  }

  lemma SlicesBehind(receipts: seq<Receipt>, i: nat)
    requires i + 1 < |receipts|
    ensures receipts[..i + 1] + receipts[i + 2..]
      == [receipts[0]] + (receipts[1..][..i] + receipts[1..][i + 1..])
  {
  }

  lemma SaidOnBook(s: State, b: Book, receipt: Receipt, outcome: Outcome)
    requires OnBook(s, b)
    ensures OnBook(
      Say(s.(issued := s.issued + [receipt]), Direct(receipt, outcome)),
      b.(issued := b.issued + [receipt], direct := b.direct + [Direct(receipt, outcome)]))
  {
    var r := Say(s.(issued := s.issued + [receipt]), Direct(receipt, outcome));
    DirectsAppend(s.replies, Direct(receipt, outcome));
    forall t: nat | t < |r.tasks|
      ensures r.tasks[t].url == b.urls[t] && r.tasks[t].handlers == b.handlers[t] && r.tasks[t].result == b.reported[t]
    {
      assert TaskOnBook(s, b, t);
    }
  }

  lemma AttachOnBook(s: State, b: Book, a: Action)
    requires MergedOk(s) && OnBook(s, b) && a.Download? && a.request.Some? && a.request.value in s.merged
    ensures OnBook(Apply(s, a), NextBook(b, s, a))
  {
    var r, c := Apply(s, a), NextBook(b, s, a);
    forall t: nat | t < |r.tasks| ensures TaskOnBook(r, c, t) {
      assert TaskOnBook(s, b, t);
    }
  }

  lemma AskedOnBook(s: State, b: Book, a: Action)
    requires MergedOk(s) && OnBook(s, b) && a.Download?
    ensures OnBook(Apply(s, a), NextBook(b, s, a))
  {
    if a.request.None? {
      SaidOnBook(s, b, a.receipt, BadUrl);
    } else if a.request.value in s.merged {
      AttachOnBook(s, b, a);
    } else if a.cached.Some? {
      SaidOnBook(s, b, a.receipt, FromCache(a.cached.value));
    } else {
      AddOnBook(s, b, a);
    }
  }

  lemma AddOnBook(s: State, b: Book, a: Action)
    requires OnBook(s, b) && a.Download? && a.request.Some? && a.request.value !in s.merged && a.cached.None?
    ensures OnBook(Apply(s, a), NextBook(b, s, a))
  {
    var r, c := Apply(s, a), NextBook(b, s, a);
    AddAppends(s.(issued := s.issued + [a.receipt]), a.request.value, a.receipt);
    forall t: nat | t < |r.tasks| ensures TaskOnBook(r, c, t) {
      if t < |s.tasks| { assert TaskOnBook(s, b, t); }
    }
  }

  lemma DetachOnBook(s: State, b: Book, t: nat, receipt: Receipt)
    requires OnBook(s, b) && t < |s.tasks|
    ensures OnBook(Detach(s, t, receipt), Struck(b, t, receipt))
  {
    assert TaskOnBook(s, b, t);
    if receipt in s.tasks[t].handlers {
      var r, c := Detach(s, t, receipt), Struck(b, t, receipt);
      RemoveIsWithoutFirst(s.tasks[t].handlers, receipt);
      DirectsAppend(s.replies, Direct(receipt, Cancelled));
      forall u: nat | u < |r.tasks| ensures TaskOnBook(r, c, u) {
        assert TaskOnBook(s, b, u);
      }
    }
  }

  lemma AbandonOnBook(s: State, b: Book, t: nat)
    requires OnBook(s, b) && t < |s.tasks|
    ensures OnBook(Abandon(s, t), Closed(b, Is(s, t, Suspended), t, s.tasks[t].url))
  {
    var r, c := Abandon(s, t), Closed(b, Is(s, t, Suspended), t, s.tasks[t].url);
    forall u: nat | u < |r.tasks| ensures TaskOnBook(r, c, u) {
      assert TaskOnBook(s, b, u);
    }
    assert TaskOnBook(s, b, t);
  }

  lemma DetachKeepsRest(s: State, t: nat, receipt: Receipt)
    requires t < |s.tasks|
    ensures
      var r := Detach(s, t, receipt);
      |r.tasks| == |s.tasks| && r.tasks[t].url == s.tasks[t].url && (Is(r, t, Suspended) <==> Is(s, t, Suspended))
  {
  }

  lemma CancelOnBook(s: State, b: Book, a: Action)
    requires MergedOk(s) && OnBook(s, b) && a.Cancel?
    ensures OnBook(Apply(s, a), NextBook(b, s, a))
  {
    if a.url in s.merged {
      var t := s.merged[a.url];
      DetachOnBook(s, b, t, a.receipt);
      DetachKeepsRest(s, t, a.receipt);
      AbandonOnBook(Detach(s, t, a.receipt), Struck(b, t, a.receipt), t);
    }
  }

  lemma CompletesOnBook(s: State, b: Book, a: Action)
    requires OnBook(s, b) && a.SessionCompletes?
    ensures OnBook(Apply(s, a), NextBook(b, s, a))
  {
    var r, c := Apply(s, a), NextBook(b, s, a);
    forall t: nat | t < |r.tasks| ensures TaskOnBook(r, c, t) {
      assert TaskOnBook(s, b, t);
    }
  }

  /** The sections of a handler change neither URL, receipts nor outcome of any task. */
  ghost predicate SameAccount(s: State, r: State) {
    && |r.tasks| == |s.tasks| && r.issued == s.issued && Directs(r.replies) == Directs(s.replies)
    && forall t: nat :: t < |s.tasks| ==>
      r.tasks[t].url == s.tasks[t].url && r.tasks[t].handlers == s.tasks[t].handlers
      && r.tasks[t].result == s.tasks[t].result
  }

  lemma SameAccountOnBook(s: State, r: State, b: Book, c: Book)
    requires OnBook(s, b) && SameAccount(s, r) && c == b.(open := r.merged)
    ensures OnBook(r, c)
  {
    forall t: nat | t < |r.tasks| ensures TaskOnBook(r, c, t) {
      assert TaskOnBook(s, b, t);
    }
  }

  lemma RepliesSame(s: State, t: nat)
    requires t < |s.tasks| && s.tasks[t].phase.Replying?
    ensures SameAccount(s, Section(s, t)) && Section(s, t).merged == s.merged
  {
    var task := s.tasks[t];
    if task.phase.next < |task.handlers| && task.result.Some? {
      DirectsAppend(s.replies, ByTask(task.handlers[task.phase.next], task.result.value, t));
    }
  }

  lemma LastSame(s: State, t: nat)
    requires t < |s.tasks| && s.tasks[t].phase.StartingNext?
    ensures SameAccount(s, Section(s, t)) && Section(s, t).merged == s.merged
  {
    var u, rest := NextStarted(Set(s, t, s.tasks[t].(phase := Done)));
  }

  lemma CalledSame(s: State, t: nat)
    requires t < |s.tasks| && !s.tasks[t].phase.Replying? && !s.tasks[t].phase.StartingNext?
    ensures SameAccount(s, Section(s, t))
    ensures Section(s, t).merged
      == if s.tasks[t].phase.Called? && IsMerged(s, t) then s.merged - {s.tasks[t].url} else s.merged
  {
  }

  lemma HandleOnBook(s: State, b: Book, t: nat)
    requires OnBook(s, b)
    ensures OnBook(Apply(s, Handle(t)), NextBook(b, s, Handle(t)))
  {
    if t < |s.tasks| {
      assert TaskOnBook(s, b, t);
      if s.tasks[t].phase.Replying? { RepliesSame(s, t); }
      else if s.tasks[t].phase.StartingNext? { LastSame(s, t); }
      else { CalledSame(s, t); }
      SameAccountOnBook(s, Section(s, t), b, NextBook(b, s, Handle(t)));
    }
  }

  /**
   * In every run every URL, receipt and outcome is where the book says: receipts are attached in order to
   * the task of the URL they asked for, each task has the outcome the session reported, and the answers
   * given without a task are those the book gives.
   */
  lemma {:induction false} EveryRunOnBook(maximum: int, lifo: bool, actions: seq<Action>)
    ensures OnBook(Run(Initial(maximum, lifo), actions), BookOf(Initial(maximum, lifo), actions))
    decreases |actions|
  {
    if actions != [] {
      var front, a := actions[..|actions| - 1], actions[|actions| - 1];
      var s, b := Run(Initial(maximum, lifo), front), BookOf(Initial(maximum, lifo), front);
      EveryRunOnBook(maximum, lifo, front);
      EveryRun(maximum, lifo, front);
      match a
      case Download(_, _, _) => AskedOnBook(s, b, a);
      case Cancel(_, _) => CancelOnBook(s, b, a);
      case SessionCompletes(_, _) => CompletesOnBook(s, b, a);
      case Handle(t) => HandleOnBook(s, b, t);
    }
  }

  // ----- so every answer says why

  predicate AsksFor(a: Action, url: Url, receipt: Receipt) {
    a.Download? && a.request == Some(url) && a.receipt == receipt
  }

  /** What is on the book comes from the actions. */
  ghost predicate Sourced(b: Book, actions: seq<Action>) {
    && |b.urls| == |b.handlers| == |b.reported|
    && (forall url :: url in b.open ==> b.open[url] < |b.urls| && b.urls[b.open[url]] == url)
    && (forall t: nat, r :: t < |b.urls| && r in b.handlers[t] ==> exists a :: a in actions && AsksFor(a, b.urls[t], r))
    && (forall t: nat :: t < |b.urls| && b.reported[t].Some? ==> SessionCompletes(t, b.reported[t].value) in actions)
  }

  lemma MoreSources(b: Book, actions: seq<Action>, a: Action)
    requires Sourced(b, actions)
    ensures Sourced(b, actions + [a])
  {
    forall t: nat, r | t < |b.urls| && r in b.handlers[t]
      ensures exists x :: x in actions + [a] && AsksFor(x, b.urls[t], r)
    {
      var x :| x in actions && AsksFor(x, b.urls[t], r);
      assert x in actions + [a];
    }
  }

  lemma AttachedIsAsked(b: Book, s: State, a: Action, t: nat, r: Receipt)
    requires forall url :: url in b.open ==> b.open[url] < |b.urls| && b.urls[b.open[url]] == url
    requires t < |NextBook(b, s, a).urls| && |b.urls| == |b.handlers| && t < |NextBook(b, s, a).handlers|
    requires r in NextBook(b, s, a).handlers[t] && !(t < |b.handlers| && r in b.handlers[t])
    ensures AsksFor(a, NextBook(b, s, a).urls[t], r)
  {
  }

  lemma SourcedStep(b: Book, s: State, actions: seq<Action>, a: Action)
    requires Sourced(b, actions)
    ensures Sourced(NextBook(b, s, a), actions + [a])
  {
    var c := NextBook(b, s, a);
    MoreSources(b, actions, a);
    assert a in actions + [a];
    forall t: nat, r | t < |c.urls| && r in c.handlers[t]
      ensures exists x :: x in actions + [a] && AsksFor(x, c.urls[t], r)
    {
      if t < |b.urls| && r in b.handlers[t] {
        var x :| x in actions + [a] && AsksFor(x, b.urls[t], r);
      } else {
        AttachedIsAsked(b, s, a, t, r);
      }
    }
  }

  lemma {:induction false} BookIsSourced(start: State, actions: seq<Action>)
    ensures Sourced(BookOf(start, actions), actions)
    decreases |actions|
  {
    if actions != [] {
      var front := actions[..|actions| - 1];
      BookIsSourced(start, front);
      SourcedStep(BookOf(start, front), Run(start, front), front, actions[|actions| - 1]);
      Lists.FrontAndLast(actions);
    }
  }

  /** Why a receipt was answered without a task. */
  predicate GivesDirectly(s: State, a: Action, reply: Reply) {
    reply.Direct?
    && match a
       case Download(None, receipt, _) => reply == Direct(receipt, BadUrl)
       case Download(Some(url), receipt, Some(image)) => url !in s.merged && reply == Direct(receipt, FromCache(image))
       case Cancel(url, receipt) => url in s.merged && reply == Direct(receipt, Cancelled)
       case _ => false
  }

  ghost predicate GivenAt(start: State, actions: seq<Action>, reply: Reply, k: nat) {
    k < |actions| && GivesDirectly(Run(start, actions[..k]), actions[k], reply)
  }

  lemma DirectStep(s: State, b: Book, a: Action, reply: Reply)
    requires OnBook(s, b) && MergedOk(s) && reply in NextBook(b, s, a).direct && reply !in b.direct
    ensures GivesDirectly(s, a, reply)
  {
  }

  lemma LastGives(maximum: int, lifo: bool, front: seq<Action>, a: Action, reply: Reply)
    requires
      var start := Initial(maximum, lifo);
      reply !in BookOf(start, front).direct
      && reply in NextBook(BookOf(start, front), Run(start, front), a).direct
    ensures GivesDirectly(Run(Initial(maximum, lifo), front), a, reply)
  {
    var start := Initial(maximum, lifo);
    EveryRunOnBook(maximum, lifo, front);
    EveryRun(maximum, lifo, front);
    DirectStep(Run(start, front), BookOf(start, front), a, reply);
  }

  lemma {:induction false} DirectsAreGiven(maximum: int, lifo: bool, actions: seq<Action>, reply: Reply)
    requires reply in BookOf(Initial(maximum, lifo), actions).direct
    ensures exists k: nat :: GivenAt(Initial(maximum, lifo), actions, reply, k)
    decreases |actions|
  {
    var start, n := Initial(maximum, lifo), |actions| - 1;
    if reply in BookOf(start, actions[..n]).direct {
      DirectsAreGiven(maximum, lifo, actions[..n], reply);
      var k: nat :| GivenAt(start, actions[..n], reply, k);
      assert actions[..n][..k] == actions[..k];
      assert GivenAt(start, actions, reply, k);
    } else {
      LastGives(maximum, lifo, actions[..n], actions[n], reply);
      assert GivenAt(start, actions, reply, n);
    }
  }

  lemma {:induction false} DirectsHas(replies: seq<Reply>, i: nat)
    requires i < |replies| && replies[i].Direct?
    ensures replies[i] in Directs(replies)
  {
    var n := |replies| - 1;
    if i < n {
      assert replies[..n][i] == replies[i];
      DirectsHas(replies[..n], i);
    }
  }

  lemma {:induction false} ToldHas(replies: seq<Reply>, i: nat)
    requires i < |replies| && replies[i].ByTask?
    ensures replies[i].receipt in Told(replies, replies[i].task)
  {
    var n := |replies| - 1;
    if i < n {
      assert replies[..n][i] == replies[i];
      ToldHas(replies[..n], i);
    }
  }

  /** It goes to a receipt that asked for the task's URL, and is what the session reported. */
  ghost predicate RightByTask(s: State, actions: seq<Action>, reply: Reply) {
    && reply.ByTask? && reply.task < |s.tasks|
    && SessionCompletes(reply.task, reply.outcome) in actions
    && exists a :: a in actions && AsksFor(a, s.tasks[reply.task].url, reply.receipt)
  }

  lemma TaskAnswerIsRight(s: State, b: Book, actions: seq<Action>, i: nat)
    requires OnBook(s, b) && Sourced(b, actions) && OutcomesOk(s)
    requires i < |s.replies| && s.replies[i].ByTask? && InAttachOrder(s, s.replies[i].task)
    ensures RightByTask(s, actions, s.replies[i])
  {
    var reply := s.replies[i];
    assert SaysResult(s, reply);
    assert TaskOnBook(s, b, reply.task);
    ToldHas(s.replies, i);
    assert reply.receipt in b.handlers[reply.task];
  }

  /**
   * In every run, from the actions: an answer without a task is the bad URL of a download that had none, the
   * image the cache had for a URL without a task, or a cancellation; and one by a task goes to a receipt that
   * asked for the task's URL, and is what the session reported for the task.
   */
  lemma EveryAnswerIsRight(maximum: int, lifo: bool, actions: seq<Action>, i: nat)
    requires i < |Run(Initial(maximum, lifo), actions).replies|
    ensures
      var s := Run(Initial(maximum, lifo), actions);
      if s.replies[i].Direct? then exists k: nat :: GivenAt(Initial(maximum, lifo), actions, s.replies[i], k)
      else RightByTask(s, actions, s.replies[i])
  {
    var start := Initial(maximum, lifo);
    var s := Run(start, actions);
    EveryRunOnBook(maximum, lifo, actions);
    if s.replies[i].Direct? {
      DirectsHas(s.replies, i);
      DirectsAreGiven(maximum, lifo, actions, s.replies[i]);
    } else {
      EveryRun(maximum, lifo, actions);
      BookIsSourced(start, actions);
      assert InAttachOrder(s, s.replies[i].task);
      TaskAnswerIsRight(s, BookOf(start, actions), actions, i);
    }
  }

  // ----- and what is forgotten does not run

  /** A task that cannot be attached to any more, before its session has completed, was cancelled. */
  ghost predicate ForgottenAreCancelled(s: State) {
    forall t: nat :: t < |s.tasks| && s.tasks[t].phase.Waiting? && !IsMerged(s, t) ==> s.tasks[t].session == Canceling
  }

  lemma ForgottenByDownload(s: State, a: Action)
    requires Inv(s) && ForgottenAreCancelled(s) && a.Download?
    ensures ForgottenAreCancelled(Apply(s, a))
  {
    var r := Apply(s, a);
    forall t: nat | t < |r.tasks| && r.tasks[t].phase.Waiting? && !IsMerged(r, t)
      ensures r.tasks[t].session == Canceling
    {
      if t < |s.tasks| { assert IsMerged(s, t) ==> IsMerged(r, t); }
    }
  }

  lemma ForgottenByCancel(s: State, a: Action)
    requires Inv(s) && ForgottenAreCancelled(s) && a.Cancel?
    ensures ForgottenAreCancelled(Apply(s, a))
  {
    if a.url in s.merged {
      var r, u := Apply(s, a), s.merged[a.url];
      forall t: nat | t < |r.tasks| && r.tasks[t].phase.Waiting? && !IsMerged(r, t)
        ensures r.tasks[t].session == Canceling
      {
        if t != u { assert IsMerged(s, t) ==> IsMerged(r, t); }
      }
    }
  }

  lemma ForgottenByCompletion(s: State, a: Action)
    requires Inv(s) && ForgottenAreCancelled(s) && a.SessionCompletes?
    ensures ForgottenAreCancelled(Apply(s, a))
  {
    var r := Apply(s, a);
    forall t: nat | t < |r.tasks| && r.tasks[t].phase.Waiting? && !IsMerged(r, t)
      ensures r.tasks[t].session == Canceling
    {
      assert IsMerged(s, t) == IsMerged(r, t);
    }
  }

  lemma ForgottenByStarting(s: State)
    requires MergedOk(s) && TasksOk(s) && ForgottenAreCancelled(s)
    ensures ForgottenAreCancelled(StartNext(s))
  {
    var u, rest := NextStarted(s);
    var r := StartNext(s);
    forall t: nat | t < |r.tasks| && r.tasks[t].phase.Waiting? && !IsMerged(r, t)
      ensures r.tasks[t].session == Canceling
    {
      assert IsMerged(s, t) == IsMerged(r, t);
    }
  }

  lemma SectionForgets(s: State, u: nat, t: nat)
    requires MergedOk(s) && u < |s.tasks| && t < |s.tasks| && !s.tasks[u].phase.StartingNext?
    ensures |Section(s, u).tasks| == |s.tasks| && Section(s, u).tasks[t].session == s.tasks[t].session
    ensures Section(s, u).tasks[t].phase.Waiting? ==> s.tasks[t].phase.Waiting?
    ensures IsMerged(s, t) && s.tasks[t].phase.Waiting? ==> IsMerged(Section(s, u), t)
  {
  }

  lemma ForgottenBySection(s: State, u: nat)
    requires Inv(s) && ForgottenAreCancelled(s) && u < |s.tasks| && !s.tasks[u].phase.StartingNext?
    ensures ForgottenAreCancelled(Section(s, u))
  {
    var r := Section(s, u);
    forall t: nat | t < |r.tasks| && r.tasks[t].phase.Waiting? && !IsMerged(r, t)
      ensures r.tasks[t].session == Canceling
    {
      SectionForgets(s, u, t);
    }
  }

  lemma ForgottenStep(s: State, a: Action)
    requires Inv(s) && ForgottenAreCancelled(s)
    ensures ForgottenAreCancelled(Apply(s, a))
  {
    match a
    case Download(_, _, _) => ForgottenByDownload(s, a);
    case Cancel(_, _) => ForgottenByCancel(s, a);
    case SessionCompletes(_, _) => ForgottenByCompletion(s, a);
    case Handle(u) =>
      if u < |s.tasks| {
        if s.tasks[u].phase.StartingNext? {
          LastSectionKeeps(s, u);
          ForgottenBySetDone(s, u);
          ForgottenByStarting(Set(s, u, s.tasks[u].(phase := Done)));
        } else {
          ForgottenBySection(s, u);
        }
      }
  }

  lemma ForgottenBySetDone(s: State, u: nat)
    requires ForgottenAreCancelled(s) && u < |s.tasks|
    ensures ForgottenAreCancelled(Set(s, u, s.tasks[u].(phase := Done)))
  {
    var r := Set(s, u, s.tasks[u].(phase := Done));
    forall t: nat | t < |r.tasks| && r.tasks[t].phase.Waiting? && !IsMerged(r, t)
      ensures r.tasks[t].session == Canceling
    {
      assert IsMerged(s, t) == IsMerged(r, t);
    }
  }

  /** In every run a task forgotten before its session has completed was cancelled, and is never started. */
  lemma {:induction false} ForgottenNeverRun(maximum: int, lifo: bool, actions: seq<Action>)
    ensures ForgottenAreCancelled(Run(Initial(maximum, lifo), actions))
    decreases |actions|
  {
    if actions != [] {
      var front := actions[..|actions| - 1];
      ForgottenNeverRun(maximum, lifo, front);
      EveryRun(maximum, lifo, front);
      ForgottenStep(Run(Initial(maximum, lifo), front), actions[|actions| - 1]);
    }
  }
}
