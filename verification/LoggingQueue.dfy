/** DDLog: one serial logging queue, a queue for each logger node, and level masks. */
module LoggingQueue {
  import LogLevels
  import Lists
  import opened Options

  /** A 64-bit mask as an option set: which of its bits are on. */
  type Mask = LogLevels.Word

  datatype Message = Message(id: nat, flag: Mask)

  datatype Node = Node(logger: nat, level: Mask)

  /** Blocks put on the logging queue. */
  datatype Block =
    | AddLogger(logger: nat, level: Mask)
    | RemoveLogger(logger: nat)
    | RemoveAllLoggers
    | Log(message: Message)
    | Flush

  datatype Delivery = Delivery(node: Node, message: Message)

  const LogMaxQueueSize: nat := 1000

  predicate Meets(flag: Mask, level: Mask) {
    flag * level != {}
  }

  // ----- the list of loggers

  function RemoveFirst(nodes: seq<Node>, logger: nat): seq<Node> {
    if nodes == [] then []
    else if nodes[0].logger == logger then nodes[1..]
    else [nodes[0]] + RemoveFirst(nodes[1..], logger)
  }

  function NodesAfter(nodes: seq<Node>, b: Block): seq<Node> {
    match b
    case AddLogger(logger, level) => if Node(logger, level) in nodes then nodes else nodes + [Node(logger, level)]
    case RemoveLogger(logger) => RemoveFirst(nodes, logger)
    case RemoveAllLoggers => []
    case _ => nodes
  }

  function Dispatched(nodes: seq<Node>, message: Message): seq<Delivery> {
    if nodes == [] then []
    else
      var first := if Meets(message.flag, nodes[0].level) then [Delivery(nodes[0], message)] else [];
      first + Dispatched(nodes[1..], message)
  }

  // ----- the machine

  /**
   * `done` are the blocks begun, in order. `running` is the message being logged, and `work` what is
   * still on loggers' queues for it, in the order it was put there. `slots` is the semaphore.
   */
  datatype State = State(
    waiting: seq<Block>, done: seq<Block>, nodes: seq<Node>, running: Option<Message>, work: seq<Delivery>,
    slots: nat, delivered: seq<Delivery>)

  const Initial := State([], [], [], None, [], LogMaxQueueSize, [])

  /**
   * `Deliver` takes any piece of work that is the oldest on its queue; one processor always takes the oldest
   * of all.
   */
  datatype Action = Submit(block: Block) | Begin | Deliver(i: nat) | End

  /** Nodes of the same queue keep their order, whatever queue each logger uses. */
  predicate Oldest(work: seq<Delivery>, i: nat, queueOf: Node -> nat) {
    i < |work| && forall j :: 0 <= j < i ==> queueOf(work[j].node) != queueOf(work[i].node)
  }

  function Apply(s: State, a: Action, queueOf: Node -> nat): State {
    match a
    case Submit(b) =>
      if b.Log? && s.slots == 0 then s     // the caller blocks
      else s.(waiting := s.waiting + [b], slots := if b.Log? then s.slots - 1 else s.slots)
    case Begin =>
      if s.running.Some? || s.waiting == [] then s
      else
        var b := s.waiting[0];
        var begun := s.(waiting := s.waiting[1..], done := s.done + [b], nodes := NodesAfter(s.nodes, b));
        if b.Log? then begun.(running := Some(b.message), work := Dispatched(s.nodes, b.message)) else begun
    case Deliver(i) =>
      if !Oldest(s.work, i, queueOf) then s
      else s.(work := s.work[..i] + s.work[i + 1..], delivered := s.delivered + [s.work[i]])
    case End =>
      if s.running.None? || s.work != [] then s else s.(running := None, slots := s.slots + 1)
  }

  function Run(actions: seq<Action>, queueOf: Node -> nat): State
    decreases |actions|
  {
    if actions == [] then Initial else Apply(Run(actions[..|actions| - 1], queueOf), actions[|actions| - 1], queueOf)
  }

  // ----- what one logger is to receive, from the blocks alone

  /** The levels a logger is added with, oldest first; removing it drops only the oldest. */
  function Levels(blocks: seq<Block>, logger: nat): seq<Mask> {
    if blocks == [] then []
    else
      var before := Levels(blocks[..|blocks| - 1], logger);
      match blocks[|blocks| - 1]
      case AddLogger(l, level) => if l != logger || level in before then before else before + [level]
      case RemoveLogger(l) => if l != logger || before == [] then before else before[1..]
      case RemoveAllLoggers => []
      case _ => before
  }

  function Matching(levels: seq<Mask>, flag: Mask): nat {
    if levels == [] then 0 else Matching(levels[1..], flag) + if Meets(flag, levels[0]) then 1 else 0
  }

  function Copies(message: Message, n: nat): seq<Message> {
    if n == 0 then [] else Copies(message, n - 1) + [message]
  }

  /** Each message once for every level of the logger that its flag meets, in the order logged. */
  function Due(blocks: seq<Block>, logger: nat): seq<Message> {
    if blocks == [] then []
    else
      var front, last := blocks[..|blocks| - 1], blocks[|blocks| - 1];
      if last.Log? then Due(front, logger) + Copies(last.message, Matching(Levels(front, logger), last.message.flag))
      else Due(front, logger)
  }

  function Received(delivered: seq<Delivery>, logger: nat): seq<Message> {
    if delivered == [] then []
    else
      var last := delivered[|delivered| - 1];
      Received(delivered[..|delivered| - 1], logger) + if last.node.logger == logger then [last.message] else []
  }

  // ----- the list, seen by one logger

  function LevelsIn(nodes: seq<Node>, logger: nat): seq<Mask> {
    if nodes == [] then []
    else (if nodes[0].logger == logger then [nodes[0].level] else []) + LevelsIn(nodes[1..], logger)
  }

  lemma {:induction false} LevelsInAppend(nodes: seq<Node>, n: Node, logger: nat)
    ensures LevelsIn(nodes + [n], logger) == LevelsIn(nodes, logger) + if n.logger == logger then [n.level] else []
  {
    if nodes == [] {
      LevelsInOne(n, logger);
      Lists.ConcatEmpty([n]);
      Lists.ConcatEmpty(LevelsIn([n], logger));
    } else {
      var more := if n.logger == logger then [n.level] else [];
      LevelsInAppend(nodes[1..], n, logger);
      assert (nodes + [n])[1..] == nodes[1..] + [n];
      var first := if nodes[0].logger == logger then [nodes[0].level] else [];
      Lists.ConcatAssociates(first, LevelsIn(nodes[1..], logger), more);
    }
  }

  lemma LevelsInOne(n: Node, logger: nat)
    ensures LevelsIn([n], logger) == if n.logger == logger then [n.level] else []
  {
    assert [n][1..] == [];
  }

  lemma {:induction false} LevelsInHas(nodes: seq<Node>, logger: nat, level: Mask)
    ensures level in LevelsIn(nodes, logger) <==> Node(logger, level) in nodes
  {
    if nodes != [] {
      LevelsInHas(nodes[1..], logger, level);
      Lists.TakeAndDrop(nodes, 1);
      assert forall n :: n in nodes <==> n == nodes[0] || n in nodes[1..];
    }
  }

  lemma {:induction false} LevelsInRemove(nodes: seq<Node>, l: nat, logger: nat)
    ensures
      var before := LevelsIn(nodes, logger);
      LevelsIn(RemoveFirst(nodes, l), logger) == if l != logger || before == [] then before else before[1..]
  {
    if nodes != [] {
      LevelsInRemove(nodes[1..], l, logger);
      var rest := RemoveFirst(nodes[1..], l);
      if nodes[0].logger != l { assert ([nodes[0]] + rest)[1..] == rest; }
    }
  }

  lemma LevelsStep(nodes: seq<Node>, blocks: seq<Block>, b: Block, logger: nat)
    requires LevelsIn(nodes, logger) == Levels(blocks, logger)
    ensures LevelsIn(NodesAfter(nodes, b), logger) == Levels(blocks + [b], logger)
  {
    Lists.WithoutLast(blocks, b);
    match b {
      case AddLogger(l, level) =>
        LevelsInHas(nodes, l, level);
        LevelsInAppend(nodes, Node(l, level), logger);
      case RemoveLogger(l) => LevelsInRemove(nodes, l, logger);
      case _ =>
    }
  }

  // ----- every schedule

  function Owed(work: seq<Delivery>, logger: nat): nat {
    if work == [] then 0 else Owed(work[1..], logger) + if work[0].node.logger == logger then 1 else 0
  }

  lemma {:induction false} DispatchedOwed(nodes: seq<Node>, message: Message, logger: nat)
    ensures Owed(Dispatched(nodes, message), logger) == Matching(LevelsIn(nodes, logger), message.flag)
    ensures forall w :: w in Dispatched(nodes, message) ==> w.message == message
  {
    if nodes != [] {
      DispatchedOwed(nodes[1..], message, logger);
      var rest, levels := Dispatched(nodes[1..], message), LevelsIn(nodes[1..], logger);
      if Meets(message.flag, nodes[0].level) {
        assert ([Delivery(nodes[0], message)] + rest)[1..] == rest;
      } else {
        Lists.ConcatEmpty(rest);
      }
      if nodes[0].logger == logger {
        assert ([nodes[0].level] + levels)[1..] == levels;
      } else {
        Lists.ConcatEmpty(levels);
      }
    }
  }

  lemma {:induction false} OwedWithout(work: seq<Delivery>, i: nat, logger: nat)
    requires i < |work|
    ensures Owed(work, logger)
      == Owed(work[..i] + work[i + 1..], logger) + if work[i].node.logger == logger then 1 else 0
  {
    if i == 0 {
      assert work[..0] + work[1..] == work[1..];
    } else {
      OwedWithout(work[1..], i - 1, logger);
      var rest := work[..i] + work[i + 1..];
      assert rest[0] == work[0];
      assert rest[1..] == work[1..][..i - 1] + work[1..][i..];
    }
  }

  lemma {:induction false} CopiesCommute(m: Message, n: nat)
    ensures [m] + Copies(m, n) == Copies(m, n) + [m]
  {
    if n == 0 {
      Lists.ConcatEmpty([m]);
    } else {
      CopiesCommute(m, n - 1);
      Lists.ConcatAssociates([m], Copies(m, n - 1), [m]);
    }
  }

  lemma ReceivedAppend(delivered: seq<Delivery>, d: Delivery, logger: nat)
    ensures Received(delivered + [d], logger)
      == Received(delivered, logger) + if d.node.logger == logger then [d.message] else []
  {
    Lists.WithoutLast(delivered, d);
  }

  lemma DueAppend(blocks: seq<Block>, b: Block, logger: nat)
    ensures Due(blocks + [b], logger) == Due(blocks, logger)
      + if b.Log? then Copies(b.message, Matching(Levels(blocks, logger), b.message.flag)) else []
  {
    Lists.WithoutLast(blocks, b);
    Lists.ConcatEmpty(Due(blocks, logger));
  }

  /** Only the running message is on loggers' queues. */
  ghost predicate WorkOk(s: State) {
    forall w :: w in s.work ==> s.running == Some(w.message)
  }

  /** What the logger has received, with what is on its queues, is what it was due for the blocks begun. */
  ghost predicate OnTrack(s: State, logger: nat) {
    && LevelsIn(s.nodes, logger) == Levels(s.done, logger)
    && Due(s.done, logger) ==
      match s.running
      case None => Received(s.delivered, logger)
      case Some(m) => Received(s.delivered, logger) + Copies(m, Owed(s.work, logger))
  }

  lemma BeginLog(s: State, m: Message, queueOf: Node -> nat, logger: nat)
    requires WorkOk(s) && OnTrack(s, logger) && s.running.None? && s.waiting != [] && s.waiting[0] == Log(m)
    ensures OnTrack(Apply(s, Begin, queueOf), logger) && WorkOk(Apply(s, Begin, queueOf))
  {
    LevelsStep(s.nodes, s.done, Log(m), logger);
    DueAppend(s.done, Log(m), logger);
    DispatchedOwed(s.nodes, m, logger);
  }

  lemma BeginOther(s: State, queueOf: Node -> nat, logger: nat)
    requires WorkOk(s) && OnTrack(s, logger) && s.running.None? && s.waiting != [] && !s.waiting[0].Log?
    ensures OnTrack(Apply(s, Begin, queueOf), logger) && WorkOk(Apply(s, Begin, queueOf))
  {
    LevelsStep(s.nodes, s.done, s.waiting[0], logger);
    DueAppend(s.done, s.waiting[0], logger);
    Lists.ConcatEmpty(Due(s.done, logger));
  }

  lemma DeliverKeepsWork(s: State, i: nat, queueOf: Node -> nat)
    requires WorkOk(s) && Oldest(s.work, i, queueOf)
    ensures WorkOk(Apply(s, Deliver(i), queueOf)) && s.running == Some(s.work[i].message)
  {
    assert s.work[i] in s.work;
    assert forall w :: w in s.work[..i] + s.work[i + 1..] ==> w in s.work;
  }

  /** Delivering moves a copy from what is on the queues to what was received. */
  lemma DeliveryMoves(delivered: seq<Delivery>, work: seq<Delivery>, i: nat, logger: nat)
    requires i < |work|
    ensures Received(delivered + [work[i]], logger) + Copies(work[i].message, Owed(work[..i] + work[i + 1..], logger))
      == Received(delivered, logger) + Copies(work[i].message, Owed(work, logger))
  {
    OwedWithout(work, i, logger);
    ReceivedAppend(delivered, work[i], logger);
    if work[i].node.logger == logger {
      CopyReceived(Received(delivered, logger), work[i].message, Owed(work[..i] + work[i + 1..], logger));
    } else {
      Lists.ConcatEmpty(Received(delivered, logger));
    }
  }

  lemma DeliverKeeps(s: State, i: nat, queueOf: Node -> nat, logger: nat)
    requires WorkOk(s) && OnTrack(s, logger) && Oldest(s.work, i, queueOf)
    ensures OnTrack(Apply(s, Deliver(i), queueOf), logger) && WorkOk(Apply(s, Deliver(i), queueOf))
  {
    DeliverKeepsWork(s, i, queueOf);
    DeliveryMoves(s.delivered, s.work, i, logger);
  }

  lemma CopyReceived(received: seq<Message>, m: Message, n: nat)
    ensures received + Copies(m, n + 1) == (received + [m]) + Copies(m, n)
  {
    CopiesCommute(m, n);
    Lists.ConcatAssociates(received, [m], Copies(m, n));
  }

  lemma ApplyKeeps(s: State, a: Action, queueOf: Node -> nat, logger: nat)
    requires WorkOk(s) && OnTrack(s, logger)
    ensures WorkOk(Apply(s, a, queueOf)) && OnTrack(Apply(s, a, queueOf), logger)
  {
    match a
    case Submit(_) =>
    case Begin =>
      if s.running.None? && s.waiting != [] {
        if s.waiting[0].Log? {
          BeginLog(s, s.waiting[0].message, queueOf, logger);
        } else {
          BeginOther(s, queueOf, logger);
        }
      }
    case Deliver(i) => if Oldest(s.work, i, queueOf) { DeliverKeeps(s, i, queueOf, logger); }
    case End => if s.running.Some? && s.work == [] { Lists.ConcatEmpty(Received(s.delivered, logger)); }
  }

  lemma {:induction false} EveryRun(actions: seq<Action>, queueOf: Node -> nat, logger: nat)
    ensures WorkOk(Run(actions, queueOf)) && OnTrack(Run(actions, queueOf), logger)
    decreases |actions|
  {
    if actions != [] {
      EveryRun(actions[..|actions| - 1], queueOf, logger);
      ApplyKeeps(Run(actions[..|actions| - 1], queueOf), actions[|actions| - 1], queueOf, logger);
    }
  }

  /**
   * Whatever the loggers' queues and however they are scheduled, on one processor or several: between
   * two messages every logger has received just what the blocks run so far entitle it to, in order.
   */
  lemma EveryScheduleDeliversDue(actions: seq<Action>, queueOf: Node -> nat, logger: nat)
    requires Run(actions, queueOf).running.None?
    ensures
      var s := Run(actions, queueOf);
      Received(s.delivered, logger) == Due(s.done, logger)
  {
    EveryRun(actions, queueOf, logger);
  }

  // ----- the queue is first in, first out, and bounded

  function Logs(blocks: seq<Block>): nat {
    if blocks == [] then 0 else Logs(blocks[..|blocks| - 1]) + if blocks[|blocks| - 1].Log? then 1 else 0
  }

  lemma {:induction false} LogsConcat(a: seq<Block>, b: seq<Block>)
    ensures Logs(a + b) == Logs(a) + Logs(b)
    decreases |b|
  {
    if b == [] {
      Lists.ConcatEmpty(a);
    } else {
      LogsConcat(a, b[..|b| - 1]);
      assert (a + b)[..|a + b| - 1] == a + b[..|b| - 1];
    }
  }

  lemma LogsOne(b: Block)
    ensures Logs([b]) == if b.Log? then 1 else 0
  {
    assert [b][..0] == [];
  }

  /** The blocks accepted, in order; a log block only when there is a slot. */
  function Accepted(actions: seq<Action>, queueOf: Node -> nat): seq<Block>
    decreases |actions|
  {
    if actions == [] then []
    else
      var front, last := actions[..|actions| - 1], actions[|actions| - 1];
      Accepted(front, queueOf)
      + if last.Submit? && !(last.block.Log? && Run(front, queueOf).slots == 0) then [last.block] else []
  }

  ghost predicate QueueOk(s: State, accepted: seq<Block>) {
    && s.done + s.waiting == accepted
    && s.slots + Logs(s.waiting) + (if s.running.Some? then 1 else 0) == LogMaxQueueSize
  }

  lemma SubmitQueue(s: State, b: Block, accepted: seq<Block>, queueOf: Node -> nat)
    requires QueueOk(s, accepted)
    ensures QueueOk(Apply(s, Submit(b), queueOf), if b.Log? && s.slots == 0 then accepted else accepted + [b])
  {
    Lists.ConcatAssociates(s.done, s.waiting, [b]);
    LogsConcat(s.waiting, [b]);
    LogsOne(b);
  }

  lemma BeginQueue(s: State, accepted: seq<Block>, queueOf: Node -> nat)
    requires QueueOk(s, accepted)
    ensures QueueOk(Apply(s, Begin, queueOf), accepted)
  {
    if s.running.None? && s.waiting != [] {
      var first, rest := s.waiting[0], s.waiting[1..];
      assert s.waiting == [first] + rest;
      Lists.ConcatAssociates(s.done, [first], rest);
      LogsConcat([first], rest);
      LogsOne(first);
    }
  }

  /**
   * Blocks begin in the order in which they were put on the queue, and never more than the maximum of messages
   * wait or run.
   */
  lemma {:induction false} FirstInFirstOut(actions: seq<Action>, queueOf: Node -> nat)
    ensures QueueOk(Run(actions, queueOf), Accepted(actions, queueOf))
    decreases |actions|
  {
    if actions != [] {
      var front, last := actions[..|actions| - 1], actions[|actions| - 1];
      var s, accepted := Run(front, queueOf), Accepted(front, queueOf);
      FirstInFirstOut(front, queueOf);
      Lists.ConcatEmpty(accepted);
      match last {
        case Submit(b) => SubmitQueue(s, b, accepted, queueOf);
        case Begin => BeginQueue(s, accepted, queueOf);
        case _ =>
      }
    }
  }

  /**
   * When a flush block begins, every block accepted before it has run, and every logger has received
   * all that these entitle it to.
   */
  lemma FlushComesAfter(actions: seq<Action>, queueOf: Node -> nat, logger: nat)
    requires
      var s := Run(actions, queueOf);
      s.running.None? && s.waiting != [] && s.waiting[0].Flush?
    ensures
      var s := Run(actions, queueOf);
      var begun := Apply(s, Begin, queueOf);
      && begun.done == s.done + [Flush] && begun.done + begun.waiting == Accepted(actions, queueOf)
      && Received(begun.delivered, logger) == Due(s.done, logger)
  {
    var s := Run(actions, queueOf);
    FirstInFirstOut(actions, queueOf);
    EveryScheduleDeliversDue(actions, queueOf, logger);
    assert s.waiting == [Flush] + s.waiting[1..];
    Lists.ConcatAssociates(s.done, [Flush], s.waiting[1..]);
  }

  // ----- once each?

  lemma RunOneMore(actions: seq<Action>, a: Action, queueOf: Node -> nat)
    ensures Run(actions + [a], queueOf) == Apply(Run(actions, queueOf), a, queueOf)
    ensures !a.Submit? ==> Accepted(actions + [a], queueOf) == Accepted(actions, queueOf)
  {
    Lists.WithoutLast(actions, a);
    Lists.ConcatEmpty(Accepted(actions, queueOf));
  }

  /** The message being logged can be delivered to all its loggers, whatever their queues. */
  lemma {:induction false} MessageEnds(actions: seq<Action>, queueOf: Node -> nat) returns (all: seq<Action>)
    requires Run(actions, queueOf).running.Some?
    ensures
      var s, r := Run(actions, queueOf), Run(all, queueOf);
      r.running.None? && r.waiting == s.waiting && Accepted(all, queueOf) == Accepted(actions, queueOf)
    decreases |Run(actions, queueOf).work|
  {
    if Run(actions, queueOf).work == [] {
      RunOneMore(actions, End, queueOf);
      all := actions + [End];
    } else {
      RunOneMore(actions, Deliver(0), queueOf);
      all := MessageEnds(actions + [Deliver(0)], queueOf);
    }
  }

  lemma {:induction false} QueueEmpties(actions: seq<Action>, queueOf: Node -> nat) returns (all: seq<Action>)
    ensures
      var r := Run(all, queueOf);
      r.running.None? && r.waiting == [] && Accepted(all, queueOf) == Accepted(actions, queueOf)
    decreases |Run(actions, queueOf).waiting|, Run(actions, queueOf).running.Some?
  {
    var s := Run(actions, queueOf);
    if s.running.Some? {
      all := MessageEnds(actions, queueOf);
      if s.waiting != [] { all := QueueEmpties(all, queueOf); }
    } else if s.waiting != [] {
      RunOneMore(actions, Begin, queueOf);
      all := QueueEmpties(actions + [Begin], queueOf);
    } else {
      all := actions;
    }
  }

  /**
   * Nothing is lost: every run can go on, with nothing further submitted, to where each logger has
   * received all that the blocks accepted entitle it to.
   */
  lemma NothingIsLost(actions: seq<Action>, queueOf: Node -> nat, logger: nat) returns (all: seq<Action>)
    ensures
      var r := Run(all, queueOf);
      && r.running.None? && r.waiting == [] && r.done == Accepted(actions, queueOf)
      && Received(r.delivered, logger) == Due(Accepted(actions, queueOf), logger)
  {
    all := QueueEmpties(actions, queueOf);
    FirstInFirstOut(all, queueOf);
    Lists.ConcatEmpty(Run(all, queueOf).done);
    EveryScheduleDeliversDue(all, queueOf, logger);
  }

  /** The documented rule: the messages between adding and removing whose flag meets the level, once each. */
  function Promised(blocks: seq<Block>, logger: nat): (r: (seq<Message>, Option<Mask>)) {
    if blocks == [] then ([], None)
    else
      var (messages, level) := Promised(blocks[..|blocks| - 1], logger);
      match blocks[|blocks| - 1]
      case AddLogger(l, mask) => (messages, if l == logger then Some(mask) else level)
      case RemoveLogger(l) => (messages, if l == logger then None else level)
      case RemoveAllLoggers => (messages, None)
      case Log(m) => (if level.Some? && Meets(m.flag, level.value) then messages + [m] else messages, level)
      case Flush => (messages, level)
  }

  /** The logger is never added while it is already added with another level. */
  predicate OneLevelAtATime(blocks: seq<Block>, logger: nat) {
    blocks == [] ||
    (var front, last := blocks[..|blocks| - 1], blocks[|blocks| - 1];
     OneLevelAtATime(front, logger) &&
     (last.AddLogger? && last.logger == logger ==>
        Levels(front, logger) == [] || Levels(front, logger) == [last.level]))
  }

  lemma {:induction false} KeepsPromise(blocks: seq<Block>, logger: nat)
    requires OneLevelAtATime(blocks, logger)
    ensures Due(blocks, logger) == Promised(blocks, logger).0
    ensures Levels(blocks, logger) == match Promised(blocks, logger).1 case None => [] case Some(level) => [level]
    decreases |blocks|
  {
    if blocks != [] {
      var front, last := blocks[..|blocks| - 1], blocks[|blocks| - 1];
      KeepsPromise(front, logger);
      if last.Log? { LogKeepsPromise(front, last.message, logger); }
    }
  }

  lemma LogKeepsPromise(blocks: seq<Block>, m: Message, logger: nat)
    requires Levels(blocks, logger) == match Promised(blocks, logger).1 case None => [] case Some(level) => [level]
    ensures Due(blocks, logger) + Copies(m, Matching(Levels(blocks, logger), m.flag)) ==
      var level := Promised(blocks, logger).1;
      if level.Some? && Meets(m.flag, level.value) then Due(blocks, logger) + [m] else Due(blocks, logger)
  {
    var level := Promised(blocks, logger).1;
    if level.Some? { assert [level.value][1..] == []; }
    Lists.ConcatEmpty(Due(blocks, logger));
    Lists.ConcatEmpty([m]);
    assert Copies(m, 1) == [m];
  }

  predicate AllEmpty(levels: seq<Mask>) {
    forall i :: 0 <= i < |levels| ==> levels[i] == {}
  }

  lemma {:induction false} NoneMatches(levels: seq<Mask>, flag: Mask)
    requires AllEmpty(levels)
    ensures Matching(levels, flag) == 0
  {
    if levels != [] { NoneMatches(levels[1..], flag); }
  }

  lemma {:induction false} SomeMatches(levels: seq<Mask>, i: nat)
    requires i < |levels| && levels[i] != {}
    ensures Matching(levels, levels[i]) > 0
  {
    if i > 0 {
      assert levels[1..][i - 1] == levels[i];
      SomeMatches(levels[1..], i - 1);
    }
  }

  lemma MatchingNone(levels: seq<Mask>)
    ensures (forall flag :: Matching(levels, flag) == 0) <==> AllEmpty(levels)
  {
    if AllEmpty(levels) {
      forall flag ensures Matching(levels, flag) == 0 { NoneMatches(levels, flag); }
    } else {
      var i: nat :| i < |levels| && levels[i] != {};
      SomeMatches(levels, i);
    }
  }

  lemma CopiesLength(m: Message, n: nat)
    ensures |Copies(m, n)| == n
  {
  }

  // ----- once each, exactly

  predicate AtMostOneNonEmpty(levels: seq<Mask>) {
    forall i, j :: 0 <= i < j < |levels| ==> levels[i] == {} || levels[j] == {}
  }

  predicate PairwiseDisjoint(levels: seq<Mask>) {
    forall i, j :: 0 <= i < j < |levels| ==> levels[i] * levels[j] == {}
  }

  /** A flag of one bit, like the declared ones. */
  predicate SingleBit(flag: Mask) {
    |flag| == 1
  }

  lemma UnionMeets(a: Mask, b: Mask) returns (flag: Mask)
    requires a != {} && b != {}
    ensures Meets(flag, a) && Meets(flag, b)
  {
    flag := a + b;
    assert flag * a == a && flag * b == b;
  }

  lemma SharedBit(a: Mask, b: Mask) returns (flag: Mask)
    requires a * b != {}
    ensures SingleBit(flag) && Meets(flag, a) && Meets(flag, b)
  {
    var bit :| bit in a * b;
    flag := {bit};
    assert bit in flag * a && bit in flag * b;
  }

  lemma SingleMeetsOne(flag: Mask, a: Mask, b: Mask)
    requires SingleBit(flag) && a * b == {}
    ensures !(Meets(flag, a) && Meets(flag, b))
  {
    var bit :| bit in flag;
    assert flag == {bit} by { SingleIs(flag, bit); }
    assert bit !in a || bit !in b by { assert bit in a && bit in b ==> bit in a * b; }
  }

  lemma SingleIs(flag: Mask, bit: nat)
    requires SingleBit(flag) && bit in flag
    ensures flag == {bit}
  {
    assert |flag - {bit}| == 0;
    assert flag == (flag - {bit}) + {bit};
  }

  lemma EmptyMeetsNone(flag: Mask, a: Mask, b: Mask)
    requires a == {} || b == {}
    ensures !(Meets(flag, a) && Meets(flag, b))
  {
  }

  /** Two levels that both meet a flag are two copies. */
  lemma {:induction false} TwoMatch(levels: seq<Mask>, i: nat, j: nat, flag: Mask)
    requires i < j < |levels| && Meets(flag, levels[i]) && Meets(flag, levels[j])
    ensures Matching(levels, flag) >= 2
  {
    if i > 0 {
      assert levels[1..][i - 1] == levels[i] && levels[1..][j - 1] == levels[j];
      TwoMatch(levels[1..], i - 1, j - 1, flag);
    } else {
      assert levels[1..][j - 1] == levels[j];
      OneMatches(levels[1..], j - 1, flag);
    }
  }

  lemma {:induction false} OneMatches(levels: seq<Mask>, i: nat, flag: Mask)
    requires i < |levels| && Meets(flag, levels[i])
    ensures Matching(levels, flag) >= 1
  {
    if i > 0 {
      assert levels[1..][i - 1] == levels[i];
      OneMatches(levels[1..], i - 1, flag);
    }
  }

  /** Of levels that no flag meets two of, no flag gets two copies. */
  lemma {:induction false} AtMostOneMatches(levels: seq<Mask>, flag: Mask)
    requires forall i, j :: 0 <= i < j < |levels| ==> !(Meets(flag, levels[i]) && Meets(flag, levels[j]))
    ensures Matching(levels, flag) <= 1
  {
    if levels != [] {
      if Meets(flag, levels[0]) {
        NoneMeets(levels[1..], flag);
      } else {
        AtMostOneMatches(levels[1..], flag);
      }
    }
  }

  lemma {:induction false} NoneMeets(levels: seq<Mask>, flag: Mask)
    requires forall i :: 0 <= i < |levels| ==> !Meets(flag, levels[i])
    ensures Matching(levels, flag) == 0
  {
    if levels != [] { NoneMeets(levels[1..], flag); }
  }

  /** No flag word gets two copies if and only if at most one level is not empty. */
  lemma AtMostOnceIff(levels: seq<Mask>)
    ensures (forall flag :: Matching(levels, flag) <= 1) <==> AtMostOneNonEmpty(levels)
  {
    if AtMostOneNonEmpty(levels) {
      forall flag ensures Matching(levels, flag) <= 1 {
        forall i, j | 0 <= i < j < |levels| ensures !(Meets(flag, levels[i]) && Meets(flag, levels[j])) {
          EmptyMeetsNone(flag, levels[i], levels[j]);
        }
        AtMostOneMatches(levels, flag);
      }
    } else {
      var i: nat, j: nat :| i < j < |levels| && levels[i] != {} && levels[j] != {};
      var flag := UnionMeets(levels[i], levels[j]);
      TwoMatch(levels, i, j, flag);
    }
  }

  /** No flag of a single bit gets two copies if and only if the levels are pairwise disjoint. */
  lemma SingleBitAtMostOnceIff(levels: seq<Mask>)
    ensures (forall flag :: SingleBit(flag) ==> Matching(levels, flag) <= 1) <==> PairwiseDisjoint(levels)
  {
    if PairwiseDisjoint(levels) {
      forall flag | SingleBit(flag) ensures Matching(levels, flag) <= 1 {
        forall i, j | 0 <= i < j < |levels| ensures !(Meets(flag, levels[i]) && Meets(flag, levels[j])) {
          SingleMeetsOne(flag, levels[i], levels[j]);
        }
        AtMostOneMatches(levels, flag);
      }
    } else {
      var i: nat, j: nat :| i < j < |levels| && levels[i] * levels[j] != {};
      var flag := SharedBit(levels[i], levels[j]);
      TwoMatch(levels, i, j, flag);
    }
  }

  /** How often a logger is due what is logged next. */
  function Gets(blocks: seq<Block>, logger: nat, m: Message): int {
    |Due(blocks + [Log(m)], logger)| - |Due(blocks, logger)|
  }

  lemma GetsMatching(blocks: seq<Block>, logger: nat, m: Message)
    ensures Gets(blocks, logger, m) == Matching(Levels(blocks, logger), m.flag)
  {
    DueAppend(blocks, Log(m), logger);
    CopiesLength(m, Matching(Levels(blocks, logger), m.flag));
  }

  /**
   * At every point of every history: whatever is logged next is due at most once if and only if at most one
   * level is not empty.
   */
  lemma DeliveredAtMostOnceIff(blocks: seq<Block>, logger: nat)
    ensures (forall m: Message :: Gets(blocks, logger, m) <= 1) <==> AtMostOneNonEmpty(Levels(blocks, logger))
  {
    forall m: Message ensures Gets(blocks, logger, m) == Matching(Levels(blocks, logger), m.flag) {
      GetsMatching(blocks, logger, m);
    }
    AtMostOnceIff(Levels(blocks, logger));
    if AtMostOneNonEmpty(Levels(blocks, logger)) {
      forall m: Message ensures Gets(blocks, logger, m) <= 1 {
        assert Matching(Levels(blocks, logger), m.flag) <= 1;
      }
    }
    if forall m: Message :: Gets(blocks, logger, m) <= 1 {
      forall flag ensures Matching(Levels(blocks, logger), flag) <= 1 {
        assert Gets(blocks, logger, Message(0, flag)) <= 1;
      }
    }
  }

  /** And with single flags, like the declared ones, if and only if the levels are pairwise disjoint. */
  lemma FlagDeliveredAtMostOnceIff(blocks: seq<Block>, logger: nat)
    ensures (forall m: Message :: SingleBit(m.flag) ==> Gets(blocks, logger, m) <= 1)
      <==> PairwiseDisjoint(Levels(blocks, logger))
  {
    forall m: Message ensures Gets(blocks, logger, m) == Matching(Levels(blocks, logger), m.flag) {
      GetsMatching(blocks, logger, m);
    }
    SingleBitAtMostOnceIff(Levels(blocks, logger));
    if forall m: Message :: SingleBit(m.flag) ==> Gets(blocks, logger, m) <= 1 {
      forall flag | SingleBit(flag) ensures Matching(Levels(blocks, logger), flag) <= 1 {
        assert SingleBit(Message(0, flag).flag) && Gets(blocks, logger, Message(0, flag)) <= 1;
      }
    }
  }

  lemma AddedTwice(a: Mask, b: Mask, m: Message)
    requires a != b
    ensures
      var blocks := [AddLogger(0, a)] + [AddLogger(0, b)];
      && Levels(blocks, 0) == [a] + [b]
      && Due(blocks + [Log(m)], 0) == Copies(m, (if Meets(m.flag, a) then 1 else 0) + if Meets(m.flag, b) then 1 else 0)
  {
    var first, second := AddLogger(0, a), AddLogger(0, b);
    assert [first][..0] == [];
    Lists.WithoutLast([first], second);
    assert Levels([first], 0) == [a];
    DueAppend([first], second, 0);
    DueAppend([first] + [second], Log(m), 0);
    TwoLevels(a, b, m.flag);
    Lists.ConcatEmpty(Copies(m, Matching([a] + [b], m.flag)));
  }

  lemma TwoLevels(a: Mask, b: Mask, flag: Mask)
    ensures Matching([a] + [b], flag) == (if Meets(flag, a) then 1 else 0) + if Meets(flag, b) then 1 else 0
  {
    MatchingOne(b, flag);
    assert ([a] + [b])[1..] == [b];
  }

  /** A logger added for errors and added again for errors and warnings gets an error twice. */
  lemma DeliveredTwice(id: nat)
    ensures
      var m := Message(id, {0});
      Due([AddLogger(0, {0})] + [AddLogger(0, {0, 1})] + [Log(m)], 0) == Copies(m, 2)
  {
    assert 1 in {0, 1} && 1 !in {0};
    AddedTwice({0}, {0, 1}, Message(id, {0}));
    assert 0 in {0} * {0} && 0 in {0} * {0, 1};
  }

  /** Disjoint levels are not enough for a message whose flag has several bits: it may meet them both. */
  lemma DisjointLevelsDeliverTwice(id: nat)
    ensures
      var m, blocks := Message(id, {0, 1}), [AddLogger(0, {0})] + [AddLogger(0, {1})];
      PairwiseDisjoint(Levels(blocks, 0)) && Due(blocks + [Log(m)], 0) == Copies(m, 2)
  {
    assert 1 in {1} && 1 !in {0};
    AddedTwice({0}, {1}, Message(id, {0, 1}));
    assert 0 in {0, 1} * {0} && 1 in {0, 1} * {1};
  }

  // ----- sent as promised, exactly

  /** The levels that are not empty. */
  function Effective(levels: seq<Mask>): seq<Mask> {
    if levels == [] then [] else (if levels[0] == {} then [] else [levels[0]]) + Effective(levels[1..])
  }

  function Asked(level: Option<Mask>): seq<Mask> {
    if level.Some? && level.value != {} then [level.value] else []
  }

  lemma {:induction false} EffectiveMatches(levels: seq<Mask>, flag: Mask)
    ensures Matching(Effective(levels), flag) == Matching(levels, flag)
  {
    if levels != [] {
      var rest := Effective(levels[1..]);
      EffectiveMatches(levels[1..], flag);
      if levels[0] == {} { Lists.ConcatEmpty(rest); } else { assert ([levels[0]] + rest)[1..] == rest; }
    }
  }

  lemma {:induction false} EffectiveNonEmpty(levels: seq<Mask>)
    ensures forall i :: 0 <= i < |Effective(levels)| ==> Effective(levels)[i] != {}
  {
    if levels != [] { EffectiveNonEmpty(levels[1..]); }
  }

  /** Different levels are told apart by some flag. */
  lemma TellApart(a: Mask, b: Mask) returns (flag: Mask)
    requires a != b
    ensures Meets(flag, a) <==> !Meets(flag, b)
  {
    var bit :| bit in a - b || bit in b - a;
    flag := {bit};
    assert bit in a ==> bit in flag * a;
    assert bit in b ==> bit in flag * b;
  }

  lemma MatchingOne(level: Mask, flag: Mask)
    ensures Matching([level], flag) == if Meets(flag, level) then 1 else 0
  {
    assert [level][1..] == [];
  }

  lemma TwoAreNotOne(a: seq<Mask>)
    requires |a| > 1 && forall i :: 0 <= i < |a| ==> a[i] != {}
    ensures !AtMostOneNonEmpty(a)
  {
    assert a[0] != {} && a[1] != {};
  }

  /** Two lists of at most one level that is not empty, told apart by no flag, are equal. */
  lemma SameMatches(a: seq<Mask>, b: seq<Mask>)
    requires |b| <= 1 && (forall i :: 0 <= i < |a| ==> a[i] != {}) && (forall i :: 0 <= i < |b| ==> b[i] != {})
    requires forall flag :: Matching(a, flag) == Matching(b, flag)
    ensures a == b
  {
    forall flag ensures Matching(a, flag) <= 1 { if b != [] { assert b == [b[0]]; MatchingOne(b[0], flag); } }
    AtMostOnceIff(a);
    if |a| > 1 { TwoAreNotOne(a); }
    if a == [] && b != [] { SomeMatches(b, 0); }
    if a != [] && b == [] { SomeMatches(a, 0); }
    if a != [] && b != [] && a[0] != b[0] {
      var flag := TellApart(a[0], b[0]);
      assert a == [a[0]] && b == [b[0]];
      MatchingOne(a[0], flag);
      MatchingOne(b[0], flag);
    }
  }

  /** How often the documentation promises what is logged next. */
  function IsPromised(blocks: seq<Block>, logger: nat, m: Message): int {
    |Promised(blocks + [Log(m)], logger).0| - |Promised(blocks, logger).0|
  }

  lemma PromisedMatching(blocks: seq<Block>, logger: nat, m: Message)
    ensures IsPromised(blocks, logger, m) == Matching(Asked(Promised(blocks, logger).1), m.flag)
  {
    Lists.WithoutLast(blocks, Log(m));
    var level := Promised(blocks, logger).1;
    if level.Some? { MatchingOne(level.value, m.flag); }
  }

  /**
   * At every point of every history: whatever is logged next reaches the logger as often as promised if
   * and only if the levels it was added with, the empty ones aside, are just the one promised.
   */
  lemma SentAsPromisedIff(blocks: seq<Block>, logger: nat)
    ensures (forall m: Message :: Gets(blocks, logger, m) == IsPromised(blocks, logger, m))
      <==> Effective(Levels(blocks, logger)) == Asked(Promised(blocks, logger).1)
  {
    var levels, asked := Effective(Levels(blocks, logger)), Asked(Promised(blocks, logger).1);
    forall m: Message
      ensures Gets(blocks, logger, m) == Matching(levels, m.flag)
      ensures IsPromised(blocks, logger, m) == Matching(asked, m.flag)
    {
      GetsMatching(blocks, logger, m);
      EffectiveMatches(Levels(blocks, logger), m.flag);
      PromisedMatching(blocks, logger, m);
    }
    if forall m: Message :: Gets(blocks, logger, m) == IsPromised(blocks, logger, m) {
      forall flag ensures Matching(levels, flag) == Matching(asked, flag) {
        assert Gets(blocks, logger, Message(0, flag)) == IsPromised(blocks, logger, Message(0, flag));
      }
      EffectiveNonEmpty(Levels(blocks, logger));
      SameMatches(levels, asked);
    }
  }

  lemma AfterRemoval(blocks: seq<Block>, logger: nat, m: Message)
    ensures
      var levels := Levels(blocks, logger);
      var left := if levels == [] then [] else levels[1..];
      Due(blocks + [RemoveLogger(logger)] + [Log(m)], logger) == Due(blocks, logger) + Copies(m, Matching(left, m.flag))
  {
    DueAppend(blocks, RemoveLogger(logger), logger);
    Lists.WithoutLast(blocks, RemoveLogger(logger));
    DueAppend(blocks + [RemoveLogger(logger)], Log(m), logger);
    Lists.ConcatEmpty(Due(blocks, logger));
  }

  /**
   * After being removed a logger is sent nothing if and only if every level it was added with but the oldest
   * is empty.
   */
  lemma SilentAfterRemovalIff(blocks: seq<Block>, logger: nat)
    ensures
      (forall m :: Due(blocks + [RemoveLogger(logger)] + [Log(m)], logger) == Due(blocks, logger))
      <==> (Levels(blocks, logger) == [] || AllEmpty(Levels(blocks, logger)[1..]))
  {
    var levels := Levels(blocks, logger);
    var left := if levels == [] then [] else levels[1..];
    forall m
      ensures Due(blocks + [RemoveLogger(logger)] + [Log(m)], logger)
        == Due(blocks, logger) + Copies(m, Matching(left, m.flag))
    {
      AfterRemoval(blocks, logger, m);
    }
    MatchingNone(left);
    SentNothing(Due(blocks, logger), left);
  }

  lemma SentNothing(due: seq<Message>, left: seq<Mask>)
    ensures (forall m: Message :: due + Copies(m, Matching(left, m.flag)) == due)
      <==> forall flag :: Matching(left, flag) == 0
  {
    if forall m: Message :: due + Copies(m, Matching(left, m.flag)) == due {
      forall flag ensures Matching(left, flag) == 0 {
        var m := Message(0, flag);
        CopiesLength(m, Matching(left, flag));
        assert |due + Copies(m, Matching(left, m.flag))| == |due|;
      }
    } else {
      var m: Message :| due + Copies(m, Matching(left, m.flag)) != due;
      if Matching(left, m.flag) == 0 { Lists.ConcatEmpty(due); }
    }
  }

  lemma AddThenRemove(blocks: seq<Block>, logger: nat, level: Mask)
    ensures
      var before := Levels(blocks, logger);
      var added := if level in before then before else before + [level];
      var after := blocks + [AddLogger(logger, level)] + [RemoveLogger(logger)];
      Levels(after, logger) == added[1..] && Due(after, logger) == Due(blocks, logger)
        && Promised(after, logger) == (Promised(blocks, logger).0, None)
  {
    var added := blocks + [AddLogger(logger, level)];
    DueAppend(blocks, AddLogger(logger, level), logger);
    DueAppend(added, RemoveLogger(logger), logger);
    Lists.ConcatEmpty(Due(blocks, logger));
    Lists.WithoutLast(blocks, AddLogger(logger, level));
    Lists.WithoutLast(added, RemoveLogger(logger));
  }

  /**
   * A logger added as documented so far, added again with `level` and then removed, is silent afterwards
   * as promised if and only if it was not added already, or with the same level, or `level` is empty.
   */
  lemma AddingAgainKeepsPromiseIff(blocks: seq<Block>, logger: nat, level: Mask)
    requires OneLevelAtATime(blocks, logger)
    ensures
      var after := blocks + [AddLogger(logger, level)] + [RemoveLogger(logger)];
      (forall m :: Due(after + [Log(m)], logger) == Promised(after + [Log(m)], logger).0)
      <==> Levels(blocks, logger) == [] || Levels(blocks, logger) == [level] || level == {}
  {
    var before := Levels(blocks, logger);
    var after := blocks + [AddLogger(logger, level)] + [RemoveLogger(logger)];
    KeepsPromise(blocks, logger);
    AddThenRemove(blocks, logger, level);
    var left := Levels(after, logger);
    assert |before| <= 1;
    assert left == if before == [] || before == [level] then [] else [level];
    forall m ensures Due(after + [Log(m)], logger) == Due(blocks, logger) + Copies(m, Matching(left, m.flag))
      ensures Promised(after + [Log(m)], logger).0 == Due(blocks, logger)
    {
      DueAppend(after, Log(m), logger);
      Lists.WithoutLast(after, Log(m));
    }
    SentNothing(Due(blocks, logger), left);
    MatchingNone(left);
    assert AllEmpty(left) <==> left == [] || level == {};
  }

  // ----- the object

  /** What runs on the logging queue. */
  class LoggerList {
    var loggers: seq<Node>

    constructor ()
      ensures loggers == []
    {
      loggers := [];
    }

    method Add(logger: nat, level: Mask)
      modifies this
      ensures loggers == NodesAfter(old(loggers), AddLogger(logger, level))
    {
      for i := 0 to |loggers|
        invariant loggers == old(loggers)
        invariant Node(logger, level) !in loggers[..i]
      {
        if loggers[i].logger == logger && loggers[i].level == level {
          assert loggers[i] == Node(logger, level);
          return;
        }
        Lists.TakeOneMore(loggers, i);
      }
      assert loggers[..|loggers|] == loggers;
      loggers := loggers + [Node(logger, level)];
    }

    method Remove(logger: nat)
      modifies this
      ensures loggers == NodesAfter(old(loggers), RemoveLogger(logger))
    {
      var i := 0;
      while i < |loggers| && loggers[i].logger != logger
        invariant i <= |loggers| && loggers == old(loggers)
        invariant RemoveFirst(loggers, logger) == loggers[..i] + RemoveFirst(loggers[i..], logger)
      {
        RemoveLater(loggers, i, logger);
        i := i + 1;
      }
      if i == |loggers| {
        assert loggers[..i] == loggers;
        Lists.ConcatEmpty(loggers);
        return;
      }
      assert loggers[i..][1..] == loggers[i + 1..];
      loggers := loggers[..i] + loggers[i + 1..];
    }

    /** The loop over the loggers: what is put on their queues, in order. */
    method LogMessage(message: Message) returns (work: seq<Delivery>)
      ensures work == Dispatched(loggers, message)
    {
      work := [];
      for i := 0 to |loggers|
        invariant work + Dispatched(loggers[i..], message) == Dispatched(loggers, message)
      {
        var here := if Meets(message.flag, loggers[i].level) then [Delivery(loggers[i], message)] else [];
        assert loggers[i..][0] == loggers[i] && loggers[i..][1..] == loggers[i + 1..];
        Lists.ConcatAssociates(work, here, Dispatched(loggers[i + 1..], message));
        work := work + here;
      }
      assert loggers[|loggers|..] == [];
      Lists.ConcatEmpty(work);
    }
  }

  lemma RemoveLater(nodes: seq<Node>, i: nat, logger: nat)
    requires i < |nodes| && nodes[i].logger != logger
    ensures nodes[..i] + RemoveFirst(nodes[i..], logger) == nodes[..i + 1] + RemoveFirst(nodes[i + 1..], logger)
  {
    assert nodes[i..][1..] == nodes[i + 1..];
    Lists.TakeOneMore(nodes, i);
    Lists.ConcatAssociates(nodes[..i], [nodes[i]], RemoveFirst(nodes[i + 1..], logger));
  }
}
