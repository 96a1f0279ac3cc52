/** RACReplaySubject over RACSubject: a bounded buffer replayed to late subscribers, then live events. */
module ReplaySubject {
  import Lists
  import opened Options
  import opened RacEvents

  /** A send under way: the position of its event in the history and the subscribers still to be given it. */
  datatype Sending = Sending(at: nat, left: seq<nat>)

  /**
   * `capacity` is None for RACReplaySubjectUnlimitedCapacity. `sends` is the stack of sends under way,
   * the innermost last: the lock is recursive, so a subscriber may send from inside a delivery.
   * `replayed` is what a subscriber was given on joining, `from` the length of the history then, and
   * `got` the positions of the events it was given since.
   */
  datatype State<V> = State(
    capacity: Option<nat>, buffer: seq<V>, completed: bool, error: Option<ErrorCode>,
    subscribers: seq<nat>, sends: seq<Sending>,
    history: seq<Event<V>>, replayed: map<nat, seq<Event<V>>>, from: map<nat, nat>, got: map<nat, seq<nat>>)

  /** `Proceed` gives the innermost send's event to its next subscriber, or ends that send. */
  datatype Action<V> = Join(id: nat) | Leave(id: nat) | Emit(event: Event<V>) | Proceed

  function Initial<V>(capacity: Option<nat>): State<V> {
    State(capacity, [], false, None, [], [], [], map[], map[], map[])
  }

  function Trimmed<V>(capacity: Option<nat>, buffer: seq<V>): seq<V> {
    if capacity.Some? && |buffer| > capacity.value then buffer[|buffer| - capacity.value..] else buffer
  }

  function Nexts<V>(values: seq<V>): seq<Event<V>> {
    if values == [] then [] else Nexts(values[..|values| - 1]) + [Next(values[|values| - 1])]
  }

  function Terminal<V>(s: State<V>): seq<Event<V>> {
    if s.completed then [Completed] else if s.error.Some? then [Error(s.error.value)] else []
  }

  function Dropped(ids: seq<nat>, id: nat): (r: seq<nat>) {
    if ids == [] then []
    else if ids[|ids| - 1] == id then ids[..|ids| - 1]
    else Dropped(ids[..|ids| - 1], id) + [ids[|ids| - 1]]
  }

  function Top<V>(s: State<V>): Sending
    requires s.sends != []
  {
    s.sends[|s.sends| - 1]
  }

  function Pop<V>(s: State<V>): seq<Sending>
    requires s.sends != []
  {
    s.sends[..|s.sends| - 1]
  }

  function Apply<V>(s: State<V>, a: Action<V>): State<V> {
    match a
    case Join(id) =>
      if id in s.from then s
      else
        var joined := s.(replayed := s.replayed[id := Nexts(s.buffer) + Terminal(s)],
          from := s.from[id := |s.history|], got := s.got[id := []]);
        if Terminal(s) != [] then joined else joined.(subscribers := s.subscribers + [id])
    case Leave(id) => s.(subscribers := Dropped(s.subscribers, id))
    case Emit(e) =>
      var sent := s.(sends := s.sends + [Sending(|s.history|, s.subscribers)], history := s.history + [e]);
      (match e
       case Next(v) => sent.(buffer := s.buffer + [v])
       case Completed => sent.(completed := true)
       case Error(code) => sent.(error := Some(code)))
    case Proceed =>
      if s.sends == [] then s
      else if Top(s).left == [] then
        s.(sends := Pop(s),
           buffer := if SendsNext(s, Top(s)) then Trimmed(s.capacity, s.buffer) else s.buffer)
      else
        var id := Top(s).left[0];
        s.(sends := Pop(s) + [Sending(Top(s).at, Top(s).left[1..])],
           got := if id in s.got then s.got[id := s.got[id] + [Top(s).at]] else s.got)
  }

  function Run<V>(s: State<V>, actions: seq<Action<V>>): State<V>
    decreases |actions|
  {
    if actions == [] then s else Apply(Run(s, actions[..|actions| - 1]), actions[|actions| - 1])
  }

  // ----- the buffer is a suffix of the values sent

  function LastError<V>(history: seq<Event<V>>): Option<ErrorCode> {
    if history == [] then None
    else if history[|history| - 1].Error? then Some(history[|history| - 1].error)
    else LastError(history[..|history| - 1])
  }

  function TerminalOf<V>(history: seq<Event<V>>): seq<Event<V>> {
    if exists i :: 0 <= i < |history| && history[i].Completed? then [Completed]
    else if LastError(history).Some? then [Error(LastError(history).value)] else []
  }

  predicate SendsNext<V>(s: State<V>, sending: Sending) {
    sending.at < |s.history| && s.history[sending.at].Next?
  }

  function NextsInFlight<V>(s: State<V>, n: nat): nat
    requires n <= |s.sends|
  {
    if n == 0 then 0
    else NextsInFlight(s, n - 1) + (if SendsNext(s, s.sends[n - 1]) then 1 else 0)
  }

  function LastN<V>(values: seq<V>, n: nat): seq<V> {
    if n == 0 || values == [] then [] else LastN(values[..|values| - 1], n - 1) + [values[|values| - 1]]
  }

  /** The last `n` values and all of them, as slices. */
  lemma {:induction false} LastNIsSuffix<V>(values: seq<V>, n: nat)
    requires n <= |values|
    ensures |LastN(values, n)| == n && LastN(values, n) == values[|values| - n..]
  {
    if n > 0 {
      LastNIsSuffix(values[..|values| - 1], n - 1);
    }
  }

  /** Every value kept is one of the last sent; one is dropped only when `capacity` newer ones are kept. */
  ghost predicate KeepsLast<V>(s: State<V>, values: seq<V>) {
    && |s.buffer| <= |values| && s.buffer == LastN(values, |s.buffer|)
    && (|s.buffer| < |values| ==> s.capacity.Some? && |s.buffer| >= s.capacity.value)
  }

  /** Only values being sent exceed the capacity. */
  ghost predicate KeepsFew<V>(s: State<V>) {
    && (s.capacity.Some? ==> |s.buffer| <= s.capacity.value + NextsInFlight(s, |s.sends|))
    && (forall k :: 0 <= k < |s.sends| ==> s.sends[k].at < |s.history|)
  }

  ghost predicate BufferOk<V>(s: State<V>) {
    KeepsLast(s, Values(s.history)) && KeepsFew(s) && Terminal(s) == TerminalOf(s.history)
  }

  lemma {:induction false} InFlightSame<V>(s: State<V>, r: State<V>, n: nat)
    requires n <= |s.sends| && n <= |r.sends| && |s.history| <= |r.history|
    requires forall k :: 0 <= k < n ==> s.sends[k].at == r.sends[k].at < |s.history|
    requires forall i :: 0 <= i < |s.history| ==> s.history[i] == r.history[i]
    ensures NextsInFlight(s, n) == NextsInFlight(r, n)
  {
    if n > 0 { InFlightSame(s, r, n - 1); }
  }

  lemma ValuesOne<V>(h: seq<Event<V>>, e: Event<V>)
    ensures Values(h + [e]) == if e.Next? then Values(h) + [e.value] else Values(h)
  {
    ValuesAppend(h, [e]);
    assert [e][1..] == [];
    Lists.ConcatEmpty(Values(h));
  }

  lemma TerminalAppend<V>(h: seq<Event<V>>, e: Event<V>)
    ensures TerminalOf(h + [e]) ==
      if TerminalOf(h) == [Completed] || e.Completed? then [Completed]
      else if e.Error? then [e] else TerminalOf(h)
  {
    Lists.WithoutLast(h, e);
    var g := h + [e];
    assert g[|h|] == e;
    assert forall i :: 0 <= i < |h| ==> g[i] == h[i];
  }

  lemma LastNGrows<V>(values: seq<V>, n: nat, v: V)
    ensures LastN(values + [v], n + 1) == LastN(values, n) + [v]
  {
    Lists.WithoutLast(values, v);
  }

  lemma {:induction false} LastNOfLastN<V>(values: seq<V>, n: nat, c: nat)
    requires c <= n <= |values|
    ensures LastN(LastN(values, n), c) == LastN(values, c)
  {
    if c > 0 {
      LastNOfLastN(values[..|values| - 1], n - 1, c - 1);
      LastNIsSuffix(values[..|values| - 1], n - 1);
      LastNGrows(LastN(values[..|values| - 1], n - 1), c - 1, values[|values| - 1]);
    }
  }

  lemma EmitKeepsLast<V>(s: State<V>, r: State<V>, v: V, values: seq<V>)
    requires KeepsLast(s, values) && r.buffer == s.buffer + [v] && r.capacity == s.capacity
    ensures KeepsLast(r, values + [v])
  {
    LastNGrows(values, |s.buffer|, v);
  }

  lemma TrimKeepsLast<V>(s: State<V>, r: State<V>, values: seq<V>)
    requires KeepsLast(s, values) && r.buffer == Trimmed(s.capacity, s.buffer) && r.capacity == s.capacity
    ensures KeepsLast(r, values)
  {
    if s.capacity.Some? && |s.buffer| > s.capacity.value {
      LastNOfLastN(values, |s.buffer|, s.capacity.value);
      LastNIsSuffix(s.buffer, s.capacity.value);
    }
  }

  lemma EmitKeepsTerminal<V>(s: State<V>, e: Event<V>)
    requires Terminal(s) == TerminalOf(s.history)
    ensures Terminal(Apply(s, Emit(e))) == TerminalOf(s.history + [e])
  {
    TerminalAppend(s.history, e);
  }

  lemma EmitKeepsBuffer<V>(s: State<V>, e: Event<V>)
    requires BufferOk(s)
    ensures BufferOk(Apply(s, Emit(e)))
  {
    ValuesOne(s.history, e);
    EmitKeepsTerminal(s, e);
    EmitKeepsFew(s, e);
    if e.Next? { EmitKeepsLast(s, Apply(s, Emit(e)), e.value, Values(s.history)); }
  }

  lemma EmitKeepsFew<V>(s: State<V>, e: Event<V>)
    requires KeepsFew(s)
    ensures KeepsFew(Apply(s, Emit(e)))
  {
    var r := Apply(s, Emit(e));
    assert r.sends[|s.sends|] == Sending(|s.history|, s.subscribers) && r.history[|s.history|] == e;
    InFlightSame(s, r, |s.sends|);
  }

  lemma ProceedKeepsFew<V>(s: State<V>)
    requires KeepsFew(s)
    ensures KeepsFew(Apply(s, Proceed))
  {
    if s.sends != [] {
      var r, n := Apply(s, Proceed), |s.sends| - 1;
      assert forall k :: 0 <= k < n ==> r.sends[k] == s.sends[k];
      InFlightSame(s, r, n);
      if Top(s).left != [] { InFlightSame(s, r, n + 1); }
    }
  }

  lemma ProceedKeepsBuffer<V>(s: State<V>)
    requires BufferOk(s)
    ensures BufferOk(Apply(s, Proceed))
  {
    ProceedKeepsFew(s);
    if s.sends != [] && Top(s).left == [] {
      TrimKeepsLast(s, s.(buffer := Trimmed(s.capacity, s.buffer)), Values(s.history));
    }
  }

  lemma JoiningKeepsBuffer<V>(s: State<V>, a: Action<V>)
    requires BufferOk(s) && (a.Join? || a.Leave?)
    ensures BufferOk(Apply(s, a))
  {
    InFlightSame(s, Apply(s, a), |s.sends|);
  }

  lemma ApplyKeepsBuffer<V>(s: State<V>, a: Action<V>)
    requires BufferOk(s)
    ensures BufferOk(Apply(s, a))
  {
    match a
    case Emit(e) => EmitKeepsBuffer(s, e);
    case Proceed => ProceedKeepsBuffer(s);
    case _ => JoiningKeepsBuffer(s, a);
  }

  // ----- what one subscriber is given

  /** Waiting for the event at `p` in a send under way. */
  predicate Due<V>(s: State<V>, id: nat, p: nat) {
    exists k :: 0 <= k < |s.sends| && s.sends[k].at == p && id in s.sends[k].left
  }

  predicate Distinct(ids: seq<nat>) {
    forall i, j :: 0 <= i < j < |ids| ==> ids[i] != ids[j]
  }

  /** The sends under way are nested in the order they began, and name each subscriber once. */
  ghost predicate StackOk<V>(s: State<V>) {
    && (forall k :: 0 <= k < |s.sends| ==> s.sends[k].at < |s.history| && Distinct(s.sends[k].left))
    && (forall k, l :: 0 <= k < l < |s.sends| ==> s.sends[k].at < s.sends[l].at)
    && Distinct(s.subscribers)
  }

  /** Every event since subscriber `id` joined has been given to it or is due, once; none from before. */
  ghost predicate Follows<V>(s: State<V>, id: nat) {
    && id in s.from && id in s.got && s.from[id] <= |s.history|
    && Distinct(s.got[id])
    && (forall p: nat :: p in s.got[id] || Due(s, id, p) ==> s.from[id] <= p < |s.history|)
    && (forall p: nat :: p in s.got[id] ==> !Due(s, id, p))
    && (id in s.subscribers ==> forall p: nat :: s.from[id] <= p < |s.history| ==> p in s.got[id] || Due(s, id, p))
  }

  /** Only subscribers that joined are named anywhere. */
  ghost predicate Named<V>(s: State<V>) {
    && s.got.Keys == s.from.Keys == s.replayed.Keys
    && (forall id :: id in s.subscribers ==> id in s.from)
    && (forall k, id :: 0 <= k < |s.sends| && id in s.sends[k].left ==> id in s.from)
  }

  lemma {:induction false} DroppedKeeps(ids: seq<nat>, id: nat)
    requires Distinct(ids)
    ensures Distinct(Dropped(ids, id))
    ensures forall x :: x in Dropped(ids, id) <==> x in ids && x != id
  {
    if ids != [] {
      var front := ids[..|ids| - 1];
      Lists.FrontAndLast(ids);
      DroppedKeeps(front, id);
      var dropped := Dropped(front, id);
      assert forall i :: 0 <= i < |dropped| ==> dropped[i] in front;
      assert forall x :: x in front ==> x != ids[|ids| - 1];
    }
  }

  lemma StackStep<V>(s: State<V>, a: Action<V>)
    requires StackOk(s) && Named(s)
    ensures StackOk(Apply(s, a)) && Named(Apply(s, a))
  {
    match a
    case Join(id) => if id !in s.from { JoinStack(s, id); }
    case Leave(id) => DroppedKeeps(s.subscribers, id);
    case Emit(e) => EmitStack(s, e);
    case Proceed => if s.sends != [] { ProceedStack(s); }
  }

  lemma JoinStack<V>(s: State<V>, id: nat)
    requires StackOk(s) && Named(s) && id !in s.from
    ensures StackOk(Apply(s, Join(id))) && Named(Apply(s, Join(id)))
  {
    assert forall i :: 0 <= i < |s.subscribers| ==> s.subscribers[i] in s.subscribers;
  }

  lemma EmitStack<V>(s: State<V>, e: Event<V>)
    requires StackOk(s) && Named(s)
    ensures StackOk(Apply(s, Emit(e))) && Named(Apply(s, Emit(e)))
  {
    var r, n := Apply(s, Emit(e)), |s.sends|;
    PushedFrame(s.sends, Sending(|s.history|, s.subscribers));
    assert r.sends == s.sends + [Sending(|s.history|, s.subscribers)] && |r.history| == |s.history| + 1;
    assert r.subscribers == s.subscribers && r.from == s.from;
  }

  lemma PushedFrame(sends: seq<Sending>, top: Sending)
    ensures |sends + [top]| == |sends| + 1 && (sends + [top])[|sends|] == top
    ensures forall k :: 0 <= k < |sends| ==> (sends + [top])[k] == sends[k]
  {
  }

  lemma ProceedStack<V>(s: State<V>)
    requires StackOk(s) && Named(s) && s.sends != []
    ensures StackOk(Apply(s, Proceed)) && Named(Apply(s, Proceed))
  {
    var r, n := Apply(s, Proceed), |s.sends| - 1;
    assert forall k :: 0 <= k < n ==> r.sends[k] == s.sends[k];
    if Top(s).left != [] {
      var left := Top(s).left;
      assert r.sends[n] == Sending(Top(s).at, left[1..]);
      assert forall x :: x in left[1..] ==> x in left;
      assert left[0] in left;
    }
  }

  /** A delivery settles what is due to its subscriber from the innermost send, and nothing else. */
  lemma DeliverDue<V>(s: State<V>, id: nat, p: nat)
    requires StackOk(s) && s.sends != [] && Top(s).left != []
    ensures Due(Apply(s, Proceed), id, p) <==> Due(s, id, p) && !(Top(s).left[0] == id && p == Top(s).at)
  {
    var r, n, to, rest := Apply(s, Proceed), |s.sends| - 1, Top(s).left[0], Top(s).left[1..];
    assert s.sends[n] == Top(s) && r.sends[n] == Sending(Top(s).at, rest);
    assert forall k :: 0 <= k < n ==> r.sends[k] == s.sends[k];
    assert forall x :: x in Top(s).left <==> x == to || x in rest;
    assert to !in rest;
    if Due(s, id, p) && !(to == id && p == Top(s).at) {
      var k :| 0 <= k < |s.sends| && s.sends[k].at == p && id in s.sends[k].left;
      assert r.sends[k].at == p && id in r.sends[k].left;
    }
    if Due(r, id, p) {
      var k :| 0 <= k < |r.sends| && r.sends[k].at == p && id in r.sends[k].left;
      assert s.sends[k].at == p && id in s.sends[k].left;
    }
  }

  lemma DeliverKeepsFollows<V>(s: State<V>, id: nat)
    requires StackOk(s) && Named(s) && Follows(s, id) && s.sends != [] && Top(s).left != []
    ensures Follows(Apply(s, Proceed), id)
  {
    var r, to := Apply(s, Proceed), Top(s).left[0];
    forall p: nat ensures Due(r, id, p) <==> Due(s, id, p) && !(to == id && p == Top(s).at) { DeliverDue(s, id, p); }
    if to == id {
      TopIsDue(s);
      assert r.got[id] == s.got[id] + [Top(s).at];
    }
  }

  lemma TopIsDue<V>(s: State<V>)
    requires s.sends != [] && Top(s).left != []
    ensures Due(s, Top(s).left[0], Top(s).at)
  {
    assert s.sends[|s.sends| - 1].at == Top(s).at && Top(s).left[0] in s.sends[|s.sends| - 1].left;
  }

  lemma EmitKeepsFollows<V>(s: State<V>, e: Event<V>, id: nat)
    requires StackOk(s) && Named(s) && Follows(s, id)
    ensures Follows(Apply(s, Emit(e)), id)
  {
    var r, n := Apply(s, Emit(e)), |s.sends|;
    assert forall k :: 0 <= k < n ==> r.sends[k] == s.sends[k];
    assert r.sends[n] == Sending(|s.history|, s.subscribers);
    forall p: nat ensures Due(r, id, p) <==> Due(s, id, p) || (p == |s.history| && id in s.subscribers) {
      if Due(s, id, p) {
        var k :| 0 <= k < |s.sends| && s.sends[k].at == p && id in s.sends[k].left;
        assert r.sends[k].at == p && id in r.sends[k].left;
      }
      if p == |s.history| && id in s.subscribers { assert r.sends[n].at == p && id in r.sends[n].left; }
    }
  }

  lemma EndKeepsFollows<V>(s: State<V>, id: nat)
    requires StackOk(s) && Named(s) && Follows(s, id) && s.sends != [] && Top(s).left == []
    ensures Follows(Apply(s, Proceed), id)
  {
    var r, n := Apply(s, Proceed), |s.sends| - 1;
    assert forall k :: 0 <= k < n ==> r.sends[k] == s.sends[k];
    assert s.sends[n].left == [];
    assert forall p: nat :: Due(r, id, p) == Due(s, id, p);
  }

  lemma ApplyKeepsFollows<V>(s: State<V>, a: Action<V>, id: nat)
    requires StackOk(s) && Named(s) && Follows(s, id)
    ensures Follows(Apply(s, a), id)
  {
    var r := Apply(s, a);
    match a
    case Join(other) => assert forall p: nat :: Due(r, id, p) == Due(s, id, p);
    case Leave(other) =>
      DroppedKeeps(s.subscribers, other);
      assert forall p: nat :: Due(r, id, p) == Due(s, id, p);
    case Emit(e) => EmitKeepsFollows(s, e, id);
    case Proceed =>
      if s.sends != [] {
        if Top(s).left != [] { DeliverKeepsFollows(s, id); } else { EndKeepsFollows(s, id); }
      }
  }

  lemma JoinFollows<V>(s: State<V>, id: nat)
    requires StackOk(s) && Named(s) && id !in s.from
    ensures Follows(Apply(s, Join(id)), id)
  {
    var r := Apply(s, Join(id));
    assert forall p: nat :: !Due(r, id, p);
  }

  // ----- who is subscribed, from the actions alone

  /** The events sent, the subscribers that have joined, and those of them that listen, in the order they joined. */
  datatype Roll<V> = Roll(sent: seq<Event<V>>, joined: set<nat>, listening: seq<nat>)

  function Others(ids: seq<nat>, id: nat): seq<nat> {
    if ids == [] then []
    else Others(ids[..|ids| - 1], id) + if ids[|ids| - 1] == id then [] else [ids[|ids| - 1]]
  }

  function NextRoll<V>(before: Roll<V>, a: Action<V>): Roll<V> {
    match a
    case Join(id) =>
      if id in before.joined then before
      else if TerminalOf(before.sent) != [] then before.(joined := before.joined + {id})
      else before.(joined := before.joined + {id}, listening := before.listening + [id])
    case Leave(id) => before.(listening := Others(before.listening, id))
    case Emit(e) => before.(sent := before.sent + [e])
    case Proceed => before
  }

  function RollOf<V>(actions: seq<Action<V>>): Roll<V> {
    if actions == [] then Roll([], {}, []) else NextRoll(RollOf(actions[..|actions| - 1]), actions[|actions| - 1])
  }

  lemma {:induction false} DroppedAreOthers(ids: seq<nat>, id: nat)
    requires Distinct(ids)
    ensures Dropped(ids, id) == Others(ids, id)
  {
    if ids != [] {
      var n := |ids| - 1;
      if ids[n] == id { OthersOfOthers(ids[..n], id); } else { DroppedAreOthers(ids[..n], id); }
      Lists.ConcatEmpty(Others(ids[..n], id));
    }
  }

  lemma {:induction false} OthersOfOthers(ids: seq<nat>, id: nat)
    requires id !in ids
    ensures Others(ids, id) == ids
  {
    if ids != [] {
      Lists.FrontAndLast(ids);
      Lists.LastIn(ids);
      OthersOfOthers(ids[..|ids| - 1], id);
    }
  }

  ghost predicate OnRoll<V>(s: State<V>, roll: Roll<V>) {
    s.history == roll.sent && s.from.Keys == roll.joined && s.subscribers == roll.listening
  }

  lemma RollStep<V>(s: State<V>, roll: Roll<V>, a: Action<V>)
    requires OnRoll(s, roll) && Distinct(s.subscribers) && Terminal(s) == TerminalOf(s.history)
    ensures OnRoll(Apply(s, a), NextRoll(roll, a))
  {
    if a.Leave? { DroppedAreOthers(s.subscribers, a.id); }
  }

  lemma DistinctAndEnded<V>(capacity: Option<nat>, actions: seq<Action<V>>)
    ensures
      var s := Run(Initial<V>(capacity), actions);
      Distinct(s.subscribers) && Terminal(s) == TerminalOf(s.history)
  {
    EveryRun(capacity, actions, 0);
  }

  /**
   * In every run the history is what was sent, and the subscribers are those that joined before the end
   * and have not left, in the order in which they joined.
   */
  lemma {:induction false} SubscribersAre<V>(capacity: Option<nat>, actions: seq<Action<V>>)
    ensures OnRoll(Run(Initial<V>(capacity), actions), RollOf(actions))
    decreases |actions|
  {
    if actions != [] {
      var front := actions[..|actions| - 1];
      SubscribersAre(capacity, front);
      DistinctAndEnded<V>(capacity, front);
      RollStep(Run(Initial<V>(capacity), front), RollOf(front), actions[|actions| - 1]);
    }
  }

  /** Gone from the subscribers, given nothing but what it had or was due when it left. */
  ghost predicate GivenOnly<V>(s: State<V>, r: State<V>, id: nat) {
    && id in s.got && id in r.from && id in r.got && id !in r.subscribers
    && (forall p: nat :: p in r.got[id] || Due(r, id, p) ==> p in s.got[id] || Due(s, id, p))
  }

  lemma JoinGivesOnly<V>(s: State<V>, r: State<V>, a: Action<V>, id: nat)
    requires StackOk(r) && Named(r) && GivenOnly(s, r, id) && (a.Join? || a.Leave?)
    ensures GivenOnly(s, Apply(r, a), id)
  {
    if a.Leave? { DroppedKeeps(r.subscribers, a.id); }
    assert forall p: nat :: Due(Apply(r, a), id, p) == Due(r, id, p);
  }

  lemma DeliverGivesOnly<V>(s: State<V>, r: State<V>, id: nat)
    requires StackOk(r) && GivenOnly(s, r, id) && r.sends != [] && Top(r).left != []
    ensures GivenOnly(s, Apply(r, Proceed), id)
  {
    var t := Apply(r, Proceed);
    forall p: nat | Due(t, id, p) ensures Due(r, id, p) { DeliverDue(r, id, p); }
    TopIsDue(r);
    assert t.got[id] == if Top(r).left[0] == id then r.got[id] + [Top(r).at] else r.got[id];
  }

  lemma GivenOnlyStep<V>(s: State<V>, r: State<V>, a: Action<V>, id: nat)
    requires StackOk(r) && Named(r) && GivenOnly(s, r, id)
    ensures GivenOnly(s, Apply(r, a), id)
  {
    match a
    case Join(_) => JoinGivesOnly(s, r, a, id);
    case Leave(_) => JoinGivesOnly(s, r, a, id);
    case Emit(e) => EmitNotDue(r, e, id);
    case Proceed =>
      if r.sends != [] {
        if Top(r).left != [] { DeliverGivesOnly(s, r, id); } else { EndNotDue(r, id); }
      }
  }

  lemma EmitNotDue<V>(s: State<V>, e: Event<V>, id: nat)
    requires id !in s.subscribers
    ensures forall p: nat :: Due(Apply(s, Emit(e)), id, p) ==> Due(s, id, p)
  {
    var r, n := Apply(s, Emit(e)), |s.sends|;
    PushedFrame(s.sends, Sending(|s.history|, s.subscribers));
    assert r.sends == s.sends + [Sending(|s.history|, s.subscribers)];
  }

  lemma EndNotDue<V>(s: State<V>, id: nat)
    requires s.sends != [] && Top(s).left == []
    ensures forall p: nat :: Due(Apply(s, Proceed), id, p) ==> Due(s, id, p)
  {
    assert forall k :: 0 <= k < |s.sends| - 1 ==> Apply(s, Proceed).sends[k] == s.sends[k];
  }

  lemma {:induction false} GivenOnlyRun<V>(s: State<V>, actions: seq<Action<V>>, id: nat)
    requires StackOk(s) && Named(s) && GivenOnly(s, s, id)
    ensures StackOk(Run(s, actions)) && Named(Run(s, actions)) && GivenOnly(s, Run(s, actions), id)
    decreases |actions|
  {
    if actions != [] {
      var r, a := Run(s, actions[..|actions| - 1]), actions[|actions| - 1];
      GivenOnlyRun(s, actions[..|actions| - 1], id);
      StackStep(r, a);
      GivenOnlyStep(s, r, a, id);
    }
  }

  /**
   * Over every run: who has left is no longer subscribed, and is from then on given only events that were
   * being sent to it when it left, so none sent later. The others listen on in the order they joined.
   */
  lemma LeavingTakesEffect<V>(capacity: Option<nat>, before: seq<Action<V>>, id: nat, after: seq<Action<V>>)
    requires id in Run(Initial<V>(capacity), before).from
    ensures
      var s := Run(Initial<V>(capacity), before);
      var left := Apply(s, Leave(id));
      var r := Run(left, after);
      && left == s.(subscribers := Others(s.subscribers, id))
      && id in s.got && id in r.got && id !in r.subscribers
      && forall p: nat :: p in r.got[id] ==> p < |s.history| && (p in s.got[id] || Due(s, id, p))
  {
    var s := Run(Initial<V>(capacity), before);
    EveryRun(capacity, before, id);
    var left := Apply(s, Leave(id));
    DroppedKeeps(s.subscribers, id);
    DroppedAreOthers(s.subscribers, id);
    StackStep(s, Leave(id));
    assert forall p: nat :: Due(left, id, p) == Due(s, id, p);
    GivenOnlyRun(left, after, id);
  }

  // ----- sends end

  function Left(sends: seq<Sending>): nat {
    if sends == [] then 0 else Left(sends[..|sends| - 1]) + |sends[|sends| - 1].left| + 1
  }

  /** Each step of the innermost send brings the end of all sends nearer. */
  lemma ProceedDoesOne<V>(s: State<V>)
    requires s.sends != []
    ensures Left(Apply(s, Proceed).sends) == Left(s.sends) - 1
  {
    if Top(s).left != [] { Lists.WithoutLast(Pop(s), Sending(Top(s).at, Top(s).left[1..])); }
  }

  /** Left to itself a subject finishes all its sends. */
  lemma {:induction false} SendsEnd<V>(s: State<V>, n: nat)
    requires n == Left(s.sends)
    ensures Run(s, seq(n, i => Proceed)).sends == []
    decreases n
  {
    if n > 0 {
      var r := Apply(s, Proceed);
      ProceedDoesOne(s);
      SendsEnd(r, n - 1);
      ProceedFirst(s, n - 1);
    }
  }

  lemma {:induction false} ProceedFirst<V>(s: State<V>, n: nat)
    ensures Run(s, seq(n + 1, i => Proceed)) == Run(Apply(s, Proceed), seq(n, i => Proceed))
  {
    var more: seq<Action<V>> := seq(n + 1, i => Proceed);
    assert more[..n] == seq(n, i => Proceed);
    if n > 0 {
      ProceedFirst(s, n - 1);
      assert seq<Action<V>>(n, i => Proceed)[..n - 1] == seq(n - 1, i => Proceed);
    }
  }

  // ----- in order, or not

  /** The events given since joining are those from the joining on, in order, none left out. */
  ghost predicate Contiguous<V>(s: State<V>, id: nat)
    requires id in s.from && id in s.got
  {
    forall i :: 0 <= i < |s.got[id]| ==> s.got[id][i] == s.from[id] + i
  }

  /** A later event has been given before an earlier one, or will have been. */
  ghost predicate Late<V>(s: State<V>, id: nat)
    requires id in s.got
  {
    || (exists i, j :: 0 <= i < j < |s.got[id]| && s.got[id][i] > s.got[id][j])
    || (exists p: nat, q: nat :: p in s.got[id] && Due(s, id, q) && q < p)
  }

  /** A subscriber is given an event of an inner send while it still waits for that of an outer one. */
  predicate Overtakes<V>(s: State<V>, a: Action<V>, id: nat) {
    && a.Proceed? && s.sends != [] && Top(s).left != [] && Top(s).left[0] == id
    && exists k :: 0 <= k < |s.sends| - 1 && id in s.sends[k].left
  }

  predicate Overtaken<V>(s: State<V>, actions: seq<Action<V>>, id: nat)
    decreases |actions|
  {
    actions != [] &&
    (Overtaken(s, actions[..|actions| - 1], id)
     || Overtakes(Run(s, actions[..|actions| - 1]), actions[|actions| - 1], id))
  }

  lemma OnlyTopDue<V>(s: State<V>, id: nat, q: nat)
    requires s.sends != [] && Top(s).left != [] && Top(s).left[0] == id && !Overtakes(s, Proceed, id)
    ensures Due(s, id, q) ==> q == Top(s).at
  {
    if Due(s, id, q) {
      var k :| 0 <= k < |s.sends| && s.sends[k].at == q && id in s.sends[k].left;
      assert k == |s.sends| - 1;
    }
  }

  lemma DeliverInOrder<V>(s: State<V>, id: nat)
    requires StackOk(s) && Follows(s, id) && id in s.subscribers && Contiguous(s, id)
    requires s.sends != [] && Top(s).left != [] && Top(s).left[0] == id && !Overtakes(s, Proceed, id)
    ensures Top(s).at == s.from[id] + |s.got[id]|
  {
    var p, next := Top(s).at, s.from[id] + |s.got[id]|;
    TopIsDue(s);
    forall q | s.from[id] <= q < next ensures q in s.got[id] {
      assert s.got[id][q - s.from[id]] == q;
    }
    assert next !in s.got[id];
    OnlyTopDue(s, id, next);
  }

  lemma OrderStep<V>(s: State<V>, a: Action<V>, id: nat)
    requires StackOk(s) && Named(s) && Follows(s, id) && id in s.subscribers && Contiguous(s, id)
      && !Overtakes(s, a, id)
    ensures id in Apply(s, a).from && id in Apply(s, a).got && Contiguous(Apply(s, a), id)
  {
    if a.Proceed? && s.sends != [] && Top(s).left != [] && Top(s).left[0] == id { DeliverInOrder(s, id); }
  }

  lemma OvertakenStep<V>(s: State<V>, a: Action<V>, id: nat)
    requires StackOk(s) && Named(s) && Follows(s, id) && Overtakes(s, a, id)
    ensures id in Apply(s, a).got && Late(Apply(s, a), id)
  {
    var r, n := Apply(s, a), |s.sends| - 1;
    var k :| 0 <= k < n && id in s.sends[k].left;
    var q, p := s.sends[k].at, s.sends[n].at;
    assert q < p && r.sends[k] == s.sends[k];
    assert Due(r, id, q);
    assert r.got[id] == s.got[id] + [p];
    assert p in r.got[id];
  }

  lemma GotGrows<V>(s: State<V>, a: Action<V>, id: nat)
    requires id in s.got && id in s.from
    ensures id in Apply(s, a).got && |s.got[id]| <= |Apply(s, a).got[id]|
    ensures forall i :: 0 <= i < |s.got[id]| ==> Apply(s, a).got[id][i] == s.got[id][i]
  {
  }

  lemma LateStep<V>(s: State<V>, a: Action<V>, id: nat)
    requires id in s.got && id in s.from && Late(s, id)
    ensures id in Apply(s, a).got && Late(Apply(s, a), id)
  {
    var r := Apply(s, a);
    GotGrows(s, a, id);
    if i, j :| 0 <= i < j < |s.got[id]| && s.got[id][i] > s.got[id][j] {
      assert r.got[id][i] > r.got[id][j];
    } else {
      var p: nat, q: nat :| p in s.got[id] && Due(s, id, q) && q < p;
      var k: nat :| k < |s.sends| && s.sends[k].at == q && id in s.sends[k].left;
      var i: nat :| i < |s.got[id]| && s.got[id][i] == p;
      LateWaits(s, a, id, k, i);
    }
  }

  lemma LateWaits<V>(s: State<V>, a: Action<V>, id: nat, k: nat, i: nat)
    requires id in s.got && id in s.from && k < |s.sends| && id in s.sends[k].left
    requires i < |s.got[id]| && s.sends[k].at < s.got[id][i]
    ensures id in Apply(s, a).got && Late(Apply(s, a), id)
  {
    var r, n, q := Apply(s, a), |s.sends| - 1, s.sends[k].at;
    assert r.got[id][i] == s.got[id][i] && r.got[id][i] in r.got[id];
    if a.Proceed? && k == n {
      if s.sends[n].left[0] == id {
        assert r.got[id] == s.got[id] + [q];
        assert r.got[id][|s.got[id]|] == q;
      } else {
        assert r.sends[n] == Sending(q, s.sends[n].left[1..]);
        assert Due(r, id, q);
      }
    } else {
      assert r.sends[k] == s.sends[k];
      assert Due(r, id, q);
    }
  }

  ghost predicate OrderOk<V>(s: State<V>, id: nat, overtaken: bool) {
    && (id in s.from && id in s.got && id in s.subscribers ==> if overtaken then Late(s, id) else Contiguous(s, id))
    && (id !in s.from ==> !overtaken)
  }

  /** All that holds of a subscriber in every run. */
  ghost predicate Status<V>(s: State<V>, id: nat, overtaken: bool) {
    StackOk(s) && Named(s) && BufferOk(s) && (id in s.from ==> Follows(s, id)) && OrderOk(s, id, overtaken)
  }

  lemma FollowsStep<V>(s: State<V>, a: Action<V>, id: nat)
    requires StackOk(s) && Named(s) && (id in s.from ==> Follows(s, id))
    ensures id in Apply(s, a).from ==> Follows(Apply(s, a), id)
  {
    if id in s.from {
      ApplyKeepsFollows(s, a, id);
    } else if a == Join(id) {
      JoinFollows(s, id);
    }
  }

  lemma StillSubscribed<V>(s: State<V>, a: Action<V>, id: nat)
    requires StackOk(s) && id in s.from && id in Apply(s, a).subscribers
    ensures id in s.subscribers
  {
    if a.Leave? { DroppedKeeps(s.subscribers, a.id); }
  }

  lemma NoOvertakingBefore<V>(s: State<V>, a: Action<V>, id: nat)
    requires Named(s) && id !in s.from
    ensures !Overtakes(s, a, id)
  {
  }

  lemma OrderOkStep<V>(s: State<V>, a: Action<V>, id: nat, overtaken: bool)
    requires StackOk(s) && Named(s) && (id in s.from ==> Follows(s, id)) && OrderOk(s, id, overtaken)
    ensures OrderOk(Apply(s, a), id, overtaken || Overtakes(s, a, id))
  {
    if id !in s.from {
      NoOvertakingBefore(s, a, id);
    } else if id in Apply(s, a).subscribers {
      StillSubscribed(s, a, id);
      if overtaken { LateStep(s, a, id); }
      else if Overtakes(s, a, id) { OvertakenStep(s, a, id); }
      else { OrderStep(s, a, id); }
    }
  }

  lemma StatusStep<V>(s: State<V>, a: Action<V>, id: nat, overtaken: bool)
    requires Status(s, id, overtaken)
    ensures Status(Apply(s, a), id, overtaken || Overtakes(s, a, id))
  {
    StackStep(s, a);
    ApplyKeepsBuffer(s, a);
    FollowsStep(s, a, id);
    OrderOkStep(s, a, id, overtaken);
  }

  lemma {:induction false} EveryRun<V>(capacity: Option<nat>, actions: seq<Action<V>>, id: nat)
    ensures Status(Run(Initial<V>(capacity), actions), id, Overtaken(Initial(capacity), actions, id))
    decreases |actions|
  {
    if actions != [] {
      EveryRun(capacity, actions[..|actions| - 1], id);
      StatusStep(Run(Initial<V>(capacity), actions[..|actions| - 1]), actions[|actions| - 1], id,
                 Overtaken(Initial(capacity), actions[..|actions| - 1], id));
    }
  }

  /**
   * Once no send is under way, a subscriber that has not left has been given each event since it
   * joined exactly once; and in order if and only if no inner send overtook an outer one.
   */
  lemma InOrderIff<V>(capacity: Option<nat>, actions: seq<Action<V>>, id: nat)
    requires
      var s := Run(Initial<V>(capacity), actions);
      s.sends == [] && id in s.subscribers
    ensures
      var s := Run(Initial<V>(capacity), actions);
      && id in s.from && id in s.got
      && Distinct(s.got[id]) && (forall p: nat :: p in s.got[id] <==> s.from[id] <= p < |s.history|)
      && (Contiguous(s, id) <==> !Overtaken(Initial(capacity), actions, id))
  {
    EveryRun(capacity, actions, id);
  }

  // ----- a late subscriber's view is the end of the history

  /** The last `k` values of a history and how it had ended; all values, or at least `capacity` of them. */
  ghost predicate GaveLast<V>(capacity: Option<nat>, before: seq<Event<V>>, given: seq<Event<V>>, k: nat) {
    && k <= |Values(before)| && (k < |Values(before)| ==> capacity.Some? && k >= capacity.value)
    && given == Nexts(LastN(Values(before), k)) + TerminalOf(before)
  }

  ghost predicate GivenAtJoin<V>(s: State<V>, id: nat) {
    && id in s.from && id in s.replayed && s.from[id] <= |s.history|
    && exists k: nat :: GaveLast(s.capacity, s.history[..s.from[id]], s.replayed[id], k)
  }

  /** Still listening unless the history had ended when it joined. */
  ghost predicate Listens<V>(s: State<V>, id: nat) {
    && id in s.from && s.from[id] <= |s.history|
    && (TerminalOf(s.history[..s.from[id]]) == [] <==> id in s.subscribers)
  }

  lemma JoinGivesLast<V>(s: State<V>, id: nat)
    requires BufferOk(s) && id !in s.from && id !in s.subscribers
    ensures GivenAtJoin(Apply(s, Join(id)), id) && Listens(Apply(s, Join(id)), id)
  {
    var r := Apply(s, Join(id));
    assert r.history[..r.from[id]] == s.history;
    assert GaveLast(r.capacity, r.history[..r.from[id]], r.replayed[id], |s.buffer|);
  }

  lemma PastStays<V>(s: State<V>, a: Action<V>, id: nat)
    requires id in s.from && id in s.replayed && s.from[id] <= |s.history|
    ensures
      var r := Apply(s, a);
      && id in r.from && id in r.replayed && r.from[id] == s.from[id] <= |r.history|
      && r.replayed[id] == s.replayed[id] && r.capacity == s.capacity
      && r.history[..r.from[id]] == s.history[..s.from[id]]
  {
  }

  lemma GivenStays<V>(s: State<V>, a: Action<V>, id: nat)
    requires GivenAtJoin(s, id)
    ensures GivenAtJoin(Apply(s, a), id)
  {
    PastStays(s, a, id);
    var k: nat :| GaveLast(s.capacity, s.history[..s.from[id]], s.replayed[id], k);
    var r := Apply(s, a);
    assert GaveLast(r.capacity, r.history[..r.from[id]], r.replayed[id], k);
  }

  lemma SubscriptionStays<V>(s: State<V>, a: Action<V>, id: nat)
    requires id in s.from && a != Leave(id) && StackOk(s)
    ensures id in Apply(s, a).subscribers <==> id in s.subscribers
  {
    if a.Leave? { DroppedKeeps(s.subscribers, a.id); }
  }

  lemma ListensStays<V>(s: State<V>, a: Action<V>, id: nat)
    requires GivenAtJoin(s, id) && Listens(s, id) && a != Leave(id) && StackOk(s)
    ensures Listens(Apply(s, a), id)
  {
    PastStays(s, a, id);
    SubscriptionStays(s, a, id);
  }

  lemma CapacityStays<V>(s: State<V>, a: Action<V>)
    ensures Apply(s, a).capacity == s.capacity
  {
  }

  lemma GivesStep<V>(s: State<V>, a: Action<V>, id: nat)
    requires StackOk(s) && Named(s) && BufferOk(s) && a != Leave(id)
    requires id in s.from ==> GivenAtJoin(s, id) && Listens(s, id)
    ensures id in Apply(s, a).from ==> GivenAtJoin(Apply(s, a), id) && Listens(Apply(s, a), id)
  {
    if id in s.from {
      GivenStays(s, a, id);
      ListensStays(s, a, id);
    } else if a == Join(id) {
      JoinGivesLast(s, id);
    }
  }

  lemma {:induction false} EveryRunGives<V>(capacity: Option<nat>, actions: seq<Action<V>>, id: nat)
    requires Leave(id) !in actions
    ensures
      var s := Run(Initial<V>(capacity), actions);
      s.capacity == capacity && (id in s.from ==> GivenAtJoin(s, id) && Listens(s, id))
    decreases |actions|
  {
    if actions != [] {
      var n := |actions| - 1;
      assert actions[n] in actions && forall a :: a in actions[..n] ==> a in actions;
      EveryRunGives(capacity, actions[..n], id);
      EveryRun(capacity, actions[..n], id);
      CapacityStays(Run(Initial<V>(capacity), actions[..n]), actions[n]);
      GivesStep(Run(Initial<V>(capacity), actions[..n]), actions[n], id);
    }
  }

  predicate OnlyNexts<V>(history: seq<Event<V>>) {
    forall i :: 0 <= i < |history| ==> history[i].Next?
  }

  lemma {:induction false} NextsOfValues<V>(history: seq<Event<V>>)
    requires OnlyNexts(history)
    ensures |Values(history)| == |history| && Nexts(Values(history)) == history
    decreases |history|
  {
    if history != [] {
      var front, last := history[..|history| - 1], history[|history| - 1];
      NextsOfValues(front);
      Lists.FrontAndLast(history);
      ValuesOne(front, last);
      Lists.WithoutLast(Values(front), last.value);
    }
  }

  lemma {:induction false} NextsOfLastN<V>(values: seq<V>, k: nat)
    ensures Nexts(LastN(values, k)) == LastN(Nexts(values), k)
  {
    if k > 0 && values != [] {
      var front, last := values[..|values| - 1], values[|values| - 1];
      NextsOfLastN(front, k - 1);
      Lists.WithoutLast(LastN(front, k - 1), last);
      Lists.WithoutLast(Nexts(front), Next(last));
    }
  }

  lemma {:induction false} NoTerminal<V>(history: seq<Event<V>>)
    requires OnlyNexts(history)
    ensures TerminalOf(history) == [] && LastError(history).None?
    decreases |history|
  {
    if history != [] { NoTerminal(history[..|history| - 1]); }
  }

  lemma ReplayOfOpen<V>(history: seq<Event<V>>, k: nat)
    requires OnlyNexts(history)
    ensures TerminalOf(history) == [] && Nexts(LastN(Values(history), k)) == LastN(history, k)
  {
    NoTerminal(history);
    NextsOfValues(history);
    NextsOfLastN(Values(history), k);
  }

  lemma ReplayOfEnded<V>(front: seq<Event<V>>, last: Event<V>, k: nat)
    requires OnlyNexts(front) && !last.Next?
    ensures TerminalOf(front + [last]) == [last] && Values(front + [last]) == Values(front)
    ensures Nexts(LastN(Values(front + [last]), k)) + [last] == LastN(front + [last], k + 1)
  {
    ValuesOne(front, last);
    ReplayOfOpen(front, k);
    TerminalAppend(front, last);
    LastNGrows(front, k, last);
  }

  /** The values kept and the terminal event are the last events of a grammatical history. */
  lemma ReplayIsLastEvents<V>(history: seq<Event<V>>, k: nat)
    requires Grammar(history) && k <= |Values(history)|
    ensures Nexts(LastN(Values(history), k)) + TerminalOf(history) == LastN(history, k + |TerminalOf(history)|)
    ensures TerminalOf(history) == if Ended(history) then [history[|history| - 1]] else []
  {
    if Ended(history) {
      Lists.FrontAndLast(history);
      ReplayOfEnded(history[..|history| - 1], history[|history| - 1], k);
    } else {
      assert OnlyNexts(history);
      ReplayOfOpen(history, k);
      Lists.ConcatEmpty(Nexts(LastN(Values(history), k)));
    }
  }

  /** The events at the given positions. */
  function Events<V>(history: seq<Event<V>>, positions: seq<nat>): seq<Event<V>> {
    if positions == [] then []
    else
      var last := positions[|positions| - 1];
      Events(history, positions[..|positions| - 1]) + (if last < |history| then [history[last]] else [])
  }

  function View<V>(s: State<V>, id: nat): seq<Event<V>> {
    if id in s.replayed && id in s.got then s.replayed[id] + Events(s.history, s.got[id]) else []
  }

  lemma LastNTakeMore<V>(history: seq<Event<V>>, m: nat, n: nat)
    requires m < |history|
    ensures LastN(history[..m + 1], n + 1) == LastN(history[..m], n) + [history[m]]
  {
    Lists.TakeOneMore(history, m);
    LastNGrows(history[..m], n, history[m]);
  }

  lemma EventsLast<V>(history: seq<Event<V>>, positions: seq<nat>)
    requires positions != [] && positions[|positions| - 1] < |history|
    ensures Events(history, positions)
      == Events(history, positions[..|positions| - 1]) + [history[positions[|positions| - 1]]]
  {
  }

  lemma {:induction false} LiveContinues<V>(history: seq<Event<V>>, from: nat, positions: seq<nat>, k: nat)
    requires from + |positions| <= |history| && forall i :: 0 <= i < |positions| ==> positions[i] == from + i
    ensures LastN(history[..from], k) + Events(history, positions)
      == LastN(history[..from + |positions|], k + |positions|)
    decreases |positions|
  {
    if positions == [] {
      Lists.ConcatEmpty(LastN(history[..from], k));
    } else {
      var n := |positions| - 1;
      LiveContinues(history, from, positions[..n], k);
      LastNTakeMore(history, from + n, k + n);
      EventsLast(history, positions);
      Lists.ConcatAssociates(LastN(history[..from], k), Events(history, positions[..n]), [history[from + n]]);
    }
  }

  lemma GotLength<V>(s: State<V>, id: nat)
    requires Follows(s, id) && Contiguous(s, id) && s.sends == [] && (id in s.subscribers || s.from[id] == |s.history|)
    ensures |s.got[id]| == |s.history| - s.from[id]
  {
    if s.got[id] != [] { Lists.LastIn(s.got[id]); }
    var p := s.from[id] + |s.got[id]|;
    assert p !in s.got[id];
    assert !Due(s, id, p);
  }

  /** A history that had ended when the subscriber joined has grown no further. */
  lemma NothingAfterTheEnd<V>(history: seq<Event<V>>, from: nat)
    requires Grammar(history) && from <= |history| && TerminalOf(history[..from]) != []
    ensures from == |history|
  {
    ReplayIsLastEvents(history[..from], 0);
  }

  lemma JoinedAfterTheEnd<V>(s: State<V>, id: nat)
    requires Follows(s, id) && s.from[id] == |s.history|
    ensures s.got[id] == []
  {
    if s.got[id] != [] { Lists.HeadIn(s.got[id]); }
  }

  lemma ViewIsEnd<V>(s: State<V>, id: nat, k: nat)
    requires Grammar(s.history) && id in s.from && id in s.got && id in s.replayed && Contiguous(s, id)
    requires s.from[id] + |s.got[id]| == |s.history|
    requires GaveLast(s.capacity, s.history[..s.from[id]], s.replayed[id], k)
    ensures View(s, id) == LastN(s.history, k + |TerminalOf(s.history[..s.from[id]])| + |s.history| - s.from[id])
  {
    var from, before := s.from[id], s.history[..s.from[id]];
    ReplayIsLastEvents(before, k);
    LiveContinues(s.history, from, s.got[id], k + |TerminalOf(before)|);
    WholeHistory(s.history);
  }

  lemma WholeHistory<V>(history: seq<Event<V>>)
    ensures history[..|history|] == history
  {
  }

  /** From the joining of a subscriber: `k` values from before, how it had ended, and all events since. */
  ghost predicate SawEnd<V>(s: State<V>, id: nat, k: nat) {
    && id in s.from && id in s.replayed && s.from[id] <= |s.history|
    && GaveLast(s.capacity, s.history[..s.from[id]], s.replayed[id], k)
    && View(s, id) == LastN(s.history, k + |TerminalOf(s.history[..s.from[id]])| + |s.history| - s.from[id])
  }

  /**
   * A subscriber that joined at step `j` of a run with a grammatical history, has not left and was not
   * overtaken has seen exactly the end of that history once no send is under way: the values buffered
   * when it joined, which are the last min(capacity, sent) ones if and only if no more have been sent or
   * the last one was not still being delivered, and all events since.
   */
  lemma LateSubscriberSeesEnd<V>(capacity: Option<nat>, actions: seq<Action<V>>, j: nat, id: nat)
    requires j < |actions| && actions[j] == Join(id) && id !in Run(Initial<V>(capacity), actions[..j]).from
    requires Leave(id) !in actions && !Overtaken(Initial(capacity), actions, id)
    requires
      var s := Run(Initial<V>(capacity), actions);
      s.sends == [] && Grammar(s.history)
    ensures
      var joined := Run(Initial<V>(capacity), actions[..j]);
      var s := Run(Initial<V>(capacity), actions);
      && SawEnd(s, id, |joined.buffer|)
      && (|joined.buffer| == Min(capacity, |Values(joined.history)|) <==> BufferFits(joined))
      && (capacity.None? ==> View(s, id) == s.history)
  {
    EveryRun(capacity, actions, id);
    EveryRunGives(capacity, actions, id);
    JoinedThen(capacity, actions, j, id);
    ExactBufferIff(capacity, actions[..j]);
    SeesBuffered(Run(Initial<V>(capacity), actions), Run(Initial<V>(capacity), actions[..j]), id);
  }

  lemma SeesBuffered<V>(s: State<V>, joined: State<V>, id: nat)
    requires Status(s, id, false) && id in s.from && GivenAtJoin(s, id) && Listens(s, id)
    requires s.sends == [] && Grammar(s.history) && s.from[id] <= |s.history|
    requires s.history[..s.from[id]] == joined.history
    requires |s.replayed[id]| == |joined.buffer| + |TerminalOf(joined.history)|
    ensures SawEnd(s, id, |joined.buffer|)
    ensures s.capacity.None? ==> View(s, id) == s.history
  {
    SeesEnd(s, id);
    var k: nat :| SawEnd(s, id, k);
    ReplayLength(s.capacity, joined.history, s.replayed[id], k);
  }

  lemma {:induction false} NextsLength<V>(values: seq<V>)
    ensures |Nexts(values)| == |values|
  {
    if values != [] { NextsLength(values[..|values| - 1]); }
  }

  /** How much was replayed tells how many values were. */
  lemma ReplayLength<V>(capacity: Option<nat>, before: seq<Event<V>>, given: seq<Event<V>>, k: nat)
    requires GaveLast(capacity, before, given, k)
    ensures |given| == k + |TerminalOf(before)|
  {
    NextsLength(LastN(Values(before), k));
    LastNIsSuffix(Values(before), k);
  }

  /** What a subscriber was given on joining, and when, stays as it was. */
  lemma {:induction false} JoinedThen<V>(capacity: Option<nat>, actions: seq<Action<V>>, j: nat, id: nat)
    requires j < |actions| && actions[j] == Join(id) && id !in Run(Initial<V>(capacity), actions[..j]).from
    ensures
      var joined := Run(Initial<V>(capacity), actions[..j]);
      var s := Run(Initial<V>(capacity), actions);
      && id in s.from && id in s.replayed && s.from[id] == |joined.history| <= |s.history|
      && s.history[..s.from[id]] == joined.history
      && |s.replayed[id]| == |joined.buffer| + |TerminalOf(joined.history)|
    decreases |actions|
  {
    var front := actions[..|actions| - 1];
    if j == |actions| - 1 {
      var joined := Run(Initial<V>(capacity), front);
      EveryRun(capacity, front, id);
      NextsLength(joined.buffer);
      assert joined.history[..|joined.history|] == joined.history;
    } else {
      assert front[..j] == actions[..j];
      JoinedThen(capacity, front, j, id);
      PastStays(Run(Initial<V>(capacity), front), actions[|actions| - 1], id);
    }
  }

  lemma SeesEnd<V>(s: State<V>, id: nat)
    requires Status(s, id, false) && id in s.from && GivenAtJoin(s, id) && Listens(s, id)
    requires s.sends == [] && Grammar(s.history)
    ensures exists k: nat :: SawEnd(s, id, k)
    ensures s.capacity.None? ==> View(s, id) == s.history
  {
    var before := s.history[..s.from[id]];
    if TerminalOf(before) != [] {
      NothingAfterTheEnd(s.history, s.from[id]);
      JoinedAfterTheEnd(s, id);
    } else {
      GotLength(s, id);
    }
    var k: nat :| GaveLast(s.capacity, before, s.replayed[id], k);
    ViewIsEnd(s, id, k);
    assert SawEnd(s, id, k);
    if s.capacity.None? { AllIsEnd(s, id, k); }
  }

  // ----- exactly the last min(capacity, sent) values

  /** The position of the last value sent, or -1. */
  function LastNext<V>(history: seq<Event<V>>): int {
    if history == [] then -1
    else if history[|history| - 1].Next? then |history| - 1
    else LastNext(history[..|history| - 1])
  }

  /** The send of the last value is still under way. */
  predicate LastBeingDelivered<V>(s: State<V>) {
    exists k :: 0 <= k < |s.sends| && s.sends[k].at == LastNext(s.history)
  }

  /** No more values sent than fit, or the last one has been delivered and the buffer trimmed. */
  predicate BufferFits<V>(s: State<V>) {
    s.capacity.None? || |Values(s.history)| <= s.capacity.value || !LastBeingDelivered(s)
  }

  ghost predicate ExactIff<V>(s: State<V>) {
    |s.buffer| == Min(s.capacity, |Values(s.history)|) <==> BufferFits(s)
  }

  lemma {:induction false} LastNextIsLast<V>(history: seq<Event<V>>)
    ensures -1 <= LastNext(history) < |history|
    ensures LastNext(history) >= 0 ==> history[LastNext(history)].Next?
    ensures forall i :: LastNext(history) < i < |history| ==> !history[i].Next?
    decreases |history|
  {
    if history != [] && !history[|history| - 1].Next? { LastNextIsLast(history[..|history| - 1]); }
  }

  lemma LastNextAppend<V>(history: seq<Event<V>>, e: Event<V>)
    ensures LastNext(history + [e]) == if e.Next? then |history| else LastNext(history)
  {
    Lists.WithoutLast(history, e);
  }

  lemma EmitDelivers<V>(s: State<V>, e: Event<V>)
    requires StackOk(s)
    ensures LastBeingDelivered(Apply(s, Emit(e))) <==> e.Next? || LastBeingDelivered(s)
  {
    var r, n := Apply(s, Emit(e)), |s.sends|;
    LastNextAppend(s.history, e);
    LastNextIsLast(s.history);
    PushedFrame(s.sends, Sending(|s.history|, s.subscribers));
    assert r.sends == s.sends + [Sending(|s.history|, s.subscribers)];
    assert r.sends[n].at == |s.history|;
  }

  lemma EmitExact<V>(s: State<V>, e: Event<V>)
    requires BufferOk(s) && StackOk(s) && ExactIff(s)
    ensures ExactIff(Apply(s, Emit(e)))
  {
    ValuesOne(s.history, e);
    EmitDelivers(s, e);
  }

  /** Ending the send of a value leaves none of a later one, so the last is not being delivered. */
  lemma EndOfValueSettles<V>(s: State<V>)
    requires StackOk(s) && s.sends != [] && Top(s).left == [] && SendsNext(s, Top(s))
    ensures !LastBeingDelivered(Apply(s, Proceed))
  {
    var r, n := Apply(s, Proceed), |s.sends| - 1;
    LastNextIsLast(s.history);
    assert forall k :: 0 <= k < n ==> r.sends[k] == s.sends[k] && s.sends[k].at < s.sends[n].at;
    assert LastNext(s.history) >= Top(s).at;
  }

  lemma DeliverySame<V>(s: State<V>)
    requires s.sends != [] && (Top(s).left != [] || !SendsNext(s, Top(s)))
    requires StackOk(s)
    ensures LastBeingDelivered(Apply(s, Proceed)) <==> LastBeingDelivered(s)
  {
    var r, n := Apply(s, Proceed), |s.sends| - 1;
    LastNextIsLast(s.history);
    assert forall k :: 0 <= k < n ==> r.sends[k] == s.sends[k];
    if Top(s).left != [] { assert r.sends[n].at == s.sends[n].at; }
  }

  lemma ProceedExact<V>(s: State<V>)
    requires BufferOk(s) && StackOk(s) && ExactIff(s)
    ensures ExactIff(Apply(s, Proceed))
  {
    if s.sends != [] {
      if Top(s).left == [] && SendsNext(s, Top(s)) { EndOfValueSettles(s); } else { DeliverySame(s); }
    }
  }

  lemma ListenersExact<V>(s: State<V>, a: Action<V>)
    requires a.Join? || a.Leave?
    requires ExactIff(s)
    ensures ExactIff(Apply(s, a)) && Apply(s, a).history == s.history && Apply(s, a).buffer == s.buffer
  {
    assert LastBeingDelivered(Apply(s, a)) <==> LastBeingDelivered(s);
  }

  /** In every run, exactly the last min(capacity, sent) values are buffered if and only if they fit or are settled. */
  lemma {:induction false} ExactBufferIff<V>(capacity: Option<nat>, actions: seq<Action<V>>)
    ensures
      var s := Run(Initial<V>(capacity), actions);
      && s.capacity == capacity && s.buffer == LastN(Values(s.history), |s.buffer|)
      && (|s.buffer| == Min(capacity, |Values(s.history)|) <==> BufferFits(s))
    decreases |actions|
  {
    CapacityOfRun(Initial<V>(capacity), actions);
    EveryRun(capacity, actions, 0);
    if actions != [] {
      var front, last := actions[..|actions| - 1], actions[|actions| - 1];
      var s := Run(Initial<V>(capacity), front);
      ExactBufferIff(capacity, front);
      EveryRun(capacity, front, 0);
      match last
      case Emit(e) => EmitExact(s, e);
      case Proceed => ProceedExact(s);
      case _ => ListenersExact(s, last);
    }
  }

  lemma EventsKept<V>(history: seq<Event<V>>)
    requires Grammar(history)
    ensures |Values(history)| + |TerminalOf(history)| == |history|
  {
    ReplayIsLastEvents(history, 0);
    if Ended(history) {
      var n := |history| - 1;
      Lists.FrontAndLast(history);
      ValuesOne(history[..n], history[n]);
      NextsOfValues(history[..n]);
    } else {
      NextsOfValues(history);
    }
  }

  lemma AllIsEnd<V>(s: State<V>, id: nat, k: nat)
    requires SawEnd(s, id, k) && s.capacity.None? && Grammar(s.history)
    ensures View(s, id) == s.history
  {
    EventsKept(s.history[..s.from[id]]);
    LastNIsSuffix(s.history, |s.history|);
  }

  /** With no send under way, exactly the last min(capacity, sent) values are there to be replayed. */
  lemma IdleBuffer<V>(capacity: Option<nat>, actions: seq<Action<V>>)
    requires Run(Initial<V>(capacity), actions).sends == []
    ensures
      var s := Run(Initial<V>(capacity), actions);
      s.buffer == LastN(Values(s.history), Min(capacity, |Values(s.history)|))
  {
    EveryRun(capacity, actions, 0);
    CapacityOfRun(Initial<V>(capacity), actions);
    IdleLength(Run(Initial<V>(capacity), actions));
  }

  function Min(capacity: Option<nat>, sent: nat): nat {
    if capacity.Some? && capacity.value < sent then capacity.value else sent
  }

  lemma IdleLength<V>(s: State<V>)
    requires BufferOk(s) && s.sends == []
    ensures |s.buffer| == Min(s.capacity, |Values(s.history)|)
  {
  }

  lemma {:induction false} CapacityOfRun<V>(s: State<V>, actions: seq<Action<V>>)
    ensures Run(s, actions).capacity == s.capacity
    decreases |actions|
  {
    if actions != [] {
      CapacityOfRun(s, actions[..|actions| - 1]);
      CapacityStays(Run(s, actions[..|actions| - 1]), actions[|actions| - 1]);
    }
  }

  /** From inside a delivery one more is: a subscriber joining there is replayed capacity + 1 values. */
  lemma JoinInsideDelivery(a: int, b: int)
    ensures
      var s := Initial<int>(Some(1));
      var idle := Apply(Apply(s, Emit(Next(a))), Proceed);
      var inside := Apply(idle, Emit(Next(b)));
      idle.sends == [] && Apply(inside, Join(0)).replayed[0] == [Next(a), Next(b)]
  {
    var s := Initial<int>(Some(1));
    var first := Apply(s, Emit(Next(a)));
    assert first.sends == [Sending(0, [])] && first.buffer == [a];
    var idle := Apply(first, Proceed);
    assert idle.sends == [] && idle.buffer == [a] && Terminal(idle) == [];
    var inside := Apply(idle, Emit(Next(b)));
    assert inside.buffer == [a, b] && Terminal(inside) == [];
    assert [a, b][..1] == [a] && [a][..0] == [];
    assert Nexts([a]) == [Next(a)];
    assert Nexts([a, b]) == [Next(a), Next(b)];
  }

  // ----- the object

  /** One whole send, nothing running in between: the event, then each subscriber, then the end. */
  function WholeSend<V>(s: State<V>, e: Event<V>, n: nat): State<V> {
    if n == 0 then Apply(s, Emit(e)) else Apply(WholeSend(s, e, n - 1), Proceed)
  }

  /** The ghost fields record the calls made on subscribers; the call stack itself is `sends`. */
  class Subject<V> {
    const capacity: Option<nat>
    var valuesReceived: seq<V>
    var hasCompleted: bool
    var error: Option<ErrorCode>
    var subscribers: seq<nat>
    ghost var sends: seq<Sending>
    ghost var history: seq<Event<V>>
    ghost var replayed: map<nat, seq<Event<V>>>
    ghost var from: map<nat, nat>
    ghost var got: map<nat, seq<nat>>

    ghost function View(): State<V>
      reads this
    {
      State(capacity, valuesReceived, hasCompleted, error, subscribers, sends, history, replayed, from, got)
    }

    constructor (capacity: Option<nat>)
      ensures View() == Initial(capacity)
    {
      this.capacity, valuesReceived, hasCompleted, error, subscribers := capacity, [], false, None, [];
      sends, history, replayed, from, got := [], [], map[], map[], map[];
    }

    /** -subscribe: by a subscriber of a name of its own; `sent` is what it is sent before the call returns. */
    method Subscribe(id: nat) returns (sent: seq<Event<V>>)
      requires id !in from
      modifies this
      ensures View() == Apply(old(View()), Join(id))
      ensures sent == replayed[id]
    {
      sent := [];
      for i := 0 to |valuesReceived|
        invariant View() == old(View())
        invariant sent == Nexts(valuesReceived[..i])
      {
        sent := sent + [Next(valuesReceived[i])];
        Lists.TakeOneMore(valuesReceived, i);
        Lists.WithoutLast(valuesReceived[..i], valuesReceived[i]);
      }
      assert valuesReceived[..|valuesReceived|] == valuesReceived;
      if hasCompleted {
        sent := sent + [Completed];
      } else if error.Some? {
        sent := sent + [Error(error.value)];
      } else {
        subscribers := subscribers + [id];
        Lists.ConcatEmpty(sent);
      }
      replayed, from, got := replayed[id := sent], from[id := |history|], got[id := []];
    }

    /** The disposable of a subscription: drops the last entry of the subscriber. */
    method Unsubscribe(id: nat)
      modifies this`subscribers
      ensures View() == Apply(old(View()), Leave(id))
    {
      var i := |subscribers|;
      DroppedNone(subscribers, id);
      while i > 0
        invariant 0 <= i <= |subscribers| && subscribers == old(subscribers)
        invariant Dropped(subscribers, id) == Dropped(subscribers[..i], id) + subscribers[i..]
      {
        if subscribers[i - 1] == id {
          DroppedHere(subscribers, i, id);
          subscribers := subscribers[..i - 1] + subscribers[i..];
          return;
        }
        DroppedEarlier(subscribers, i, id);
        i := i - 1;
      }
      DroppedAll(subscribers, id);
    }

    method TrimToCapacity()
      modifies this`valuesReceived
      ensures valuesReceived == Trimmed(capacity, old(valuesReceived))
    {
      if capacity.Some? && |valuesReceived| > capacity.value {
        valuesReceived := valuesReceived[|valuesReceived| - capacity.value..];
      }
    }

    method Begin(e: Event<V>)
      modifies this
      ensures View() == Apply(old(View()), Emit(e))
    {
      match e {
        case Next(v) => valuesReceived := valuesReceived + [v];
        case Completed => hasCompleted := true;
        case Error(code) => error := Some(code);
      }
      history, sends := history + [e], sends + [Sending(|history|, subscribers)];
    }

    /** The call of one subscriber. */
    method Call(id: nat)
      requires sends != [] && Top(View()).left != [] && Top(View()).left[0] == id
      modifies this`sends, this`got
      ensures View() == Apply(old(View()), Proceed)
    {
      ghost var top := sends[|sends| - 1];
      sends := sends[..|sends| - 1] + [Sending(top.at, top.left[1..])];
      if id in got { got := got[id := got[id] + [top.at]]; }
    }

    method End(isNext: bool)
      requires sends != [] && Top(View()).left == [] && isNext == SendsNext(View(), Top(View()))
      modifies this`sends, this`valuesReceived
      ensures View() == Apply(old(View()), Proceed)
    {
      sends := sends[..|sends| - 1];
      if isNext { TrimToCapacity(); }
    }

    /** -sendNext:, -sendError: and -sendCompleted when no subscriber calls back: all are given the event, in order. */
    method SendEvent(e: Event<V>) returns (called: seq<nat>)
      modifies this
      ensures View() == WholeSend(old(View()), e, |old(subscribers)| + 1)
      ensures called == old(subscribers) && subscribers == old(subscribers) && sends == old(sends)
    {
      ghost var s := View();
      var copy := subscribers;
      Begin(e);
      called := [];
      for i := 0 to |copy|
        invariant View() == WholeSend(s, e, i) && called == copy[..i]
      {
        DuringSend(s, e, i);
        Lists.TakeOneMore(copy, i);
        called := called + [copy[i]];
        Call(copy[i]);
      }
      DuringSend(s, e, |copy|);
      assert copy[..|copy|] == copy;
      End(e.Next?);
    }
  }

  /** A send that nothing interrupts stays on top of the stack until its last subscriber has been called. */
  lemma {:induction false} DuringSend<V>(s: State<V>, e: Event<V>, n: nat)
    requires n <= |s.subscribers|
    ensures
      var r := WholeSend(s, e, n);
      && r.sends == s.sends + [Sending(|s.history|, s.subscribers[n..])] && Top(r).left == s.subscribers[n..]
      && Top(r).at == |s.history| && Pop(r) == s.sends
      && r.subscribers == s.subscribers && r.history == s.history + [e]
  {
    if n > 0 {
      DuringSend(s, e, n - 1);
      assert s.subscribers[n - 1..][1..] == s.subscribers[n..];
    }
    Lists.WithoutLast(s.sends, Sending(|s.history|, s.subscribers[n..]));
  }

  lemma DroppedNone(ids: seq<nat>, id: nat)
    ensures Dropped(ids, id) == Dropped(ids[..|ids|], id) + ids[|ids|..]
  {
    assert ids[..|ids|] == ids;
    Lists.ConcatEmpty(Dropped(ids, id));
  }

  lemma DroppedAll(ids: seq<nat>, id: nat)
    ensures Dropped(ids[..0], id) + ids[0..] == ids
  {
  }

  lemma DroppedHere(ids: seq<nat>, i: nat, id: nat)
    requires 0 < i <= |ids| && ids[i - 1] == id
    ensures Dropped(ids[..i], id) == ids[..i - 1]
  {
    assert ids[..i][..i - 1] == ids[..i - 1];
  }

  lemma DroppedEarlier(ids: seq<nat>, i: nat, id: nat)
    requires 0 < i <= |ids| && ids[i - 1] != id
    ensures Dropped(ids[..i], id) + ids[i..] == Dropped(ids[..i - 1], id) + ids[i - 1..]
  {
    assert ids[..i][..i - 1] == ids[..i - 1];
    assert ids[i - 1..] == [ids[i - 1]] + ids[i..];
  }
}
