/** `Server::Run`: one thread takes the events off the queue and hands them to the
    callbacks, while the handlers and `Stop` push them. */
module Dispatch {
  import opened Words
  import opened Text
  import opened Lines
  import S = Server
  import Q = CVQueue

  /** The one thread that calls `wait_and_pop`. */
  const CONSUMER: nat := 0

  datatype Consumer =
    | Testing                  // before the test of m_Running
    | Popping                  // in wait_and_pop
    | Calling(event: S.Event)  // event in hand, before its callback
    | Finished

  /** `owed` are the events whose pushes are still to come, `handed` those the
      callbacks have had. `cleared` counts the events before `Stop` cleared the flag,
      `due` those up to the disconnection `Stop` pushes, once it has begun to. */
  datatype System = System(server: S.State, queue: Q.Monitor<S.Event>, owed: seq<S.Event>, consumer: Consumer,
                           handed: seq<S.Event>, cleared: nat, due: Option<nat>)

  const BOOT: System := System(S.STARTED, Q.Fresh(), [], Testing, [], 0, None)

  datatype Action =
    | Complete(c: S.Completion)         // a handler, or a step of Stop
    | Push                              // the next owed push, up to the unlock
    | Signal(a: Q.Action<S.Event>)      // notify_one, spurious wake-ups, stop and its notify_all
    | Test                              // while (m_Running)
    | Take                              // wait_and_pop with the lock held
    | Call                              // the callback

  /** `Stop` goes on in order: flag, `Disconnect` with its push, context, queue. */
  predicate Enabled(s: System, a: Action) {
    match a
    case Complete(c) => S.Legal(s.server, c) && (c.StopContext? ==> s.due.Some?)
    case Push => s.owed != []
    case Signal(q) =>
      && Q.Enabled(s.queue, q) && !q.PushLocked? && !q.Enter? && !q.Resume?
      && (q.StopLocked? ==> s.server.stopped && s.due.Some? && |s.queue.pushed| >= s.due.value)
    case Test => s.consumer.Testing?
    case Take => s.consumer.Popping? && CONSUMER !in s.queue.blocked
    case Call => s.consumer.Calling?
  }

  function TakeAction(queue: Q.Monitor<S.Event>): Q.Action<S.Event> {
    if CONSUMER in queue.woken then Q.Resume(CONSUMER) else Q.Enter(CONSUMER)
  }

  /** Asleep again, with the front event, or turned away. */
  function Taken(s: System): System
    requires CONSUMER !in s.queue.blocked
  {
    s.(queue := Q.Act(s.queue, TakeAction(s.queue)),
       consumer := if s.queue.queue != [] then Calling(s.queue.queue[0])
                   else if s.queue.done then Finished else Popping)
  }

  /** What one handler pushes. */
  function NewEvents(s: S.State, c: S.Completion): seq<S.Event>
    requires S.Legal(s, c)
  {
    EventsGrow(s, c);
    S.Step(s, c).events[|s.events|..]
  }

  /** The marks of the first `Stop`. */
  function Marked(s: System, c: S.Completion): System
    requires S.Legal(s.server, c)
  {
    if c.StopFlag? && s.server.running then s.(cleared := |s.server.events|)
    else if c.StopDrop? && s.due.None? then s.(due := Some(|s.server.events| + 1))
    else s
  }

  function Act(s: System, a: Action): System
    requires Enabled(s, a)
  {
    match a
    case Complete(c) => Marked(s, c).(server := S.Step(s.server, c), owed := s.owed + NewEvents(s.server, c))
    case Push => s.(queue := Q.Act(s.queue, Q.PushLocked(s.owed[0])), owed := s.owed[1..])
    case Signal(q) => s.(queue := Q.Act(s.queue, q))
    case Test => s.(consumer := if s.server.running then Popping else Finished)
    case Take => Taken(s)
    case Call => s.(consumer := Testing, handed := s.handed + [s.consumer.event])
  }

  /** Every handler only adds events. */
  lemma EventsGrow(s: S.State, c: S.Completion)
    requires S.Legal(s, c)
    ensures s.events <= S.Step(s, c).events
  {
  }

  function InHand(c: Consumer): seq<S.Event> {
    if c.Calling? then [c.event] else []
  }

  /** Every event of the server is handed, in hand, queued or owed, in this order. */
  predicate Inv(s: System) {
    S.Inv(s.server) && Q.Inv(s.queue) && FlowOk(s) && StopOk(s)
  }

  predicate FlowOk(s: System) {
    s.server.events == s.queue.pushed + s.owed && Q.Values(s.queue.popped) == s.handed + InHand(s.consumer)
  }

  /** `Stop`'s own disconnection comes after the flag, and before the queue is
      stopped; a loop that still waits has had no event from after the flag; and
      nobody was turned away. */
  predicate StopOk(s: System) {
    && (!s.server.running ==> s.cleared <= |s.server.events|)
    && (s.due.Some? ==>
          && !s.server.running && s.cleared < s.due.value <= |s.server.events|
          && s.server.events[s.due.value - 1] == S.Disconnected)
    && (s.queue.done ==> s.due.Some? && |s.queue.pushed| >= s.due.value)
    && (!s.server.running && s.consumer.Popping? ==> |s.queue.popped| <= s.cleared)
    && s.queue.refused == {}
  }

  lemma CompleteInv(s: System, c: S.Completion)
    requires Inv(s) && Enabled(s, Complete(c))
    ensures Inv(Act(s, Complete(c)))
  {
    PoppedFewer(s);
    S.StepInv(s.server, c);
    CompleteFlow(s, c);
    CompleteStopOk(s, c);
  }

  lemma CompleteFlow(s: System, c: S.Completion)
    requires FlowOk(s) && Enabled(s, Complete(c))
    ensures FlowOk(Act(s, Complete(c)))
  {
    EventsGrow(s.server, c);
    MoreOwed(s.server.events, S.Step(s.server, c).events, s.queue.pushed, s.owed);
  }

  lemma CompleteStopOk(s: System, c: S.Completion)
    requires StopOk(s) && Enabled(s, Complete(c)) && |s.queue.popped| <= |s.server.events|
    ensures StopOk(Act(s, Complete(c)))
  {
    EventsGrow(s.server, c);
    var before, after := s.server.events, S.Step(s.server, c).events;
    if s.due.Some? {
      assert after[s.due.value - 1] == before[s.due.value - 1];
    } else if c.StopDrop? {
      assert after == before + [S.Disconnected];
    }
  }

  /** What was taken off the queue was pushed. */
  lemma PoppedFewer(s: System)
    requires Inv(s)
    ensures |s.queue.popped| + |s.queue.queue| == |s.queue.pushed| <= |s.server.events|
  {
    assert |Q.Values(s.queue.popped)| == |s.queue.popped|;
  }

  lemma MoreOwed(before: seq<S.Event>, after: seq<S.Event>, pushed: seq<S.Event>, owed: seq<S.Event>)
    requires before <= after && before == pushed + owed
    ensures after == pushed + (owed + after[|before|..])
  {
  }

  lemma PushInv(s: System)
    requires Inv(s) && s.owed != []
    ensures Inv(Act(s, Push))
  {
    Q.ActInv(s.queue, Q.PushLocked(s.owed[0]));
    PushFlow(s);
    PushStopOk(s);
  }

  lemma PushFlow(s: System)
    requires FlowOk(s) && s.owed != []
    ensures FlowOk(Act(s, Push))
  {
    assert s.queue.pushed + s.owed == s.queue.pushed + [s.owed[0]] + s.owed[1..];
  }

  lemma PushStopOk(s: System)
    requires StopOk(s) && s.owed != []
    ensures StopOk(Act(s, Push))
  {
  }

  lemma TakeInv(s: System)
    requires Inv(s) && Enabled(s, Take)
    ensures Inv(Act(s, Take))
  {
    PoppedFewer(s);
    Q.ActInv(s.queue, TakeAction(s.queue));
    TakeFlow(s);
    TakeStopOk(s);
  }

  lemma TakeFlow(s: System)
    requires FlowOk(s) && Enabled(s, Take)
    ensures FlowOk(Act(s, Take))
  {
    if s.queue.queue != [] {
      var front := s.queue.queue[0];
      assert Q.Values(s.queue.popped + [Q.Popped(CONSUMER, front)]) == Q.Values(s.queue.popped) + [front];
    }
  }

  lemma TakeStopOk(s: System)
    requires StopOk(s) && Enabled(s, Take) && |s.queue.popped| + |s.queue.queue| == |s.queue.pushed|
    ensures StopOk(Act(s, Take))
  {
  }

  lemma SignalInv(s: System, q: Q.Action<S.Event>)
    requires Inv(s) && Enabled(s, Signal(q))
    ensures Inv(Act(s, Signal(q)))
  {
    Q.ActInv(s.queue, q);
  }

  lemma ActInv(s: System, a: Action)
    requires Inv(s) && Enabled(s, a)
    ensures Inv(Act(s, a))
  {
    match a {
      case Complete(c) => CompleteInv(s, c);
      case Push => PushInv(s);
      case Signal(q) => SignalInv(s, q);
      case Test =>
      case Take => TakeInv(s);
      case Call => assert s.handed + [s.consumer.event] + [] == s.handed + [s.consumer.event];
    }
  }

  predicate Possible(s: System, acts: seq<Action>)
    decreases |acts|
  {
    acts == [] || (Enabled(s, acts[0]) && Possible(Act(s, acts[0]), acts[1..]))
  }

  function Run(s: System, acts: seq<Action>): System
    requires Possible(s, acts)
    decreases |acts|
  {
    if acts == [] then s else Run(Act(s, acts[0]), acts[1..])
  }

  lemma {:induction false} RunInv(s: System, acts: seq<Action>)
    requires Inv(s) && Possible(s, acts)
    ensures Inv(Run(s, acts))
    decreases |acts|
  {
    if acts != [] {
      ActInv(s, acts[0]);
      RunInv(Act(s, acts[0]), acts[1..]);
    }
  }

  lemma BootInv()
    ensures Inv(BOOT)
  {
    S.StartedInv();
  }

  /** The callbacks get a prefix of the server's events, so connections, messages and
      disconnections in order, and everything else is still on its way. */
  lemma CallbacksInOrder(acts: seq<Action>)
    requires Possible(BOOT, acts)
    ensures var r := Run(BOOT, acts);
            && r.server.events == r.handed + InHand(r.consumer) + r.queue.queue + r.owed
            && r.handed <= r.server.events && S.WellFormed(r.handed) && S.Texts(r.handed) <= Messages(r.server.received)
  {
    BootInv();
    RunInv(BOOT, acts);
    EventsWhere(Run(BOOT, acts));
    HandedInOrder(Run(BOOT, acts));
  }

  lemma EventsWhere(r: System)
    requires Inv(r)
    ensures r.server.events == r.handed + InHand(r.consumer) + r.queue.queue + r.owed
  {
    assert r.queue.pushed == r.handed + InHand(r.consumer) + r.queue.queue;
  }

  lemma HandedInOrder(r: System)
    requires Inv(r)
    ensures r.handed <= r.server.events && S.WellFormed(r.handed) && S.Texts(r.handed) <= Messages(r.server.received)
  {
    EventsWhere(r);
    PrefixOf(r.handed, r.server.events);
  }

  lemma PrefixOf(handed: seq<S.Event>, events: seq<S.Event>)
    requires handed <= events && S.WellFormed(events)
    ensures S.WellFormed(handed) && S.Texts(handed) <= S.Texts(events)
  {
    PrefixInOrder(events, |handed|);
    assert handed == events[..|handed|];
  }

  lemma {:induction false} PrefixInOrder(events: seq<S.Event>, n: nat)
    requires n <= |events| && S.WellFormed(events)
    ensures S.WellFormed(events[..n]) && S.Texts(events[..n]) <= S.Texts(events)
    decreases |events|
  {
    if n == |events| {
      assert events[..n] == events;
    } else {
      var before := Init(events);
      forall i | 0 <= i < |before| ensures S.Follows(before, i) {
        assert S.Follows(events, i);
      }
      PrefixInOrder(before, n);
      assert before[..n] == events[..n];
    }
  }

  /** The loop ends exactly when its test finds the flag cleared: the queue is stopped
      only after `Stop`'s own push, and the loop ends before it has taken that push. */
  lemma FinishedExactly(s: System, a: Action)
    requires Inv(s) && Enabled(s, a) && !s.consumer.Finished?
    ensures Act(s, a).consumer.Finished? <==> a.Test? && !s.server.running
  {
    PoppedFewer(s);
  }

  /** `wait_and_pop` never answers with nothing. */
  lemma NeverRefused(acts: seq<Action>)
    requires Possible(BOOT, acts)
    ensures Run(BOOT, acts).queue.refused == {}
  {
    BootInv();
    RunInv(BOOT, acts);
  }

  // ---------------------------------------------------------------- the last event

  /** What the loop may still hand on once the flag is cleared. */
  function Remaining(c: Consumer): nat {
    if c.Popping? || c.Calling? then 1 else 0
  }

  lemma StepHandsFew(s: System, a: Action)
    requires Enabled(s, a) && !s.server.running
    ensures var r := Act(s, a);
            && !r.server.running && r.cleared == s.cleared
            && |r.handed| + Remaining(r.consumer) <= |s.handed| + Remaining(s.consumer)
  {
  }

  /** Once the flag is cleared the callbacks get one event more at most: the one in
      hand, or the next one if the loop is waiting. */
  lemma {:induction false} RunHandsFew(s: System, acts: seq<Action>)
    requires !s.server.running && Possible(s, acts)
    ensures var r := Run(s, acts);
            !r.server.running && r.cleared == s.cleared && |r.handed| <= |s.handed| + Remaining(s.consumer)
    decreases |acts|
  {
    if acts != [] {
      StepHandsFew(s, acts[0]);
      RunHandsFew(Act(s, acts[0]), acts[1..]);
    }
  }

  /** The loop waits for an event that nobody has begun to push. */
  predicate Waiting(s: System) {
    s.consumer.Popping? && s.queue.queue == [] && s.owed == []
  }

  /** The callbacks have had the disconnection that `Stop` pushes. */
  predicate HeardStop(r: System) {
    r.due.Some? && |r.handed| >= r.due.value
  }

  /** In every run from the moment the flag is cleared: the callbacks hear of `Stop`'s
      disconnection exactly when it is the first event after the flag and one event
      more is handed. Then the loop was waiting when the flag was cleared, and the
      disconnection is the last event handed. */
  lemma HeardStopIs(s: System, acts: seq<Action>)
    requires Inv(s) && !s.server.running && s.cleared == |s.server.events| && Possible(s, acts)
    ensures var r, n := Run(s, acts), |s.server.events|;
            && (HeardStop(r) <==> r.due == Some(n + 1) && |r.handed| > n)
            && (HeardStop(r) ==> Waiting(s) && r.handed == s.server.events + [S.Disconnected])
  {
    RunInv(s, acts);
    HandsPrefix(Run(s, acts));
    RunHandsFew(s, acts);
    RunEventsGrow(s, acts);
    RemainingFew(s);
    HeardIs(s, Run(s, acts));
  }

  lemma HandsPrefix(r: System)
    requires Inv(r)
    ensures StopOk(r) && r.handed <= r.server.events
  {
    EventsWhere(r);
  }

  /** The loop has room for an event after all that there are exactly when it waits. */
  lemma RemainingFew(s: System)
    requires Inv(s)
    ensures |s.handed| + Remaining(s.consumer) <= |s.server.events| + if Waiting(s) then 1 else 0
    ensures Waiting(s) ==> s.handed == s.server.events
  {
    EventsWhere(s);
  }

  lemma HeardIs(s: System, r: System)
    requires |s.handed| + Remaining(s.consumer) <= |s.server.events| + if Waiting(s) then 1 else 0
    requires StopOk(r) && r.handed <= r.server.events && s.server.events <= r.server.events
    requires r.cleared == |s.server.events| && |r.handed| <= |s.handed| + Remaining(s.consumer)
    ensures HeardStop(r) <==> r.due == Some(|s.server.events| + 1) && |r.handed| > |s.server.events|
    ensures HeardStop(r) ==> Waiting(s) && r.handed == s.server.events + [S.Disconnected]
  {
    if HeardStop(r) {
      OneMore(s.server.events, r.handed, r.server.events);
    }
  }

  lemma OneMore(before: seq<S.Event>, handed: seq<S.Event>, events: seq<S.Event>)
    requires before <= events && handed <= events && |handed| == |before| + 1
    requires events[|before|] == S.Disconnected
    ensures handed == before + [S.Disconnected]
  {
  }

  lemma {:induction false} RunEventsGrow(s: System, acts: seq<Action>)
    requires Possible(s, acts)
    ensures s.server.events <= Run(s, acts).server.events
    decreases |acts|
  {
    if acts != [] {
      if acts[0].Complete? {
        EventsGrow(s.server, acts[0].c);
      }
      RunEventsGrow(Act(s, acts[0]), acts[1..]);
    }
  }

  /** Some continuation lets the callbacks hear of `Stop`'s disconnection. */
  ghost predicate MayHear(s: System) {
    exists acts :: Possible(s, acts) && HeardStop(Run(s, acts))
  }

  /** The callbacks can hear of the disconnection that `Stop` pushes exactly when the
      loop is waiting at the moment the flag is cleared, with nothing queued or owed. */
  lemma LastEventExactly(s: System, t: nat)
    requires Inv(s) && s.server.running && Enabled(s, Complete(S.StopFlag(t)))
    ensures MayHear(Act(s, Complete(S.StopFlag(t)))) <==> Waiting(s)
  {
    var s1 := Act(s, Complete(S.StopFlag(t)));
    ActInv(s, Complete(S.StopFlag(t)));
    FlagCleared(s, t);
    if MayHear(s1) {
      var acts :| Possible(s1, acts) && HeardStop(Run(s1, acts));
      HeardStopIs(s1, acts);
    }
    if Waiting(s) {
      RemainingFew(s);
      var acts := HearStop(s1, t);
      assert Possible(s1, acts) && HeardStop(Run(s1, acts));
    }
  }

  lemma FlagCleared(s: System, t: nat)
    requires StopOk(s) && s.server.running && Enabled(s, Complete(S.StopFlag(t)))
    ensures var s1 := Act(s, Complete(S.StopFlag(t)));
            && !s1.server.running && !s1.server.terminated && s1.due.None?
            && s1.cleared == |s1.server.events| && s1.server.events == s.server.events
            && s1.handed == s.handed && (Waiting(s1) <==> Waiting(s))
  {
    assert s.owed + [] == s.owed;
  }

  /** From a waiting loop: `Stop` pushes, the loop wakes, takes and hands on. */
  lemma HearStop(s: System, t: nat) returns (acts: seq<Action>)
    requires Waiting(s) && s.handed == s.server.events
    requires !s.server.running && !s.server.terminated && s.due.None?
    ensures Possible(s, acts)
    ensures HeardStop(Run(s, acts)) && Run(s, acts).handed == s.server.events + [S.Disconnected]
  {
    var drop := Complete(S.StopDrop(t));
    var s1 := Act(s, drop);
    assert s1.owed == [S.Disconnected];
    var s2 := Act(s1, Push);
    var tail := TakeAndCall(s2);
    acts := [drop] + ([Push] + tail);
    RunThen(s1, Push, tail);
    RunThen(s, drop, [Push] + tail);
  }

  /** The loop, asleep or not, gets the one event in the queue. */
  lemma TakeAndCall(s: System) returns (acts: seq<Action>)
    requires s.consumer.Popping? && |s.queue.queue| == 1 && s.queue.notifying > 0
    ensures Possible(s, acts)
    ensures Run(s, acts).handed == s.handed + s.queue.queue && Run(s, acts).due == s.due
  {
    var s1 := Awake(s);
    var s2 := Act(s1, Take);
    assert s2.consumer == Calling(s.queue.queue[0]);
    assert s.queue.queue == [s.queue.queue[0]];
    RunThen(s2, Call, []);
    RunThen(s1, Take, [Call] + []);
    acts := [Take] + ([Call] + []);
    if CONSUMER in s.queue.blocked {
      RunThen(s, Signal(Q.NotifyOne(CONSUMER)), acts);
      acts := [Signal(Q.NotifyOne(CONSUMER))] + acts;
    }
  }

  function Awake(s: System): System
    requires s.queue.notifying > 0
  {
    if CONSUMER in s.queue.blocked then Act(s, Signal(Q.NotifyOne(CONSUMER))) else s
  }

  lemma RunThen(s: System, a: Action, acts: seq<Action>)
    requires Enabled(s, a) && Possible(Act(s, a), acts)
    ensures Possible(s, [a] + acts) && Run(s, [a] + acts) == Run(Act(s, a), acts)
  {
    assert ([a] + acts)[1..] == acts;
  }

  /** A client connects, and the callback hears of it. */
  function Heard(accepted: S.State): System {
    System(accepted, Q.Fresh().(notifying := 1, pushed := [S.Connected], popped := [Q.Popped(CONSUMER, S.Connected)]),
           [], Testing, [S.Connected], 0, None)
  }

  lemma FirstCallback(t: nat, acts: seq<Action>)
    requires var accepted := S.Step(S.STARTED, S.AcceptDone(t, true, true));
             Possible(Heard(accepted), acts)
    ensures var accept := Complete(S.AcceptDone(t, true, true));
            var all := [accept] + ([Push] + ([Test] + ([Take] + ([Call] + acts))));
            Possible(BOOT, all) && Run(BOOT, all) == Run(Heard(S.Step(S.STARTED, S.AcceptDone(t, true, true))), acts)
  {
    var accept := Complete(S.AcceptDone(t, true, true));
    var s1 := Act(BOOT, accept);
    assert s1.server.events == [S.Connected] && s1.owed == [S.Connected];
    var s2 := Act(s1, Push);
    var s3 := Act(s2, Test);
    var s4 := Act(s3, Take);
    assert s2.owed == [] && s4.consumer == Calling(S.Connected) && s4.queue.queue == [];
    assert Act(s4, Call) == Heard(s1.server);
    RunThen(s4, Call, acts);
    RunThen(s3, Take, [Call] + acts);
    RunThen(s2, Test, [Take] + ([Call] + acts));
    RunThen(s1, Push, [Test] + ([Take] + ([Call] + acts)));
    RunThen(BOOT, accept, [Push] + ([Test] + ([Take] + ([Call] + acts))));
  }

  /** `Stop` clears the flag, the loop sees it and ends, and only then `Stop` pushes
      its disconnection. */
  lemma StopUnseen(s: System, t: nat) returns (acts: seq<Action>)
    requires s.consumer.Testing? && !s.server.terminated
    ensures Possible(s, acts)
    ensures var r := Run(s, acts);
            r.consumer.Finished? && r.handed == s.handed && r.server.events == s.server.events + [S.Disconnected]
  {
    var flag, drop := Complete(S.StopFlag(t)), Complete(S.StopDrop(t));
    var s1 := Act(s, flag);
    var s2 := Act(s1, Test);
    acts := [flag] + ([Test] + ([drop] + []));
    RunThen(s2, drop, []);
    RunThen(s1, Test, [drop] + []);
    RunThen(s, flag, [Test] + ([drop] + []));
  }

  /** The disconnection that `Stop` itself pushes need not reach the callback: the
      callbacks may hear of a connection and never of its end. */
  lemma LastEventMissed(t: nat) returns (acts: seq<Action>)
    ensures Possible(BOOT, acts)
    ensures var r := Run(BOOT, acts);
            r.consumer.Finished? && r.handed == [S.Connected] && r.server.events == [S.Connected, S.Disconnected]
  {
    var accept := S.AcceptDone(t, true, true);
    var tail := StopUnseen(Heard(S.Step(S.STARTED, accept)), t);
    FirstCallback(t, tail);
    acts := [Complete(accept)] + ([Push] + ([Test] + ([Take] + ([Call] + tail))));
  }
}
