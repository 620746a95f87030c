/** `CVQueue`: a queue guarded by a mutex and a condition variable, with the
    notification issued after the lock is released. Each region under the lock is
    one step; steps of any number of threads interleave freely. */
module CVQueue {
  import opened Words

  datatype Popped<T> = Popped(thread: nat, value: T)

  datatype Monitor<T> = Monitor(
    queue: seq<T>,
    done: bool,
    notifying: nat,        // pushers past the lock, before notify_one
    stopping: nat,         // stoppers past the lock, before notify_all
    blocked: set<nat>,     // threads asleep in wait
    woken: set<nat>,       // threads awake in wait, not yet holding the lock
    pushed: seq<T>,        // every value pushed, in lock order
    popped: seq<Popped<T>>, // every value handed out, in lock order
    refused: set<nat>)     // threads that got nullopt

  datatype Action<T> =
    | PushLocked(value: T)         // push, up to the unlock
    | NotifyOne(chosen: nat)       // notify_one: wakes `chosen` if anyone sleeps
    | Enter(thread: nat)           // wait_and_pop takes the lock
    | Resume(thread: nat)          // a woken thread takes the lock again
    | Spurious(thread: nat)        // a sleeper wakes for no reason
    | StopLocked                   // stop, up to the unlock
    | NotifyAll                    // notify_all

  function Fresh<T>(): Monitor<T> {
    Monitor([], false, 0, 0, {}, {}, [], [], {})
  }

  /** What can happen. `notify_one` wakes one sleeper, any of them. */
  predicate Enabled<T>(m: Monitor<T>, a: Action<T>) {
    match a
    case PushLocked(_) => true
    case NotifyOne(t) => m.notifying > 0 && (m.blocked != {} ==> t in m.blocked)
    case Enter(t) => t !in m.blocked && t !in m.woken
    case Resume(t) => t in m.woken
    case Spurious(t) => t in m.blocked
    case StopLocked => true
    case NotifyAll => m.stopping > 0
  }

  /** `wait_and_pop` under the lock: sleep, give up, or take the front. */
  function Attempt<T>(m: Monitor<T>, t: nat): Monitor<T> {
    if m.queue == [] && !m.done then m.(blocked := m.blocked + {t})
    else if m.queue == [] then m.(refused := m.refused + {t})
    else m.(queue := m.queue[1..], popped := m.popped + [Popped(t, m.queue[0])])
  }

  function Act<T>(m: Monitor<T>, a: Action<T>): Monitor<T>
    requires Enabled(m, a)
  {
    match a
    case PushLocked(v) => m.(queue := m.queue + [v], pushed := m.pushed + [v], notifying := m.notifying + 1)
    case NotifyOne(t) =>
      var m1 := m.(notifying := m.notifying - 1);
      if m.blocked == {} then m1 else m1.(blocked := m.blocked - {t}, woken := m.woken + {t})
    case Enter(t) => Attempt(m, t)
    case Resume(t) => Attempt(m.(woken := m.woken - {t}), t)
    case Spurious(t) => m.(blocked := m.blocked - {t}, woken := m.woken + {t})
    case StopLocked => m.(done := true, stopping := m.stopping + 1)
    case NotifyAll => m.(stopping := m.stopping - 1, blocked := {}, woken := m.woken + m.blocked)
  }

  function Values<T>(popped: seq<Popped<T>>): (vs: seq<T>)
    ensures |vs| == |popped|
  {
    seq(|popped|, i requires 0 <= i < |popped| => popped[i].value)
  }

  /** Exactly once and in order; while anyone sleeps, every queued item has a
      woken consumer or a pusher about to notify; once stopped, a sleeper still
      has its wake-up coming; and only a stopped queue refuses. */
  predicate Inv<T(==)>(m: Monitor<T>) {
    && m.pushed == Values(m.popped) + m.queue
    && (m.blocked != {} ==> |m.queue| <= |m.woken| + m.notifying)
    && (m.done && m.blocked != {} ==> m.stopping > 0)
    && (m.refused != {} ==> m.done)
    && (m.stopping > 0 ==> m.done)
    && m.blocked !! m.woken
  }

  lemma PopFront<T>(popped: seq<Popped<T>>, t: nat, queue: seq<T>)
    requires queue != []
    ensures Values(popped + [Popped(t, queue[0])]) + queue[1..] == Values(popped) + queue
  {
    assert Values(popped + [Popped(t, queue[0])]) == Values(popped) + [queue[0]];
    assert queue == [queue[0]] + queue[1..];
  }

  lemma AttemptInv<T>(m: Monitor<T>, t: nat)
    requires m.pushed == Values(m.popped) + m.queue
    requires m.blocked != {} ==> |m.queue| <= |m.woken| + m.notifying + 1
    requires m.queue == [] ==> m.blocked == {} || |m.queue| <= |m.woken| + m.notifying
    requires m.done && m.blocked != {} ==> m.stopping > 0
    requires (m.refused != {} ==> m.done) && (m.stopping > 0 ==> m.done)
    requires m.blocked !! m.woken && t !in m.blocked && t !in m.woken
    ensures Inv(Attempt(m, t))
  {
    if m.queue != [] {
      PopFront(m.popped, t, m.queue);
    }
  }

  /** Every step of every thread keeps the invariant. */
  lemma ActInv<T>(m: Monitor<T>, a: Action<T>)
    requires Inv(m) && Enabled(m, a)
    ensures Inv(Act(m, a))
  {
    match a {
      case PushLocked(v) =>
        assert m.pushed + [v] == Values(m.popped) + (m.queue + [v]);
      case NotifyOne(t) =>
        assert m.blocked != {} ==> |m.woken + {t}| == |m.woken| + 1;
      case Enter(t) =>
        AttemptInv(m, t);
      case Resume(t) =>
        assert |m.woken - {t}| == |m.woken| - 1;
        AttemptInv(m.(woken := m.woken - {t}), t);
      case Spurious(t) =>
        assert |m.woken + {t}| == |m.woken| + 1;
      case StopLocked =>
      case NotifyAll =>
    }
  }

  /** The lock is taken in `wait_and_pop` by this thread. */
  predicate Tries<T(==)>(a: Action<T>, t: nat) {
    a == Enter(t) || a == Resume(t)
  }

  /** Where every thread is after each step: one that finds nothing to take and no stop
      sleeps; a sleeper wakes by `notify_one` if it is chosen, for no reason, or by
      `notify_all`, which leaves none asleep; a woken one stays so until it takes the
      lock; and one that finds a value gets the front. */
  lemma ThreadsExactly<T>(m: Monitor<T>, a: Action<T>, t: nat)
    requires Inv(m) && Enabled(m, a)
    ensures var r := Act(m, a);
            && (t in r.blocked <==> (Tries(a, t) && m.queue == [] && !m.done) ||
                                    (t in m.blocked && a != NotifyOne(t) && a != Spurious(t) && !a.NotifyAll?))
            && (t in r.woken <==> (t in m.woken && a != Resume(t)) ||
                                  (t in m.blocked && (a == NotifyOne(t) || a == Spurious(t) || a.NotifyAll?)))
            && (Tries(a, t) ==> r.popped == m.popped + if m.queue == [] then [] else [Popped(t, m.queue[0])])
            && (!a.Enter? && !a.Resume? ==> r.popped == m.popped)
  {
    assert m.popped + [] == m.popped;
  }

  /** Each push owes one `notify_one`, each stop one `notify_all`, and the flag is set
      by a stop alone. */
  lemma OwedExactly<T>(m: Monitor<T>, a: Action<T>)
    requires Enabled(m, a)
    ensures var r := Act(m, a);
            && r.notifying == m.notifying + (if a.PushLocked? then 1 else 0) - (if a.NotifyOne? then 1 else 0)
            && r.stopping == m.stopping + (if a.StopLocked? then 1 else 0) - (if a.NotifyAll? then 1 else 0)
            && (r.done <==> m.done || a.StopLocked?)
  {
  }

  predicate Possible<T(==)>(m: Monitor<T>, acts: seq<Action<T>>)
    decreases |acts|
  {
    acts == [] || (Enabled(m, acts[0]) && Possible(Act(m, acts[0]), acts[1..]))
  }

  function Run<T(==)>(m: Monitor<T>, acts: seq<Action<T>>): Monitor<T>
    requires Possible(m, acts)
    decreases |acts|
  {
    if acts == [] then m else Run(Act(m, acts[0]), acts[1..])
  }

  lemma {:induction false} RunInv<T>(m: Monitor<T>, acts: seq<Action<T>>)
    requires Inv(m) && Possible(m, acts)
    ensures Inv(Run(m, acts))
    decreases |acts|
  {
    if acts != [] {
      ActInv(m, acts[0]);
      RunInv(Act(m, acts[0]), acts[1..]);
    }
  }

  function EntersIn<T(==)>(acts: seq<Action<T>>, t: nat): nat {
    if acts == [] then 0 else (if acts[0] == Enter(t) then 1 else 0) + EntersIn(acts[1..], t)
  }

  /** The values a thread was handed. */
  function HandedTo<T>(popped: seq<Popped<T>>, t: nat): nat {
    if popped == [] then 0
    else HandedTo(popped[..|popped| - 1], t) + if popped[|popped| - 1].thread == t then 1 else 0
  }

  predicate Inside<T>(m: Monitor<T>, t: nat) {
    t in m.blocked || t in m.woken
  }

  lemma HandedMore<T>(popped: seq<Popped<T>>, p: Popped<T>, t: nat)
    ensures HandedTo(popped + [p], t) == HandedTo(popped, t) + if p.thread == t then 1 else 0
  {
    assert (popped + [p])[..|popped|] == popped;
  }

  lemma StepCalls<T>(m: Monitor<T>, a: Action<T>, t: nat)
    requires Inv(m) && Enabled(m, a) && !Act(m, a).done
    ensures var r := Act(m, a);
            HandedTo(r.popped, t) + (if Inside(r, t) then 1 else 0) ==
            HandedTo(m.popped, t) + (if Inside(m, t) then 1 else 0) + if a == Enter(t) then 1 else 0
  {
    ThreadsExactly(m, a, t);
    if a.Enter? || a.Resume? {
      ThreadsExactly(m, a, a.thread);
      if m.queue != [] {
        HandedMore(m.popped, Popped(a.thread, m.queue[0]), t);
      }
    }
  }

  lemma {:induction false} NeverDone<T>(m: Monitor<T>, acts: seq<Action<T>>)
    requires Possible(m, acts) && !Run(m, acts).done
    ensures !m.done
    decreases |acts|
  {
    if acts != [] {
      NeverDone(Act(m, acts[0]), acts[1..]);
      OwedExactly(m, acts[0]);
    }
  }

  /** Nobody is forgotten: until the queue is stopped, every call of `wait_and_pop` has
      been handed a value or is still inside, asleep or woken. */
  lemma {:induction false} CallsAccounted<T>(m: Monitor<T>, acts: seq<Action<T>>, t: nat)
    requires Inv(m) && Possible(m, acts) && !Run(m, acts).done
    ensures var r := Run(m, acts);
            HandedTo(r.popped, t) + (if Inside(r, t) then 1 else 0) ==
            HandedTo(m.popped, t) + (if Inside(m, t) then 1 else 0) + EntersIn(acts, t)
    decreases |acts|
  {
    if acts != [] {
      NeverDone(Act(m, acts[0]), acts[1..]);
      StepCalls(m, acts[0], t);
      ActInv(m, acts[0]);
      CallsAccounted(Act(m, acts[0]), acts[1..], t);
    }
  }

  /** The values of the pushes, in the order they took the lock. */
  function PushedBy<T>(acts: seq<Action<T>>): seq<T> {
    if acts == [] then []
    else (if acts[0].PushLocked? then [acts[0].value] else []) + PushedBy(acts[1..])
  }

  lemma {:induction false} RunPushes<T>(m: Monitor<T>, acts: seq<Action<T>>)
    requires Possible(m, acts)
    ensures Run(m, acts).pushed == m.pushed + PushedBy(acts)
    decreases |acts|
  {
    if acts != [] {
      RunPushes(Act(m, acts[0]), acts[1..]);
    }
  }

  /** No lost wakeup: after any interleaving, when no notification is on its way
      and no woken consumer is still to run, a sleeping consumer means an empty
      queue that nobody stopped. */
  lemma NoLostWakeup<T>(acts: seq<Action<T>>)
    requires Possible(Fresh<T>(), acts)
    requires var m := Run(Fresh<T>(), acts); m.notifying == 0 && m.stopping == 0 && m.woken == {} && m.blocked != {}
    ensures var m := Run(Fresh<T>(), acts); m.queue == [] && !m.done
  {
    RunInv(Fresh<T>(), acts);
  }

  /** Exactly once, in order: what was handed out is a prefix of what was pushed,
      and nothing is refused before the queue is stopped and empty. */
  lemma FifoOnce<T>(acts: seq<Action<T>>)
    requires Possible(Fresh<T>(), acts)
    ensures var m := Run(Fresh<T>(), acts);
            && PushedBy(acts) == Values(m.popped) + m.queue
            && Values(m.popped) <= PushedBy(acts)
            && (m.refused != {} ==> m.done)
  {
    RunInv(Fresh<T>(), acts);
    RunPushes(Fresh<T>(), acts);
  }

  /** `nullopt` is returned exactly to a thread that finds the queue stopped and
      empty. */
  lemma RefusedExactly<T>(m: Monitor<T>, a: Action<T>, t: nat)
    requires Inv(m) && Enabled(m, a) && t !in m.refused
    ensures t in Act(m, a).refused <==>
            (a == Enter(t) || a == Resume(t)) && m.done && m.queue == []
  {
  }

  /** Once a stop has run its `notify_all`, nobody sleeps, and nobody falls asleep
      again, whatever happens afterwards. */
  lemma {:induction false} NobodySleeps<T>(m: Monitor<T>, acts: seq<Action<T>>)
    requires Inv(m) && m.done && m.blocked == {} && Possible(m, acts)
    ensures Run(m, acts).blocked == {} && Run(m, acts).done
    decreases |acts|
  {
    if acts != [] {
      ActInv(m, acts[0]);
      NobodySleeps(Act(m, acts[0]), acts[1..]);
    }
  }

  lemma StopWakesAll<T>(m: Monitor<T>, acts: seq<Action<T>>)
    requires Inv(m) && m.stopping > 0 && Possible(Act(m, NotifyAll), acts)
    ensures Run(Act(m, NotifyAll), acts).blocked == {}
  {
    ActInv(m, NotifyAll);
    NobodySleeps(Act(m, NotifyAll), acts);
  }

  // ---------------------------------------------------------------- the code

  /** The queue object with the condition variable's sleepers made visible; each
      method is one region the source runs without giving up control. */
  class CVQueue<T(==)> {
    var m_Queue: seq<T>
    var m_Done: bool
    var sleepers: set<nat>
    ghost var notifying: nat
    ghost var stopping: nat
    ghost var woken: set<nat>
    ghost var pushed: seq<T>
    ghost var popped: seq<Popped<T>>
    ghost var refused: set<nat>

    ghost function View(): Monitor<T>
      reads this
    {
      Monitor(m_Queue, m_Done, notifying, stopping, sleepers, woken, pushed, popped, refused)
    }

    constructor ()
      ensures View() == Fresh() && Inv(View())
      ensures m_Queue == [] && !m_Done && sleepers == {}
    {
      m_Queue, m_Done, sleepers := [], false, {};
      notifying, stopping, woken, pushed, popped, refused := 0, 0, {}, [], [], {};
    }

    /** `push`, under the lock. */
    method PushUnderLock(value: T)
      requires Inv(View())
      modifies this
      ensures View() == Act(old(View()), PushLocked(value)) && Inv(View())
    {
      ActInv(View(), PushLocked(value));
      m_Queue := m_Queue + [value];
      pushed, notifying := pushed + [value], notifying + 1;
    }

    /** `notify_one`, outside the lock; which sleeper wakes is not ours to say. */
    method NotifyOneSleeper() returns (chosen: nat)
      requires Inv(View()) && notifying > 0
      modifies this
      ensures Enabled(old(View()), NotifyOne(chosen))
      ensures View() == Act(old(View()), NotifyOne(chosen)) && Inv(View())
    {
      if sleepers == {} {
        chosen := 0;
        ActInv(View(), NotifyOne(chosen));
        notifying := notifying - 1;
      } else {
        chosen :| chosen in sleepers;
        ActInv(View(), NotifyOne(chosen));
        sleepers := sleepers - {chosen};
        woken := woken + {chosen};
        notifying := notifying - 1;
      }
    }

    /** `wait_and_pop` from the moment the lock is held: first entry or return from
        `wait`. `sleeps` means the predicate failed and the lock is given up. */
    method WaitAndPop(thread: nat, ghost resumed: bool) returns (sleeps: bool, value: Option<T>)
      requires Inv(View()) && Enabled(View(), if resumed then Resume(thread) else Enter(thread))
      modifies this
      ensures View() == Act(old(View()), if resumed then Resume(thread) else Enter(thread)) && Inv(View())
      ensures sleeps <==> old(m_Queue) == [] && !old(m_Done)
      ensures value == if old(m_Queue) == [] then None else Some(old(m_Queue)[0])
    {
      ActInv(View(), if resumed then Resume(thread) else Enter(thread));
      if resumed {
        woken := woken - {thread};
      }
      if !(m_Queue != [] || m_Done) {
        sleepers := sleepers + {thread};
        return true, None;
      }
      if m_Queue == [] && m_Done {
        refused := refused + {thread};
        return false, None;
      }
      var temp := m_Queue[0];
      m_Queue := m_Queue[1..];
      popped := popped + [Popped(thread, temp)];
      return false, Some(temp);
    }

    /** `stop`, under the lock. */
    method StopUnderLock()
      requires Inv(View())
      modifies this
      ensures View() == Act(old(View()), StopLocked) && Inv(View())
    {
      ActInv(View(), StopLocked);
      m_Done := true;
      stopping := stopping + 1;
    }

    /** `notify_all`, outside the lock. */
    method NotifyAllSleepers()
      requires Inv(View()) && stopping > 0
      modifies this
      ensures View() == Act(old(View()), NotifyAll) && Inv(View())
    {
      ActInv(View(), NotifyAll);
      woken := woken + sleepers;
      sleepers := {};
      stopping := stopping - 1;
    }
  }
}
