/**
 * The queue of src/kite/quoteGuard.js. The steps are those between two awaits: an enqueue with the drain it
 * may start, one turn of the drain loop, and the end of a running task.
 */
module QuoteQueues {

  /** `enqueued`, `started` and `finished` are the histories of the queue. */
  datatype Tasks<T> = Tasks(queue: seq<T>, draining: bool, running: seq<T>, enqueued: seq<T>, started: seq<T>,
                            finished: seq<T>)

  datatype Step<T> = Enqueue(task: T) | DrainTurn | Finish(i: nat)

  function Empty<T>(): Tasks<T> {
    Tasks([], false, [], [], [], [])
  }

  function Next<T>(maxInFlight: nat, s: Tasks<T>, a: Step<T>): Tasks<T> {
    match a
    case Enqueue(t) => s.(queue := s.queue + [t], draining := true, enqueued := s.enqueued + [t])
    case DrainTurn =>
      if !s.draining then s
      else if s.queue == [] then s.(draining := false)
      else if |s.running| >= maxInFlight then s
      else s.(queue := s.queue[1..], running := s.running + [s.queue[0]], started := s.started + [s.queue[0]])
    case Finish(i) =>
      if i >= |s.running| then s
      else s.(running := s.running[..i] + s.running[i + 1..], finished := s.finished + [s.running[i]])
  }

  function RunSteps<T>(maxInFlight: nat, s: Tasks<T>, steps: seq<Step<T>>): Tasks<T>
    decreases steps
  {
    if steps == [] then s else RunSteps(maxInFlight, Next(maxInFlight, s, steps[0]), steps[1..])
  }

  /**
   * Tasks start in the order they came, each once; a waiting task has a drain to start it; started tasks run or have
   * ended.
   */
  ghost predicate InOrder<T>(maxInFlight: nat, s: Tasks<T>) {
    && s.enqueued == s.started + s.queue
    && (s.queue != [] ==> s.draining)
    && |s.running| <= maxInFlight
    && multiset(s.started) == multiset(s.finished) + multiset(s.running)
  }

  lemma InOrderStep<T>(maxInFlight: nat, s: Tasks<T>, a: Step<T>)
    requires InOrder(maxInFlight, s)
    ensures InOrder(maxInFlight, Next(maxInFlight, s, a))
  {
    match a
    case Enqueue(t) =>
      assert s.started + (s.queue + [t]) == s.started + s.queue + [t];
    case DrainTurn =>
      if s.draining && s.queue != [] && |s.running| < maxInFlight {
        StartInOrder(maxInFlight, s);
      }
    case Finish(i) =>
      if i < |s.running| {
        FinishInOrder(maxInFlight, s, i);
      }
  }

  lemma StartInOrder<T>(maxInFlight: nat, s: Tasks<T>)
    requires InOrder(maxInFlight, s) && s.queue != [] && |s.running| < maxInFlight
    ensures InOrder(maxInFlight, s.(queue := s.queue[1..], running := s.running + [s.queue[0]],
                                    started := s.started + [s.queue[0]]))
  {
    StartMovesTask(s.started, s.queue, s.running);
  }

  lemma FinishInOrder<T>(maxInFlight: nat, s: Tasks<T>, i: nat)
    requires InOrder(maxInFlight, s) && i < |s.running|
    ensures InOrder(maxInFlight, s.(running := s.running[..i] + s.running[i + 1..],
                                    finished := s.finished + [s.running[i]]))
  {
    FinishMovesTask(s.finished, s.running, i);
  }

  lemma StartMovesTask<T>(started: seq<T>, queue: seq<T>, running: seq<T>)
    requires queue != []
    ensures started + queue == started + [queue[0]] + queue[1..]
    ensures multiset(started + [queue[0]]) == multiset(started) + multiset{queue[0]}
    ensures multiset(running + [queue[0]]) == multiset(running) + multiset{queue[0]}
  {
    assert queue == [queue[0]] + queue[1..];
  }

  lemma FinishMovesTask<T>(finished: seq<T>, running: seq<T>, i: nat)
    requires i < |running|
    ensures multiset(finished + [running[i]]) + multiset(running[..i] + running[i + 1..])
         == multiset(finished) + multiset(running)
  {
    assert running == running[..i] + [running[i]] + running[i + 1..];
  }

  /** In every run no task overtakes another, none is lost or started twice, and no more than the limit run at once. */
  lemma {:induction false} QueueKeepsOrder<T>(maxInFlight: nat, s: Tasks<T>, steps: seq<Step<T>>)
    requires InOrder(maxInFlight, s)
    ensures InOrder(maxInFlight, RunSteps(maxInFlight, s, steps))
    decreases steps
  {
    if steps != [] {
      InOrderStep(maxInFlight, s, steps[0]);
      QueueKeepsOrder(maxInFlight, Next(maxInFlight, s, steps[0]), steps[1..]);
    }
  }

  /** One at a time: the tasks that ended are exactly those that started before the one running. */
  ghost predicate OneAtATime<T>(s: Tasks<T>) {
    |s.running| <= 1 && s.started == s.finished + s.running
  }

  lemma OneAtATimeStep<T>(s: Tasks<T>, a: Step<T>)
    requires OneAtATime(s)
    ensures OneAtATime(Next(1, s, a))
  {
    assert s.finished + [] == s.finished;
    match a
    case Finish(i) =>
      if i < |s.running| {
        assert s.running == [s.running[0]];
        assert Next(1, s, a).finished + [] == s.started;
      }
    case _ =>
  }

  lemma OneAtATimeInOrder<T>(s: Tasks<T>)
    requires OneAtATime(s) && InOrder(1, s)
    ensures s.enqueued == s.finished + s.running + s.queue
  {
  }

  /**
   * With the limit at one, a task starts only when every earlier one has ended, and they end in the order they came.
   */
  lemma {:induction false} SingleFlight<T>(s: Tasks<T>, steps: seq<Step<T>>)
    requires OneAtATime(s) && InOrder(1, s)
    ensures var r := RunSteps(1, s, steps);
            OneAtATime(r) && r.enqueued == r.finished + r.running + r.queue
    decreases steps
  {
    hide InOrder, OneAtATime, Next;
    if steps == [] {
      OneAtATimeInOrder(s);
    } else {
      var n := Next(1, s, steps[0]);
      InOrderStep(1, s, steps[0]);
      OneAtATimeStep(s, steps[0]);
      SingleFlight(n, steps[1..]);
    }
  }

  // ----- Progress -----

  /** Turns of the drain, each followed by the end of what it started, and one last turn that finds nothing. */
  function Rounds<T>(n: nat): seq<Step<T>> {
    if n == 0 then [DrainTurn] else [DrainTurn, Finish(0)] + Rounds(n - 1)
  }

  /** A turn starts the oldest waiting task when there is room, and closes the drain when nothing waits. */
  lemma TurnInNumbers<T>(maxInFlight: nat, s: Tasks<T>)
    requires s.draining
    ensures var n := Next(maxInFlight, s, DrainTurn);
            && n.started + n.queue == s.started + s.queue && n.enqueued == s.enqueued && n.finished == s.finished
            && |n.started| == |s.started| + (if |s.queue| > 0 && |s.running| < maxInFlight then 1 else 0)
            && |n.running| - |s.running| == |n.started| - |s.started|
            && (|n.running| > |s.running| ==> n.running == s.running + [s.queue[0]])
            && (n.draining <==> |s.queue| > 0)
  {
    if s.queue != [] {
      assert s.queue == [s.queue[0]] + s.queue[1..];
    }
  }

  /** An end takes just the one task out of the running ones; a new task waits behind all others for a drain. */
  lemma EndInNumbers<T>(maxInFlight: nat, s: Tasks<T>, i: nat, task: T)
    requires i < |s.running|
    ensures var n := Next(maxInFlight, s, Finish(i));
            && n.finished == s.finished + [s.running[i]] && |n.running| == |s.running| - 1
            && (forall j :: 0 <= j < |n.running| ==> n.running[j] == s.running[if j < i then j else j + 1])
            && n.queue == s.queue && n.started == s.started && n.enqueued == s.enqueued && n.draining == s.draining
    ensures var n := Next(maxInFlight, s, Enqueue(task));
            && n.queue == s.queue + [task] && n.enqueued == s.enqueued + [task] && n.draining
            && n.running == s.running && n.started == s.started && n.finished == s.finished
  {
  }

  lemma OneRound<T>(maxInFlight: nat, s: Tasks<T>, rest: seq<Step<T>>)
    requires maxInFlight >= 1 && s.draining && s.running == [] && s.queue != []
    ensures var x := s.queue[0];
            RunSteps(maxInFlight, s, [DrainTurn, Finish(0)] + rest) ==
            RunSteps(maxInFlight, s.(queue := s.queue[1..], started := s.started + [x], finished := s.finished + [x]),
                     rest)
  {
    var x, steps := s.queue[0], [DrainTurn, Finish(0)] + rest;
    var begun := s.(queue := s.queue[1..], running := [x], started := s.started + [x]);
    assert s.running + [x] == [x];
    assert Next(maxInFlight, s, DrainTurn) == begun;
    assert Next(maxInFlight, begun, Finish(0)) == begun.(running := [], finished := s.finished + [x]);
    assert steps[1..] == [Finish(0)] + rest && steps[1..][1..] == rest;
  }

  /** Every waiting task gets done: a drain whose tasks end works the queue off in order and closes. */
  lemma {:induction false} QueueDrains<T>(maxInFlight: nat, s: Tasks<T>)
    requires maxInFlight >= 1 && s.draining && s.running == []
    ensures var r := RunSteps(maxInFlight, s, Rounds(|s.queue|));
            r == Tasks([], false, [], s.enqueued, s.started + s.queue, s.finished + s.queue)
    decreases |s.queue|
  {
    if s.queue == [] {
      assert s.started + [] == s.started && s.finished + [] == s.finished;
      assert RunSteps(maxInFlight, s.(draining := false), []) == s.(draining := false);
    } else {
      OneRound(maxInFlight, s, Rounds(|s.queue| - 1));
      hide RunSteps, Next;
      var x := s.queue[0];
      QueueDrains(maxInFlight, s.(queue := s.queue[1..], started := s.started + [x], finished := s.finished + [x]));
      assert s.started + [x] + s.queue[1..] == s.started + s.queue;
      assert s.finished + [x] + s.queue[1..] == s.finished + s.queue;
    }
  }

  class TaskQueue<T> {
    const maxInFlight: nat
    var queue: seq<T>
    var draining: bool
    var running: seq<T>
    ghost var enqueued: seq<T>
    ghost var started: seq<T>
    ghost var finished: seq<T>

    ghost function View(): Tasks<T>
      reads this
    {
      Tasks(queue, draining, running, enqueued, started, finished)
    }

    constructor (limit: nat)
      ensures View() == Empty() && maxInFlight == limit
    {
      maxInFlight := limit;
      queue, draining, running := [], false, [];
      enqueued, started, finished := [], [], [];
    }

    method Add(t: T)
      modifies this
      ensures View() == Next(maxInFlight, old(View()), Enqueue(t))
    {
      queue := queue + [t];
      enqueued := enqueued + [t];
      if !draining {
        draining := true;
      }
    }

    method Turn()
      modifies this
      ensures View() == Next(maxInFlight, old(View()), DrainTurn)
    {
      if draining {
        if |queue| == 0 {
          draining := false;
        } else if |running| < maxInFlight {
          var item := queue[0];
          queue := queue[1..];
          running := running + [item];
          started := started + [item];
        }
      }
    }

    method End(i: nat)
      requires i < |running|
      modifies this
      ensures View() == Next(maxInFlight, old(View()), Finish(i))
    {
      finished := finished + [running[i]];
      running := running[..i] + running[i + 1..];
    }
  }
}
