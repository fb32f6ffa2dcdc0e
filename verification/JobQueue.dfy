/** The network's job queue: many producers, one loop thread, interleaved step by step. */
module JobQueue {

  type Thread = nat
  const LOOP: Thread := 0

  datatype Phase =
    | Idle         // the loop thread waits for events, or handles others
    | Woken        // the waker's activation is cleared and its callback entered, the queue not yet swapped out
    | Draining     // the swapped-out jobs are being run

  /** A job that ran, and the thread it ran on. */
  datatype Ran = Ran(job: nat, thread: Thread)

  datatype State = State(
    queue: seq<nat>,              // job_queue
    swapped: seq<nat>,            // swapped_queue
    active: bool,                 // job_waker is active
    mid: set<Thread>,             // threads inside call_soon, between the push and event_active
    phase: Phase,
    enqueued: seq<nat>,           // every job pushed, in mutex order
    ran: seq<Ran>,                // every queued job run
    inline_: seq<Ran>)            // every job run by `call` at once

  datatype Event =
    | Call(thread: Thread, job: nat)   // Network::call
    | Soon(thread: Thread, job: nat)   // the locked push of call_soon
    | Activate(thread: Thread)         // its event_active
    | Wake                             // libevent clears the activation and enters process_job_queue
    | Swap                             // its locked swap
    | RunJob                           // front, pop, run
    | Leave                            // the swapped queue is empty

  function Push(s: State, t: Thread, job: nat): State {
    s.(queue := s.queue + [job], enqueued := s.enqueued + [job], mid := s.mid + {t})
  }

  /** The loop thread can act unless it is itself inside call_soon. */
  predicate LoopFree(s: State) { LOOP !in s.mid }

  predicate MayPush(s: State, t: Thread) { t !in s.mid && (t == LOOP ==> s.phase != Woken) }

  /** One atomic step; an event whose guard fails does nothing. */
  function Step(s: State, e: Event): State {
    match e
    case Call(t, job) =>
      if !MayPush(s, t) then s
      else if t == LOOP then s.(inline_ := s.inline_ + [Ran(job, LOOP)])
      else Push(s, t, job)
    case Soon(t, job) => if MayPush(s, t) then Push(s, t, job) else s
    case Activate(t) => if t in s.mid then s.(active := true, mid := s.mid - {t}) else s
    case Wake => if s.active && s.phase == Idle && LoopFree(s) then s.(active := false, phase := Woken) else s
    case Swap => if s.phase == Woken then s.(queue := [], swapped := s.queue, phase := Draining) else s
    case RunJob =>
      if s.phase == Draining && LoopFree(s) && s.swapped != [] then
        s.(ran := s.ran + [Ran(s.swapped[0], LOOP)], swapped := s.swapped[1..])
      else s
    case Leave => if s.phase == Draining && LoopFree(s) && s.swapped == [] then s.(phase := Idle) else s
  }

  function Run(s: State, es: seq<Event>): State {
    if es == [] then s else Step(Run(s, es[..|es| - 1]), es[|es| - 1])
  }

  const START := State([], [], false, {}, Idle, [], [], [])

  function Jobs(rs: seq<Ran>): (r: seq<nat>)
    ensures |r| == |rs| && forall i :: 0 <= i < |rs| ==> r[i] == rs[i].job
  {
    seq(|rs|, i requires 0 <= i < |rs| => rs[i].job)
  }

  /** FIFO accounting, and no lost wake-up. */
  predicate Inv(s: State) {
    && s.enqueued == Jobs(s.ran) + s.swapped + s.queue
    && (s.queue != [] ==> s.active || s.mid != {} || s.phase == Woken)
    && (s.swapped != [] ==> s.phase == Draining)
    && (s.phase == Woken ==> LoopFree(s))
    && (forall i :: 0 <= i < |s.ran| ==> s.ran[i].thread == LOOP)
    && (forall i :: 0 <= i < |s.inline_| ==> s.inline_[i].thread == LOOP)
  }

  lemma {:induction false} PushKeepsInv(s: State, t: Thread, job: nat)
    requires Inv(s) && MayPush(s, t)
    ensures Inv(Push(s, t, job))
  {
    assert s.enqueued + [job] == Jobs(s.ran) + s.swapped + (s.queue + [job]);
    assert t in Push(s, t, job).mid;
  }

  lemma {:induction false} RunJobKeepsInv(s: State)
    requires Inv(s) && s.phase == Draining && LoopFree(s) && s.swapped != []
    ensures Inv(s.(ran := s.ran + [Ran(s.swapped[0], LOOP)], swapped := s.swapped[1..]))
  {
    var job := s.swapped[0];
    assert Jobs(s.ran + [Ran(job, LOOP)]) == Jobs(s.ran) + [job];
    assert s.swapped == [job] + s.swapped[1..];
    assert Jobs(s.ran) + s.swapped + s.queue == (Jobs(s.ran) + [job]) + s.swapped[1..] + s.queue;
  }

  lemma {:induction false} SwapKeepsInv(s: State)
    requires Inv(s) && s.phase == Woken
    ensures Inv(s.(queue := [], swapped := s.queue, phase := Draining))
  {
    assert Jobs(s.ran) + s.swapped + s.queue == Jobs(s.ran) + s.queue + [];
  }

  lemma {:induction false} StepKeepsInv(s: State, e: Event)
    requires Inv(s)
    ensures Inv(Step(s, e))
  {
    hide Jobs;
    match e
    case Call(t, job) =>
      if MayPush(s, t) {
        PushKeepsInv(s, t, job);
      }
    case Soon(t, job) =>
      if MayPush(s, t) {
        PushKeepsInv(s, t, job);
      }
    case Swap =>
      if s.phase == Woken {
        SwapKeepsInv(s);
      }
    case RunJob =>
      if s.phase == Draining && LoopFree(s) && s.swapped != [] {
        RunJobKeepsInv(s);
      }
    case _ =>
  }

  /** A call that may go ahead is never lost: it runs at once on the loop thread, and joins the queue from any other. */
  lemma {:induction false} CallsAreKept(s: State, t: Thread, job: nat)
    requires MayPush(s, t)
    ensures var c, n := Step(s, Call(t, job)), Step(s, Soon(t, job));
      && (t == LOOP ==> c.inline_ == s.inline_ + [Ran(job, LOOP)] && c.enqueued == s.enqueued && c.queue == s.queue)
      && (t != LOOP ==> c.enqueued == s.enqueued + [job] && c.queue == s.queue + [job] && t in c.mid && c.inline_ == s.inline_)
      && n.enqueued == s.enqueued + [job] && n.queue == s.queue + [job] && t in n.mid && n.inline_ == s.inline_
  {
  }

  /** Over every interleaving: jobs run on the loop thread, in enqueue order, each at most once, and none is forgotten. */
  lemma {:induction false} RunKeepsInv(es: seq<Event>)
    ensures Inv(Run(START, es))
  {
    if es == [] {
      assert Jobs([]) == [];
    } else {
      RunKeepsInv(es[..|es| - 1]);
      StepKeepsInv(Run(START, es[..|es| - 1]), es[|es| - 1]);
    }
  }

  /** The queued jobs that ran are, in order, the first of those enqueued. */
  lemma {:induction false} RunInOrder(es: seq<Event>, i: nat)
    requires i < |Run(START, es).ran|
    ensures var s := Run(START, es);
      i < |s.enqueued| && s.ran[i] == Ran(s.enqueued[i], LOOP)
  {
    hide Run;
    RunKeepsInv(es);
    var s := Run(START, es);
    assert s.enqueued[i] == Jobs(s.ran)[i];
  }

  predicate Quiet(s: State) { !s.active && s.mid == {} && s.phase == Idle }

  /** When nothing is under way any more, every enqueued job has run, exactly once, in order. */
  lemma {:induction false} QuietMeansDone(es: seq<Event>)
    requires Quiet(Run(START, es))
    ensures Jobs(Run(START, es).ran) == Run(START, es).enqueued
  {
    hide Run;
    RunKeepsInv(es);
    var s := Run(START, es);
    assert s.swapped == [] && s.queue == [];
  }

  // ---- the loop always gets there -----------------------------------------------------------

  function Measure(s: State): nat {
    3 * |s.queue| + 2 * |s.swapped| + (if s.active then 4 else 0) +
    (match s.phase case Idle => 0 case Woken => 3 case Draining => 1)
  }

  /** What the loop thread does next when no producer interferes. */
  function Next(s: State): Event {
    match s.phase
    case Idle => Wake
    case Woken => Swap
    case Draining => if s.swapped != [] then RunJob else Leave
  }

  /** Once the producers are through call_soon, the loop alone reaches a quiet state in which everything has run. */
  lemma {:induction false} LoopDrains(s: State) returns (es: seq<Event>)
    requires Inv(s) && s.mid == {}
    ensures Quiet(Run(s, es)) && Jobs(Run(s, es).ran) == s.enqueued == Run(s, es).enqueued
    ensures forall i :: 0 <= i < |es| ==> !es[i].Call? && !es[i].Soon? && !es[i].Activate?
    decreases Measure(s)
  {
    if Quiet(s) {
      assert s.queue == [] && s.swapped == [];
      return [];
    }
    var e := Next(s);
    StepKeepsInv(s, e);
    var rest := LoopDrains(Step(s, e));
    es := [e] + rest;
    RunCons(s, e, rest);
  }

  lemma {:induction false} RunCons(s: State, e: Event, es: seq<Event>)
    ensures Run(s, [e] + es) == Run(Step(s, e), es)
  {
    var all := [e] + es;
    if es == [] {
      assert all[..|all| - 1] == [] && Run(s, []) == s;
    } else {
      assert all[..|all| - 1] == [e] + es[..|es| - 1];
      RunCons(s, e, es[..|es| - 1]);
    }
  }

  lemma {:induction false} RunAppend(s: State, a: seq<Event>, b: seq<Event>)
    ensures Run(s, a + b) == Run(Run(s, a), b)
  {
    if b == [] {
      assert a + b == a;
    } else {
      var all := a + b;
      assert all[..|all| - 1] == a + b[..|b| - 1];
      RunAppend(s, a, b[..|b| - 1]);
    }
  }

  lemma {:induction false} RunOne(s: State, e: Event)
    ensures Run(s, [e]) == Step(s, e)
  {
    assert [e][..0] == [] && Run(s, []) == s;
  }

  // ---- the code -----------------------------------------------------------------------------

  /** A job as the loop sees it: running it queues `spawns` through call_soon. */
  datatype Job = Job(name: nat, spawns: seq<Job>)

  function Names(js: seq<Job>): (r: seq<nat>)
    ensures |r| == |js| && forall i :: 0 <= i < |js| ==> r[i] == js[i].name
  {
    seq(|js|, i requires 0 <= i < |js| => js[i].name)
  }

  function Spawned(js: seq<Job>): seq<Job> {
    if js == [] then [] else Spawned(js[..|js| - 1]) + js[|js| - 1].spawns
  }

  lemma {:induction false} OneMore(js: seq<Job>, k: nat)
    requires k < |js|
    ensures Names(js[..k + 1]) == Names(js[..k]) + [js[k].name] && Spawned(js[..k + 1]) == Spawned(js[..k]) + js[k].spawns
    ensures Names(js[k..]) == [js[k].name] + Names(js[k + 1..])
  {
    assert js[..k + 1][..k] == js[..k];
  }

  /**
   * The network object, one call at a time. Every method is a run of the machine, so what holds over all its
   * interleavings holds of the object.
   */
  class Network {
    var jobQueue: seq<Job>
    var wakerActive: bool
    ghost var state: State

    ghost predicate Valid()
      reads this
    {
      Inv(state) && state.queue == Names(jobQueue) && state.active == wakerActive && state.mid == {} && state.phase != Woken
    }

    constructor ()
      ensures Valid() && jobQueue == [] && !wakerActive && state == START
    {
      jobQueue, wakerActive, state := [], false, START;
      new;
      assert Jobs([]) == [];
    }

    /** call_soon: the locked push, then the activation. */
    method CallSoon(thread: Thread, job: Job) returns (ghost es: seq<Event>)
      requires Valid()
      modifies this
      ensures Valid() && jobQueue == old(jobQueue) + [job] && wakerActive
      ensures state == Run(old(state), es) && es == [Soon(thread, job.name), Activate(thread)]
      ensures state.phase == old(state).phase && state.swapped == old(state).swapped && state.ran == old(state).ran && state.inline_ == old(state).inline_
    {
      hide Inv;
      es := [Soon(thread, job.name), Activate(thread)];
      RunCons(state, es[0], es[1..]);
      RunOne(Step(state, es[0]), es[1]);
      StepKeepsInv(state, es[0]);
      StepKeepsInv(Step(state, es[0]), es[1]);
      jobQueue := jobQueue + [job];
      state := Step(state, es[0]);
      wakerActive := true;
      state := Step(state, es[1]);
    }

    /** What a job does once it runs: it may queue more jobs. */
    method Body(job: Job) returns (ghost es: seq<Event>)
      requires Valid()
      modifies this
      ensures Valid() && jobQueue == old(jobQueue) + job.spawns && wakerActive == (old(wakerActive) || job.spawns != [])
      ensures state == Run(old(state), es)
      ensures state.phase == old(state).phase && state.swapped == old(state).swapped && state.ran == old(state).ran && state.inline_ == old(state).inline_
    {
      hide Inv, Run;
      es := [];
      RunNone(state);
      for i := 0 to |job.spawns|
        invariant Valid() && jobQueue == old(jobQueue) + job.spawns[..i] && wakerActive == (old(wakerActive) || i > 0)
        invariant state == Run(old(state), es)
        invariant state.phase == old(state).phase && state.swapped == old(state).swapped && state.ran == old(state).ran && state.inline_ == old(state).inline_
      {
        ghost var more := CallSoon(LOOP, job.spawns[i]);
        RunAppend(old(state), es, more);
        es := es + more;
      }
    }

    /** call: at once on the loop thread, through the queue from anywhere else. */
    method Call(thread: Thread, job: Job) returns (ghost es: seq<Event>)
      requires Valid()
      modifies this
      ensures Valid() && state == Run(old(state), es) && state.ran == old(state).ran
      ensures thread == LOOP ==> state.inline_ == old(state).inline_ + [Ran(job.name, LOOP)] && jobQueue == old(jobQueue) + job.spawns
      ensures thread != LOOP ==> state.inline_ == old(state).inline_ && jobQueue == old(jobQueue) + [job] && wakerActive
    {
      hide Inv, Run;
      if thread == LOOP {
        RunOne(state, Event.Call(LOOP, job.name));
        StepKeepsInv(state, Event.Call(LOOP, job.name));
        state := Step(state, Event.Call(LOOP, job.name));
        es := Body(job);
        RunAppend(old(state), [Event.Call(LOOP, job.name)], es);
        es := [Event.Call(LOOP, job.name)] + es;
      } else {
        es := CallSoon(thread, job);
      }
    }

    /**
     * process_job_queue, entered by the waker: exactly the jobs queued at the swap run, in order, on the loop thread;
     * what they queue waits for the next wake-up, and there is one exactly when something waits.
     */
    method ProcessJobQueue() returns (ghost es: seq<Event>)
      requires Valid() && wakerActive && state.phase == Idle
      modifies this
      ensures Valid() && state.phase == Idle && state == Run(old(state), es)
      ensures Jobs(state.ran) == Jobs(old(state).ran) + Names(old(jobQueue)) && jobQueue == Spawned(old(jobQueue))
      ensures jobQueue != [] ==> wakerActive
    {
      hide Inv, Run, Names, Spawned, Jobs;
      ghost var jobs := jobQueue;
      var swapped;
      swapped, es := Enter();
      ghost var k := 0;
      Started(jobs, Jobs(state.ran));
      while swapped != []
        invariant Valid() && state.phase == Draining && state == Run(old(state), es)
        invariant k <= |jobs| && swapped == jobs[k..] && state.swapped == Names(swapped)
        invariant Jobs(state.ran) == Jobs(old(state).ran) + Names(jobs[..k]) && jobQueue == Spawned(jobs[..k])
        decreases |swapped|
      {
        OneMore(jobs, k);
        ghost var more := RunFront(swapped[0], Names(swapped[1..]));
        RunAppend(old(state), es, more);
        es := es + more;
        swapped := swapped[1..];
        k := k + 1;
      }
      assert jobs[..k] == jobs;
      assert state.swapped == [] by { NoNames(swapped); }
      RunOne(state, Leave);
      StepKeepsInv(state, Leave);
      RunAppend(old(state), es, [Leave]);
      state, es := Step(state, Leave), es + [Leave];
      Pending(jobQueue);
    }

    /** The activation is cleared, and the queue swapped out under the lock. */
    method Enter() returns (swapped: seq<Job>, ghost es: seq<Event>)
      requires Valid() && wakerActive && state.phase == Idle
      modifies this
      ensures Valid() && state.phase == Draining && state == Run(old(state), es) && state.ran == old(state).ran
      ensures swapped == old(jobQueue) && jobQueue == [] && state.swapped == Names(swapped)
    {
      hide Inv;
      es := [Wake, Swap];
      RunCons(state, Wake, [Swap]);
      assert es == [Wake] + [Swap];
      RunOne(Step(state, Wake), Swap);
      StepKeepsInv(state, Wake);
      StepKeepsInv(Step(state, Wake), Swap);
      wakerActive, state := false, Step(state, Wake);
      swapped, jobQueue := jobQueue, [];
      state := Step(state, Swap);
    }

    /** Pops the front job and runs it. */
    method RunFront(job: Job, ghost rest: seq<nat>) returns (ghost es: seq<Event>)
      requires Valid() && state.phase == Draining && state.swapped == [job.name] + rest
      modifies this
      ensures Valid() && state.phase == Draining && state == Run(old(state), es) && state.swapped == rest
      ensures Jobs(state.ran) == Jobs(old(state).ran) + [job.name] && jobQueue == old(jobQueue) + job.spawns
    {
      hide Inv, Run;
      RunOne(state, RunJob);
      StepKeepsInv(state, RunJob);
      state := Step(state, RunJob);
      es := Body(job);
      RunAppend(old(state), [RunJob], es);
      es := [RunJob] + es;
    }

    /** No lost wake-up, seen from the object: between calls, a queued job has the waker active. */
    lemma {:induction false} Pending(queue: seq<Job>)
      requires Valid() && state.phase == Idle && queue == jobQueue
      ensures queue != [] ==> wakerActive
    {
      hide Jobs;
      if queue != [] {
        assert state.queue != [];
      }
    }
  }

  lemma {:induction false} RunNone(s: State)
    ensures Run(s, []) == s
  {
  }

  lemma {:induction false} Started(jobs: seq<Job>, before: seq<nat>)
    ensures jobs[0..] == jobs && Names(jobs[..0]) == [] && Spawned(jobs[..0]) == [] && before + [] == before
  {
  }

  lemma {:induction false} NoNames(js: seq<Job>)
    requires js == []
    ensures Names(js) == []
  {
  }
}
