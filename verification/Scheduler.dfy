/**
 * The multi-disk scheduler (lib/md-scheduler.c:176-275, 349-388): worker
 * tokens circulate through a thread pool and work off the task queues of a
 * device, as long as clients hold references to it.  Devices do not interact,
 * so one device is modelled; every critical section is one step.
 */
module Scheduler {
  import opened Common

  type Task = nat

  /** Where a worker token is in `rm_mds_factory`. */
  datatype Token =
    | InPool                                           // waiting in the thread pool
    | Popping(processed: nat)                          // in the loop, no task in hand
    | Running(task: Task, claims: bool, processed: nat) // in the client's function
    | Checking                                         // loop left
    | Leaving                                          // saw a reference count of 0
    | Freeing                                          // took `threads` to 0
    | Gone

  /**
   * `loose` are the references that belong neither to a queued task nor to the
   * client of a running one; `pushed` and `done` record all tasks pushed and
   * all tasks handed to the client's function.
   */
  datatype Device = Device(
    sorted: seq<Task>, unsorted: seq<Task>,
    refCount: int, threads: int,
    started: bool, tokens: seq<Token>,
    loose: nat, pushed: seq<Task>, done: seq<Task>, freed: nat)

  const NEW_DEVICE := Device([], [], 0, 0, false, [], 0, [], [], 0)

  datatype Step =
    | AddRef                        // rm_mds_device_ref(device, 1)
    | Unref                         // rm_mds_device_ref(device, -1), by a loose holder
    | Push(task: Task)              // rm_mds_push_task, by a loose holder
    | UnrefOwn(i: nat)              // the running task's client gives its reference up
    | PushOwn(i: nat, task: Task)   // the running task's client pushes its next task
    | Detach(i: nat)                // the running task's client goes on elsewhere
    | Start(threads: nat)           // rm_mds_device_start
    | BeginPass(i: nat, order: seq<Task>) // sort the new tasks and put them first
    | Pop(i: nat)                   // loop test and pop
    | Return(i: nat, success: bool) // the client's function returns
    | Check(i: nat)                 // rm_mds_device_ref(device, 0)
    | Leave(i: nat)                 // g_atomic_int_dec_and_test
    | Free(i: nat)                  // remove the device from the table and free it

  /** The client's contract: one reference per outstanding task, and none is taken at 0 once workers run. */
  predicate Enabled(d: Device, quota: nat, step: Step) {
    match step
    case AddRef => d.refCount > 0 || !d.started
    case Unref => d.loose > 0
    case Push(t) => d.loose > 0 && t !in d.pushed
    case UnrefOwn(i) => i < |d.tokens| && d.tokens[i].Running? && d.tokens[i].claims
    case PushOwn(i, t) => i < |d.tokens| && d.tokens[i].Running? && d.tokens[i].claims && t !in d.pushed
    case Detach(i) => i < |d.tokens| && d.tokens[i].Running? && d.tokens[i].claims
    case Start(n) => !d.started && n > 0
    case BeginPass(i, order) => i < |d.tokens| && d.tokens[i] == InPool && multiset(order) == multiset(d.unsorted)
    case Pop(i) => i < |d.tokens| && d.tokens[i].Popping?
    case Return(i, success) => i < |d.tokens| && d.tokens[i].Running?
    case Check(i) => i < |d.tokens| && d.tokens[i] == Checking
    case Leave(i) => i < |d.tokens| && d.tokens[i] == Leaving
    case Free(i) => i < |d.tokens| && d.tokens[i] == Freeing
  }

  function SetToken(d: Device, i: nat, token: Token): Device
    requires i < |d.tokens|
  {
    d.(tokens := d.tokens[i := token])
  }

  /** `rm_mds_push_task_impl` */
  function PushTask(d: Device, t: Task): Device {
    d.(unsorted := [t] + d.unsorted, pushed := d.pushed + [t])
  }

  function Apply(d: Device, quota: nat, step: Step): Device
    requires Enabled(d, quota, step)
  {
    match step
    case AddRef => d.(refCount := d.refCount + 1, loose := d.loose + 1)
    case Unref => d.(refCount := d.refCount - 1, loose := d.loose - 1)
    case Push(t) => PushTask(d, t).(loose := d.loose - 1)
    case UnrefOwn(i) => SetToken(d, i, d.tokens[i].(claims := false)).(refCount := d.refCount - 1)
    case PushOwn(i, t) => SetToken(PushTask(d, t), i, d.tokens[i].(claims := false))
    case Detach(i) => SetToken(d, i, d.tokens[i].(claims := false)).(loose := d.loose + 1)
    case Start(n) => d.(started := true, threads := n, tokens := seq(n, _ => InPool))
    case BeginPass(i, order) => SetToken(d, i, Popping(0)).(sorted := order + d.sorted, unsorted := [])
    case Pop(i) =>
      if d.tokens[i].processed < quota && d.sorted != [] then
        SetToken(d, i, Running(d.sorted[0], true, d.tokens[i].processed))
          .(sorted := d.sorted[1..], done := d.done + [d.sorted[0]])
      else SetToken(d, i, Checking)
    case Return(i, success) =>
      var t := d.tokens[i];
      SetToken(d, i, Popping(t.processed + if success then 1 else 0))
        .(loose := d.loose + if t.claims then 1 else 0)
    case Check(i) => SetToken(d, i, if d.refCount > 0 then InPool else Leaving)
    case Leave(i) => SetToken(d, i, if d.threads == 1 then Freeing else Gone).(threads := d.threads - 1)
    case Free(i) => SetToken(d, i, Gone).(freed := d.freed + 1)
  }

  // ----- counting tokens -----

  function Sum(tokens: seq<Token>, weight: Token -> nat): nat {
    if tokens == [] then 0 else Sum(tokens[..|tokens| - 1], weight) + weight(tokens[|tokens| - 1])
  }

  lemma {:induction false} SumSet(tokens: seq<Token>, weight: Token -> nat, i: nat, t: Token)
    requires i < |tokens|
    ensures Sum(tokens[i := t], weight) == Sum(tokens, weight) - weight(tokens[i]) + weight(t)
  {
    var n := |tokens| - 1;
    if i == n {
      assert tokens[i := t][..n] == tokens[..n];
    } else {
      assert tokens[i := t][..n] == tokens[..n][i := t];
      SumSet(tokens[..n], weight, i, t);
    }
  }

  lemma {:induction false} SumAtLeast(tokens: seq<Token>, weight: Token -> nat, i: nat)
    requires i < |tokens|
    ensures Sum(tokens, weight) >= weight(tokens[i])
  {
    if i < |tokens| - 1 { SumAtLeast(tokens[..|tokens| - 1], weight, i); }
  }

  lemma {:induction false} SumPool(n: nat)
    ensures Sum(seq(n, _ => InPool), CLAIMS) == 0
    ensures Sum(seq(n, _ => InPool), ALIVE) == n
  {
    if n > 0 {
      var tokens := seq(n, _ => InPool);
      assert tokens[..n - 1] == seq(n - 1, _ => InPool);
      SumPool(n - 1);
    }
  }

  lemma {:induction false} SumPositive(tokens: seq<Token>, weight: Token -> nat) returns (i: nat)
    requires Sum(tokens, weight) > 0
    ensures i < |tokens| && weight(tokens[i]) > 0
  {
    var n := |tokens| - 1;
    if weight(tokens[n]) > 0 { i := n; } else { i := SumPositive(tokens[..n], weight); }
  }

  const CLAIMS: Token -> nat := (t: Token) => if t.Running? && t.claims then 1 else 0
  const ALIVE: Token -> nat := (t: Token) => if t in {Gone, Freeing} then 0 else 1
  const FREEING: Token -> nat := (t: Token) => if t == Freeing then 1 else 0

  // ----- the invariant -----

  ghost predicate Inv(d: Device) {
    // references: queued tasks, claims of running tasks, loose ones
    && d.refCount == |d.sorted| + |d.unsorted| + Sum(d.tokens, CLAIMS) + d.loose
    // worker tokens in the pool or at work
    && d.threads == Sum(d.tokens, ALIVE)
    && (!d.started ==> d.tokens == [] && d.sorted == [])
    && (forall i :: 0 <= i < |d.tokens| && d.tokens[i] in {Leaving, Freeing, Gone} ==> d.refCount == 0)
    // every task pushed is queued or was run, once
    && NoDup(d.pushed)
    && multiset(d.pushed) == multiset(d.unsorted) + (multiset(d.sorted) + multiset(d.done))
    && (d.started && d.threads == 0 ==> d.refCount == 0)
    && d.freed + Sum(d.tokens, FREEING) == if d.started && d.threads == 0 then 1 else 0
  }

  lemma InitialInv()
    ensures Inv(NEW_DEVICE)
  {}

  lemma {:induction false} SumFreeing(n: nat)
    ensures Sum(seq(n, _ => InPool), FREEING) == 0
  {
    if n > 0 {
      var tokens := seq(n, _ => InPool);
      assert tokens[..n - 1] == seq(n - 1, _ => InPool);
      SumFreeing(n - 1);
    }
  }

  lemma StepInv(d: Device, quota: nat, step: Step)
    requires Inv(d) && Enabled(d, quota, step)
    ensures Inv(Apply(d, quota, step))
  {
    var e := Apply(d, quota, step);
    match step {
      case AddRef =>
      case Unref =>
      case Push(t) => PushKeeps(d, t);
      case Start(n) =>
        SumPool(n);
        SumFreeing(n);
      case UnrefOwn(_) => ClientStep(d, quota, step);
      case PushOwn(_, _) => ClientStep(d, quota, step);
      case Detach(_) => ClientStep(d, quota, step);
      case Return(_, _) => ClientStep(d, quota, step);
      case BeginPass(i, order) => MergeStep(d, quota, i, order);
      case Pop(i) => PopStep(d, quota, i);
      case _ => LeaveStep(d, quota, step);
    }
  }

  lemma PushKeeps(d: Device, t: Task)
    requires Inv(d) && t !in d.pushed
    ensures var e := PushTask(d, t);
      NoDup(e.pushed) && multiset(e.pushed) == multiset(e.unsorted) + (multiset(e.sorted) + multiset(e.done))
  {}

  /** The effect of a step of token `i` on the sums. */
  lemma TokenSums(d: Device, i: nat, t: Token)
    requires i < |d.tokens|
    ensures var tokens := d.tokens[i := t];
      && Sum(tokens, CLAIMS) == Sum(d.tokens, CLAIMS) - CLAIMS(d.tokens[i]) + CLAIMS(t)
      && Sum(tokens, ALIVE) == Sum(d.tokens, ALIVE) - ALIVE(d.tokens[i]) + ALIVE(t)
      && Sum(tokens, FREEING) == Sum(d.tokens, FREEING) - FREEING(d.tokens[i]) + FREEING(t)
    ensures Sum(d.tokens, ALIVE) >= ALIVE(d.tokens[i]) && Sum(d.tokens, FREEING) >= FREEING(d.tokens[i])
  {
    SumSet(d.tokens, CLAIMS, i, t);
    SumSet(d.tokens, ALIVE, i, t);
    SumSet(d.tokens, FREEING, i, t);
    SumAtLeast(d.tokens, ALIVE, i);
    SumAtLeast(d.tokens, FREEING, i);
  }

  lemma ClientStep(d: Device, quota: nat, step: Step)
    requires Inv(d) && Enabled(d, quota, step)
    requires step.UnrefOwn? || step.PushOwn? || step.Detach? || step.Return?
    ensures Inv(Apply(d, quota, step))
  {
    TokenSums(d, step.i, Apply(d, quota, step).tokens[step.i]);
    if step.PushOwn? { PushKeeps(d, step.task); }
  }

  lemma MergeStep(d: Device, quota: nat, i: nat, order: seq<Task>)
    requires Inv(d) && Enabled(d, quota, BeginPass(i, order))
    ensures Inv(Apply(d, quota, BeginPass(i, order)))
  {
    TokenSums(d, i, Popping(0));
    assert |order| == |multiset(order)| == |multiset(d.unsorted)| == |d.unsorted|;
  }

  lemma PopStep(d: Device, quota: nat, i: nat)
    requires Inv(d) && Enabled(d, quota, Pop(i))
    ensures Inv(Apply(d, quota, Pop(i)))
  {
    TokenSums(d, i, Apply(d, quota, Pop(i)).tokens[i]);
    if d.sorted != [] { MoveFirst(d.sorted, d.done); }
  }

  lemma MoveFirst(queue: seq<Task>, done: seq<Task>)
    requires queue != []
    ensures multiset(queue[1..]) + multiset(done + [queue[0]]) == multiset(queue) + multiset(done)
  {
    assert queue == [queue[0]] + queue[1..];
  }

  lemma LeaveStep(d: Device, quota: nat, step: Step)
    requires Inv(d) && Enabled(d, quota, step)
    requires step.Check? || step.Leave? || step.Free?
    ensures Inv(Apply(d, quota, step))
  {
    TokenSums(d, step.i, Apply(d, quota, step).tokens[step.i]);
  }

  // ----- runs -----

  /** A run of the device under the client's contract, with any interleaving. */
  ghost predicate IsRun(run: seq<Device>, quota: nat, steps: seq<Step>) {
    && |run| == |steps| + 1
    && run[0] == NEW_DEVICE
    && forall i :: 0 <= i < |steps| ==> Enabled(run[i], quota, steps[i]) && run[i + 1] == Apply(run[i], quota, steps[i])
  }

  lemma {:induction false} RunInv(run: seq<Device>, quota: nat, steps: seq<Step>, i: nat)
    requires IsRun(run, quota, steps) && i < |run|
    ensures Inv(run[i])
  {
    if i > 0 {
      RunInv(run, quota, steps, i - 1);
      StepInv(run[i - 1], quota, steps[i - 1]);
    }
  }

  lemma SubMultisetNoDup(a: seq<Task>, b: seq<Task>)
    requires NoDup(b) && multiset(a) <= multiset(b)
    ensures NoDup(a)
  {
    forall i, j | 0 <= i < j < |a| ensures a[i] != a[j] {
      if a[i] == a[j] {
        assert a == a[..i] + [a[i]] + a[i + 1..j] + [a[j]] + a[j + 1..];
        assert multiset(a)[a[i]] >= 2;
        NoDupMultiplicity(b, a[i]);
      }
    }
  }

  lemma {:induction false} NoDupMultiplicity(s: seq<Task>, t: Task)
    requires NoDup(s)
    ensures multiset(s)[t] <= 1
  {
    if s != [] {
      assert s == [s[0]] + s[1..];
      NoDupMultiplicity(s[1..], t);
    }
  }

  /** No task is run twice, and none is run that was not pushed. */
  lemma RunAtMostOnce(run: seq<Device>, quota: nat, steps: seq<Step>, i: nat)
    requires IsRun(run, quota, steps) && i < |run|
    ensures NoDup(run[i].done) && multiset(run[i].done) <= multiset(run[i].pushed)
  {
    RunInv(run, quota, steps, i);
    SubMultisetNoDup(run[i].done, run[i].pushed);
  }

  /**
   * A device is freed at most once; then nobody holds a reference, the queues
   * are empty, every task pushed was run exactly once, no worker token is left
   * and nothing can happen to the device any more.
   */
  lemma FreedAtEnd(run: seq<Device>, quota: nat, steps: seq<Step>, i: nat, next: Step)
    requires IsRun(run, quota, steps) && i < |run|
    ensures run[i].freed <= 1
    ensures run[i].freed == 1 ==>
      && run[i].refCount == 0 && run[i].threads == 0 && run[i].sorted == [] && run[i].unsorted == []
      && multiset(run[i].done) == multiset(run[i].pushed)
      && (forall k :: 0 <= k < |run[i].tokens| ==> run[i].tokens[k] == Gone)
      && !Enabled(run[i], quota, next)
  {
    RunInv(run, quota, steps, i);
    var d := run[i];
    if d.freed == 1 {
      forall k | 0 <= k < |d.tokens| ensures d.tokens[k] == Gone {
        SumAtLeast(d.tokens, ALIVE, k);
        SumAtLeast(d.tokens, FREEING, k);
      }
    }
  }

  /**
   * `threads` is the number of tokens in the pool or at work; while it is positive, or the device
   * not freed, a worker can go on.
   */
  lemma WorkersGoOn(run: seq<Device>, quota: nat, steps: seq<Step>, i: nat) returns (next: Step)
    requires IsRun(run, quota, steps) && i < |run|
    ensures run[i].threads == Sum(run[i].tokens, ALIVE)
    ensures run[i].started && run[i].freed == 0 ==>
      && Enabled(run[i], quota, next)
      && (next.BeginPass? || next.Pop? || next.Return? || next.Check? || next.Leave? || next.Free?)
  {
    RunInv(run, quota, steps, i);
    var d := run[i];
    next := AddRef;
    if d.started && d.freed == 0 {
      if d.threads > 0 {
        var k := SumPositive(d.tokens, ALIVE);
        next := WorkerStep(d, k);
      } else {
        var k := SumPositive(d.tokens, FREEING);
        next := Free(k);
      }
    }
  }

  function WorkerStep(d: Device, k: nat): Step
    requires k < |d.tokens|
  {
    match d.tokens[k]
    case InPool => BeginPass(k, d.unsorted)
    case Popping(_) => Pop(k)
    case Running(_, _, _) => Return(k, true)
    case Checking => Check(k)
    case Leaving => Leave(k)
    case _ => Free(k)
  }

  // ----- the order of tasks, and the quota of a pass -----

  /** Until tasks are merged again, the sorted ones are handed out from the front. */
  lemma {:induction false} HandedOutInOrder(run: seq<Device>, quota: nat, steps: seq<Step>, i: nat, j: nat)
    returns (n: nat)
    requires IsRun(run, quota, steps) && i <= j < |run|
    requires forall k :: i <= k < j ==> !steps[k].BeginPass?
    ensures n <= |run[i].sorted|
    ensures run[j].done == run[i].done + run[i].sorted[..n] && run[j].sorted == run[i].sorted[n..]
    decreases j - i
  {
    if i == j {
      n := 0;
    } else {
      n := HandedOutInOrder(run, quota, steps, i, j - 1);
      var d := run[j - 1];
      assert Enabled(d, quota, steps[j - 1]) && run[j] == Apply(d, quota, steps[j - 1]);
      if run[j].sorted != d.sorted {
        assert d.sorted[0] == run[i].sorted[n] && d.sorted[1..] == run[i].sorted[n + 1..];
        assert run[i].sorted[..n + 1] == run[i].sorted[..n] + [run[i].sorted[n]];
        n := n + 1;
      }
    }
  }

  /** After a merge the new tasks come first, in the order that sorting gave them, and then those left from before. */
  lemma PassOrder(run: seq<Device>, quota: nat, steps: seq<Step>, i: nat, j: nat) returns (n: nat)
    requires IsRun(run, quota, steps) && i < j < |run| && steps[i].BeginPass?
    requires forall k :: i < k < j ==> !steps[k].BeginPass?
    ensures var queue := steps[i].order + run[i].sorted;
      && n <= |queue| && run[j].done == run[i].done + queue[..n] && run[j].sorted == queue[n..]
      && multiset(steps[i].order) == multiset(run[i].unsorted)
  {
    n := HandedOutInOrder(run, quota, steps, i + 1, j);
    assert Enabled(run[i], quota, steps[i]) && run[i + 1] == Apply(run[i], quota, steps[i]);
  }

  /** How many tasks of token `i` succeeded in its current pass. */
  ghost function Successes(steps: seq<Step>, i: nat): nat {
    if steps == [] then 0
    else
      var before, last := Successes(steps[..|steps| - 1], i), steps[|steps| - 1];
      if last.BeginPass? && last.i == i then 0
      else if last == Return(i, true) then before + 1
      else before
  }

  /** A token knows how many tasks succeeded in its pass, and they are no more than the quota. */
  lemma {:induction false} PassQuota(run: seq<Device>, quota: nat, steps: seq<Step>, n: nat, i: nat)
    requires IsRun(run, quota, steps) && n < |run| && i < |run[n].tokens|
    ensures run[n].tokens[i].Popping? || run[n].tokens[i].Running? ==>
      run[n].tokens[i].processed == Successes(steps[..n], i) <= quota
    ensures run[n].tokens[i].Running? ==> run[n].tokens[i].processed < quota
  {
    if n > 0 {
      var d, step := run[n - 1], steps[n - 1];
      assert Enabled(d, quota, step) && run[n] == Apply(d, quota, step);
      assert steps[..n][..n - 1] == steps[..n - 1];
      if i < |d.tokens| { PassQuota(run, quota, steps, n - 1, i); }
    }
  }

  /** A worker gets a task if and only if there is one and its quota is not used up. */
  lemma PopsWithinQuota(run: seq<Device>, quota: nat, steps: seq<Step>, n: nat)
    requires IsRun(run, quota, steps) && n < |steps| && steps[n].Pop?
    ensures run[n + 1].tokens[steps[n].i].Running? <==> Successes(steps[..n], steps[n].i) < quota && run[n].sorted != []
    ensures run[n + 1].tokens[steps[n].i].Running? ==> run[n + 1].done == run[n].done + [run[n].sorted[0]]
  {
    assert Enabled(run[n], quota, steps[n]) && run[n + 1] == Apply(run[n], quota, steps[n]);
    PassQuota(run, quota, steps, n, steps[n].i);
  }

  // ----- the end can be reached -----

  function Queued(d: Device): nat { |d.sorted| + |d.unsorted| }

  /** How far a token is from running a task, or from being gone once there are no references. */
  function Distance(referenced: bool, able: bool, quota: nat): Token -> nat {
    (t: Token) =>
      match t
      case Running(_, _, _) => 7
      case InPool => if referenced then 4 else 6
      case Popping(n) => if referenced then (if able && n < quota then 3 else 6) else 5
      case Checking => if referenced then 5 else 4
      case Leaving => 3
      case Freeing => 2
      case Gone => 0
  }

  function Distances(d: Device, quota: nat): nat {
    Sum(d.tokens, Distance(d.refCount > 0, d.sorted != [], quota))
  }

  lemma {:induction false} SumNoMore(tokens: seq<Token>, v: Token -> nat, w: Token -> nat)
    requires forall t :: v(t) <= w(t)
    ensures Sum(tokens, v) <= Sum(tokens, w)
  {
    if tokens != [] { SumNoMore(tokens[..|tokens| - 1], v, w); }
  }

  /** The end is closer: fewer references, or fewer tasks queued, or tokens further on. */
  ghost predicate Closer(e: Device, d: Device, quota: nat) {
    || e.refCount < d.refCount
    || (e.refCount == d.refCount &&
        (Queued(e) < Queued(d) || (Queued(e) == Queued(d) && Distances(e, quota) < Distances(d, quota))))
  }

  /** Clients give references up, and workers go on. */
  predicate Settles(step: Step) {
    step.Unref? || step.UnrefOwn? || step.BeginPass? || step.Pop? || step.Return? || step.Check? || step.Leave?
      || step.Free?
  }

  lemma PassGetsCloser(d: Device, quota: nat, k: nat)
    requires Inv(d) && d.started && quota > 0 && d.loose == 0 && Sum(d.tokens, CLAIMS) == 0
    requires k < |d.tokens| && d.tokens[k] == InPool
    ensures Enabled(d, quota, BeginPass(k, d.unsorted))
    ensures var e := Apply(d, quota, BeginPass(k, d.unsorted));
      e.refCount == d.refCount && Queued(e) == Queued(d) && Distances(e, quota) < Distances(d, quota)
  {
    var e := Apply(d, quota, BeginPass(k, d.unsorted));
    var v, w := Distance(d.refCount > 0, d.sorted != [], quota), Distance(e.refCount > 0, e.sorted != [], quota);
    SumSet(d.tokens, w, k, Popping(0));
    SumNoMore(d.tokens, w, v);
  }

  lemma PopGetsCloser(d: Device, quota: nat, k: nat)
    requires k < |d.tokens| && d.tokens[k].Popping?
    ensures var e := Apply(d, quota, Pop(k));
      e.refCount == d.refCount &&
      (Queued(e) < Queued(d) || (Queued(e) == Queued(d) && Distances(e, quota) < Distances(d, quota)))
  {
    var v := Distance(d.refCount > 0, d.sorted != [], quota);
    SumSet(d.tokens, v, k, Checking);
  }

  lemma WorkerGetsCloser(d: Device, quota: nat, k: nat)
    requires Inv(d) && d.started && quota > 0 && d.loose == 0 && Sum(d.tokens, CLAIMS) == 0
    requires k < |d.tokens| && d.tokens[k] != Gone
    ensures var step := WorkerStep(d, k);
      Enabled(d, quota, step) && Settles(step) && Closer(Apply(d, quota, step), d, quota)
  {
    if d.tokens[k] == InPool {
      PassGetsCloser(d, quota, k);
    } else if d.tokens[k].Popping? {
      PopGetsCloser(d, quota, k);
    } else {
      var step := WorkerStep(d, k);
      SumAtLeast(d.tokens, CLAIMS, k);
      SumSet(d.tokens, Distance(d.refCount > 0, d.sorted != [], quota), k, Apply(d, quota, step).tokens[k]);
    }
  }

  lemma NextSettles(d: Device, quota: nat) returns (step: Step)
    requires Inv(d) && d.started && quota > 0 && d.freed == 0
    ensures Enabled(d, quota, step) && Settles(step) && Closer(Apply(d, quota, step), d, quota)
  {
    if d.loose > 0 {
      step := Unref;
    } else if Sum(d.tokens, CLAIMS) > 0 {
      var k := SumPositive(d.tokens, CLAIMS);
      step := UnrefOwn(k);
    } else {
      var k;
      if d.threads > 0 { k := SumPositive(d.tokens, ALIVE); } else { k := SumPositive(d.tokens, FREEING); }
      WorkerGetsCloser(d, quota, k);
      step := WorkerStep(d, k);
    }
  }

  ghost predicate Leads(d: Device, quota: nat, steps: seq<Step>, e: Device)
    decreases |steps|
  {
    if steps == [] then e == d
    else Enabled(d, quota, steps[0]) && Settles(steps[0]) && Leads(Apply(d, quota, steps[0]), quota, steps[1..], e)
  }

  lemma {:induction false} ReferencesAreCounted(d: Device)
    requires Inv(d)
    ensures d.refCount >= 0
  {}

  /**
   * A device whose clients only give references up can always be brought to be freed;
   * by FreedAtEnd every task pushed to it has been run then.
   */
  lemma {:induction false} ReachesFreed(d: Device, quota: nat) returns (steps: seq<Step>, e: Device)
    requires Inv(d) && d.started && quota > 0
    ensures Leads(d, quota, steps, e) && Inv(e) && e.freed == 1 && e.pushed == d.pushed
    decreases d.refCount, Queued(d), Distances(d, quota)
  {
    ReferencesAreCounted(d);
    if d.freed == 1 {
      steps, e := [], d;
    } else {
      var step := NextSettles(d, quota);
      StepInv(d, quota, step);
      ReferencesAreCounted(Apply(d, quota, step));
      var more;
      more, e := ReachesFreed(Apply(d, quota, step), quota);
      steps := [step] + more;
      assert steps[1..] == more;
    }
  }

  // ----- the critical sections on the device object -----

  class RmMDSDevice {
    var sortedTasks: seq<Task>
    var unsortedTasks: seq<Task>
    var refCount: int
    var threads: int

    /** The device as the transition system sees it, given the parts it does not store. */
    ghost function View(rest: Device): Device
      reads this
    {
      rest.(sorted := sortedTasks, unsorted := unsortedTasks, refCount := refCount, threads := threads)
    }

    constructor ()
      ensures View(NEW_DEVICE) == NEW_DEVICE
    {
      sortedTasks, unsortedTasks, refCount, threads := [], [], 0, 0;
    }

    /** `rm_mds_push_task_impl` */
    method PushTaskImpl(task: Task)
      modifies this`unsortedTasks
      ensures forall rest: Device :: rest.loose > 0 && task !in rest.pushed ==>
        View(PushTask(rest, task).(loose := rest.loose - 1)) == Apply(old(View(rest)), 0, Push(task))
    {
      unsortedTasks := [task] + unsortedTasks;
    }

    /** The merge at the start of a pass; `order` is what sorting the new tasks yields. */
    method MergeTasks(order: seq<Task>)
      requires multiset(order) == multiset(unsortedTasks)
      modifies this`sortedTasks, this`unsortedTasks
      ensures forall rest: Device, i :: 0 <= i < |rest.tokens| && rest.tokens[i] == InPool ==>
        View(SetToken(rest, i, Popping(0))) == Apply(old(View(rest)), 0, BeginPass(i, order))
    {
      if unsortedTasks != [] {
        sortedTasks := order + sortedTasks;
        unsortedTasks := [];
      } else {
        assert |order| == |multiset(order)| == |multiset(unsortedTasks)| == 0;
      }
    }

    /** `rm_util_slist_pop` on the sorted tasks, for a token within its quota. */
    method PopTask() returns (task: Option<Task>)
      modifies this`sortedTasks
      ensures task.None? <==> old(sortedTasks) == []
      ensures forall rest: Device, quota, i ::
        0 <= i < |rest.tokens| && rest.tokens[i].Popping? && rest.tokens[i].processed < quota ==>
          Apply(old(View(rest)), quota, Pop(i)) ==
          match task
          case Some(t) => View(SetToken(rest, i, Running(t, true, rest.tokens[i].processed)).(done := rest.done + [t]))
          case None => View(SetToken(rest, i, Checking))
    {
      task := None;
      if sortedTasks != [] {
        task := Some(sortedTasks[0]);
        sortedTasks := sortedTasks[1..];
      }
    }

    /** `rm_mds_device_ref` */
    method DeviceRef(change: int) returns (result: int)
      modifies this`refCount
      ensures result == refCount == old(refCount) + change
      ensures forall rest: Device :: View(rest) == old(View(rest)).(refCount := result)
      ensures change == 0 ==> forall rest: Device, i :: 0 <= i < |rest.tokens| && rest.tokens[i] == Checking ==>
        View(SetToken(rest, i, if result > 0 then InPool else Leaving)) == Apply(old(View(rest)), 0, Check(i))
    {
      refCount := refCount + change;
      result := refCount;
    }

    /** `g_atomic_int_dec_and_test` on the thread count. */
    method DecThreads() returns (last: bool)
      modifies this`threads
      ensures forall rest: Device, i :: 0 <= i < |rest.tokens| && rest.tokens[i] == Leaving ==>
        View(SetToken(rest, i, if last then Freeing else Gone)) == Apply(old(View(rest)), 0, Leave(i))
    {
      threads := threads - 1;
      last := threads == 0;
    }
  }
}
