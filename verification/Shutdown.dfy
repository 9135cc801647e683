/** The shutdown of the pipeline as a step system: a driver, a chain of stages with a queue
    between neighbours, and the main thread, which stops and joins them one after the
    other. Queues are sequences, as the proofs about them allow; only the size that a
    stage reads is trusted no further than that it is right once the producer has left. */
module Shutdown {

  datatype Pc<T> =
    | NotBegun            // started, but before run sets mRunning
    | Starting            // a streaming driver about to look at the start time
    | Sleeping            // until the start time
    | AtLoop              // about to read mRunning
    | AtSize              // mRunning was false; about to read the size of the queue
    | AtDequeue           // about to take from the queue, or, the driver, from the device
    | Holding(x: T)       // about to enqueue or write
    | AtClock             // a streaming driver about to compare the time with the monitor time
    | Exited

  datatype Main = Up | Stopping(k: nat) | Joining(k: nat) | Returned

  /** The driver of the PSD mode reads its flag before every pass. In the IQ and DEC modes
      it makes one asynchronous read that stop has to cancel: perhaps not before a start
      time, perhaps for a limited time only, and with some transfers under way. */
  datatype Driver = Polling | Streaming(scheduled: bool, monitored: bool, transfers: nat)

  /** Whether the asynchronous read has been cancelled; `left` buffers may still come. */
  datatype Cancel = NotCancelled | Cancelled(left: nat)

  /** `enq[i]` is all that stage `i` has enqueued so far, or, the last one, written;
      `taken[i]` is how much of `enq[i - 1]` it has dequeued. Stage 0 is the driver. */
  datatype State<T> =
    State(pcs: seq<Pc<T>>, running: seq<bool>, taken: seq<nat>, enq: seq<seq<T>>, cancel: Cancel, main: Main)

  /** What happens. In `Stage` a thread goes on: a stage about to read the size of its queue
      sees `seen`, the driver gets `x` from the device, and a cancelled read hands over
      one more buffer if `seen` is not 0. The device or the socket `Fails`; the tuner does
      not follow the driver of the PSD mode (`Untuned`); the start time turns out to be
      past, or the monitor time over (`TimeIsUp`). */
  datatype Action<T> = Stage(i: nat, x: T, seen: nat) | Fails(i: nat) | Untuned | TimeIsUp | MainThread

  /** The driver, and what the stages do: whether their loop goes on until the queue is
      empty, whether their device or socket can fail, and what they make of an element. */
  datatype Pipeline<!T> = Pipeline(driver: Driver, drains: seq<bool>, fails: seq<bool>, work: (nat, T) -> T)

  ghost predicate Fits<T>(p: Pipeline<T>, s: State<T>) {
    |p.drains| == |p.fails| == |s.pcs| == |s.running| == |s.taken| == |s.enq| >= 1
  }

  function Init<T>(n: nat): State<T> {
    State(seq(n, _ => NotBegun), seq(n, _ => false), seq(n, _ => 0), seq(n, _ => []), NotCancelled, Up)
  }

  function Left<T>(s: State<T>, i: nat): int
    requires 0 < i < |s.taken| == |s.enq|
  {
    |s.enq[i - 1]| - s.taken[i]
  }

  /** The asynchronous read is under way. */
  predicate Reading<T>(pc: Pc<T>) {
    pc.AtDequeue? || pc.Holding? || pc.AtClock?
  }

  /** The size is right once the producer has left its loop. A read fails within it, a write
      with the element in hand. */
  ghost predicate Allowed<T>(p: Pipeline<T>, s: State<T>, a: Action<T>)
    requires Fits(p, s)
  {
    match a
    case Stage(i, _, seen) =>
      i < |s.pcs| && (s.pcs[i].AtSize? && i > 0 && s.pcs[i - 1].Exited? ==> seen == Left(s, i))
    case Fails(i) => i < |s.pcs| && p.fails[i] && if i == 0 then s.pcs[i].AtDequeue? else s.pcs[i].Holding?
    case Untuned => p.driver.Polling? && s.pcs[0].AtDequeue?
    case TimeIsUp =>
      && p.driver.Streaming?
      && ((s.pcs[0].Starting? && p.driver.scheduled) || (s.pcs[0].AtClock? && p.driver.monitored))
    case MainThread => true
  }

  /** The thread ends, with its flag cleared. */
  function Ends<T>(s: State<T>, i: nat): State<T>
    requires i < |s.pcs| == |s.running|
  {
    s.(pcs := s.pcs[i := Exited], running := s.running[i := false])
  }

  function StageStep<T>(p: Pipeline<T>, s: State<T>, i: nat, x: T, seen: nat): State<T>
    requires |p.drains| == |s.pcs| == |s.running| == |s.taken| == |s.enq| && i < |s.pcs|
  {
    if i == 0 && p.driver.Streaming? then StreamStep(p, s, x, seen)
    else match s.pcs[i]
      case NotBegun => s.(running := s.running[i := true], pcs := s.pcs[i := AtLoop])
      case AtLoop =>
        s.(pcs := s.pcs[i := if s.running[i] then AtDequeue else if i > 0 && p.drains[i] then AtSize else Exited])
      case AtSize => s.(pcs := s.pcs[i := if seen != 0 then AtDequeue else Exited])
      case AtDequeue =>
        if i == 0 then s.(pcs := s.pcs[i := Holding(x)])
        else if s.taken[i] >= |s.enq[i - 1]| then s.(pcs := s.pcs[i := AtLoop])
        else s.(pcs := s.pcs[i := Holding(s.enq[i - 1][s.taken[i]])], taken := s.taken[i := s.taken[i] + 1])
      case Holding(y) =>
        s.(enq := s.enq[i := s.enq[i] + [if i == 0 then y else p.work(i, y)]], pcs := s.pcs[i := AtLoop])
      case _ => s
  }

  /** The driver of the IQ and DEC modes: run and the thread it creates, which waits for the
      start time and makes the read, and the callback of the read. */
  function StreamStep<T>(p: Pipeline<T>, s: State<T>, x: T, seen: nat): State<T>
    requires p.driver.Streaming? && 1 <= |s.pcs| == |s.running| == |s.enq|
  {
    match s.pcs[0]
    case NotBegun => s.(running := s.running[0 := true], pcs := s.pcs[0 := Starting])
    case Starting => s.(pcs := s.pcs[0 := if p.driver.scheduled then Sleeping else AtDequeue])
    case Sleeping => s.(pcs := s.pcs[0 := AtDequeue])
    case AtDequeue =>
      if s.cancel.NotCancelled? then s.(pcs := s.pcs[0 := Holding(x)])
      else if s.cancel.left > 0 && seen != 0 then
        s.(pcs := s.pcs[0 := Holding(x)], cancel := Cancelled(s.cancel.left - 1))
      else Ends(s, 0)
    case Holding(y) => s.(enq := s.enq[0 := s.enq[0] + [y]], pcs := s.pcs[0 := AtClock])
    case AtClock => s.(pcs := s.pcs[0 := AtDequeue])
    case _ => s
  }

  /** A failing read clears the flag of the driver that polls it, and its pass goes on, but
      it ends an asynchronous one; a stage that fails leaves at once. */
  function FailStep<T>(p: Pipeline<T>, s: State<T>, i: nat): State<T>
    requires i < |s.pcs| == |s.running|
  {
    if i == 0 && p.driver.Polling? then s.(running := s.running[0 := false]) else Ends(s, i)
  }

  /** finish_ok: stop clears mRunning, cancels the read if there is one, and waits for the
      thread. */
  function MainStep<T>(p: Pipeline<T>, s: State<T>): State<T>
    requires 1 <= |s.pcs| == |s.running|
  {
    match s.main
    case Up => s.(main := Stopping(0))
    case Stopping(k) =>
      if k >= |s.running| then s.(main := Returned)
      else if k == 0 && p.driver.Streaming? && Reading(s.pcs[0]) then
        s.(running := s.running[0 := false], cancel := Cancelled(p.driver.transfers), main := Joining(0))
      else s.(running := s.running[k := false], main := Joining(k))
    case Joining(k) => if k < |s.pcs| && s.pcs[k].Exited? then s.(main := Stopping(k + 1)) else s
    case Returned => s
  }

  ghost function Step<T>(p: Pipeline<T>, s: State<T>, a: Action<T>): (t: State<T>)
    requires Fits(p, s)
    ensures Fits(p, t)
  {
    if !Allowed(p, s, a) then s
    else match a
      case Stage(i, x, seen) => StageStep(p, s, i, x, seen)
      case Fails(i) => FailStep(p, s, i)
      case Untuned => s.(pcs := s.pcs[0 := AtLoop])
      case TimeIsUp => Ends(s, 0)
      case MainThread => MainStep(p, s)
  }

  ghost function Run<T>(p: Pipeline<T>, s: State<T>, acts: seq<Action<T>>): (t: State<T>)
    requires Fits(p, s)
    ensures Fits(p, t)
    decreases |acts|
  {
    if acts == [] then s else Run(p, Step(p, s, acts[0]), acts[1..])
  }

  // ---- What every step keeps ---------------------------------------------------

  /** Main has cleared the flag of stage `i`. */
  predicate Signalled(m: Main, i: nat) {
    match m
    case Up => false
    case Stopping(k) => i < k
    case Joining(k) => i <= k
    case Returned => true
  }

  /** Main has seen the thread of stage `i` end. */
  predicate Joined(m: Main, i: nat) {
    match m
    case Up => false
    case Stopping(k) => i < k
    case Joining(k) => i < k
    case Returned => true
  }

  function Applied<T>(work: (nat, T) -> T, i: nat, s: seq<T>): (r: seq<T>)
    ensures |r| == |s|
  {
    seq(|s|, k requires 0 <= k < |s| => work(i, s[k]))
  }

  /** How much of what stage `i` has dequeued it has enqueued, worked on: all of it, but for
      the element in its hands and for one that it failed to write. */
  ghost predicate Flow<T>(p: Pipeline<T>, s: State<T>, i: nat)
    requires Fits(p, s) && 0 < i < |s.pcs|
  {
    && s.taken[i] <= |s.enq[i - 1]|
    && if s.pcs[i].Holding? then
         s.taken[i] > 0 && s.pcs[i].x == s.enq[i - 1][s.taken[i] - 1] && FlowUpTo(p, s, i, s.taken[i] - 1)
       else
         || FlowUpTo(p, s, i, s.taken[i])
         || (p.fails[i] && s.pcs[i].Exited? && s.taken[i] > 0 && FlowUpTo(p, s, i, s.taken[i] - 1))
  }

  ghost predicate FlowUpTo<T>(p: Pipeline<T>, s: State<T>, i: nat, n: nat)
    requires 0 < i < |s.enq| && n <= |s.enq[i - 1]|
  {
    s.enq[i] == Applied(p.work, i, s.enq[i - 1][..n])
  }

  /** The thread of stage `i` can end without being told to: the read of a streaming driver
      comes to its end, or the device or socket fails. */
  predicate CanEnd<T>(p: Pipeline<T>, i: nat)
    requires i < |p.fails|
  {
    p.fails[i] || (i == 0 && p.driver.Streaming?)
  }

  /** A stage looks at its queue, or leaves, only when told to stop or when it fails; a thread
      that main has joined has left; one that leaves a draining loop has emptied its queue;
      and only a read under way is cancelled. */
  ghost predicate Control<T>(p: Pipeline<T>, s: State<T>, i: nat)
    requires Fits(p, s) && i < |s.pcs|
  {
    && (s.pcs[i].AtSize? ==> Signalled(s.main, i) && !s.running[i])
    && (s.pcs[i].Exited? ==> !s.running[i] && (Signalled(s.main, i) || CanEnd(p, i)))
    && (!Signalled(s.main, i) ==>
          s.pcs[i].NotBegun? || s.running[i] || (CanEnd(p, i) && (i == 0 || s.pcs[i].Exited?)))
    && (Joined(s.main, i) ==> s.pcs[i].Exited?)
    && (s.pcs[i].Exited? && i > 0 && p.drains[i] && !p.fails[i] ==> s.taken[i] == |s.enq[i - 1]|)
    && if i == 0 && p.driver.Streaming? then
         && !s.pcs[i].AtLoop? && !s.pcs[i].AtSize?
         && (s.cancel.Cancelled? ==> Signalled(s.main, 0) && (Reading(s.pcs[i]) || s.pcs[i].Exited?))
       else !s.pcs[i].Starting? && !s.pcs[i].Sleeping? && !s.pcs[i].AtClock? && (s.pcs[i].AtSize? ==> i > 0)
  }

  ghost predicate Inv<T>(p: Pipeline<T>, s: State<T>) {
    && Fits(p, s)
    && (forall i :: 0 < i < |s.pcs| ==> Flow(p, s, i))
    && (forall i :: 0 <= i < |s.pcs| ==> Control(p, s, i))
    && (s.main.Joining? ==> s.main.k < |s.pcs|)
  }

  /** Before stage `i` is told to stop the thread before it has ended. */
  lemma UpstreamLeft<T>(p: Pipeline<T>, s: State<T>, i: nat)
    requires Inv(p, s) && 0 < i < |s.pcs| && Signalled(s.main, i)
    ensures s.pcs[i - 1].Exited?
  {
    assert Control(p, s, i - 1);
  }

  lemma AppliedAppend<T>(work: (nat, T) -> T, i: nat, s: seq<T>, k: nat)
    requires k < |s|
    ensures Applied(work, i, s[..k + 1]) == Applied(work, i, s[..k]) + [work(i, s[k])]
  {
  }

  lemma OneStepKeeps<T>(p: Pipeline<T>, s: State<T>, a: Action<T>)
    requires Fits(p, s) && Inv(p, s)
    ensures Inv(p, Step(p, s, a))
  {
    hide Flow, Control, StageStep, MainStep, FailStep, Ends;
    if Allowed(p, s, a) {
      forall j | 0 <= j < |s.pcs|
        ensures Control(p, Step(p, s, a), j)
      {
        ControlKept(p, s, a, j);
      }
      forall j | 0 < j < |s.pcs|
        ensures Flow(p, Step(p, s, a), j)
      {
        FlowKept(p, s, a, j);
      }
      MainInRange(p, s, a);
    }
  }

  lemma MainInRange<T>(p: Pipeline<T>, s: State<T>, a: Action<T>)
    requires Inv(p, s) && Allowed(p, s, a)
    ensures Step(p, s, a).main.Joining? ==> Step(p, s, a).main.k < |s.pcs|
  {
    hide Flow, Control;
  }

  lemma ControlKept<T>(p: Pipeline<T>, s: State<T>, a: Action<T>, j: nat)
    requires Inv(p, s) && Allowed(p, s, a) && j < |s.pcs|
    ensures Control(p, Step(p, s, a), j)
  {
    hide Flow, StageStep, MainStep, Control, Inv;
    match a
    case Stage(i, x, seen) => ControlKeptByStage(p, s, i, x, seen, j);
    case MainThread => ControlKeptByMain(p, s, j);
    case _ => ControlKeptByEvent(p, s, a, j);
  }

  lemma ControlKeptByStage<T>(p: Pipeline<T>, s: State<T>, i: nat, x: T, seen: nat, j: nat)
    requires Inv(p, s) && i < |s.pcs| && Allowed(p, s, Stage(i, x, seen)) && j < |s.pcs|
    ensures Control(p, StageStep(p, s, i, x, seen), j)
  {
    hide Applied, FlowUpTo, StreamStep, Inv;
    ControlHolds(p, s, i);
    ControlHolds(p, s, j);
    if i == 0 && p.driver.Streaming? {
      ControlKeptByStream(p, s, x, seen, j);
    } else if i == j {
      ControlKeptByOwn(p, s, i, x, seen);
    } else if i + 1 == j && s.pcs[j].Exited? && !p.fails[j] {
      UpstreamLeft(p, s, j);
    }
  }

  lemma ControlKeptByOwn<T>(p: Pipeline<T>, s: State<T>, i: nat, x: T, seen: nat)
    requires Inv(p, s) && i < |s.pcs| && Allowed(p, s, Stage(i, x, seen)) && !(i == 0 && p.driver.Streaming?)
    ensures Control(p, StageStep(p, s, i, x, seen), i)
  {
    hide Applied, FlowUpTo, StreamStep, Inv;
    ControlHolds(p, s, i);
    if i > 0 && Signalled(s.main, i) {
      UpstreamLeft(p, s, i);
    }
  }

  lemma ControlHolds<T>(p: Pipeline<T>, s: State<T>, i: nat)
    requires Inv(p, s) && i < |s.pcs|
    ensures Fits(p, s) && Control(p, s, i) && (i > 0 ==> s.taken[i] <= |s.enq[i - 1]|)
  {
    if i > 0 {
      assert Flow(p, s, i);
    }
  }

  lemma ControlKeptByStream<T>(p: Pipeline<T>, s: State<T>, x: T, seen: nat, j: nat)
    requires Inv(p, s) && p.driver.Streaming? && j < |s.pcs|
    ensures Fits(p, StreamStep(p, s, x, seen)) && Control(p, StreamStep(p, s, x, seen), j)
  {
    hide Inv, Flow;
    ControlHolds(p, s, 0);
    ControlHolds(p, s, j);
    if j == 1 && s.pcs[1].Exited? && !p.fails[1] {
      UpstreamLeft(p, s, 1);
    }
  }

  lemma ControlKeptByEvent<T>(p: Pipeline<T>, s: State<T>, a: Action<T>, j: nat)
    requires Inv(p, s) && Allowed(p, s, a) && (a.Fails? || a.Untuned? || a.TimeIsUp?) && j < |s.pcs|
    ensures Control(p, Step(p, s, a), j)
  {
    hide Applied, Flow;
    assert Control(p, s, 0) && Control(p, s, j);
  }

  lemma ControlKeptByMain<T>(p: Pipeline<T>, s: State<T>, j: nat)
    requires Inv(p, s) && j < |s.pcs|
    ensures Control(p, MainStep(p, s), j)
  {
    hide Applied, Flow;
    assert Control(p, s, j);
  }

  lemma FlowKept<T>(p: Pipeline<T>, s: State<T>, a: Action<T>, j: nat)
    requires Inv(p, s) && Allowed(p, s, a) && 0 < j < |s.pcs|
    ensures Flow(p, Step(p, s, a), j)
  {
    hide Applied, Control, StageStep;
    assert Flow(p, s, j);
    match a
    case Stage(i, x, seen) => FlowKeptByStage(p, s, i, x, seen, j);
    case _ =>
  }

  lemma FlowKeptByStage<T>(p: Pipeline<T>, s: State<T>, i: nat, x: T, seen: nat, j: nat)
    requires Inv(p, s) && i < |s.pcs| && 0 < j < |s.pcs|
    ensures Flow(p, StageStep(p, s, i, x, seen), j)
  {
    hide Applied, Control, StreamStep;
    var t := StageStep(p, s, i, x, seen);
    StreamMovesDriver(p, s, x, seen);
    assert Flow(p, s, j);
    if i == j {
      if s.pcs[i].Holding? {
        AppliedAppend(p.work, i, s.enq[i - 1], s.taken[i] - 1);
      }
    } else {
      FlowOfPrefix(p, s, t, j);
    }
  }

  /** More in the queue of stage `j` is nothing to what it has made of the first elements. */
  lemma FlowOfPrefix<T>(p: Pipeline<T>, s: State<T>, t: State<T>, j: nat)
    requires Fits(p, s) && Fits(p, t) && 0 < j < |s.pcs| && Flow(p, s, j) && s.enq[j - 1] <= t.enq[j - 1]
    requires s.pcs[j] == t.pcs[j] && s.taken[j] == t.taken[j] && s.enq[j] == t.enq[j]
    ensures Flow(p, t, j)
  {
    hide Applied;
    assert t.enq[j - 1][..s.taken[j]] == s.enq[j - 1][..s.taken[j]];
    if s.taken[j] > 0 {
      assert t.enq[j - 1][..s.taken[j] - 1] == s.enq[j - 1][..s.taken[j] - 1];
    }
  }

  lemma StreamMovesDriver<T>(p: Pipeline<T>, s: State<T>, x: T, seen: nat)
    requires Fits(p, s)
    ensures p.driver.Streaming? ==>
              var t := StreamStep(p, s, x, seen);
              && Fits(p, t) && t.taken == s.taken && t.main == s.main && s.enq[0] <= t.enq[0]
              && t.pcs[1..] == s.pcs[1..] && t.running[1..] == s.running[1..] && t.enq[1..] == s.enq[1..]
  {
  }

  lemma {:induction false} RunKeeps<T>(p: Pipeline<T>, s: State<T>, acts: seq<Action<T>>)
    requires Fits(p, s) && Inv(p, s)
    ensures Inv(p, Run(p, s, acts))
    decreases |acts|
  {
    hide Inv, Step;
    if acts != [] {
      OneStepKeeps(p, s, acts[0]);
      RunKeeps(p, Step(p, s, acts[0]), acts[1..]);
    }
  }

  // ---- Nothing is lost ---------------------------------------------------------

  /** What the stages up to `k` make of `s`. */
  function Through<T>(work: (nat, T) -> T, k: nat, s: seq<T>): seq<T> {
    if k == 0 then s else Applied(work, k, Through(work, k - 1, s))
  }

  /** Stage `i` drains its queue before it leaves, and does not fail. */
  predicate Delivers<T>(p: Pipeline<T>, i: nat)
    requires i < |p.drains| == |p.fails|
  {
    p.drains[i] && !p.fails[i]
  }

  lemma {:induction false} AllThrough<T>(p: Pipeline<T>, s: State<T>, k: nat)
    requires Fits(p, s) && Inv(p, s) && s.main.Returned? && k < |s.pcs| && forall i :: 0 < i <= k ==> Delivers(p, i)
    ensures s.enq[k] == Through(p.work, k, s.enq[0])
  {
    hide Applied;
    if k > 0 {
      AllThrough(p, s, k - 1);
      assert Delivers(p, k) && Flow(p, s, k) && Control(p, s, k);
      assert s.enq[k - 1][..s.taken[k]] == s.enq[k - 1];
    }
  }

  lemma InitInv<T>(p: Pipeline<T>)
    requires |p.drains| == |p.fails| >= 1
    ensures Inv(p, Init(|p.drains|))
  {
  }

  /** Once finish_ok has returned, everything that the driver ever enqueued has come out at
      the end, in order. */
  ghost predicate Delivered<T>(p: Pipeline<T>, s: State<T>)
    requires Fits(p, s)
  {
    s.main.Returned? ==> s.enq[|s.enq| - 1] == Through(p.work, |s.enq| - 1, s.enq[0])
  }

  /** So it is in every run, with either driver, if the stages all drain and none fails. */
  lemma EverythingIsWritten<T>(p: Pipeline<T>, acts: seq<Action<T>>)
    requires |p.drains| == |p.fails| >= 1 && forall i :: 0 < i < |p.drains| ==> Delivers(p, i)
    ensures Delivered(p, Run(p, Init(|p.drains|), acts))
  {
    hide Inv, Through, Step;
    var s := Run(p, Init(|p.drains|), acts);
    InitInv(p);
    RunKeeps(p, Init(|p.drains|), acts);
    if s.main.Returned? {
      AllThrough(p, s, |p.drains| - 1);
    }
  }

  /** Whatever the stages do, and at any moment: what has come out of stage `k` is a
      beginning of what the driver has enqueued, in order, with no gap. */
  lemma {:induction false} NoGaps<T>(p: Pipeline<T>, s: State<T>, k: nat)
    requires Fits(p, s) && Inv(p, s) && k < |s.pcs|
    ensures s.enq[k] <= Through(p.work, k, s.enq[0])
  {
    hide Applied;
    if k > 0 {
      NoGaps(p, s, k - 1);
      assert Flow(p, s, k);
      var whole := Through(p.work, k - 1, s.enq[0]);
      AppliedPrefix(p.work, k, s.enq[k - 1], whole, s.taken[k]);
      if s.taken[k] > 0 {
        AppliedPrefix(p.work, k, s.enq[k - 1], whole, s.taken[k] - 1);
      }
    }
  }

  lemma AppliedPrefix<T>(work: (nat, T) -> T, i: nat, s: seq<T>, whole: seq<T>, n: nat)
    requires s <= whole && n <= |s|
    ensures Applied(work, i, s[..n]) <= Applied(work, i, whole)
  {
  }

  /** So it is in every run of every pipeline. */
  lemma OnlyAPrefixIsWritten<T>(p: Pipeline<T>, acts: seq<Action<T>>)
    requires |p.drains| == |p.fails| >= 1
    ensures var s := Run(p, Init(|p.drains|), acts);
            s.enq[|p.drains| - 1] <= Through(p.work, |p.drains| - 1, s.enq[0])
  {
    hide Inv, Through, Step;
    InitInv(p);
    RunKeeps(p, Init(|p.drains|), acts);
    NoGaps(p, Run(p, Init(|p.drains|), acts), |p.drains| - 1);
  }

  // ---- A stage that does not drain, or that fails ------------------------------

  lemma {:induction false} Extend<T>(p: Pipeline<T>, s: State<T>, acts: seq<Action<T>>, a: Action<T>)
    requires Fits(p, s)
    ensures Run(p, s, acts + [a]) == Step(p, Run(p, s, acts), a)
    decreases |acts|
  {
    hide Step;
    if acts == [] {
      assert (acts + [a])[1..] == [];
    } else {
      assert (acts + [a])[1..] == acts[1..] + [a];
      Extend(p, Step(p, s, acts[0]), acts[1..], a);
    }
  }

  /** Where the thread of stage `i` is once it has begun, and between two elements. */
  predicate AtHome<T>(p: Pipeline<T>, s: State<T>, i: nat)
    requires i < |s.pcs| == |s.running|
  {
    s.running[i] && if i == 0 && p.driver.Streaming? then s.pcs[i].AtDequeue? else s.pcs[i].AtLoop?
  }

  /** The threads up to `n` have begun, and nothing else has happened. */
  ghost predicate Begun<T>(p: Pipeline<T>, s: State<T>, n: nat) {
    && Fits(p, s) && n <= |s.pcs| && s.main.Up? && s.cancel.NotCancelled?
    && (forall i :: 0 <= i < n ==> AtHome(p, s, i))
    && (forall i :: n <= i < |s.pcs| ==> s.pcs[i].NotBegun?)
    && (forall i :: 0 <= i < |s.pcs| ==> s.taken[i] == 0 && s.enq[i] == [])
  }

  lemma {:induction false} BeginAll<T>(p: Pipeline<T>, x: T, n: nat) returns (t: State<T>, acts: seq<Action<T>>)
    requires 1 <= |p.drains| == |p.fails| && n <= |p.drains|
    ensures Fits(p, Init(|p.drains|)) && t == Run(p, Init(|p.drains|), acts) && Begun(p, t, n)
  {
    hide Step;
    var s0 := Init(|p.drains|);
    if n == 0 {
      t, acts := s0, [];
    } else {
      var u;
      u, acts := BeginAll(p, x, n - 1);
      t, acts := Then(p, s0, u, acts, Stage(n - 1, x, 0));
      if n == 1 && p.driver.Streaming? {
        t, acts := StartsReading(p, s0, x, t, acts);
      }
      forall i | 0 <= i < n
        ensures AtHome(p, t, i)
      {
        assert i < n - 1 ==> AtHome(p, u, i);
      }
    }
  }

  lemma StartsReading<T>(p: Pipeline<T>, s: State<T>, x: T, t: State<T>, acts: seq<Action<T>>)
    returns (u: State<T>, acts': seq<Action<T>>)
    requires Fits(p, s) && t == Run(p, s, acts) && p.driver.Streaming?
    requires t.pcs[0].Starting? || t.pcs[0].Sleeping?
    ensures u == Run(p, s, acts') && Fits(p, u) && u == t.(pcs := t.pcs[0 := AtDequeue])
  {
    hide Step;
    u, acts' := Then(p, s, t, acts, Stage(0, x, 0));
    if !u.pcs[0].AtDequeue? {
      u, acts' := Then(p, s, u, acts', Stage(0, x, 0));
    }
  }

  /** Main is about to stop stage `j`, the stages from there on are at their loops with
      nothing in their queues, but for `m` elements in that of stage `j`. */
  ghost predicate Before<T>(p: Pipeline<T>, s: State<T>, j: nat, m: nat) {
    && Fits(p, s) && 0 < j <= |s.pcs| && s.main == Stopping(j) && |s.enq[0]| == 1
    && (forall i :: j <= i < |s.pcs| ==> s.pcs[i].AtLoop? && s.running[i] && s.taken[i] == 0 && s.enq[i] == [])
    && |s.enq[j - 1]| == m && s.pcs[j - 1].Exited?
  }

  /** The driver has enqueued one element, and nothing else has happened. */
  ghost predicate Loaded<T>(p: Pipeline<T>, s: State<T>) {
    && Fits(p, s) && s.main.Up? && |s.enq[0]| == 1 && s.cancel.NotCancelled?
    && (forall i :: 0 <= i < |s.pcs| ==> AtHome(p, s, i))
    && (forall i :: 0 < i < |s.pcs| ==> s.taken[i] == 0 && s.enq[i] == [])
  }

  lemma DriverLoads<T>(p: Pipeline<T>, s: State<T>, x: T) returns (t: State<T>, acts: seq<Action<T>>)
    requires Begun(p, s, |s.pcs|)
    ensures t == Run(p, s, acts) && Loaded(p, t)
  {
    hide Step, StageStep;
    assert AtHome(p, s, 0);
    t, acts := DriverRound(p, s, x);
    forall i | 0 <= i < |t.pcs|
      ensures AtHome(p, t, i)
    {
      assert AtHome(p, s, i);
    }
  }

  /** The driver goes once round its loop, or its callback. */
  lemma DriverRound<T>(p: Pipeline<T>, s: State<T>, x: T) returns (t: State<T>, acts: seq<Action<T>>)
    requires Fits(p, s) && AtHome(p, s, 0) && s.cancel.NotCancelled?
    ensures t == Run(p, s, acts) && Fits(p, t) && t == s.(enq := s.enq[0 := s.enq[0] + [x]])
  {
    hide Step;
    var go := Stage(0, x, 0);
    t, acts := s, [];
    if p.driver.Polling? {
      t, acts := Then(p, s, t, acts, go);
    }
    var got := s.(pcs := s.pcs[0 := AtDequeue]);
    assert t == got by {
      assert p.driver.Streaming? ==> s.pcs[0 := AtDequeue] == s.pcs;
    }
    t, acts := Then(p, s, t, acts, go);
    assert t == s.(pcs := s.pcs[0 := Holding(x)]);
    t, acts := Then(p, s, t, acts, go);
    if p.driver.Streaming? {
      t, acts := Then(p, s, t, acts, go);
    }
    assert t.pcs == s.pcs;
  }

  lemma DriverLeaves<T>(p: Pipeline<T>, s: State<T>, x: T) returns (t: State<T>, acts: seq<Action<T>>)
    requires Loaded(p, s)
    ensures t == Run(p, s, acts) && Before(p, t, 1, 1)
  {
    hide Step;
    var go := Stage(0, x, 0);
    assert AtHome(p, s, 0);
    t, acts := Then(p, s, s, [], MainThread);
    t, acts := Then(p, s, t, acts, MainThread);
    t, acts := Then(p, s, t, acts, go);
    t, acts := Then(p, s, t, acts, MainThread);
    forall i | 1 <= i < |t.pcs|
      ensures t.pcs[i].AtLoop? && t.running[i]
    {
      assert AtHome(p, s, i);
    }
  }

  /** The driver gets one element and is stopped. */
  lemma DriverStops<T>(p: Pipeline<T>, s: State<T>, x: T) returns (t: State<T>, acts: seq<Action<T>>)
    requires Begun(p, s, |s.pcs|)
    ensures t == Run(p, s, acts) && Before(p, t, 1, 1)
  {
    hide Step, Before, Run;
    var u, first := DriverLoads(p, s, x);
    var rest;
    t, rest := DriverLeaves(p, u, x);
    acts := first + rest;
    RunConcat(p, s, first, rest);
  }

  lemma Then<T>(p: Pipeline<T>, s: State<T>, t: State<T>, acts: seq<Action<T>>, a: Action<T>)
    returns (t': State<T>, acts': seq<Action<T>>)
    requires Fits(p, s) && t == Run(p, s, acts) && Allowed(p, t, a)
    ensures t' == Run(p, s, acts') && Fits(p, t')
    ensures a.Stage? ==> t' == StageStep(p, t, a.i, a.x, a.seen)
    ensures a.Fails? ==> t' == FailStep(p, t, a.i)
    ensures a.TimeIsUp? ==> t' == Ends(t, 0)
    ensures a.MainThread? ==> t' == MainStep(p, t)
  {
    Extend(p, s, acts, a);
    acts' := acts + [a];
    t' := Step(p, t, a);
  }

  /** Main waits for stage `j`, which has its element in its hands. */
  ghost predicate Midway<T>(p: Pipeline<T>, s: State<T>, j: nat) {
    && Fits(p, s) && 0 < j < |s.pcs| && s.main == Joining(j) && |s.enq[0]| == 1
    && (forall i :: j < i < |s.pcs| ==> s.pcs[i].AtLoop? && s.running[i] && s.taken[i] == 0 && s.enq[i] == [])
    && s.pcs[j].Holding? && !s.running[j] && s.enq[j] == []
    && s.taken[j] == 1 == |s.enq[j - 1]| && s.pcs[j - 1].Exited?
  }

  lemma StageTakes<T>(p: Pipeline<T>, s: State<T>, x: T, j: nat) returns (t: State<T>, acts: seq<Action<T>>)
    requires Before(p, s, j, 1) && j < |s.pcs| && p.drains[j]
    ensures t == Run(p, s, acts) && Midway(p, t, j)
  {
    hide Step, StreamStep;
    var go := Stage(j, x, 1);
    acts := [];
    t := s;
    t, acts := Then(p, s, t, acts, MainThread);
    t, acts := Then(p, s, t, acts, go);
    t, acts := Then(p, s, t, acts, go);
    t, acts := Then(p, s, t, acts, go);
  }

  lemma StageHandsOn<T>(p: Pipeline<T>, s: State<T>, x: T, j: nat) returns (t: State<T>, acts: seq<Action<T>>)
    requires Midway(p, s, j) && p.drains[j]
    ensures t == Run(p, s, acts) && Before(p, t, j + 1, 1)
  {
    hide Step, StreamStep;
    var go := Stage(j, x, 0);
    acts := [];
    t := s;
    t, acts := Then(p, s, t, acts, go);
    t, acts := Then(p, s, t, acts, go);
    t, acts := Then(p, s, t, acts, go);
    t, acts := Then(p, s, t, acts, MainThread);
  }

  /** A stage that drains hands its element on before it leaves. */
  lemma StageDrains<T>(p: Pipeline<T>, s: State<T>, x: T, j: nat) returns (t: State<T>, acts: seq<Action<T>>)
    requires Before(p, s, j, 1) && j < |s.pcs| && p.drains[j]
    ensures t == Run(p, s, acts) && Before(p, t, j + 1, 1)
  {
    hide Step, Before;
    BeforeFits(p, s, j, 1);
    var u, first := StageTakes(p, s, x, j);
    var rest;
    MidwayFits(p, u, j);
    t, rest := StageHandsOn(p, u, x, j);
    acts := first + rest;
    RunConcat(p, s, first, rest);
  }

  lemma MidwayFits<T>(p: Pipeline<T>, s: State<T>, j: nat)
    requires Midway(p, s, j)
    ensures Fits(p, s)
  {
  }

  /** A stage that fails drops the element that it has in its hands. */
  lemma StageDrops<T>(p: Pipeline<T>, s: State<T>, x: T, j: nat) returns (t: State<T>, acts: seq<Action<T>>)
    requires Before(p, s, j, 1) && j < |s.pcs| && p.drains[j] && p.fails[j]
    ensures t == Run(p, s, acts) && Before(p, t, j + 1, 0)
  {
    hide Step;
    BeforeFits(p, s, j, 1);
    t, acts := StageTakes(p, s, x, j);
    MidwayFits(p, t, j);
    t, acts := Then(p, s, t, acts, Fails(j));
    t, acts := Then(p, s, t, acts, MainThread);
  }

  /** A stage that does not drain leaves what is in its queue, and so does any stage whose
      queue is empty. */
  lemma StageLeaves<T>(p: Pipeline<T>, s: State<T>, x: T, j: nat, m: nat) returns (t: State<T>, acts: seq<Action<T>>)
    requires Before(p, s, j, m) && j < |s.pcs| && (p.drains[j] ==> m == 0)
    ensures t == Run(p, s, acts) && Before(p, t, j + 1, 0)
  {
    hide Step, StreamStep;
    var go := Stage(j, x, 0);
    acts := [];
    t := s;
    t, acts := Then(p, s, t, acts, MainThread);
    t, acts := Then(p, s, t, acts, go);
    if p.drains[j] {
      t, acts := Then(p, s, t, acts, go);
    }
    t, acts := Then(p, s, t, acts, MainThread);
  }

  lemma {:induction false} RunConcat<T>(p: Pipeline<T>, s: State<T>, a: seq<Action<T>>, b: seq<Action<T>>)
    requires Fits(p, s)
    ensures Run(p, s, a + b) == Run(p, Run(p, s, a), b)
    decreases |a|
  {
    hide Step;
    if a == [] {
      assert a + b == b;
    } else {
      assert (a + b)[1..] == a[1..] + b;
      RunConcat(p, Step(p, s, a[0]), a[1..], b);
    }
  }

  /** The element reaches the queue of stage `k`. */
  lemma {:induction false} Arrives<T>(p: Pipeline<T>, s: State<T>, x: T, k: nat)
    returns (t: State<T>, acts: seq<Action<T>>)
    requires Before(p, s, 1, 1) && 1 <= k < |p.drains| == |p.fails|
    requires forall i :: 0 < i < k ==> Delivers(p, i)
    ensures t == Run(p, s, acts) && Before(p, t, k, 1)
  {
    hide Step, Before;
    BeforeFits(p, s, 1, 1);
    if k == 1 {
      t, acts := s, [];
    } else {
      var u, first := Arrives(p, s, x, k - 1);
      var rest;
      BeforeFits(p, u, k - 1, 1);
      assert Delivers(p, k - 1);
      t, rest := StageDrains(p, u, x, k - 1);
      acts := first + rest;
      RunConcat(p, s, first, rest);
    }
  }

  lemma BeforeFits<T>(p: Pipeline<T>, s: State<T>, j: nat, m: nat)
    requires Before(p, s, j, m)
    ensures Fits(p, s)
  {
  }

  /** From there on nothing more arrives, and main gets to the end. */
  lemma {:induction false} Finishes<T>(p: Pipeline<T>, s: State<T>, x: T, j: nat)
    returns (t: State<T>, acts: seq<Action<T>>)
    requires Before(p, s, j, 0) && 1 < j
    ensures t == Run(p, s, acts) && Fits(p, t) && t.main.Returned? && t.enq[|t.enq| - 1] == [] && |t.enq[0]| == 1
    decreases |s.pcs| - j
  {
    hide Step;
    if j == |s.pcs| {
      t, acts := Then(p, s, s, [], MainThread);
    } else {
      var u, first := StageLeaves(p, s, x, j, 0);
      var rest;
      t, rest := Finishes(p, u, x, j + 1);
      acts := first + rest;
      RunConcat(p, s, first, rest);
    }
  }

  /** A run that loses an element in the queue of stage `k`, or in its hands. */
  lemma LosingRun<T>(p: Pipeline<T>, x: T, k: nat) returns (acts: seq<Action<T>>)
    requires 0 < k < |p.drains| == |p.fails| && !Delivers(p, k) && forall i :: 0 < i < k ==> Delivers(p, i)
    ensures !Delivered(p, Run(p, Init(|p.drains|), acts))
  {
    hide Step, Before, Begun, Init;
    var s0 := Init(|p.drains|);
    InitFits(p);
    var s1, a := BeginAll(p, x, |p.drains|);
    var s2, b := DriverStops(p, s1, x);
    BeforeFits(p, s2, 1, 1);
    var s3, c := Arrives(p, s2, x, k);
    BeforeFits(p, s3, k, 1);
    var s4, d := StageLoses(p, s3, x, k);
    BeforeFits(p, s4, k + 1, 0);
    var s5, e := Finishes(p, s4, x, k + 1);
    RunConcat(p, s0, a, b);
    RunConcat(p, s0, a + b, c);
    RunConcat(p, s0, a + b + c, d);
    RunConcat(p, s0, a + b + c + d, e);
    acts := a + b + c + d + e;
    ThroughLength(p.work, |p.drains| - 1, s5.enq[0]);
  }

  lemma StageLoses<T>(p: Pipeline<T>, s: State<T>, x: T, j: nat) returns (t: State<T>, acts: seq<Action<T>>)
    requires Before(p, s, j, 1) && j < |p.drains| && Fits(p, s) && !Delivers(p, j)
    ensures t == Run(p, s, acts) && Before(p, t, j + 1, 0)
  {
    hide Step, Before;
    if p.drains[j] {
      t, acts := StageDrops(p, s, x, j);
    } else {
      t, acts := StageLeaves(p, s, x, j, 1);
    }
  }

  lemma InitFits<T>(p: Pipeline<T>)
    requires |p.drains| == |p.fails| >= 1
    ensures Fits(p, Init(|p.drains|))
  {
  }

  lemma {:induction false} ThroughLength<T>(work: (nat, T) -> T, k: nat, s: seq<T>)
    ensures |Through(work, k, s)| == |s|
  {
    if k > 0 {
      ThroughLength(work, k - 1, s);
    }
  }

  /** No run loses anything if and only if every stage drains and none fails. */
  lemma DeliversExactlyWhen<T(!new)>(p: Pipeline<T>, x: T)
    requires |p.drains| == |p.fails| >= 1
    ensures (forall acts: seq<Action<T>> :: Delivered(p, Run(p, Init(|p.drains|), acts))) <==>
            forall i :: 0 < i < |p.drains| ==> Delivers(p, i)
  {
    hide Delivered, Init, Run;
    if forall i :: 0 < i < |p.drains| ==> Delivers(p, i) {
      InitFits(p);
      forall acts: seq<Action<T>>
        ensures Delivered(p, Run(p, Init(|p.drains|), acts))
      {
        EverythingIsWritten(p, acts);
      }
    } else {
      var k := FirstThatDoesNot(p);
      var acts := LosingRun(p, x, k);
    }
  }

  lemma {:induction false} FirstThatDoesNot<T>(p: Pipeline<T>) returns (k: nat)
    requires |p.drains| == |p.fails| && !forall i :: 0 < i < |p.drains| ==> Delivers(p, i)
    ensures 0 < k < |p.drains| && !Delivers(p, k) && forall i :: 0 < i < k ==> Delivers(p, i)
  {
    k := 1;
    while Delivers(p, k)
      invariant 0 < k < |p.drains| && forall i :: 0 < i < k ==> Delivers(p, i)
      decreases |p.drains| - k
    {
      k := k + 1;
    }
  }
}
