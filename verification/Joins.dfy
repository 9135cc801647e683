/** How shutdown comes to an end: which threads main can join, from any state of any run. */
module Joins {
  import opened Shutdown

  // ---- A thread that was told to stop ------------------------------------------

  /** What is in the queue of stage `i`; the driver has none. */
  function Waiting<T>(s: State<T>, i: nat): int
    requires i < |s.taken| == |s.enq|
  {
    if i == 0 then 0 else Left(s, i)
  }

  /** How many steps of its own stage `i` is from its end once told to stop. */
  function ToGo<T>(p: Pipeline<T>, s: State<T>, i: nat): int
    requires i < |s.pcs| == |s.taken| == |s.enq|
  {
    if i == 0 && p.driver.Streaming? then ReadToGo(s)
    else match s.pcs[i]
      case NotBegun => 5 * Waiting(s, i) + 3
      case AtLoop => 5 * Waiting(s, i) + 2
      case AtSize => 5 * Waiting(s, i) + 1
      case AtDequeue => if Waiting(s, i) == 0 then 4 else 5 * Waiting(s, i)
      case Holding(_) => 5 * Waiting(s, i) + 3
      case _ => 0
  }

  /** How many steps a cancelled read is from its end. */
  function ReadToGo<T>(s: State<T>): int
    requires |s.pcs| >= 1
  {
    match s.cancel
    case NotCancelled => 0
    case Cancelled(left) =>
      match s.pcs[0]
      case AtDequeue => 3 * left + 1
      case AtClock => 3 * left + 2
      case Holding(_) => 3 * left + 3
      case _ => 0
  }

  /** Stage `i` was told to stop and will find that out: it has begun, and its flag is
      cleared; the read of a streaming driver is cancelled, or over. */
  predicate Told<T>(p: Pipeline<T>, s: State<T>, i: nat)
    requires i < |s.pcs| == |s.running|
  {
    if i == 0 && p.driver.Streaming? then s.cancel.Cancelled? || s.pcs[i].Exited?
    else !s.pcs[i].NotBegun? && !s.running[i]
  }

  /** Main waits for stage `i`, which will find out that it has to stop. */
  ghost predicate Leaving<T>(p: Pipeline<T>, s: State<T>, i: nat) {
    Inv(p, s) && i < |s.pcs| && s.main == Joining(i) && Told(p, s, i)
  }

  lemma Known<T>(p: Pipeline<T>, s: State<T>, i: nat)
    requires Inv(p, s) && i < |s.pcs|
    ensures Fits(p, s) && Control(p, s, i) && Waiting(s, i) >= 0
    ensures i > 0 && Signalled(s.main, i) ==> s.pcs[i - 1].Exited?
  {
    if i > 0 {
      assert Flow(p, s, i);
      if Signalled(s.main, i) {
        UpstreamLeft(p, s, i);
      }
    }
  }

  /** Every step of its own brings a thread that main waits for, the driver's or that of a
      stage, closer to its end, and no other step takes it further away. */
  lemma LeavesSoon<T>(p: Pipeline<T>, s: State<T>, a: Action<T>)
    requires s.main.Joining? && Leaving(p, s, s.main.k) && Allowed(p, s, a) && !s.pcs[s.main.k].Exited?
    ensures var i, t := s.main.k, Step(p, s, a);
            && Leaving(p, t, i) && 0 <= ToGo(p, t, i) <= ToGo(p, s, i)
            && (a.Stage? && a.i == i ==> ToGo(p, t, i) < ToGo(p, s, i))
  {
    hide Applied, Inv, Step;
    Known(p, s, s.main.k);
    OneStepKeeps(p, s, a);
    Known(p, Step(p, s, a), s.main.k);
    if a.Stage? && a.i == s.main.k {
      OwnStepNearer(p, s, a);
    } else {
      OtherStepNoFurther(p, s, a);
    }
  }

  lemma OwnStepNearer<T>(p: Pipeline<T>, s: State<T>, a: Action<T>)
    requires s.main.Joining? && Leaving(p, s, s.main.k) && Allowed(p, s, a) && !s.pcs[s.main.k].Exited?
    requires a.Stage? && a.i == s.main.k
    ensures var i, t := s.main.k, Step(p, s, a);
            t.main == s.main && Told(p, t, i) && 0 <= ToGo(p, t, i) < ToGo(p, s, i)
  {
    hide Applied, Inv, Flow;
    Known(p, s, s.main.k);
  }

  lemma OtherStepNoFurther<T>(p: Pipeline<T>, s: State<T>, a: Action<T>)
    requires s.main.Joining? && Leaving(p, s, s.main.k) && Allowed(p, s, a) && !s.pcs[s.main.k].Exited?
    requires !(a.Stage? && a.i == s.main.k)
    ensures var i, t := s.main.k, Step(p, s, a);
            t.main == s.main && Told(p, t, i) && 0 <= ToGo(p, t, i) <= ToGo(p, s, i)
  {
    hide Applied, Inv, Flow, StageStep;
    Known(p, s, s.main.k);
    if a.Stage? {
      OthersUntouched(p, s, a.i, a.x, a.seen, s.main.k);
    }
  }

  lemma OthersUntouched<T>(p: Pipeline<T>, s: State<T>, i: nat, x: T, seen: nat, j: nat)
    requires Fits(p, s) && i < |s.pcs| && j < |s.pcs| && i != j
    ensures var t := StageStep(p, s, i, x, seen);
            && |t.pcs| == |s.pcs| && |t.running| == |s.running| && |t.taken| == |s.taken| && |t.enq| == |s.enq|
            && t.pcs[j] == s.pcs[j] && t.running[j] == s.running[j] && t.taken[j] == s.taken[j]
            && t.main == s.main && (i > 0 ==> t.cancel == s.cancel) && (s.pcs[i].Exited? ==> t == s)
            && forall k :: 0 <= k < |s.enq| && k != i ==> t.enq[k] == s.enq[k]
  {
  }

  /** How many of the steps `acts` stage `i` takes. */
  ghost function OwnSteps<T>(p: Pipeline<T>, s: State<T>, acts: seq<Action<T>>, i: nat): nat
    requires Fits(p, s)
    decreases |acts|
  {
    if acts == [] then 0
    else (if Allowed(p, s, acts[0]) && acts[0].Stage? && acts[0].i == i then 1 else 0) +
         OwnSteps(p, Step(p, s, acts[0]), acts[1..], i)
  }

  /** In every run: a thread that main waits for has ended once it has taken as many steps
      as it was away from its end. */
  lemma {:induction false} EndsWithin<T>(p: Pipeline<T>, s: State<T>, i: nat, acts: seq<Action<T>>)
    requires Fits(p, s) && Leaving(p, s, i) && OwnSteps(p, s, acts, i) >= ToGo(p, s, i)
    ensures i < |Run(p, s, acts).pcs| && Run(p, s, acts).pcs[i].Exited?
    decreases |acts|
  {
    hide Inv, Step, ToGo, Allowed;
    if s.pcs[i].Exited? {
      StaysExited(p, s, i, acts);
    } else {
      NotAtTheEnd(p, s, i);
      var t := Step(p, s, acts[0]);
      if Allowed(p, s, acts[0]) {
        LeavesSoon(p, s, acts[0]);
      } else {
        NothingHappens(p, s, acts[0]);
      }
      EndsWithin(p, t, i, acts[1..]);
    }
  }

  lemma NothingHappens<T>(p: Pipeline<T>, s: State<T>, a: Action<T>)
    requires Fits(p, s) && !Allowed(p, s, a)
    ensures Step(p, s, a) == s
  {
  }

  lemma NotAtTheEnd<T>(p: Pipeline<T>, s: State<T>, i: nat)
    requires Leaving(p, s, i) && !s.pcs[i].Exited?
    ensures Fits(p, s) && ToGo(p, s, i) > 0
  {
    hide Inv, Flow;
    Known(p, s, i);
  }

  lemma {:induction false} StaysExited<T>(p: Pipeline<T>, s: State<T>, i: nat, acts: seq<Action<T>>)
    requires Fits(p, s) && i < |s.pcs| && s.pcs[i].Exited?
    ensures i < |Run(p, s, acts).pcs| && Run(p, s, acts).pcs[i].Exited?
    decreases |acts|
  {
    if acts != [] {
      StaysExited(p, Step(p, s, acts[0]), i, acts[1..]);
    }
  }

  /** A thread that was told to stop can end, and then main goes on. */
  lemma {:induction false} Leaves<T>(p: Pipeline<T>, s: State<T>, x: T, i: nat) returns (acts: seq<Action<T>>)
    requires Fits(p, s) && Leaving(p, s, i)
    ensures Run(p, s, acts).main == Stopping(i + 1) && Inv(p, Run(p, s, acts))
    decreases ToGo(p, s, i)
  {
    hide Inv, StageStep, ToGo;
    Known(p, s, i);
    if s.pcs[i].Exited? {
      acts := [MainThread];
      OneStepKeeps(p, s, MainThread);
      assert Run(p, s, acts) == Run(p, Step(p, s, MainThread), []);
    } else {
      var a := Stage(i, x, if s.pcs[i].AtSize? then Left(s, i) else 0);
      LeavesSoon(p, s, a);
      var rest := Leaves(p, Step(p, s, a), x, i);
      acts := [a] + rest;
      assert acts[1..] == rest;
    }
  }

  // ---- A thread that was told too early ------------------------------------------

  /** The thread of stage `i` may end without having been told: a read may fail, or a write
      if there is still something to write; a read may take its time, or come too late. */
  ghost predicate MayEnd<T>(p: Pipeline<T>, s: State<T>, i: nat)
    requires Fits(p, s) && i < |s.pcs|
  {
    || (p.fails[i] && (i == 0 || s.pcs[i].Holding? || Left(s, i) > 0))
    || (i == 0 && p.driver.Streaming? &&
        (p.driver.monitored || (p.driver.scheduled && (s.pcs[0].NotBegun? || s.pcs[0].Starting?))))
  }

  /** Main waits for a thread that was told to stop too early, and that will not end
      otherwise. */
  ghost predicate StopLost<T>(p: Pipeline<T>, s: State<T>, i: nat) {
    Inv(p, s) && i < |s.pcs| && s.main == Joining(i) && !Told(p, s, i) && !MayEnd(p, s, i)
  }

  /** finish_ok waits for such a thread for ever. */
  lemma {:induction false} WaitsForEver<T>(p: Pipeline<T>, s: State<T>, i: nat, acts: seq<Action<T>>)
    requires Fits(p, s) && StopLost(p, s, i)
    ensures StopLost(p, Run(p, s, acts), i)
    decreases |acts|
  {
    hide Inv, StopLost, Step;
    if acts != [] {
      StillLost(p, s, i, acts[0]);
      WaitsForEver(p, Step(p, s, acts[0]), i, acts[1..]);
    }
  }

  lemma StillLost<T>(p: Pipeline<T>, s: State<T>, i: nat, a: Action<T>)
    requires Fits(p, s) && StopLost(p, s, i)
    ensures StopLost(p, Step(p, s, a), i)
  {
    hide Inv, Applied, Flow;
    OneStepKeeps(p, s, a);
    Known(p, s, i);
  }

  /** A read that may fail does so, at the latest once the driver makes it. */
  lemma {:induction false} ReadFails<T>(p: Pipeline<T>, s: State<T>, x: T) returns (t: State<T>, acts: seq<Action<T>>)
    requires Fits(p, s) && Inv(p, s) && s.main == Joining(0) && !Told(p, s, 0) && p.fails[0]
    ensures t == Run(p, s, acts) && Leaving(p, t, 0)
    decreases match s.pcs[0]
              case NotBegun => 5 case Holding(_) => 4 case Starting => 3 case AtClock => 2 case AtLoop => 2
              case Sleeping => 1 case _ => 0
  {
    hide Inv, Flow, Applied;
    Known(p, s, 0);
    if s.pcs[0].AtDequeue? {
      t, acts := OneMore(p, s, Fails(0));
    } else {
      var u, first := OneMore(p, s, Stage(0, x, 0));
      var rest;
      t, rest := ReadFails(p, u, x);
      acts := first + rest;
      RunConcat(p, s, first, rest);
    }
  }

  /** So does a write, if there is still something to write. */
  lemma {:induction false} WriteFails<T>(p: Pipeline<T>, s: State<T>, x: T, i: nat)
    returns (t: State<T>, acts: seq<Action<T>>)
    requires Fits(p, s) && Inv(p, s) && 0 < i < |s.pcs| && s.main == Joining(i) && !Told(p, s, i) && p.fails[i]
    requires s.pcs[i].Holding? || Left(s, i) > 0
    ensures t == Run(p, s, acts) && Leaving(p, t, i)
    decreases match s.pcs[i] case NotBegun => 3 case AtLoop => 2 case AtDequeue => 1 case _ => 0
  {
    hide Inv, Flow, Applied;
    Known(p, s, i);
    if s.pcs[i].Holding? {
      t, acts := OneMore(p, s, Fails(i));
    } else {
      var u, first := OneMore(p, s, Stage(i, x, 0));
      var rest;
      t, rest := WriteFails(p, u, x, i);
      acts := first + rest;
      RunConcat(p, s, first, rest);
    }
  }

  /** A read comes to its end when the start time has passed before it, or when the monitor
      time is over. */
  lemma {:induction false} TimePasses<T>(p: Pipeline<T>, s: State<T>, x: T) returns (t: State<T>, acts: seq<Action<T>>)
    requires Fits(p, s) && Inv(p, s) && s.main == Joining(0) && !Told(p, s, 0) && p.driver.Streaming?
    requires p.driver.monitored || (p.driver.scheduled && (s.pcs[0].NotBegun? || s.pcs[0].Starting?))
    ensures t == Run(p, s, acts) && Leaving(p, t, 0)
    decreases match s.pcs[0]
              case NotBegun => 5 case Starting => 4 case Sleeping => 3 case AtDequeue => 2 case Holding(_) => 1
              case _ => 0
  {
    hide Inv, Flow, Applied;
    Known(p, s, 0);
    if Allowed(p, s, TimeIsUp) {
      t, acts := OneMore(p, s, TimeIsUp);
    } else {
      var u, first := OneMore(p, s, Stage(0, x, 0));
      var rest;
      t, rest := TimePasses(p, u, x);
      acts := first + rest;
      RunConcat(p, s, first, rest);
    }
  }

  lemma OneMore<T>(p: Pipeline<T>, s: State<T>, a: Action<T>) returns (t: State<T>, acts: seq<Action<T>>)
    requires Fits(p, s) && Inv(p, s)
    ensures t == Step(p, s, a) == Run(p, s, acts) && Inv(p, t)
  {
    hide Inv, Step;
    OneStepKeeps(p, s, a);
    t, acts := Step(p, s, a), [a];
    assert acts[1..] == [];
  }

  lemma EndsByItself<T>(p: Pipeline<T>, s: State<T>, x: T, i: nat) returns (t: State<T>, acts: seq<Action<T>>)
    requires Fits(p, s) && Inv(p, s) && i < |s.pcs| && s.main == Joining(i) && !Told(p, s, i) && MayEnd(p, s, i)
    ensures t == Run(p, s, acts) && Leaving(p, t, i)
  {
    hide Inv, Run, Leaving;
    if i > 0 {
      t, acts := WriteFails(p, s, x, i);
    } else if p.fails[0] {
      t, acts := ReadFails(p, s, x);
    } else {
      t, acts := TimePasses(p, s, x);
    }
  }

  /** A join that is not lost can return. */
  lemma JoinReturns<T>(p: Pipeline<T>, s: State<T>, x: T, i: nat) returns (acts: seq<Action<T>>)
    requires Fits(p, s) && Inv(p, s) && i < |s.pcs| && s.main == Joining(i) && (Told(p, s, i) || MayEnd(p, s, i))
    ensures Run(p, s, acts).main == Stopping(i + 1) && Inv(p, Run(p, s, acts))
  {
    hide Inv, Run, MayEnd, Told;
    if Told(p, s, i) {
      acts := Leaves(p, s, x, i);
    } else {
      var t, first := EndsByItself(p, s, x, i);
      var rest := Leaves(p, t, x, i);
      acts := first + rest;
      RunConcat(p, s, first, rest);
    }
  }

  /** The join of any thread can return if and only if the thread was told to stop in time,
      or may still end by itself. */
  lemma JoinReturnsExactlyWhen<T(!new)>(p: Pipeline<T>, s: State<T>, x: T, i: nat)
    requires Fits(p, s) && Inv(p, s) && i < |s.pcs| && s.main == Joining(i)
    ensures (exists acts: seq<Action<T>> :: Run(p, s, acts).main == Stopping(i + 1)) <==>
            Told(p, s, i) || MayEnd(p, s, i)
  {
    hide Inv, Run, Told, MayEnd;
    if Told(p, s, i) || MayEnd(p, s, i) {
      var acts := JoinReturns(p, s, x, i);
    } else {
      forall acts: seq<Action<T>>
        ensures Run(p, s, acts).main == Joining(i)
      {
        WaitsForEver(p, s, i, acts);
      }
    }
  }

  /** A call of stop that came now would reach the thread of stage `i`: it has begun; a
      streaming driver has begun to read. */
  predicate Listens<T>(p: Pipeline<T>, s: State<T>, i: nat)
    requires i < |s.pcs|
  {
    if i == 0 && p.driver.Streaming? then Reading(s.pcs[0]) || s.pcs[0].Exited? else !s.pcs[i].NotBegun?
  }

  /** Seen from the call of stop: it can return if and only if it reaches the thread, or the
      thread may still end by itself. */
  lemma StopReturnsExactlyWhen<T(!new)>(p: Pipeline<T>, s: State<T>, x: T, i: nat)
    requires Fits(p, s) && Inv(p, s) && i < |s.pcs| && s.main == Stopping(i)
    ensures Fits(p, MainStep(p, s))
    ensures (exists acts: seq<Action<T>> :: Run(p, MainStep(p, s), acts).main == Stopping(i + 1)) <==>
            Listens(p, s, i) || MayEnd(p, s, i)
  {
    hide Inv, Run;
    OneStepKeeps(p, s, MainThread);
    StopTells(p, s, i);
    JoinReturnsExactlyWhen(p, MainStep(p, s), x, i);
  }

  /** For the driver: always, if a read may fail. Otherwise the one that polls must have
      begun; the one that streams must have begun to read, or read for a limited time, or
      still find that the start time is past. */
  lemma DriverStopReturnsExactlyWhen<T(!new)>(p: Pipeline<T>, s: State<T>, x: T)
    requires Fits(p, s) && Inv(p, s) && s.main == Stopping(0)
    ensures Fits(p, MainStep(p, s))
    ensures (exists acts: seq<Action<T>> :: Run(p, MainStep(p, s), acts).main == Stopping(1)) <==>
            || p.fails[0]
            || (match p.driver
                case Polling => !s.pcs[0].NotBegun?
                case Streaming(scheduled, monitored, _) =>
                  || Reading(s.pcs[0]) || s.pcs[0].Exited? || monitored
                  || (scheduled && (s.pcs[0].NotBegun? || s.pcs[0].Starting?)))
  {
    hide Inv, Run;
    StopReturnsExactlyWhen(p, s, x, 0);
  }

  lemma StopTells<T>(p: Pipeline<T>, s: State<T>, i: nat)
    requires Fits(p, s) && Inv(p, s) && i < |s.pcs| && s.main == Stopping(i)
    ensures var t := MainStep(p, s);
            && Fits(p, t) && t.main == Joining(i) && (Told(p, t, i) <==> Listens(p, s, i))
            && (MayEnd(p, t, i) <==> MayEnd(p, s, i))
  {
    hide Inv, Flow;
    Known(p, s, i);
  }

  // ---- The whole of finish_ok ------------------------------------------------------

  /** The thread of stage `i` gets to where a stop reaches it. */
  lemma {:induction false} Begins<T>(p: Pipeline<T>, s: State<T>, x: T, i: nat)
    returns (t: State<T>, acts: seq<Action<T>>)
    requires Fits(p, s) && Inv(p, s) && i < |s.pcs|
    ensures t == Run(p, s, acts) && Inv(p, t) && t.main == s.main && Listens(p, t, i)
    decreases match s.pcs[i] case NotBegun => 3 case Starting => 2 case Sleeping => 1 case _ => 0
  {
    hide Inv, Flow, Applied;
    Known(p, s, i);
    if Listens(p, s, i) {
      t, acts := s, [];
    } else {
      var u, first := OneMore(p, s, Stage(i, x, 0));
      var rest;
      t, rest := Begins(p, u, x, i);
      acts := first + rest;
      RunConcat(p, s, first, rest);
    }
  }

  /** From the stop of thread `k` on finish_ok can return, wherever the threads are. */
  lemma {:induction false} FinishReturns<T>(p: Pipeline<T>, s: State<T>, x: T, k: nat) returns (acts: seq<Action<T>>)
    requires Fits(p, s) && Inv(p, s) && k <= |s.pcs| && s.main == Stopping(k)
    ensures Run(p, s, acts).main.Returned?
    decreases |s.pcs| - k
  {
    hide Inv, Run, Step, Told, Listens, MayEnd;
    if k == |s.pcs| {
      var t;
      t, acts := OneMore(p, s, MainThread);
      MainIsMain(p, s);
    } else {
      var t, a := Begins(p, s, x, k);
      var u, b := OneMore(p, t, MainThread);
      MainIsMain(p, t);
      StopTells(p, t, k);
      var c := JoinReturns(p, u, x, k);
      var d := FinishReturns(p, Run(p, u, c), x, k + 1);
      RunConcat(p, s, a, b);
      RunConcat(p, s, a + b, c);
      RunConcat(p, s, a + b + c, d);
      acts := a + b + c + d;
    }
  }

  lemma MainIsMain<T>(p: Pipeline<T>, s: State<T>)
    requires Fits(p, s)
    ensures Step(p, s, MainThread) == MainStep(p, s)
  {
  }

  /** Wherever main and the threads are: finish_ok can return if and only if main is not
      waiting for a thread that was told too early and will not end otherwise. */
  lemma FinishReturnsExactlyWhen<T(!new)>(p: Pipeline<T>, s: State<T>, x: T)
    requires Fits(p, s) && Inv(p, s)
    ensures (exists acts: seq<Action<T>> :: Run(p, s, acts).main.Returned?) <==>
            !(s.main.Joining? && StopLost(p, s, s.main.k))
  {
    hide Inv, Run;
    if s.main.Joining? && StopLost(p, s, s.main.k) {
      forall acts: seq<Action<T>>
        ensures !Run(p, s, acts).main.Returned?
      {
        WaitsForEver(p, s, s.main.k, acts);
      }
    } else {
      var acts := FinishReturnsFrom(p, s, x);
    }
  }

  lemma FinishReturnsFrom<T>(p: Pipeline<T>, s: State<T>, x: T) returns (acts: seq<Action<T>>)
    requires Fits(p, s) && Inv(p, s) && !(s.main.Joining? && StopLost(p, s, s.main.k))
    ensures Run(p, s, acts).main.Returned?
  {
    hide Inv, Run, Step, MayEnd, Told;
    MainIsMain(p, s);
    var t, first := OneMore(p, s, MainThread);
    match s.main
    case Up =>
      var rest := FinishReturns(p, t, x, 0);
      acts := first + rest;
      RunConcat(p, s, first, rest);
    case Stopping(k) =>
      acts := FinishReturnsBeyond(p, s, x, k);
    case Joining(k) =>
      InRange(p, s);
      first := JoinReturns(p, s, x, k);
      var rest := FinishReturns(p, Run(p, s, first), x, k + 1);
      acts := first + rest;
      RunConcat(p, s, first, rest);
    case Returned =>
      acts := first;
  }

  lemma InRange<T>(p: Pipeline<T>, s: State<T>)
    requires Inv(p, s) && s.main.Joining?
    ensures s.main.k < |s.pcs|
  {
  }

  lemma FinishReturnsBeyond<T>(p: Pipeline<T>, s: State<T>, x: T, k: nat) returns (acts: seq<Action<T>>)
    requires Fits(p, s) && Inv(p, s) && s.main == Stopping(k)
    ensures Run(p, s, acts).main.Returned?
  {
    hide Inv, Run, Step;
    if k <= |s.pcs| {
      acts := FinishReturns(p, s, x, k);
    } else {
      var t;
      t, acts := OneMore(p, s, MainThread);
      MainIsMain(p, s);
    }
  }

  /** A stop reaches every thread, or has reached it. */
  ghost predicate AllListen<T>(p: Pipeline<T>, s: State<T>)
    requires Fits(p, s)
  {
    forall i :: 0 <= i < |s.pcs| ==> if Signalled(s.main, i) then Told(p, s, i) else Listens(p, s, i)
  }

  lemma StillListen<T>(p: Pipeline<T>, s: State<T>, a: Action<T>)
    requires Fits(p, s) && Inv(p, s) && AllListen(p, s)
    ensures AllListen(p, Step(p, s, a))
  {
    hide Inv, Flow, Applied;
    var t := Step(p, s, a);
    Known(p, s, 0);
    forall i | 0 <= i < |t.pcs|
      ensures if Signalled(t.main, i) then Told(p, t, i) else Listens(p, t, i)
    {
      assert if Signalled(s.main, i) then Told(p, s, i) else Listens(p, s, i);
    }
  }

  lemma {:induction false} RunListens<T>(p: Pipeline<T>, s: State<T>, acts: seq<Action<T>>)
    requires Fits(p, s) && Inv(p, s) && AllListen(p, s)
    ensures Inv(p, Run(p, s, acts)) && AllListen(p, Run(p, s, acts))
    decreases |acts|
  {
    hide Inv, Step, AllListen;
    if acts != [] {
      OneStepKeeps(p, s, acts[0]);
      StillListen(p, s, acts[0]);
      RunListens(p, Step(p, s, acts[0]), acts[1..]);
    }
  }

  /** Once the threads have begun, and a streaming driver reads, no stop is lost any more:
      from wherever a run leads, finish_ok can return. */
  lemma FinishCanAlwaysReturn<T>(p: Pipeline<T>, s: State<T>, x: T, acts: seq<Action<T>>) returns (more: seq<Action<T>>)
    requires Fits(p, s) && Inv(p, s) && AllListen(p, s)
    ensures Run(p, s, acts + more).main.Returned?
  {
    hide Inv, Run, Told, MayEnd;
    RunListens(p, s, acts);
    var t := Run(p, s, acts);
    if t.main.Joining? {
      InRange(p, t);
    }
    more := FinishReturnsFrom(p, t, x);
    RunConcat(p, s, acts, more);
  }

  /** A run leads there from the start. */
  lemma AllListenReached<T>(p: Pipeline<T>, x: T) returns (t: State<T>, acts: seq<Action<T>>)
    requires 1 <= |p.drains| == |p.fails|
    ensures Fits(p, Init(|p.drains|)) && t == Run(p, Init(|p.drains|), acts) && Inv(p, t) && AllListen(p, t)
  {
    hide Inv, Run, Step;
    t, acts := BeginAll(p, x, |p.drains|);
    InitInv(p);
    RunKeeps(p, Init(|p.drains|), acts);
    forall i | 0 <= i < |t.pcs|
      ensures !Signalled(t.main, i) && Listens(p, t, i)
    {
      assert AtHome(p, t, i);
    }
  }

  // ---- The stop that comes too early can happen ------------------------------------

  /** Main is about to stop stage `i`, and from there on no thread has begun. */
  ghost predicate Early<T>(p: Pipeline<T>, s: State<T>, i: nat) {
    && Fits(p, s) && i < |s.pcs| && s.main == Stopping(i)
    && (forall j :: i <= j < |s.pcs| ==> s.pcs[j].NotBegun?)
    && (forall j :: 0 <= j < |s.pcs| ==> s.taken[j] == 0 && s.enq[j] == [])
    && (i > 0 ==> s.pcs[i - 1].Exited?)
  }

  lemma InitEarly<T>(p: Pipeline<T>) returns (t: State<T>, acts: seq<Action<T>>)
    requires 1 <= |p.drains| == |p.fails|
    ensures Fits(p, Init(|p.drains|)) && t == Run(p, Init(|p.drains|), acts) && Early(p, t, 0)
  {
    hide Step;
    var s0 := Init(|p.drains|);
    t, acts := Then(p, s0, s0, [], MainThread);
  }

  /** Stage `i` begins and is stopped. */
  lemma StageTold<T>(p: Pipeline<T>, s: State<T>, x: T, i: nat) returns (t: State<T>, acts: seq<Action<T>>)
    requires Fits(p, s) && i < |s.pcs| && !(i == 0 && p.driver.Streaming?)
    requires s.pcs[i].NotBegun? && s.main == Stopping(i)
    ensures t == Run(p, s, acts)
    ensures t == s.(pcs := s.pcs[i := AtLoop], running := s.running[i := false], main := Joining(i))
  {
    hide Step, StreamStep;
    t, acts := Then(p, s, s, [], Stage(i, x, 0));
    t, acts := Then(p, s, t, acts, MainThread);
    assert s.running[i := true][i := false] == s.running[i := false];
  }

  /** Stage `i`, told to stop, leaves. */
  lemma StageGone<T>(p: Pipeline<T>, s: State<T>, x: T, i: nat) returns (t: State<T>, acts: seq<Action<T>>)
    requires Fits(p, s) && i < |s.pcs| && !(i == 0 && p.driver.Streaming?)
    requires s.pcs[i].AtLoop? && !s.running[i] && s.main == Joining(i) && (i > 0 ==> Left(s, i) == 0)
    ensures t == Run(p, s, acts) && t == s.(pcs := s.pcs[i := Exited], main := Stopping(i + 1))
  {
    hide Step, StreamStep;
    var go := Stage(i, x, 0);
    t, acts := Then(p, s, s, [], go);
    if i > 0 && p.drains[i] {
      t, acts := Then(p, s, t, acts, go);
    }
    assert t.pcs == s.pcs[i := Exited];
    t, acts := Then(p, s, t, acts, MainThread);
  }

  /** Stage `i` begins, is stopped and leaves. */
  lemma StagePassed<T>(p: Pipeline<T>, s: State<T>, x: T, i: nat) returns (t: State<T>, acts: seq<Action<T>>)
    requires Early(p, s, i) && i + 1 < |s.pcs| && !(i == 0 && p.driver.Streaming?)
    ensures t == Run(p, s, acts) && Early(p, t, i + 1)
  {
    hide Run;
    var u, first := StageTold(p, s, x, i);
    var rest;
    t, rest := StageGone(p, u, x, i);
    acts := first + rest;
    RunConcat(p, s, first, rest);
  }

  /** A streaming driver begins to read, is cancelled and leaves. */
  lemma StreamPassed<T>(p: Pipeline<T>, s: State<T>, x: T) returns (t: State<T>, acts: seq<Action<T>>)
    requires Early(p, s, 0) && 1 < |s.pcs| && p.driver.Streaming? && s.cancel.NotCancelled?
    ensures t == Run(p, s, acts) && Early(p, t, 1)
  {
    hide Step;
    var go := Stage(0, x, 0);
    t, acts := Then(p, s, s, [], go);
    t, acts := StartsReading(p, s, x, t, acts);
    t, acts := Then(p, s, t, acts, MainThread);
    t, acts := Then(p, s, t, acts, go);
    t, acts := Then(p, s, t, acts, MainThread);
  }

  lemma {:induction false} EarlyReached<T>(p: Pipeline<T>, x: T, i: nat) returns (t: State<T>, acts: seq<Action<T>>)
    requires i < |p.drains| == |p.fails|
    ensures Fits(p, Init(|p.drains|)) && t == Run(p, Init(|p.drains|), acts) && Early(p, t, i)
    ensures Fits(p, t) && Inv(p, t)
  {
    hide Step, Run, Early, Inv;
    var s0 := Init(|p.drains|);
    if i == 0 {
      t, acts := InitEarly(p);
    } else {
      var u, first := EarlyReached(p, x, i - 1);
      var rest;
      EarlyIs(p, u, i - 1);
      if i == 1 && p.driver.Streaming? {
        t, rest := StreamPassed(p, u, x);
      } else {
        t, rest := StagePassed(p, u, x, i - 1);
      }
      acts := first + rest;
      RunConcat(p, s0, first, rest);
    }
    InitInv(p);
    RunKeeps(p, s0, acts);
  }

  lemma EarlyIs<T>(p: Pipeline<T>, s: State<T>, i: nat)
    requires Early(p, s, i) && Inv(p, s)
    ensures Fits(p, s) && s.pcs[i].NotBegun? && (i == 0 && p.driver.Streaming? ==> s.cancel.NotCancelled?)
  {
    hide Inv, Flow;
    Known(p, s, i);
  }

  /** Every thread can be the one that main waits for, for ever, but for a driver whose read
      may fail or takes a limited time only. */
  lemma LostStopReachedExactlyWhen<T(!new)>(p: Pipeline<T>, x: T, i: nat)
    requires i < |p.drains| == |p.fails|
    ensures Fits(p, Init(|p.drains|))
    ensures (exists acts: seq<Action<T>> :: StopLost(p, Run(p, Init(|p.drains|), acts), i)) <==>
            (i == 0 ==> !p.fails[0] && !(p.driver.Streaming? && p.driver.monitored))
  {
    hide Inv, Init, Run;
    InitFits(p);
    if i == 0 ==> !p.fails[0] && !(p.driver.Streaming? && p.driver.monitored) {
      var acts := LostStopReached(p, x, i);
    }
  }

  lemma LostStopReached<T>(p: Pipeline<T>, x: T, i: nat) returns (acts: seq<Action<T>>)
    requires i < |p.drains| == |p.fails|
    requires i == 0 ==> !p.fails[0] && !(p.driver.Streaming? && p.driver.monitored)
    ensures Fits(p, Init(|p.drains|)) && StopLost(p, Run(p, Init(|p.drains|), acts), i)
  {
    hide Step, Inv, Run, Early, Init;
    var s0 := Init(|p.drains|);
    var s, early := EarlyReached(p, x, i);
    var t, rest := StopsEarly(p, s, x, i);
    acts := early + rest;
    RunConcat(p, s0, early, rest);
    InitInv(p);
    RunKeeps(p, s0, acts);
  }

  /** Main stops a thread that has not begun, or a driver that waits for the start time. */
  lemma StopsEarly<T>(p: Pipeline<T>, s: State<T>, x: T, i: nat) returns (t: State<T>, acts: seq<Action<T>>)
    requires Early(p, s, i) && Inv(p, s) && Fits(p, s)
    requires i == 0 ==> !p.fails[0] && !(p.driver.Streaming? && p.driver.monitored)
    ensures Fits(p, s) && t == Run(p, s, acts) && StopLost(p, t, i)
  {
    hide Step, Inv;
    EarlyIs(p, s, i);
    t, acts := s, [];
    if i == 0 && p.driver.Streaming? && p.driver.scheduled {
      t, acts := Then(p, s, t, acts, Stage(0, x, 0));
      t, acts := Then(p, s, t, acts, Stage(0, x, 0));
    }
    t, acts := Then(p, s, t, acts, MainThread);
    RunKeeps(p, s, acts);
  }
}
