/** LightweightSemaphore as a step system: one waiter, any number of signallers, each
    access to the shared count or to the kernel semaphore being one step. */
module Semaphore {

  /** tryWait, wait() and wait(timeout); a negative timeout is wait(). */
  datatype Mode = Poll | Forever | Timed

  datatype Waiter =
    | WIdle
    | WTry(mode: Mode)
    | WTake(mode: Mode)
    | WSpin(mode: Mode, spin: nat)
    | WSleep
    | WTimedSleep
    | WRestore
    | WRetry
    | WTryKernel
    | WDone(ok: bool)

  /** `pending` signallers have raised the count and are about to post to the kernel
      semaphore. `signals` and `waits` count the permits handed out and taken. */
  datatype Sem = Sem(count: int, kernel: nat, pending: nat, waiter: Waiter, signals: nat, waits: nat)

  datatype Action =
    | Signal(n: nat)
    | Post
    | Wait(mode: Mode, timedOut: bool)

  const SPINS: nat := 10000

  function Init(initialCount: nat): Sem {
    Sem(initialCount, 0, 0, WIdle, initialCount, 0)
  }

  function Step(s: Sem, a: Action): Sem {
    match a
    case Signal(n) =>
      s.(count := s.count + n, signals := s.signals + n, pending := if s.count < 0 then s.pending + 1 else s.pending)
    case Post => if s.pending == 0 then s else s.(pending := s.pending - 1, kernel := s.kernel + 1)
    case Wait(mode, timedOut) => WaiterStep(s, mode, timedOut)
  }

  function WaiterStep(s: Sem, mode: Mode, timedOut: bool): Sem {
    match s.waiter
    case WIdle => s.(waiter := WTry(mode))
    case WTry(m) =>
      s.(waiter := if s.count > 0 then WTake(m) else if m == Poll then WDone(false) else WSpin(m, SPINS))
    case WTake(m) => s.(count := s.count - 1, waiter := WDone(true), waits := s.waits + 1)
    case WSpin(m, spin) =>
      if spin > 0 then s.(waiter := if s.count > 0 then WTake(m) else WSpin(m, spin - 1))
      else if s.count > 0 then s.(count := s.count - 1, waiter := WDone(true), waits := s.waits + 1)
      else s.(count := s.count - 1, waiter := if m == Timed then WTimedSleep else WSleep)
    case WSleep => if s.kernel == 0 then s else Woken(s)
    case WTimedSleep => if timedOut then s.(waiter := WRestore) else if s.kernel == 0 then s else Woken(s)
    case WRestore => s.(count := s.count + 1, waiter := if s.count < 0 then WDone(false) else WRetry)
    case WRetry => s.(count := s.count - 1, waiter := if s.count > 0 then WTryKernel else WRestore)
    case WTryKernel => if s.kernel == 0 then s.(waiter := WRestore) else Woken(s)
    case WDone(_) => s.(waiter := WIdle)
  }

  function Woken(s: Sem): Sem
    requires s.kernel > 0
  {
    s.(kernel := s.kernel - 1, waiter := WDone(true), waits := s.waits + 1)
  }

  /** Whether the waiter has lowered the count ahead of a permit. */
  function Debt(w: Waiter): int {
    if w.WSleep? || w.WTimedSleep? || w.WRestore? || w.WTryKernel? then 1 else 0
  }

  /** Permits are conserved. A waiter in debt finds a kernel post, or one on its way,
      exactly when the count says that its permit has arrived; nobody else finds one. */
  ghost predicate Inv(s: Sem) {
    && s.count + Debt(s.waiter) == s.signals - s.waits
    && (if Debt(s.waiter) == 0
        then s.count >= 0 && s.kernel + s.pending == (if s.waiter.WRetry? then 1 else 0)
        else s.count >= -1 && s.kernel + s.pending == (if s.count == -1 then 0 else 1))
    && (s.waiter.WTake? || s.waiter.WRetry? ==> s.count > 0)
    && (s.waiter.WTryKernel? ==> s.count >= 0)
  }

  /** Calls that hand out at least one permit each. */
  predicate Proper(a: Action) {
    a.Signal? ==> a.n >= 1
  }

  lemma StepKeeps(s: Sem, a: Action)
    requires Inv(s) && Proper(a)
    ensures Inv(Step(s, a))
  {
  }

  /** signal(0) is admitted by the source, and is harmless unless the waiter is in debt
      with no permit on its way: then it wakes it without one. */
  lemma SignalKeepsExactlyWhen(s: Sem, n: nat)
    requires Inv(s)
    ensures Inv(Step(s, Signal(n))) <==> n >= 1 || s.count >= 0
  {
  }

  function Run(s: Sem, acts: seq<Action>): Sem
    decreases |acts|
  {
    if acts == [] then s else Run(Step(s, acts[0]), acts[1..])
  }

  lemma {:induction false} RunKeeps(s: Sem, acts: seq<Action>)
    requires Inv(s) && forall i :: 0 <= i < |acts| ==> Proper(acts[i])
    ensures Inv(Run(s, acts))
    decreases |acts|
  {
    if acts != [] {
      assert Proper(acts[0]);
      StepKeeps(s, acts[0]);
      forall i | 0 <= i < |acts[1..]|
        ensures Proper(acts[1..][i])
      {
        assert acts[1..][i] == acts[i + 1];
      }
      RunKeeps(Step(s, acts[0]), acts[1..]);
    }
  }

  /** In every interleaving: successful waits never exceed signals; the count never drops
      below -1, which is what signal asserts of the value it replaces; and no more than
      one kernel post is ever outstanding. */
  lemma EveryInterleaving(initialCount: nat, acts: seq<Action>)
    requires forall i :: 0 <= i < |acts| ==> Proper(acts[i])
    ensures var s := Run(Init(initialCount), acts);
            s.waits <= s.signals && s.count >= -1 && s.kernel + s.pending <= 1
  {
    RunKeeps(Init(initialCount), acts);
  }

  /** Between calls the count is exactly the permits handed out and not taken, so a wait
      that timed out has left them as they were; and no kernel post is left over. */
  lemma BetweenCalls(initialCount: nat, acts: seq<Action>)
    requires forall i :: 0 <= i < |acts| ==> Proper(acts[i])
    ensures var s := Run(Init(initialCount), acts);
            s.waiter.WIdle? || s.waiter.WDone? ==>
              s.count == s.signals - s.waits && s.kernel == 0 && s.pending == 0
  {
    RunKeeps(Init(initialCount), acts);
  }

  /** Where the waiter takes back its restored count (the fetch_add before try_wait), the
      value it replaces is always positive. */
  lemma RetrySeesAPermit(initialCount: nat, acts: seq<Action>)
    requires forall i :: 0 <= i < |acts| ==> Proper(acts[i])
    ensures var s := Run(Init(initialCount), acts); s.waiter.WRetry? ==> s.count > 0
  {
    RunKeeps(Init(initialCount), acts);
  }

  /** No wake-up is lost: a waiter asleep with nothing posted and nothing about to be
      posted has indeed no permit to take. */
  lemma SleeperHasNoPermit(initialCount: nat, acts: seq<Action>)
    requires forall i :: 0 <= i < |acts| ==> Proper(acts[i])
    ensures var s := Run(Init(initialCount), acts);
            (s.waiter.WSleep? || s.waiter.WTimedSleep?) && s.kernel == 0 && s.pending == 0 ==> s.signals == s.waits
  {
    RunKeeps(Init(initialCount), acts);
  }

  lemma {:induction false} RunAppend(s: Sem, a: seq<Action>, b: seq<Action>)
    ensures Run(s, a + b) == Run(Run(s, a), b)
    decreases |a|
  {
    if a == [] {
      assert a + b == b;
    } else {
      assert (a + b)[1..] == a[1..] + b;
      RunAppend(Step(s, a[0]), a[1..], b);
    }
  }

  /** With no permit in sight the waiter spins and then falls asleep. */
  lemma {:induction false} FallsAsleep(s: Sem, spin: nat) returns (acts: seq<Action>)
    requires s.count == 0 && s.waiter == WSpin(Forever, spin)
    ensures Run(s, acts) == s.(count := -1, waiter := WSleep) && forall i :: 0 <= i < |acts| ==> Proper(acts[i])
    decreases spin
  {
    var a := Wait(Forever, false);
    RunOne(s, a);
    if spin == 0 {
      acts := [a];
    } else {
      acts := FallsAsleep(Step(s, a), spin - 1);
      RunAppend(s, [a], acts);
      acts := [a] + acts;
    }
  }

  lemma RunOne(s: Sem, a: Action)
    ensures Run(s, [a]) == Step(s, a)
  {
    assert [a][1..] == [];
  }

  lemma Then(s: Sem, acts: seq<Action>, a: Action)
    ensures Run(s, acts + [a]) == Step(Run(s, acts), a)
  {
    RunAppend(s, acts, [a]);
    RunOne(Run(s, acts), a);
  }

  /** A run of proper steps, built up one by one. */
  ghost predicate Leads(s: Sem, acts: seq<Action>, t: Sem) {
    t == Run(s, acts) && forall i :: 0 <= i < |acts| ==> Proper(acts[i])
  }

  lemma Next(s: Sem, acts: seq<Action>, t: Sem, a: Action) returns (acts': seq<Action>, t': Sem)
    requires Leads(s, acts, t) && Proper(a)
    ensures Leads(s, acts', t') && t' == Step(t, a)
  {
    Then(s, acts, a);
    acts', t' := acts + [a], Step(t, a);
  }

  /** An idle waiter that finds no permit falls asleep. */
  lemma SleepsFromIdle(s: Sem, acts: seq<Action>, t: Sem) returns (acts': seq<Action>, t': Sem)
    requires Leads(s, acts, t) && t.waiter == WIdle && t.count == 0
    ensures Leads(s, acts', t') && t' == t.(count := -1, waiter := WSleep)
  {
    hide Run;
    acts', t' := Next(s, acts, t, Wait(Forever, false));
    acts', t' := Next(s, acts', t', Wait(Forever, false));
    var spins := FallsAsleep(t', SPINS);
    RunAppend(s, acts', spins);
    acts', t' := acts' + spins, Run(t', spins);
  }

  /** A kernel post without a permit behind it is found by a waiter sooner or later. */
  lemma PostIsFound(s: Sem, acts: seq<Action>, t: Sem) returns (acts': seq<Action>, t': Sem)
    requires Leads(s, acts, t) && t.kernel > 0 && t.signals == t.waits && t.count == -1
    requires t.waiter.WSleep? || t.waiter.WTimedSleep? || t.waiter.WRestore? || t.waiter.WTryKernel?
    ensures Leads(s, acts', t') && t'.waits > t'.signals
  {
    hide Leads;
    var w := Wait(Forever, false);
    acts', t' := acts, t;
    if t.waiter.WRestore? {
      acts', t' := Next(s, acts', t', w);
      acts', t' := Next(s, acts', t', w);
      acts', t' := SleepsFromIdle(s, acts', t');
    }
    acts', t' := Next(s, acts', t', w);
  }

  ghost predicate AllProper(acts: seq<Action>) {
    forall i :: 0 <= i < |acts| ==> Proper(acts[i])
  }

  /** From any state the invariant allows, signal(n) is safe, in that no run after it makes
      more waits succeed than permits were handed out, if and only if n is positive or the
      count is not negative. */
  lemma SignalIsSafeExactlyWhen(s: Sem, n: nat)
    requires Inv(s)
    ensures (forall more | AllProper(more) ::
               Run(Step(s, Signal(n)), more).waits <= Run(Step(s, Signal(n)), more).signals) <==>
            n >= 1 || s.count >= 0
  {
    hide Run, Inv;
    SignalKeepsExactlyWhen(s, n);
    var t := Step(s, Signal(n));
    if n >= 1 || s.count >= 0 {
      forall more | AllProper(more)
        ensures Run(t, more).waits <= Run(t, more).signals
      {
        RunKeeps(t, more);
        WithinSignals(Run(t, more));
      }
    } else {
      InDebt(s);
      var acts, u := NothingDone(t);
      acts, u := Next(t, acts, u, Post);
      acts, u := PostIsFound(t, acts, u);
      assert AllProper(acts);
    }
  }

  lemma NothingDone(s: Sem) returns (acts: seq<Action>, t: Sem)
    ensures Leads(s, acts, t) && t == s
  {
    acts, t := [], s;
  }

  lemma WithinSignals(s: Sem)
    requires Inv(s)
    ensures s.waits <= s.signals
  {
  }

  /** With the count below zero a waiter is in debt and no permit is left for it. */
  lemma InDebt(s: Sem)
    requires Inv(s) && s.count < 0
    ensures s.count == -1 && s.signals == s.waits && s.kernel == s.pending == 0 && Debt(s.waiter) == 1
  {
  }

  /** In a run: a wait that nobody signalled succeeds. */
  lemma SignalZeroGivesAwayAPermit() returns (acts: seq<Action>)
    ensures var s := Run(Init(0), acts); s.waiter == WDone(true) && s.signals == 0 && s.waits == 1
  {
    hide Run;
    var w := Wait(Forever, false);
    var t;
    acts, t := NothingDone(Init(0));
    acts, t := SleepsFromIdle(Init(0), acts, t);
    Then(Init(0), acts, Signal(0));
    acts := acts + [Signal(0)];
    Then(Init(0), acts, Post);
    acts := acts + [Post];
    Then(Init(0), acts, w);
    acts := acts + [w];
  }

  // ---- Calls come to an end --------------------------------------------------------

  /** How many steps of its own the waiter is from the end of its call. */
  function Rank(w: Waiter): nat {
    match w
    case WIdle => 0
    case WDone(_) => 0
    case WTake(_) => 1
    case WSleep => 1
    case WTryKernel => 1
    case WRetry => 2
    case WRestore => 3
    case WTimedSleep => 4
    case WSpin(_, spin) => 5 + spin
    case WTry(_) => 6 + SPINS
  }

  predicate InCall(w: Waiter) {
    !w.WIdle? && !w.WDone?
  }

  /** The kernel keeps the waiter asleep. */
  predicate Blocked(s: Sem, a: Action) {
    a.Wait? && s.kernel == 0 && (s.waiter.WSleep? || (s.waiter.WTimedSleep? && !a.timedOut))
  }

  /** After its timeout the waiter has found its permit counted, and tries the kernel
      semaphore before the post that goes with it. */
  predicate TriesTooSoon(s: Sem, a: Action) {
    a.Wait? && s.kernel == 0 && s.waiter.WTryKernel?
  }

  /** Signallers leave a call where it is, and each step of its own brings it nearer its
      end, but for two kinds: while blocked it stays, with no permit left or with a post on
      its way; and one that tries too soon, which a post on its way explains as well, goes
      round again. */
  lemma WaitProgress(s: Sem, a: Action)
    requires Inv(s) && InCall(s.waiter)
    ensures !a.Wait? ==> Step(s, a).waiter == s.waiter
    ensures Blocked(s, a) ==> Step(s, a) == s && (s.pending == 1 || s.signals == s.waits)
    ensures TriesTooSoon(s, a) ==> s.pending == 1 && Rank(Step(s, a).waiter) == 3
    ensures a.Wait? && !Blocked(s, a) && !TriesTooSoon(s, a) ==> Rank(Step(s, a).waiter) < Rank(s.waiter)
  {
  }

  /** The call will end with a permit: it is at hand, or the kernel holds its post. */
  predicate Promised(s: Sem) {
    match s.waiter
    case WIdle => false
    case WDone(ok) => ok
    case WTry(_) => s.count > 0
    case WTake(_) => s.count > 0
    case WSpin(_, _) => s.count > 0
    case _ => s.kernel > 0
  }

  /** With no post on its way that is so exactly when a permit is left. */
  lemma PromisedExactlyWhen(s: Sem)
    requires Inv(s) && InCall(s.waiter) && s.pending == 0
    ensures Promised(s) <==> s.signals > s.waits
  {
  }

  lemma PromiseStands(s: Sem, a: Action)
    requires Inv(s) && Proper(a) && InCall(s.waiter) && Promised(s)
    ensures Promised(Step(s, a))
    ensures if a.Wait? then Rank(Step(s, a).waiter) < Rank(s.waiter) else Step(s, a).waiter == s.waiter
  {
  }

  function WaitSteps(acts: seq<Action>): nat {
    if acts == [] then 0 else (if acts[0].Wait? then 1 else 0) + WaitSteps(acts[1..])
  }

  /** In every run: a call for which a permit is left, with no post on its way, succeeds
      within the steps that it is from its end, asleep, timed out or spinning as it may be. */
  lemma WaitSucceedsWithin(s: Sem, acts: seq<Action>) returns (k: nat)
    requires Inv(s) && AllProper(acts) && InCall(s.waiter) && s.pending == 0 && s.signals > s.waits
    requires WaitSteps(acts) >= Rank(s.waiter)
    ensures k <= |acts| && Run(s, acts[..k]).waiter == WDone(true)
  {
    PromisedExactlyWhen(s);
    k := PromiseIsKept(s, acts);
  }

  lemma {:induction false} PromiseIsKept(s: Sem, acts: seq<Action>) returns (k: nat)
    requires Inv(s) && AllProper(acts) && !s.waiter.WIdle? && Promised(s) && WaitSteps(acts) >= Rank(s.waiter)
    ensures k <= |acts| && Run(s, acts[..k]).waiter == WDone(true)
    decreases |acts|
  {
    hide Inv, Promised, Step;
    if s.waiter.WDone? {
      k := 0;
      DoneIsKept(s);
    } else {
      RankPositive(s.waiter);
      var a, rest := acts[0], acts[1..];
      assert Proper(a) && AllProper(rest) by {
        assert forall i :: 0 <= i < |rest| ==> rest[i] == acts[i + 1];
      }
      StepKeeps(s, a);
      PromiseStands(s, a);
      DoneIsKept(Step(s, a));
      var j := PromiseIsKept(Step(s, a), rest);
      k := j + 1;
      assert acts[..k][0] == a && acts[..k][1..] == rest[..j];
    }
  }

  lemma RankPositive(w: Waiter)
    requires InCall(w)
    ensures Rank(w) > 0
  {
  }

  lemma DoneIsKept(s: Sem)
    requires Promised(s)
    ensures !s.waiter.WIdle? && (s.waiter.WDone? ==> s.waiter.ok)
  {
  }

  /** The steps of the waiter in which the kernel does not keep it asleep. */
  function AwakeSteps(s: Sem, acts: seq<Action>): nat
    decreases |acts|
  {
    if acts == [] then 0
    else (if acts[0].Wait? && !Blocked(s, acts[0]) then 1 else 0) + AwakeSteps(Step(s, acts[0]), acts[1..])
  }

  /** The waiter never tries the kernel semaphore between a signaller's count and its post. */
  predicate PostsInTime(s: Sem, acts: seq<Action>)
    decreases |acts|
  {
    acts == [] || (!TriesTooSoon(s, acts[0]) && PostsInTime(Step(s, acts[0]), acts[1..]))
  }

  /** In every run in which the posts come in time: a call ends, one way or the other, within
      the steps that it is from its end; the loop that restores the count is left in its
      first round. */
  lemma {:induction false} WaitEndsWithin(s: Sem, acts: seq<Action>) returns (k: nat)
    requires Inv(s) && AllProper(acts) && !s.waiter.WIdle? && PostsInTime(s, acts)
    requires AwakeSteps(s, acts) >= Rank(s.waiter)
    ensures k <= |acts| && Run(s, acts[..k]).waiter.WDone?
    decreases |acts|
  {
    hide Inv, Step;
    if s.waiter.WDone? {
      k := 0;
    } else {
      RankPositive(s.waiter);
      var a, rest := acts[0], acts[1..];
      assert Proper(a) && AllProper(rest) by {
        assert forall i :: 0 <= i < |rest| ==> rest[i] == acts[i + 1];
      }
      StepKeeps(s, a);
      WaitProgress(s, a);
      StaysInCall(s, a);
      var j := WaitEndsWithin(Step(s, a), rest);
      k := j + 1;
      assert acts[..k][0] == a && acts[..k][1..] == rest[..j];
    }
  }

  lemma StaysInCall(s: Sem, a: Action)
    requires InCall(s.waiter)
    ensures !Step(s, a).waiter.WIdle?
  {
  }

  // ---- What the modes promise --------------------------------------------------------

  /** Where the waiter can be in a call of mode `m`: a poll neither spins nor sleeps, wait()
      sleeps until it is woken and does not fail, and only a wait with a timeout restores
      the count. */
  predicate Of(m: Mode, w: Waiter) {
    match w
    case WIdle => false
    case WTry(n) => n == m
    case WTake(n) => n == m
    case WSpin(n, _) => n == m != Poll
    case WSleep => m == Forever
    case WTimedSleep => m == Timed
    case WRestore => m == Timed
    case WRetry => m == Timed
    case WTryKernel => m == Timed
    case WDone(ok) => ok || m != Forever
  }

  lemma SignalsLeaveWaiter(s: Sem, a: Action)
    requires !a.Wait?
    ensures Step(s, a).waiter == s.waiter
  {
  }

  lemma ModeStays(s: Sem, a: Action, m: Mode)
    requires InCall(s.waiter) && Of(m, s.waiter)
    ensures Of(m, Step(s, a).waiter)
  {
  }

  /** The call goes on during all of the steps `acts`. */
  ghost predicate GoesOn(s: Sem, acts: seq<Action>) {
    forall k :: 0 <= k < |acts| ==> InCall(Run(s, acts[..k]).waiter)
  }

  /** In every run a call stays where its mode allows, to its end. */
  lemma CallKeepsMode(s: Sem, m: Mode, acts: seq<Action>)
    requires s.waiter == WIdle && GoesOn(Step(s, Wait(m, false)), acts)
    ensures Of(m, Run(Step(s, Wait(m, false)), acts).waiter)
  {
    RunKeepsMode(Step(s, Wait(m, false)), m, acts);
  }

  lemma {:induction false} RunKeepsMode(s: Sem, m: Mode, acts: seq<Action>)
    requires Of(m, s.waiter) && GoesOn(s, acts)
    ensures Of(m, Run(s, acts).waiter)
    decreases |acts|
  {
    hide Of, Run;
    if acts == [] {
      NoSteps(s);
    } else {
      var init, a := acts[..|acts| - 1], acts[|acts| - 1];
      forall k | 0 <= k < |init|
        ensures InCall(Run(s, init[..k]).waiter)
      {
        assert init[..k] == acts[..k];
      }
      RunKeepsMode(s, m, init);
      assert acts == init + [a];
      Then(s, init, a);
      ModeStays(Run(s, init), a, m);
    }
  }

  lemma NoSteps(s: Sem)
    ensures Run(s, []) == s
  {
  }

  /** A poll is over after two steps of its own, whatever the signallers do. */
  lemma PollIsQuick(s: Sem, acts: seq<Action>) returns (k: nat)
    requires s.waiter == WTry(Poll) && WaitSteps(acts) >= 2
    ensures k <= |acts| && Run(s, acts[..k]).waiter.WDone?
  {
    k := PollEndsWithin(s, acts, 2);
  }

  lemma {:induction false} PollEndsWithin(s: Sem, acts: seq<Action>, n: nat) returns (k: nat)
    requires WaitSteps(acts) >= n
    requires (s.waiter == WTry(Poll) && n == 2) || (s.waiter == WTake(Poll) && n == 1)
    ensures k <= |acts| && Run(s, acts[..k]).waiter.WDone?
    decreases |acts|
  {
    var a, rest := acts[0], acts[1..];
    var t := Step(s, a);
    if t.waiter.WDone? {
      k := 1;
      assert acts[..1] == [a];
      RunOne(s, a);
    } else {
      var j := PollEndsWithin(t, rest, if a.Wait? then n - 1 else n);
      k := j + 1;
      assert acts[..k][0] == a && acts[..k][1..] == rest[..j];
    }
  }

  /** A wait with a timeout may fail: with no permit it falls asleep, times out and restores
      the count. */
  lemma TimedMayFail() returns (acts: seq<Action>)
    ensures Run(Init(0), acts) == Init(0).(waiter := WDone(false))
  {
    hide Run;
    var s0 := Init(0);
    var t;
    acts, t := NothingDone(s0);
    acts, t := Next(s0, acts, t, Wait(Timed, false));
    acts, t := Next(s0, acts, t, Wait(Timed, false));
    var spins := SpinsOut(t, SPINS);
    RunAppend(s0, acts, spins);
    acts, t := acts + spins, Run(t, spins);
    acts, t := Next(s0, acts, t, Wait(Timed, true));
    acts, t := Next(s0, acts, t, Wait(Timed, false));
  }

  /** FallsAsleep, with a timeout. */
  lemma {:induction false} SpinsOut(s: Sem, spin: nat) returns (acts: seq<Action>)
    requires s.count == 0 && s.waiter == WSpin(Timed, spin)
    ensures Run(s, acts) == s.(count := -1, waiter := WTimedSleep) && forall i :: 0 <= i < |acts| ==> Proper(acts[i])
    decreases spin
  {
    var a := Wait(Timed, false);
    RunOne(s, a);
    if spin == 0 {
      acts := [a];
    } else {
      acts := SpinsOut(Step(s, a), spin - 1);
      RunAppend(s, [a], acts);
      acts := [a] + acts;
    }
  }
}
