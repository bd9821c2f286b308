/** The relay's broadcast throttle as a value: a coalescing primitive that owns
    "timer armed or not" and "signal pending or not", with the two operations
    `scheduleBroadcast` (Mark) and the timer's expiry (Elapse). The lemmas
    count, over any sequence of these events, how many timers are armed, how
    many fire and how many fire with a pending signal (a flush). */
module Throttle {

  datatype State = State(armed: bool, pending: bool)

  const Idle: State := State(false, false)

  datatype Event = Mark | Elapse

  /** One event's effect and what it did: timers armed, timers fired, flushes. */
  datatype Step = Step(next: State, armed: nat, fired: nat, flushed: nat)

  /** The totals of a run of events. */
  datatype Tally = Tally(final: State, armings: nat, firings: nat, flushes: nat)

  /** A pending signal always has an armed timer that will flush it. */
  predicate Inv(s: State) { s.pending ==> s.armed }

  function Count(b: bool): nat { if b then 1 else 0 }

  /** Mark sets the pending flag and arms a timer only when none is armed;
      Elapse (possible only while a timer is armed) disarms it and flushes
      exactly when a signal was pending. */
  function Apply(s: State, e: Event): (r: Step)
    ensures e.Mark? ==> r.next.pending && r.next.armed && r.armed == Count(!s.armed) && r.fired == 0 && r.flushed == 0
    ensures e.Elapse? && s.armed ==> r.next == Idle && r.fired == 1 && r.flushed == Count(s.pending) && r.armed == 0
    ensures e.Elapse? && !s.armed ==> r == Step(s, 0, 0, 0)
  {
    match e
    case Mark => Step(State(true, true), Count(!s.armed), 0, 0)
    case Elapse =>
      if s.armed then Step(Idle, 0, 1, Count(s.pending)) else Step(s, 0, 0, 0)
  }

  function Run(s: State, evs: seq<Event>): Tally
    decreases |evs|
  {
    if evs == [] then Tally(s, 0, 0, 0)
    else
      var st := Apply(s, evs[0]);
      var t := Run(st.next, evs[1..]);
      Tally(t.final, st.armed + t.armings, st.fired + t.firings, st.flushed + t.flushes)
  }

  function Marks(n: nat): (r: seq<Event>)
    ensures |r| == n && forall i :: 0 <= i < n ==> r[i] == Mark
  {
    if n == 0 then [] else [Mark] + Marks(n - 1)
  }

  /** Over any run: the invariant is kept; every timer armed is either fired or
      still armed at the end (no timer is ever orphaned, and at most one is
      pending at a time); and there is at most one flush per timer firing.
      Because a timer is armed only while none is, consecutive firings are at
      least one interval apart, which bounds the broadcast rate. */
  lemma {:induction false} RunAccounting(s: State, evs: seq<Event>)
    requires Inv(s)
    ensures Inv(Run(s, evs).final)
    ensures Count(s.armed) + Run(s, evs).armings == Run(s, evs).firings + Count(Run(s, evs).final.armed)
    ensures Run(s, evs).flushes <= Run(s, evs).firings
    decreases |evs|
  {
    if evs != [] {
      RunAccounting(Apply(s, evs[0]).next, evs[1..]);
    }
  }

  /** Once a timer is armed, further marks arm nothing. */
  lemma {:induction false} MarksWhileArmed(s: State, n: nat)
    requires s.armed
    ensures Run(s, Marks(n)) == Tally(if n == 0 then s else State(true, true), 0, 0, 0)
    decreases n
  {
    if n > 0 {
      assert Marks(n)[1..] == Marks(n - 1);
      MarksWhileArmed(State(true, true), n - 1);
    }
  }

  /** Any burst of n >= 1 marks from idle arms exactly one timer, and its
      expiry flushes exactly once and returns the throttle to idle. */
  lemma Coalesce(n: nat)
    requires n >= 1
    ensures Run(Idle, Marks(n) + [Elapse]) == Tally(Idle, 1, 1, 1)
  {
    var evs := Marks(n) + [Elapse];
    assert evs[0] == Mark;
    assert evs[1..] == Marks(n - 1) + [Elapse];
    BurstThenElapse(State(true, true), n - 1);
  }

  lemma {:induction false} BurstThenElapse(s: State, n: nat)
    requires s == State(true, true)
    ensures Run(s, Marks(n) + [Elapse]) == Tally(Idle, 0, 1, 1)
  {
    if n == 0 {
      assert Marks(0) + [Elapse] == [Elapse];
    } else {
      assert (Marks(n) + [Elapse])[0] == Mark;
      assert (Marks(n) + [Elapse])[1..] == Marks(n - 1) + [Elapse];
      BurstThenElapse(s, n - 1);
    }
  }

  lemma {:induction false} RunAppend(s: State, a: seq<Event>, b: seq<Event>)
    ensures Run(s, a + b).final == Run(Run(s, a).final, b).final
    ensures Run(s, a + b).armings == Run(s, a).armings + Run(Run(s, a).final, b).armings
    ensures Run(s, a + b).firings == Run(s, a).firings + Run(Run(s, a).final, b).firings
    ensures Run(s, a + b).flushes == Run(s, a).flushes + Run(Run(s, a).final, b).flushes
    decreases |a|
  {
    if a == [] {
      assert a + b == b;
    } else {
      assert (a + b)[0] == a[0];
      assert (a + b)[1..] == a[1..] + b;
      RunAppend(Apply(s, a[0]).next, a[1..], b);
    }
  }

  /** No signal is lost: whatever happened before, a mark followed by the
      timer's expiry adds exactly one flush. */
  lemma MarkIsFlushed(s: State, evs: seq<Event>)
    ensures Run(s, evs + [Mark, Elapse]).flushes == Run(s, evs).flushes + 1
  {
    RunAppend(s, evs, [Mark, Elapse]);
    assert [Mark, Elapse][1..] == [Elapse];
  }
}
