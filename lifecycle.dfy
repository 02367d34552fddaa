/** The application lifecycle: its states, which of them hold input focus,
    the transition audit table, and the notifications observers receive
    when the state changes.  Everything here is a pure value; the object
    that owns the current state is App.Application. */
module Lifecycle {

  /** The application states.  `Total` is the enumeration's count
      sentinel: it is never a state the application may be in. */
  datatype ApplicationState = Preloading | Started | Paused | Suspended | Stopped | Total

  predicate IsValid(s: ApplicationState) {
    s != Total
  }

  /** Whether an application in state `s` has input focus.  Asking about
      the sentinel is a programming error, hence the precondition. */
  function HasFocus(s: ApplicationState): (r: bool)
    requires IsValid(s)
    ensures r <==> s == Started
  {
    match s
    case Started => true
    case Preloading => false
    case Paused => false
    case Suspended => false
    case Stopped => false
    case Total => assert false; false
  }

  /** The transition audit table: a change of state from `from` to `to`
      that the application accepts.  Re-entering the current state is not
      a change and is handled before the table is consulted. */
  predicate Allowed(from: ApplicationState, to: ApplicationState)
    ensures Allowed(from, to) ==> from != to && IsValid(from) && IsValid(to)
  {
    match from
    case Paused => to == Suspended || to == Started
    case Preloading => to == Suspended || to == Started
    case Started => to == Paused
    case Stopped => to == Preloading || to == Started
    case Suspended => to == Paused || to == Stopped
    case Total => false
  }

  /** A request to move to `to` is acceptable from `from`: either it
      re-enters the current state or the audit table allows it. */
  predicate MayRequest(from: ApplicationState, to: ApplicationState) {
    IsValid(from) && (to == from || Allowed(from, to))
  }

  /** One notification delivered to the observers. */
  datatype Notice = OnStateChange(state: ApplicationState) | OnFocusChange(hasFocus: bool)

  /** The notifications sent, in order, when the state is set to `to`
      while it is `from`. */
  function Notices(from: ApplicationState, to: ApplicationState): (r: seq<Notice>)
    requires IsValid(from) && IsValid(to)
    // re-entering the current state is silent
    ensures from == to ==> r == []
    // a real change is announced exactly once, and that comes first
    ensures from != to ==> |r| > 0 && r[0] == OnStateChange(to)
    // anything after it is the one focus notice, carrying the new focus
    ensures forall i :: 0 < i < |r| ==> i == 1 && r[i] == OnFocusChange(HasFocus(to))
    // and that focus notice is sent exactly when focus flips
    ensures |r| == 2 <==> HasFocus(from) != HasFocus(to)
  {
    if from == to then
      []
    else
      var oldHasFocus := HasFocus(from);
      var hasFocus := HasFocus(to);
      [OnStateChange(to)] + if hasFocus != oldHasFocus then [OnFocusChange(hasFocus)] else []
  }

  /** `suspend` is only acceptable where its steps through Paused and on
      to Suspended are both acceptable. */
  predicate CanSuspend(s: ApplicationState)
    ensures CanSuspend(s) <==> s == Started || s == Paused || s == Suspended
  {
    MayRequest(s, Paused) && MayRequest(Paused, Suspended)
  }

  /** `teardown` is only acceptable where the move to Stopped is: from
      Suspended, or as a re-entry when already stopped. */
  predicate CanTeardown(s: ApplicationState)
    ensures CanTeardown(s) <==> s == Suspended || s == Stopped
  {
    MayRequest(s, Stopped)
  }

  /** The notifications sent by `suspend` from state `s`: it first pauses
      unless already paused, then suspends. */
  function SuspendNotices(s: ApplicationState): (r: seq<Notice>)
    requires CanSuspend(s)
    ensures s == Started ==> r == [OnStateChange(Paused), OnFocusChange(false), OnStateChange(Suspended)]
    ensures s == Paused ==> r == [OnStateChange(Suspended)]
    ensures s == Suspended ==> r == [OnStateChange(Paused), OnStateChange(Suspended)]
  {
    (if s != Paused then Notices(s, Paused) else []) + Notices(Paused, Suspended)
  }

  // ---------------------------------------------------------------------
  // What an observer learns from the notifications.

  /** An observer's picture of the application: the last state and the
      last focus it was told about. */
  datatype ObserverView = ObserverView(state: ApplicationState, hasFocus: bool)

  function ViewOf(s: ApplicationState): ObserverView
    requires IsValid(s)
  {
    ObserverView(s, HasFocus(s))
  }

  /** The view of an observer that has been registered since the
      application was created in state Preloading. */
  function InitialView(): ObserverView {
    ViewOf(Preloading)
  }

  function Apply(v: ObserverView, n: Notice): ObserverView {
    match n
    case OnStateChange(s) => v.(state := s)
    case OnFocusChange(b) => v.(hasFocus := b)
  }

  /** The view after receiving every notice of `trace`, in order. */
  function Replay(v: ObserverView, trace: seq<Notice>): ObserverView
    decreases |trace|
  {
    if trace == [] then v else Replay(Apply(v, trace[0]), trace[1..])
  }

  /** Every notice of `trace` tells an observer holding view `v` something
      new: no state notice repeats the state it already knows, no focus
      notice repeats its focus. */
  predicate OnlyChanges(v: ObserverView, trace: seq<Notice>)
    decreases |trace|
  {
    trace == [] ||
    ((match trace[0]
      case OnStateChange(s) => s != v.state
      case OnFocusChange(b) => b != v.hasFocus) &&
     OnlyChanges(Apply(v, trace[0]), trace[1..]))
  }

  /** Every focus notice directly follows the state notice that caused it
      and agrees with that state. */
  predicate FocusFollowsState(trace: seq<Notice>) {
    forall i :: 0 <= i < |trace| && trace[i].OnFocusChange? ==>
      0 < i && trace[i - 1].OnStateChange? && IsValid(trace[i - 1].state) &&
      trace[i].hasFocus == HasFocus(trace[i - 1].state)
  }

  /** `trace` is a faithful record of notifications for an application
      created in Preloading and now in state `s`. */
  predicate Consistent(trace: seq<Notice>, s: ApplicationState) {
    IsValid(s) &&
    Replay(InitialView(), trace) == ViewOf(s) &&
    OnlyChanges(InitialView(), trace) &&
    FocusFollowsState(trace)
  }

  lemma {:induction false} ReplayAppend(v: ObserverView, a: seq<Notice>, b: seq<Notice>)
    ensures Replay(v, a + b) == Replay(Replay(v, a), b)
    decreases |a|
  {
    if a == [] {
      assert a + b == b;
    } else {
      assert (a + b)[1..] == a[1..] + b;
      ReplayAppend(Apply(v, a[0]), a[1..], b);
    }
  }

  lemma {:induction false} OnlyChangesAppend(v: ObserverView, a: seq<Notice>, b: seq<Notice>)
    ensures OnlyChanges(v, a + b) <==> OnlyChanges(v, a) && OnlyChanges(Replay(v, a), b)
    decreases |a|
  {
    if a == [] {
      assert a + b == b;
    } else {
      assert (a + b)[1..] == a[1..] + b;
      OnlyChangesAppend(Apply(v, a[0]), a[1..], b);
    }
  }

  lemma FocusFollowsStateAppend(a: seq<Notice>, b: seq<Notice>)
    requires FocusFollowsState(a) && FocusFollowsState(b)
    requires b != [] ==> b[0].OnStateChange?
    ensures FocusFollowsState(a + b)
  {
  }

  /** An observer holding the view of `s` that receives the notices of a
      change to `t` ends up with the view of `t`, and learns something new
      from each of them. */
  lemma NoticesReportTheChange(s: ApplicationState, t: ApplicationState)
    requires IsValid(s) && IsValid(t)
    ensures Replay(ViewOf(s), Notices(s, t)) == ViewOf(t)
    ensures OnlyChanges(ViewOf(s), Notices(s, t))
    ensures FocusFollowsState(Notices(s, t))
  {
    var r := Notices(s, t);
    if s != t {
      var v1 := Apply(ViewOf(s), r[0]);
      assert Replay(ViewOf(s), r) == Replay(v1, r[1..]);
      assert OnlyChanges(ViewOf(s), r) == OnlyChanges(v1, r[1..]);
      if |r| == 2 {
        var v2 := Apply(v1, r[1]);
        assert v2 == ViewOf(t);
        assert r[1..][1..] == [];
        assert Replay(v1, r[1..]) == Replay(v2, []);
        assert OnlyChanges(v1, r[1..]) == OnlyChanges(v2, []);
      } else {
        assert r[1..] == [];
      }
    }
  }

  /** Setting the state keeps the record of notifications faithful: an
      observer registered from the start always knows the current state
      and focus, was never told anything twice, and always saw a focus
      notice right after the state change behind it. */
  lemma SetKeepsTraceConsistent(trace: seq<Notice>, s: ApplicationState, t: ApplicationState)
    requires Consistent(trace, s) && IsValid(t)
    ensures Consistent(trace + Notices(s, t), t)
  {
    var n := Notices(s, t);
    NoticesReportTheChange(s, t);
    ReplayAppend(InitialView(), trace, n);
    OnlyChangesAppend(InitialView(), trace, n);
    FocusFollowsStateAppend(trace, n);
  }
}
