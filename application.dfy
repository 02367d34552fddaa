/** The application object: it owns the current lifecycle state and the
    "resources loaded" flag, keeps the list of registered observers, and
    notifies them of every change of state and of focus. */
module App {
  import opened Lifecycle

  /** An observer of the application; only its identity matters here. */
  class Observer {
    constructor () {}
  }

  class Application {
    var state: ApplicationState
    /** The manual-reset "loaded" event: set by SignalOnLoad, cleared only by Suspend. */
    var loaded: bool
    var observers: set<Observer>
    /** Every notification sent to the observers so far, in order. */
    ghost var notices: seq<Notice>

    /** The object invariant: the state is never the sentinel, and the
        notifications sent so far tell an observer registered from the
        start exactly the current state and focus. */
    ghost predicate Valid()
      reads this
    {
      Consistent(notices, state)
    }

    /** A new application is preloading, not loaded, and has no observers. */
    constructor ()
      ensures Valid()
      ensures state == Preloading && !loaded && observers == {} && notices == []
    {
      state := Preloading;
      loaded := false;
      observers := {};
      notices := [];
    }

    /** Moves to state `s`.  Re-entering the current state does nothing;
        any other move must be one the audit table allows.  A real change
        notifies the observers of the new state and then, if focus flipped,
        of the new focus. */
    method SetApplicationState(s: ApplicationState)
      requires Valid() && MayRequest(state, s)
      modifies this
      ensures Valid()
      ensures state == s
      ensures notices == old(notices) + Notices(old(state), s)
      ensures loaded == old(loaded) && observers == old(observers)
    {
      if state == s {
        return;
      }
      SetKeepsTraceConsistent(notices, state, s);
      ghost var sent := Notices(state, s);
      var oldHasFocus := HasFocus(state);
      state := s;
      notices := notices + [OnStateChange(state)];
      var hasFocus := HasFocus(state);
      var focusChanged := hasFocus != oldHasFocus;
      if focusChanged {
        notices := notices + [OnFocusChange(hasFocus)];
        assert sent == [sent[0], sent[1]];
      } else {
        assert sent == [sent[0]];
      }
      assert notices == old(notices) + sent;
    }

    /** The application must still be preloading when it is initialised. */
    method Initialize()
      requires Valid() && state == Preloading
      ensures Valid() && state == Preloading
    {
    }

    /** Moves to Stopped, from Suspended or when already stopped; afterwards
        the object may be destroyed, which requires Stopped.  No focus
        notice is ever sent, since neither state has focus. */
    method Teardown()
      requires Valid() && CanTeardown(state)
      modifies this
      ensures Valid() && state == Stopped
      ensures notices == old(notices) + if old(state) == Stopped then [] else [OnStateChange(Stopped)]
      ensures loaded == old(loaded) && observers == old(observers)
    {
      SetApplicationState(Stopped);
    }

    /** Starts a preloaded application: it gains focus. */
    method Start()
      requires Valid() && state == Preloading
      modifies this
      ensures Valid() && state == Started
      ensures notices == old(notices) + [OnStateChange(Started), OnFocusChange(true)]
      ensures loaded == old(loaded) && observers == old(observers)
    {
      SetApplicationState(Started);
    }

    /** Registers an observer.  A null observer is a programming error. */
    method AddObserver(observer: Observer?)
      requires Valid() && observer != null
      modifies this
      ensures Valid() && observers == old(observers) + {observer}
      ensures state == old(state) && loaded == old(loaded) && notices == old(notices)
    {
      observers := observers + {observer};
    }

    /** Unregisters an observer.  A null observer is a programming error. */
    method RemoveObserver(observer: Observer?)
      requires Valid() && observer != null
      modifies this
      ensures Valid() && observers == old(observers) - {observer}
      ensures state == old(state) && loaded == old(loaded) && notices == old(notices)
    {
      observers := observers - {observer};
    }

    /** Suspends the application: pauses it first unless it is already
        paused, then suspends it, then clears the loaded flag. */
    method Suspend()
      requires Valid() && CanSuspend(state)
      modifies this
      ensures Valid() && state == Suspended && !loaded
      ensures notices == old(notices) + SuspendNotices(old(state))
      ensures observers == old(observers)
    {
      if state != Paused {
        SetApplicationState(Paused);
      }
      SetApplicationState(Suspended);
      loaded := false;
    }

    /** Whether the resources have finished loading. */
    method WaitForLoad(timeout: int) returns (r: bool)
      ensures r == loaded
    {
      r := loaded;
    }

    /** Signals that the resources have finished loading; the flag stays
        set until Suspend clears it. */
    method SignalOnLoad()
      requires Valid()
      modifies this
      ensures Valid() && loaded
      ensures state == old(state) && observers == old(observers) && notices == old(notices)
    {
      loaded := true;
    }

    /** The current state, which is never the sentinel. */
    method GetApplicationState() returns (r: ApplicationState)
      requires Valid()
      ensures r == state && r != Total
    {
      r := state;
    }
  }
}
