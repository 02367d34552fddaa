# Application lifecycle model

A Dafny model of the application object of `basis` (`application::Application`),
the component that drives an application through its lifecycle states
Preloading, Started, Paused, Suspended and Stopped, tells registered observers
about every change of state and of input focus, and keeps a manual-reset
"resources loaded" signal.

- `lifecycle.dfy`, module `Lifecycle`: the states (with the enumeration's
  `Total` count sentinel), which state has focus, the transition audit table,
  the notifications one change of state sends, the notifications `suspend`
  sends, and what an observer learns from the notifications (its
  `ObserverView`, obtained by replaying them). The lemmas there prove that the
  record of notifications stays faithful across every change of state.
- `application.dfy`, module `App`: class `Application` with the fields the
  source updates in place (`state`, `loaded`, `observers`) and a ghost field
  `notices` that records every notification sent, in order. Its invariant
  `Valid()` says the state is never the sentinel and that an observer
  registered from the start, replaying `notices`, knows the current state and
  focus, was never told the same thing twice, and always got a focus notice
  directly after the state notice that caused it.

Debug checks of the source (`DCHECK`, `NOTREACHED`) are modelled as
preconditions: a call that would trip one is not a legal call.

The audit table (`Lifecycle.Allowed`) allows Preloading→Suspended and
Preloading→Started, and Stopped→Preloading and Stopped→Started, so Stopped is
not terminal. The only way into Stopped is from Suspended.

Two consequences of the table are stated as contracts.
- `suspend` first moves to Paused unless the application is already paused.
  It is therefore legal only from Started, Paused or Suspended
  (`Lifecycle.CanSuspend`): the table has no Preloading→Paused and no
  Stopped→Paused move.
- `teardown` is legal only from Suspended, or from Stopped as a re-entry
  (`Lifecycle.CanTeardown`).

The initial state is Preloading. The header that declares it is not part of
this model; `initialize` checks for Preloading.

## Model

| member | source | states |
|---|---|---|
| `Lifecycle.HasFocus` | basis/application/application.cc:135-153 | only Started has focus; asking about the sentinel is excluded |
| `Lifecycle.Allowed` | basis/application/application.cc:74-116 | the audit table; an allowed move always changes the state and never involves the sentinel |
| `Lifecycle.Notices` | basis/application/application.cc:68-132 | re-entry sends nothing; a real change sends exactly one state notice, first, naming the new state; a focus notice with the new focus follows it exactly when focus flips |
| `Lifecycle.CanSuspend` | basis/application/application.cc:231-237 | suspend's two steps are both acceptable exactly from Started, Paused and Suspended |
| `Lifecycle.CanTeardown` | basis/application/application.cc:165-173 | teardown's move to Stopped is acceptable exactly from Suspended and Stopped |
| `Lifecycle.SuspendNotices` | basis/application/application.cc:224-240 | suspend's notices from each legal state: Started gives Paused, focus lost, Suspended; Paused gives Suspended; Suspended gives Paused, Suspended |
| `Lifecycle.NoticesReportTheChange` | basis/application/application.cc:118-132 | an observer that knew the old state and focus knows the new ones after the notices of one change, and each notice told it something new |
| `Lifecycle.SetKeepsTraceConsistent` | basis/application/application.cc:57-133 | a change of state keeps the whole record of notifications faithful to the current state and focus |
| `App.Application.constructor` | basis/application/application.cc:18-27 | a new application is Preloading, not loaded, with no observers and no notifications |
| `App.Application.SetApplicationState` | basis/application/application.cc:57-133 | needs re-entry or an allowed move; ends in the requested state, appends exactly the notices of the change, keeps the invariant, leaves the loaded flag and observers alone |
| `App.Application.Initialize` | basis/application/application.cc:155-163 | requires Preloading and changes nothing |
| `App.Application.Teardown` | basis/application/application.cc:165-173 | from Suspended or Stopped, ends in Stopped (the state the destructor at lines 29-33 requires) with at most one state notice and no focus notice |
| `App.Application.Start` | basis/application/application.cc:185-196 | from Preloading, ends in Started, notifying Started and then focus gained |
| `App.Application.AddObserver` | basis/application/application.cc:198-209 | requires a non-null observer and adds it; nothing else changes |
| `App.Application.RemoveObserver` | basis/application/application.cc:211-222 | requires a non-null observer and removes it; nothing else changes |
| `App.Application.Suspend` | basis/application/application.cc:224-240 | ends in Suspended with the loaded flag cleared, having passed through Paused unless already there |
| `App.Application.WaitForLoad` | basis/application/application.cc:242-249 | reports the loaded flag |
| `App.Application.SignalOnLoad` | basis/application/application.cc:251-259 | sets the loaded flag; state, observers and notifications unchanged |
| `App.Application.GetApplicationState` | basis/application/application.cc:271-278 | returns the current state, never the sentinel |

The loaded flag is manual-reset. Every method except `SignalOnLoad` and
`Suspend` promises to leave it unchanged, so once set it stays set until
`Suspend` clears it.

## Left out

- App.Application.WaitForLoad: returns the flag as it is at the call. The real call blocks until the event is signalled or the timeout expires. Waiting, timeouts and a signal from another thread during the wait are not modelled; the timeout parameter is unused.
- `pause` and `resume`: both unconditionally reach `NOTREACHED`, so no legal call exists and they are not modelled.
- Which observers receive a notification, and when: delivery is posted to each observer's own sequence by `ObserverListThreadSafe`, which is not part of this model. The model records the notifications in the order they are sent. It keeps the set of registered observers, and adding an observer twice or removing an absent one follows set semantics.
- Sequence checkers, the message-loop check in the constructor, tracing and logging: these are threading assertions and diagnostics with no effect on state.
- Destruction: the destructor's only behaviour is its check for Stopped, which `Teardown` establishes; it is not a separate member.
- Release builds: there the audit table and the other debug checks are not evaluated, and an illegal move goes through. The model treats those calls as illegal.
- The promise engine and its no-op executor: only declarations are visible, so there is no behaviour to model. `basis/polymorphic_downcast.hpp` wraps the language's casts and is not part of this model.
