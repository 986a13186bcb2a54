/** A run taken apart: every accepted message, receipt recording, sync and height change, in order. */
module Events {
  import opened Basics
  import opened Types
  import opened Store
  import opened Handlers
  import opened Frames
  import opened Chain
  import opened Electorate
  import opened Runs
  import RegistrySync

  datatype Change = Accepted(call: Call) | Recorded | Synced | Raised

  datatype Event = Event(before: State, change: Change, after: State)

  ghost function CallEvents(env: Env, s: State, calls: seq<Call>): seq<Event>
    requires RunCalls(env, s, calls).Some?
  {
    if calls == [] then []
    else
      var init := calls[..|calls| - 1];
      CallEvents(env, s, init)
      + [Event(RunCalls(env, s, init).value, Accepted(calls[|calls| - 1]), RunCalls(env, s, calls).value)]
  }

  /** A transaction that fails leaves no event. */
  ghost function StepEvents(env: Env, s: State, step: Step): seq<Event>
  {
    match step
    case DeliverTx(tx) =>
      if AnteError(s, tx).Some? || RunCalls(env, s, tx.calls).None? then []
      else CallEvents(env, s, tx.calls) + [Event(RunCalls(env, s, tx.calls).value, Recorded, Deliver(env, s, tx))]
    case EndBlock(states) => [Event(s, Synced, Apply(env, s, step))]
    case NextHeight(h) => [Event(s, Raised, Apply(env, s, step))]
  }

  ghost function EventsOf(env: Env, s: State, steps: seq<Step>): seq<Event>
  {
    if steps == [] then []
    else
      var init := steps[..|steps| - 1];
      EventsOf(env, s, init) + StepEvents(env, Run(env, s, init), steps[|steps| - 1])
  }

  /** An accepted message has the effect of its handler; everything else touches no decision. */
  ghost predicate EventOk(env: Env, e: Event)
  {
    if e.change.Accepted? then
      var call := e.change.call;
      HandleError(env, e.before, call.msg, call.bankOk).None?
      && e.after == HandleEffect(env, e.before, call.msg, call.bankOk)
    else Sound(e.before, e.after) && SameDecisions(e.before, e.after)
  }

  /** The events lead from one state to the other, each from a state that meets the invariant. */
  ghost predicate Path(env: Env, s: State, es: seq<Event>, s': State)
  {
    && (forall i :: 0 <= i < |es| ==> Inv(env, es[i].before) && EventOk(env, es[i]))
    && (forall i :: 0 < i < |es| ==> es[i].before == es[i - 1].after)
    && (if es == [] then s' == s else es[0].before == s && es[|es| - 1].after == s')
  }

  lemma PathThrough(env: Env, a: State, xs: seq<Event>, b: State, ys: seq<Event>, c: State)
    requires Path(env, a, xs, b) && Path(env, b, ys, c)
    ensures Path(env, a, xs + ys, c)
  {
    hide Inv, EventOk;
    var es := xs + ys;
    forall i | 0 < i < |es| ensures es[i].before == es[i - 1].after {
      if i == |xs| { assert es[i] == ys[0] && es[i - 1] == xs[|xs| - 1]; }
    }
  }

  lemma OneEvent(env: Env, e: Event)
    requires Inv(env, e.before) && EventOk(env, e)
    ensures Path(env, e.before, [e], e.after)
  {
  }

  lemma {:induction false} CallPath(env: Env, s: State, calls: seq<Call>)
    requires Inv(env, s) && RunCalls(env, s, calls).Some?
    ensures Path(env, s, CallEvents(env, s, calls), RunCalls(env, s, calls).value)
  {
    hide Inv, HandleEffect, HandleError, Path;
    if calls == [] {
      NoEvents(env, s);
    } else {
      var init, last := calls[..|calls| - 1], calls[|calls| - 1];
      CallPath(env, s, init);
      RunCallsInv(env, s, init);
      var s1, s2 := RunCalls(env, s, init).value, RunCalls(env, s, calls).value;
      OneEvent(env, Event(s1, Accepted(last), s2));
      PathThrough(env, s, CallEvents(env, s, init), s1, [Event(s1, Accepted(last), s2)], s2);
    }
  }

  lemma NoEvents(env: Env, s: State)
    ensures Path(env, s, [], s)
  {
  }

  lemma RecordedOk(env: Env, s: State, tx: Tx)
    requires Inv(env, s) && StepOk(env, s, DeliverTx(tx)) && AnteError(s, tx).None? && RunCalls(env, s, tx.calls).Some?
    ensures Inv(env, RunCalls(env, s, tx.calls).value)
    ensures EventOk(env, Event(RunCalls(env, s, tx.calls).value, Recorded, Deliver(env, s, tx)))
  {
    var s1 := RunCalls(env, s, tx.calls).value;
    InvKeyed(env, s);
    RunCallsInv(env, s, tx.calls);
    RunCallsSound(env, s, tx.calls);
    InvKeyed(env, s1);
    RecordTransfersOnly(s1, tx, |tx.calls|);
    hide Inv, RunCalls, AnteError, Keyed, Extends, RecordTransfers;
    ReceiptsSound(s1, Deliver(env, s, tx), tx.hash);
  }

  lemma StepPath(env: Env, s: State, step: Step)
    requires Inv(env, s) && StepOk(env, s, step)
    ensures Path(env, s, StepEvents(env, s, step), Apply(env, s, step))
  {
    hide Inv, Path, RunCalls, AnteError, RecordTransfers, CallEvents, Sound;
    InvKeyed(env, s);
    match step {
      case DeliverTx(tx) =>
        if AnteError(s, tx).Some? || RunCalls(env, s, tx.calls).None? {
          NoEvents(env, s);
        } else {
          var s1 := RunCalls(env, s, tx.calls).value;
          CallPath(env, s, tx.calls);
          RecordedOk(env, s, tx);
          var e := Event(s1, Recorded, Deliver(env, s, tx));
          hide Deliver, EventOk;
          OneEvent(env, e);
          PathThrough(env, s, CallEvents(env, s, tx.calls), s1, [e], e.after);
        }
      case EndBlock(states) =>
        SyncSound(s, states);
        SyncQuiet(s, states);
        hide RegistrySync.Sync;
        OneEvent(env, Event(s, Synced, Apply(env, s, step)));
      case NextHeight(h) =>
        HeightSound(s, h);
        OneEvent(env, Event(s, Raised, Apply(env, s, step)));
    }
  }

  /** The events of a run lead from its start to its end. */
  lemma {:induction false} RunPath(env: Env, s: State, steps: seq<Step>)
    requires Inv(env, s) && RunOk(env, s, steps)
    ensures Path(env, s, EventsOf(env, s, steps), Run(env, s, steps)) && Inv(env, Run(env, s, steps))
  {
    hide Inv, Path, Apply, StepEvents;
    if steps == [] {
      NoEvents(env, s);
    } else {
      var init, last := steps[..|steps| - 1], steps[|steps| - 1];
      RunPath(env, s, init);
      var s1 := Run(env, s, init);
      StepPath(env, s1, last);
      ApplyInv(env, s1, last);
      PathThrough(env, s, EventsOf(env, s, init), s1, StepEvents(env, s1, last), Run(env, s, steps));
    }
  }
}
