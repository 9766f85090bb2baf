/** The INT / TERM / HUP handlers the runner installs, as a state machine over the
    `interrupted_once` flag, and the replay of a sequence of delivered signals. */
module Signals {

  datatype Signal = Int | Term | Hup

  /** What a handler does to the agent task, the agent, or the process:
      `stop!` on the agent task, `reload_state!` on the agent, or `exit`. */
  datatype Reaction = StopTask | ReloadState | ForcedExit

  datatype Handled = Handled(interruptedOnce: bool, reaction: Reaction)

  /** One handler invocation, from the flag before it. */
  function Handle(interruptedOnce: bool, s: Signal): (h: Handled)
    ensures h.reaction == ForcedExit <==> s == Int && interruptedOnce
    ensures h.reaction == ReloadState <==> s == Hup
    ensures h.interruptedOnce == (interruptedOnce || s == Int)
  {
    match s
    case Int => if interruptedOnce then Handled(true, ForcedExit) else Handled(true, StopTask)
    case Term => Handled(interruptedOnce, StopTask)
    case Hup => Handled(interruptedOnce, ReloadState)
  }

  /** The state after a run of signals: the flag, the reactions in order, and whether the
      process has exited. Nothing is handled once it has exited, so the reactions are one
      per signal of the prefix that was handled. */
  datatype Replayed = Replayed(interruptedOnce: bool, reactions: seq<Reaction>, exited: bool)

  function Replay(interruptedOnce: bool, signals: seq<Signal>): (r: Replayed)
    ensures |r.reactions| <= |signals|
    ensures !r.exited ==> |r.reactions| == |signals|
    ensures r.exited ==> |r.reactions| > 0 && r.reactions[|r.reactions| - 1] == ForcedExit
  {
    if signals == [] then Replayed(interruptedOnce, [], false)
    else
      var prev := Replay(interruptedOnce, signals[..|signals| - 1]);
      if prev.exited then prev
      else
        var h := Handle(prev.interruptedOnce, signals[|signals| - 1]);
        Replayed(h.interruptedOnce, prev.reactions + [h.reaction], h.reaction == ForcedExit)
  }

  function Count<T(==)>(s: seq<T>, x: T): nat
  {
    if s == [] then 0 else Count(s[..|s| - 1], x) + (if s[|s| - 1] == x then 1 else 0)
  }

  lemma CountSnoc<T>(s: seq<T>, x: T, y: T)
    ensures Count(s + [x], y) == Count(s, y) + (if x == y then 1 else 0)
  {
    assert (s + [x])[..|s|] == s;
  }

  lemma {:induction false} CountPrefix<T>(s: seq<T>, k: nat, x: T)
    requires k <= |s|
    ensures Count(s[..k], x) <= Count(s, x)
  {
    if k < |s| {
      assert s[..|s| - 1][..k] == s[..k];
      CountPrefix(s[..|s| - 1], k, x);
    } else {
      assert s[..k] == s;
    }
  }

  /** Once the process has exited, later signals change nothing. */
  lemma {:induction false} ReplayStopsAtExit(interruptedOnce: bool, signals: seq<Signal>, k: nat)
    requires k <= |signals|
    requires Replay(interruptedOnce, signals[..k]).exited
    ensures Replay(interruptedOnce, signals) == Replay(interruptedOnce, signals[..k])
  {
    if k == |signals| {
      assert signals[..k] == signals;
    } else {
      assert signals[..|signals| - 1][..k] == signals[..k];
      ReplayStopsAtExit(interruptedOnce, signals[..|signals| - 1], k);
    }
  }

  /** The last handled signal is the INT that forced the exit. */
  lemma {:induction false} ReplayExitsOnInt(interruptedOnce: bool, signals: seq<Signal>)
    ensures var r := Replay(interruptedOnce, signals);
      r.exited ==> |r.reactions| > 0 && signals[|r.reactions| - 1] == Int
  {
    if signals != [] {
      var init := signals[..|signals| - 1];
      ReplayExitsOnInt(interruptedOnce, init);
    }
  }

  /** One more signal after a run that has not exited: the run is extended by that
      signal's handler. */
  lemma ReplayStep(interruptedOnce: bool, signals: seq<Signal>)
    requires signals != []
    requires !Replay(interruptedOnce, signals[..|signals| - 1]).exited
    ensures var init := signals[..|signals| - 1];
      var prev := Replay(interruptedOnce, init);
      var h := Handle(prev.interruptedOnce, signals[|signals| - 1]);
      Replay(interruptedOnce, signals) == Replayed(h.interruptedOnce, prev.reactions + [h.reaction], h.reaction == ForcedExit)
  {
  }

  /** When nothing has exited, every signal was handled. */
  lemma HandledAll(interruptedOnce: bool, signals: seq<Signal>)
    requires !Replay(interruptedOnce, signals).exited
    ensures signals[..|Replay(interruptedOnce, signals).reactions|] == signals
  {
    assert signals[..|signals|] == signals;
  }

  /** Over the handled prefix: the process exits exactly when the INTs seen (counting a flag
      already set as one) reach two, and the flag is set once any INT has been seen. */
  lemma {:induction false} ReplayInterrupts(interruptedOnce: bool, signals: seq<Signal>)
    ensures var r := Replay(interruptedOnce, signals);
      var handled := signals[..|r.reactions|];
      var ints := (if interruptedOnce then 1 else 0) + Count(handled, Int);
      && (r.exited <==> ints == 2)
      && (!r.exited ==> ints <= 1)
      && r.interruptedOnce == (interruptedOnce || Count(handled, Int) > 0)
  {
    if signals != [] {
      var init := signals[..|signals| - 1];
      var prev := Replay(interruptedOnce, init);
      ReplayInterrupts(interruptedOnce, init);
      if prev.exited {
        assert init[..|prev.reactions|] == signals[..|prev.reactions|];
      } else {
        ReplayStep(interruptedOnce, signals);
        HandledAll(interruptedOnce, init);
        assert signals[..|signals|] == signals;
      }
    }
  }

  /** Every handled TERM stops the agent task, and so does the first INT when the flag was clear. */
  lemma {:induction false} ReplayStops(interruptedOnce: bool, signals: seq<Signal>)
    ensures var r := Replay(interruptedOnce, signals);
      var handled := signals[..|r.reactions|];
      Count(r.reactions, StopTask)
        == Count(handled, Term) + (if !interruptedOnce && Count(handled, Int) > 0 then 1 else 0)
  {
    if signals != [] {
      var init := signals[..|signals| - 1];
      var last := signals[|signals| - 1];
      var prev := Replay(interruptedOnce, init);
      ReplayStops(interruptedOnce, init);
      if prev.exited {
        assert init[..|prev.reactions|] == signals[..|prev.reactions|];
      } else {
        ReplayInterrupts(interruptedOnce, init);
        HandledAll(interruptedOnce, init);
        StopsStep(interruptedOnce, signals);
        assert signals[..|signals|] == signals;
      }
    }
  }

  /** The step of `ReplayStops` for a signal handled after a run that has not exited. */
  lemma StopsStep(interruptedOnce: bool, signals: seq<Signal>)
    requires signals != []
    requires var prev := Replay(interruptedOnce, signals[..|signals| - 1]);
      && !prev.exited
      && prev.interruptedOnce == (interruptedOnce || Count(signals[..|signals| - 1], Int) > 0)
      && Count(prev.reactions, StopTask)
        == Count(signals[..|signals| - 1], Term) + (if !interruptedOnce && Count(signals[..|signals| - 1], Int) > 0 then 1 else 0)
    ensures var r := Replay(interruptedOnce, signals);
      && |r.reactions| == |signals|
      && Count(r.reactions, StopTask)
        == Count(signals, Term) + (if !interruptedOnce && Count(signals, Int) > 0 then 1 else 0)
  {
    var init := signals[..|signals| - 1];
    var last := signals[|signals| - 1];
    var prev := Replay(interruptedOnce, init);
    ReplayStep(interruptedOnce, signals);
    CountSnoc(prev.reactions, Handle(prev.interruptedOnce, last).reaction, StopTask);
  }

  /** Every handled HUP reloads the agent, and nothing else does; exactly one reaction is a
      forced exit when the run exited, none otherwise. */
  lemma {:induction false} ReplayReloadsAndExits(interruptedOnce: bool, signals: seq<Signal>)
    ensures var r := Replay(interruptedOnce, signals);
      var handled := signals[..|r.reactions|];
      && Count(r.reactions, ReloadState) == Count(handled, Hup)
      && Count(r.reactions, ForcedExit) == (if r.exited then 1 else 0)
  {
    if signals != [] {
      var init := signals[..|signals| - 1];
      var last := signals[|signals| - 1];
      var prev := Replay(interruptedOnce, init);
      ReplayReloadsAndExits(interruptedOnce, init);
      if prev.exited {
        assert init[..|prev.reactions|] == signals[..|prev.reactions|];
      } else {
        ReplayStep(interruptedOnce, signals);
        HandledAll(interruptedOnce, init);
        assert signals[..|signals|] == signals;
        CountSnoc(prev.reactions, Handle(prev.interruptedOnce, last).reaction, ReloadState);
        CountSnoc(prev.reactions, Handle(prev.interruptedOnce, last).reaction, ForcedExit);
      }
    }
  }

  /** From a fresh runner: the process is forced out exactly when at least two INTs arrive;
      otherwise every signal is handled, the agent task is asked to stop once per TERM plus once
      for the single INT (if any), and the agent reloads once per HUP. */
  lemma Escalation(signals: seq<Signal>)
    ensures var r := Replay(false, signals);
      && (r.exited <==> Count(signals, Int) >= 2)
      && (!r.exited ==>
            && |r.reactions| == |signals|
            && Count(r.reactions, StopTask) == Count(signals, Term) + (if Count(signals, Int) > 0 then 1 else 0)
            && Count(r.reactions, ReloadState) == Count(signals, Hup)
            && r.interruptedOnce == (Count(signals, Int) == 1))
  {
    var r := Replay(false, signals);
    ReplayInterrupts(false, signals);
    ReplayStops(false, signals);
    ReplayReloadsAndExits(false, signals);
    CountPrefix(signals, |r.reactions|, Int);
    if !r.exited {
      assert signals[..|r.reactions|] == signals;
    }
  }
}
