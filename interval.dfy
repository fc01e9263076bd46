/** The refresh interval shared by the trending panel and the two hooks:
    a fetch runs when the component mounts, the interval then repeats it
    every five minutes, and unmounting clears the interval. */
module Interval {
  import opened Outcomes

  /** `setInterval(..., 300000)`: five minutes. */
  const RefreshMs: nat := 300000

  /** A lifecycle event of a polling component. */
  datatype Lifecycle = Mount | Tick | Unmount

  /** The registered interval's period after an event: mounting registers
      it, unmounting clears it, a tick leaves it. */
  function After(timer: Option<nat>, e: Lifecycle): Option<nat> {
    match e
    case Mount => Some(RefreshMs)
    case Tick => timer
    case Unmount => None
  }

  /** Whether an event runs a fetch: the mount does, and a tick does only
      while the interval is registered. */
  predicate Fetches(timer: Option<nat>, e: Lifecycle) {
    e.Mount? || (e.Tick? && timer.Some?)
  }

  /** The number of fetches a sequence of events runs. */
  function FetchCount(timer: Option<nat>, events: seq<Lifecycle>): nat
    decreases |events|
  {
    if events == [] then 0
    else (if Fetches(timer, events[0]) then 1 else 0) + FetchCount(After(timer, events[0]), events[1..])
  }

  /** Once unmounted, no tick runs a fetch: only a new mount can. */
  lemma {:induction false} NoFetchAfterUnmount(events: seq<Lifecycle>)
    requires forall i :: 0 <= i < |events| ==> events[i] != Mount
    ensures FetchCount(None, events) == 0
    decreases |events|
  {
    if events != [] {
      NoFetchAfterUnmount(events[1..]);
    }
  }

  /** While mounted, every tick runs a fetch: mounting then ticking `n`
      times fetches `n + 1` times. */
  lemma {:induction false} EveryTickFetches(events: seq<Lifecycle>)
    requires forall i :: 0 <= i < |events| ==> events[i] == Tick
    ensures FetchCount(None, [Mount] + events) == |events| + 1
  {
    assert ([Mount] + events)[1..] == events;
    TicksWhileRegistered(events);
  }

  lemma {:induction false} TicksWhileRegistered(events: seq<Lifecycle>)
    requires forall i :: 0 <= i < |events| ==> events[i] == Tick
    ensures FetchCount(Some(RefreshMs), events) == |events|
    decreases |events|
  {
    if events != [] {
      TicksWhileRegistered(events[1..]);
    }
  }
}
