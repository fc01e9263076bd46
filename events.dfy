/** Replaying a component's events: its step function folded over a trace
    of events, oldest first, the last event of a kind in a trace, and the
    invariants every event keeps. */
module Events {
  import opened Outcomes

  function Run<S, E>(step: (S, E) -> S, s: S, events: seq<E>): S
    decreases |events|
  {
    if events == [] then s else Run(step, step(s, events[0]), events[1..])
  }

  /** The value `pick` finds in the last event where it finds one. */
  function Last<E, T>(pick: E -> Option<T>, events: seq<E>): Option<T>
    decreases |events|
  {
    if events == [] then None
    else if pick(events[|events| - 1]).Some? then pick(events[|events| - 1])
    else Last(pick, events[..|events| - 1])
  }

  /** One more event at the end of a trace is one more step after the rest. */
  lemma {:induction false} RunSnoc<S, E>(step: (S, E) -> S, s: S, events: seq<E>, e: E)
    ensures Run(step, s, events + [e]) == step(Run(step, s, events), e)
    decreases |events|
  {
    if events == [] {
      assert events + [e] == [e];
    } else {
      assert (events + [e])[1..] == events[1..] + [e];
      RunSnoc(step, step(s, events[0]), events[1..], e);
    }
  }

  /** A part of the state that every event either overwrites with the value
      `pick` finds in it or leaves alone is, after any trace, the value of the
      last event that overwrote it, or what it was before. */
  lemma {:induction false} ShowsLast<S, E, T>(step: (S, E) -> S, part: S -> T, pick: E -> Option<T>, s: S, events: seq<E>)
    requires forall t: S, e: E :: part(step(t, e)) == pick(e).GetOr(part(t))
    ensures part(Run(step, s, events)) == Last(pick, events).GetOr(part(s))
    decreases |events|
  {
    if events != [] {
      var n := |events| - 1;
      assert events == events[..n] + [events[n]];
      RunSnoc(step, s, events[..n], events[n]);
      ShowsLast(step, part, pick, s, events[..n]);
    }
  }

  /** A property of the state that every event keeps holds after any trace
      that starts where it holds. */
  lemma {:induction false} Preserves<S, E>(step: (S, E) -> S, inv: S -> bool, s: S, events: seq<E>)
    requires forall t: S, e: E :: inv(t) ==> inv(step(t, e))
    requires inv(s)
    ensures inv(Run(step, s, events))
    decreases |events|
  {
    if events != [] {
      Preserves(step, inv, step(s, events[0]), events[1..]);
    }
  }
}
