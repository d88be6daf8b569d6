/** The reference count of in-flight twin animations and the display link it
    keeps alive, as a pure state machine. Both views' start and completion
    handlers are proved to take exactly one `Step` each. */
module Lifecycle {

  datatype Event = Start | Complete

  /** `count` is `animationCount`; `linkActive` says whether the view holds a
      display link. */
  datatype Session = Session(count: int, linkActive: bool)

  const Idle := Session(0, false)

  /** The invariant the views rely on: the link exists exactly while an
      animation is in flight. */
  predicate Synchronized(s: Session) {
    s.count >= 0 && (s.linkActive <==> s.count > 0)
  }

  /** A start creates a link when there is none and counts up; a completion
      counts down and drops the link when the count reaches 0. The count is
      not clamped: a completion at 0 leaves it at -1. */
  function Step(s: Session, e: Event): (r: Session)
    ensures r.count == if e == Start then s.count + 1 else s.count - 1
    ensures r.linkActive <==> e == Start || (s.linkActive && r.count != 0)
  {
    match e
    case Start => Session(s.count + 1, true)
    case Complete => if s.count - 1 == 0 then Session(0, false) else Session(s.count - 1, s.linkActive)
  }

  /** Every start keeps the invariant, and so does every completion that has
      a matching start. */
  lemma StepSynchronized(s: Session, e: Event)
    requires Synchronized(s)
    requires e == Complete ==> s.count > 0
    ensures Synchronized(Step(s, e))
    ensures Step(s, e).count == if e == Start then s.count + 1 else s.count - 1
  {
  }

  function Starts(evs: seq<Event>): nat {
    if evs == [] then 0 else Starts(evs[..|evs| - 1]) + (if evs[|evs| - 1] == Start then 1 else 0)
  }

  function Completes(evs: seq<Event>): nat {
    if evs == [] then 0 else Completes(evs[..|evs| - 1]) + (if evs[|evs| - 1] == Complete then 1 else 0)
  }

  /** No prefix has more completions than starts: every completion belongs to
      an animation that started before it. */
  predicate Balanced(evs: seq<Event>) {
    forall k | 0 <= k <= |evs| :: Completes(evs[..k]) <= Starts(evs[..k])
  }

  /** The session after the events, from a freshly created view. */
  function Run(evs: seq<Event>): Session {
    if evs == [] then Idle else Step(Run(evs[..|evs| - 1]), evs[|evs| - 1])
  }

  /** Under any interleaving with matched completions the count is the number
      of animations still in flight, and the link is active exactly when that
      number is positive. */
  lemma {:induction false} RunCounts(evs: seq<Event>)
    requires Balanced(evs)
    ensures Run(evs) == Session(Starts(evs) - Completes(evs), Starts(evs) > Completes(evs))
    ensures Synchronized(Run(evs))
  {
    if evs != [] {
      var n := |evs| - 1;
      var p := evs[..n];
      forall k | 0 <= k <= |p|
        ensures Completes(p[..k]) <= Starts(p[..k])
      {
        assert p[..k] == evs[..k];
      }
      RunCounts(p);
      assert evs[..|evs|] == evs;
    }
  }

  /** N starts and N completions, in any balanced order, leave no animation
      counted and no display link. */
  lemma AllCompletedStopsLink(evs: seq<Event>)
    requires Balanced(evs)
    requires Starts(evs) == Completes(evs)
    ensures Run(evs) == Idle
  {
    RunCounts(evs);
  }

  /** N starts and fewer completions keep the display link running. */
  lemma PendingKeepsLink(evs: seq<Event>)
    requires Balanced(evs)
    requires Completes(evs) < Starts(evs)
    ensures Run(evs).linkActive
    ensures Run(evs).count == Starts(evs) - Completes(evs)
  {
    RunCounts(evs);
  }

  /** Two overlapping animations: the count reaches 2 and the link survives
      the first completion; only the second one stops it. */
  lemma OverlappingAnimations()
    ensures Run([Start, Start]) == Session(2, true)
    ensures Run([Start, Start, Complete]) == Session(1, true)
    ensures Run([Start, Start, Complete, Complete]) == Idle
  {
    assert [Start, Start, Complete, Complete][..3] == [Start, Start, Complete];
    assert [Start, Start, Complete][..2] == [Start, Start];
    assert [Start, Start][..1] == [Start];
  }

  /** Without the balance assumption the invariant fails: a completion with
      no matching start drives the count to -1, and the next start then
      creates a link while the count is 0. */
  lemma UnmatchedCompletionDesynchronizes()
    ensures Run([Complete]) == Session(-1, false)
    ensures Run([Complete, Start]) == Session(0, true)
    ensures !Synchronized(Run([Complete, Start]))
  {
  }
}
