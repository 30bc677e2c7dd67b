/**
 * The testimonial carousel: an index into a fixed list of three records and
 * an autoplay flag. `next` and `prev` move the index with wrap-around, a dot
 * click jumps to an index, and every manual command switches autoplay off for
 * good; the 5-second interval advances the index only while autoplay is on.
 */
module Testimonials {

  datatype Testimonial = Testimonial(quote: string, author: string, role: string)

  /** The records shown, in order. */
  const Items: seq<Testimonial> := [
    Testimonial(
      "Medlocum saved us hours of staffing headaches! The automated matching system is incredibly accurate.",
      "Dr. Jane K.", "Hospital Admin"),
    Testimonial(
      "I found my perfect shift in minutes! The app is intuitive and makes managing my schedule so much easier.",
      "Nurse Alex M.", "Registered Nurse"),
    Testimonial(
      "The matching system is a game-changer. We've reduced our staffing gaps by 70% since implementing Medlocum.",
      "HR Manager", "St. Luke's Hospital")
  ]

  /** `(i + 1) % n`: one step forward, wrapping from the last index to the first. */
  function NextIndex(i: nat, n: nat): (j: nat)
    requires i < n
    ensures j < n
    ensures i + 1 < n ==> j == i + 1
    ensures i + 1 == n ==> j == 0
  {
    (i + 1) % n
  }

  /** `(i - 1 + n) % n`: one step back, wrapping from the first index to the last. */
  function PrevIndex(i: nat, n: nat): (j: nat)
    requires i < n
    ensures j < n
    ensures i > 0 ==> j == i - 1
    ensures i == 0 ==> j == n - 1
  {
    (i - 1 + n) % n
  }

  /** Stepping forward then back, or back then forward, returns to the same index. */
  lemma NextPrevInverse(i: nat, n: nat)
    requires i < n
    ensures PrevIndex(NextIndex(i, n), n) == i
    ensures NextIndex(PrevIndex(i, n), n) == i
  {
  }

  /** The carousel's state: `current` and `autoplay`. */
  datatype State = State(current: nat, autoplay: bool)

  /** What can happen to the carousel: the two arrow buttons, a dot, the interval. */
  datatype Event = NextClick | PrevClick | DotClick(index: nat) | AutoplayTick

  const Initial: State := State(0, true)

  predicate Valid(s: State) {
    s.current < |Items|
  }

  /** Dots are rendered by mapping over the list, so a dot's index is always an index of it. */
  predicate Allowed(e: Event) {
    e.DotClick? ==> e.index < |Items|
  }

  predicate AllAllowed(es: seq<Event>) {
    forall k :: 0 <= k < |es| ==> Allowed(es[k])
  }

  /** The effect of one event. */
  function Step(s: State, e: Event): (t: State)
    requires Valid(s) && Allowed(e)
    ensures Valid(t)
    ensures !e.AutoplayTick? ==> !t.autoplay
    ensures t.autoplay ==> s.autoplay
    ensures e.AutoplayTick? && !s.autoplay ==> t == s
    ensures e.NextClick? ==> t.current == NextIndex(s.current, |Items|)
    ensures e.PrevClick? ==> t.current == PrevIndex(s.current, |Items|)
    ensures e.DotClick? ==> t.current == e.index
    ensures e.AutoplayTick? && s.autoplay ==> t == State(NextIndex(s.current, |Items|), true)
  {
    match e
    case NextClick => State(NextIndex(s.current, |Items|), false)
    case PrevClick => State(PrevIndex(s.current, |Items|), false)
    case DotClick(i) => State(i, false)
    case AutoplayTick => if s.autoplay then State(NextIndex(s.current, |Items|), true) else s
  }

  /** The state after a sequence of events, first event first. */
  function Run(s: State, es: seq<Event>): (t: State)
    requires Valid(s) && AllAllowed(es)
    ensures Valid(t)
    ensures t.autoplay ==> s.autoplay
    decreases |es|
  {
    if es == [] then s else Run(Step(s, es[0]), es[1..])
  }

  /** Once autoplay is off, interval ticks never move the carousel. */
  lemma {:induction false} TicksIdleWhenManual(s: State, es: seq<Event>)
    requires Valid(s) && !s.autoplay
    requires forall k :: 0 <= k < |es| ==> es[k] == AutoplayTick
    ensures Run(s, es) == s
    decreases |es|
  {
    if es != [] {
      TicksIdleWhenManual(Step(s, es[0]), es[1..]);
    }
  }

  /** While autoplay is on, `k` ticks advance the index by `k` places, modulo the length. */
  lemma {:induction false} TicksAdvance(s: State, es: seq<Event>)
    requires Valid(s) && s.autoplay
    requires forall k :: 0 <= k < |es| ==> es[k] == AutoplayTick
    ensures Run(s, es) == State((s.current + |es|) % |Items|, true)
    decreases |es|
  {
    if es != [] {
      var t := Step(s, es[0]);
      TicksAdvance(t, es[1..]);
      assert t.current == (s.current + 1) % |Items|;
    }
  }

  /** After any manual command, autoplay stays off whatever happens next. */
  lemma {:induction false} ManualIsPermanent(s: State, es: seq<Event>)
    requires Valid(s) && AllAllowed(es)
    requires exists k :: 0 <= k < |es| && !es[k].AutoplayTick?
    ensures !Run(s, es).autoplay
    decreases |es|
  {
    var k :| 0 <= k < |es| && !es[k].AutoplayTick?;
    if k == 0 {
      assert !Step(s, es[0]).autoplay;
    } else {
      assert es[1..][k - 1] == es[k];
      ManualIsPermanent(Step(s, es[0]), es[1..]);
    }
  }

  /** `next` then `prev` (and `prev` then `next`) restores the index. */
  lemma NextThenPrev(s: State)
    requires Valid(s)
    ensures Run(s, [NextClick, PrevClick]).current == s.current
    ensures Run(s, [PrevClick, NextClick]).current == s.current
  {
  }

  /**
   * The carousel component. Each method is one handler of the component;
   * `Snapshot` is the state they act on.
   */
  class Carousel {
    var current: nat
    var autoplay: bool

    ghost predicate Valid()
      reads this
    {
      current < |Items|
    }

    function Snapshot(): State
      reads this
    {
      State(current, autoplay)
    }

    /** `useState(0)` and `useState(true)`. */
    constructor ()
      ensures Valid() && Snapshot() == Initial
    {
      current, autoplay := 0, true;
    }

    method Next()
      requires Valid()
      modifies this
      ensures Valid() && Snapshot() == Step(old(Snapshot()), NextClick)
    {
      current := (current + 1) % |Items|;
      autoplay := false;
    }

    method Prev()
      requires Valid()
      modifies this
      ensures Valid() && Snapshot() == Step(old(Snapshot()), PrevClick)
    {
      current := (current - 1 + |Items|) % |Items|;
      autoplay := false;
    }

    /** The click handler of dot `index`. */
    method GoTo(index: nat)
      requires Valid() && index < |Items|
      modifies this
      ensures Valid() && Snapshot() == Step(old(Snapshot()), DotClick(index))
    {
      current := index;
      autoplay := false;
    }

    /** One firing of the interval; when autoplay is off no interval is installed, so nothing changes. */
    method Tick()
      requires Valid()
      modifies this
      ensures Valid() && Snapshot() == Step(old(Snapshot()), AutoplayTick)
    {
      if !autoplay {
        return;
      }
      current := (current + 1) % |Items|;
    }

    /** `testimonials[current]`, the record rendered. */
    method Shown() returns (t: Testimonial)
      requires Valid()
      ensures t == Items[current] && t in Items
    {
      t := Items[current];
    }
  }

  /** One tick, then `prev`, then two more ticks: the carousel ends on the first record, autoplay off. */
  method ScenarioTickPrevTicks() {
    var c := new Carousel();
    c.Tick();
    assert c.current == 1;
    c.Prev();
    assert c.current == 0 && !c.autoplay;
    c.Tick();
    c.Tick();
    assert c.current == 0;
  }
}
