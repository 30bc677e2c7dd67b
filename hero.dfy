/**
 * The hero section's typing effect: every 100 ms, while the section is in
 * view, one more character of the headline becomes visible, and once the
 * whole headline shows the interval is cleared. The section's pointer
 * tracking and click burst are in the Pointer and Particles modules.
 */
module Hero {
  import opened Arith

  const FullText: string := "Healthcare Staffing"

  /** `typingText` and `typingIndex`. */
  datatype Typing = Typing(text: string, index: nat)

  const Start: Typing := Typing("", 0)

  /** The visible text is the first `index` characters of the headline. */
  predicate Consistent(t: Typing) {
    t.index <= |FullText| && t.text == FullText[..t.index]
  }

  /**
   * One interval tick: below the headline's length, show one character more;
   * otherwise leave both values as they are (the handler only clears the interval).
   */
  function NextTyping(t: Typing): (u: Typing)
    ensures Consistent(t) ==> Consistent(u) && t.text <= u.text
    ensures t.index < |FullText| ==> u.index == t.index + 1 && |u.text| == u.index
    ensures u == t <==> t.index >= |FullText|
  {
    if t.index < |FullText| then Typing(FullText[..t.index + 1], t.index + 1) else t
  }

  /** The state after `k` ticks. */
  function AfterTicks(t: Typing, k: nat): (u: Typing)
    ensures Consistent(t) ==> Consistent(u) && t.text <= u.text
    decreases k
  {
    if k == 0 then t else AfterTicks(NextTyping(t), k - 1)
  }

  /** From a consistent state, `k` ticks show `min(index + k, 19)` characters. */
  lemma {:induction false} TicksShowPrefix(t: Typing, k: nat)
    requires Consistent(t)
    ensures AfterTicks(t, k) == Typing(FullText[..Min(t.index + k, |FullText|)], Min(t.index + k, |FullText|))
    decreases k
  {
    if k > 0 {
      TicksShowPrefix(NextTyping(t), k - 1);
    }
  }

  /** After exactly as many ticks as the headline has characters, all of it shows, and further ticks change nothing. */
  lemma TypingCompletes(extra: nat)
    ensures AfterTicks(Start, |FullText|) == Typing(FullText, |FullText|)
    ensures AfterTicks(Start, |FullText| + extra) == AfterTicks(Start, |FullText|)
  {
    TicksShowPrefix(Start, |FullText|);
    TicksShowPrefix(Start, |FullText| + extra);
  }

  /** The component's typing state, updated in place by the interval. */
  class TypingEffect {
    var typingText: string
    var typingIndex: nat

    ghost predicate Valid()
      reads this
    {
      Consistent(Snapshot())
    }

    function Snapshot(): Typing
      reads this
    {
      Typing(typingText, typingIndex)
    }

    constructor ()
      ensures Valid() && Snapshot() == Start
    {
      typingText, typingIndex := "", 0;
    }

    /** One firing of the interval; `cleared` is true when the handler clears the interval instead. */
    method Tick() returns (cleared: bool)
      requires Valid()
      modifies this
      ensures Valid() && Snapshot() == NextTyping(old(Snapshot()))
      ensures cleared <==> old(typingIndex) >= |FullText|
    {
      if typingIndex < |FullText| {
        typingText := FullText[..typingIndex + 1];
        typingIndex := typingIndex + 1;
        cleared := false;
      } else {
        cleared := true;
      }
    }
  }
}
