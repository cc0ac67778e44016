/**
 * The landing page's typewriter banner (frontend/app/components/TypewriterEffect.tsx):
 * every tick types one more character of the current phrase, then deletes
 * them one by one, then moves on to the next of four phrases. Ticks are
 * discrete events; the 100 ms interval is not modelled.
 */
module Typewriter {
  const Phrases: seq<string> := ["会议安排，交给Timely.AI", "自动化邀约，精准安排", "节省时间，提高效率", "智能助手，让协作更顺畅"]

  datatype TypeState = TypeState(phraseIndex: nat, charIndex: nat, isDeleting: bool)

  /** The counters stay within the phrase list and the current phrase. */
  predicate Inv(s: TypeState) {
    s.phraseIndex < |Phrases| && s.charIndex <= |Phrases[s.phraseIndex]|
  }

  function Initial(): (s: TypeState)
    ensures Inv(s)
  {
    TypeState(0, 0, false)
  }

  /** One interval tick. */
  function Tick(s: TypeState): (r: TypeState)
    requires Inv(s)
    ensures Inv(r)
    ensures s.isDeleting && s.charIndex > 0 ==> r == s.(charIndex := s.charIndex - 1)
    ensures s.isDeleting && s.charIndex == 0 ==> r == TypeState((s.phraseIndex + 1) % |Phrases|, 0, false)
    ensures !s.isDeleting && s.charIndex < |Phrases[s.phraseIndex]| ==> r == s.(charIndex := s.charIndex + 1)
    ensures !s.isDeleting && s.charIndex == |Phrases[s.phraseIndex]| ==> r == s.(isDeleting := true)
  {
    if s.isDeleting then
      if s.charIndex > 0 then s.(charIndex := s.charIndex - 1)
      else TypeState((s.phraseIndex + 1) % |Phrases|, 0, false)
    else
      if s.charIndex < |Phrases[s.phraseIndex]| then s.(charIndex := s.charIndex + 1)
      else s.(isDeleting := true)
  }

  /** The state after `n` ticks. */
  function Ticks(s: TypeState, n: nat): (r: TypeState)
    requires Inv(s)
    ensures Inv(r)
    decreases n
  {
    if n == 0 then s else Ticks(Tick(s), n - 1)
  }

  /** The text on screen: the first `charIndex` characters of the current phrase. */
  function Displayed(s: TypeState): (text: string)
    requires Inv(s)
    ensures |text| == s.charIndex
    ensures text <= Phrases[s.phraseIndex]
  {
    Phrases[s.phraseIndex][..s.charIndex]
  }

  lemma {:induction false} TicksAdd(s: TypeState, a: nat, b: nat)
    requires Inv(s)
    ensures Ticks(s, a + b) == Ticks(Ticks(s, a), b)
    decreases a
  {
    if a > 0 {
      TicksAdd(Tick(s), a - 1, b);
    }
  }

  /** Typing from `c` characters reaches the whole phrase after as many ticks as are missing. */
  lemma {:induction false} TypingCompletes(p: nat, c: nat)
    requires p < |Phrases| && c <= |Phrases[p]|
    ensures Ticks(TypeState(p, c, false), |Phrases[p]| - c) == TypeState(p, |Phrases[p]|, false)
    decreases |Phrases[p]| - c
  {
    if c < |Phrases[p]| {
      TypingCompletes(p, c + 1);
    }
  }

  /** Deleting from `c` characters empties the line after `c` ticks. */
  lemma {:induction false} DeletingCompletes(p: nat, c: nat)
    requires p < |Phrases| && c <= |Phrases[p]|
    ensures Ticks(TypeState(p, c, true), c) == TypeState(p, 0, true)
  {
    if c > 0 {
      DeletingCompletes(p, c - 1);
    }
  }

  /**
   * A full cycle: from an empty line, typing the phrase, turning round,
   * deleting it and moving on take 2·length + 2 ticks and leave an empty line
   * for the next phrase, wrapping from the fourth to the first.
   */
  lemma CycleAdvancesPhrase(p: nat)
    requires p < |Phrases|
    ensures var n := |Phrases[p]|;
      Ticks(TypeState(p, 0, false), 2 * n + 2) == TypeState((p + 1) % |Phrases|, 0, false)
  {
    var n := |Phrases[p]|;
    var s := TypeState(p, 0, false);
    TicksAdd(s, n, n + 2);
    TypingCompletes(p, 0);
    var full := TypeState(p, n, false);
    TicksAdd(full, 1, n + 1);
    assert Ticks(full, 1) == TypeState(p, n, true);
    TicksAdd(TypeState(p, n, true), n, 1);
    DeletingCompletes(p, n);
  }

  class TypewriterEffect {
    var phraseIndex: nat
    var charIndex: nat
    var isDeleting: bool

    function State(): TypeState
      reads this
    {
      TypeState(phraseIndex, charIndex, isDeleting)
    }

    constructor ()
      ensures State() == Initial()
    {
      phraseIndex := 0;
      charIndex := 0;
      isDeleting := false;
    }

    /** The interval callback, reading the counters of the render that set it. */
    method OnInterval()
      requires Inv(State())
      modifies this
      ensures Inv(State())
      ensures State() == Tick(old(State()))
    {
      if isDeleting {
        if charIndex > 0 {
          charIndex := charIndex - 1;
        } else {
          isDeleting := false;
          phraseIndex := (phraseIndex + 1) % |Phrases|;
        }
      } else {
        if charIndex < |Phrases[phraseIndex]| {
          charIndex := charIndex + 1;
        } else {
          isDeleting := true;
        }
      }
    }
  }
}
