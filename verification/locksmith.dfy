/** The locksmith site's state machines: the response-time counter (`ResponseCounter`), the scroll-driven lock
    (`LockAnimation`) and the FAQ chevrons. */
module Locksmith {
  import opened Modular
  import Accordion

  /** `useState(15)`: the counter's first value. */
  const CounterStart: int := 15

  /** The counter's values once it is running. */
  predicate InCounterRange(v: int) {
    5 <= v <= 15
  }

  /** One tick of the one-second interval: `prev <= 5 ? 15 : prev - 1`. The result is never below 5, and from a
      value in `[5, 15]` it stays there; it is 15 exactly after a value of at most 5. */
  function Tick(prev: int): (r: int)
    ensures r >= 5
    ensures InCounterRange(prev) ==> InCounterRange(r)
    ensures r == 15 <==> prev <= 5 || prev == 16
  {
    if prev <= 5 then 15 else prev - 1
  }

  /** The counter after `k` ticks. */
  function Ticks(v: int, k: nat): int
    decreases k
  {
    if k == 0 then v else Ticks(Tick(v), k - 1)
  }

  /** In closed form: from a value in range, the counter counts down and wraps to 15 after 5, with period 11. */
  lemma {:induction false} TicksClosedForm(v: int, k: nat)
    requires InCounterRange(v)
    ensures Ticks(v, k) == 15 - (15 - v + k) % 11
    decreases k
  {
    if k > 0 {
      TicksClosedForm(Tick(v), k - 1);
      if v > 5 {
        assert 15 - Tick(v) + (k - 1) == 15 - v + k;
      } else {
        ModUnique(15 - v + k, 11, (15 - v + k) / 11, (15 - v + k) % 11);
        ModUnique(k - 1, 11, (15 - v + k) / 11 - 1, (15 - v + k) % 11);
      }
    }
  }

  /** From the first render the counter shows 15, 14, ..., 5 and then 15 again: period 11, never leaving
      `[5, 15]`, and no shorter period. */
  lemma CounterCycle(k: nat)
    ensures InCounterRange(Ticks(CounterStart, k))
    ensures Ticks(CounterStart, k) == 15 - k % 11
    ensures Ticks(CounterStart, k + 11) == Ticks(CounterStart, k)
    ensures Ticks(CounterStart, k) == CounterStart <==> k % 11 == 0
  {
    TicksClosedForm(CounterStart, k);
    TicksClosedForm(CounterStart, k + 11);
    ModUnique(k + 11, 11, k / 11 + 1, k % 11);
  }

  /** `Math.min(window.scrollY / 500, 1)`: how far the page has scrolled toward unlocking, capped at 1. */
  function Progress(scrollY: real): (p: real)
    ensures p <= 1.0
    ensures p == 1.0 <==> scrollY >= 500.0
    ensures scrollY >= 0.0 ==> p >= 0.0
    ensures scrollY <= 500.0 ==> p * 500.0 == scrollY
  {
    if scrollY / 500.0 < 1.0 then scrollY / 500.0 else 1.0
  }

  /** `isLocked = progress < 0.5`. */
  predicate IsLocked(progress: real) {
    progress < 0.5
  }

  /** The lock opens at 250 pixels of scroll: it is locked exactly while `scrollY` is below 250. */
  lemma LockedBelowHalfway(scrollY: real)
    ensures IsLocked(Progress(scrollY)) <==> scrollY < 250.0
  {
  }

  /** `useState(true)` and `useState(0)`: before any scroll event, the state is the one a scroll to the top gives. */
  lemma InitialStateAtTop()
    ensures Progress(0.0) == 0.0 && IsLocked(0.0)
  {
  }

  /** The caption under the lock. */
  function Caption(locked: bool): (s: string)
    ensures s == "Scroll to unlock" <==> locked
  {
    if locked then "Scroll to unlock" else "Unlocked!"
  }

  /** The progress ring's dash: `progress * 283` of a 283-long circle, never more than the whole circle. */
  function RingDash(progress: real): (d: real)
    ensures progress <= 1.0 ==> d <= 283.0
    ensures progress >= 0.0 ==> d >= 0.0
  {
    progress * 283.0
  }

  /** The ring is full exactly when the page has scrolled 500 pixels, and the lock is open from half of it. */
  lemma RingAndLock(scrollY: real)
    requires scrollY >= 0.0
    ensures RingDash(Progress(scrollY)) == 283.0 <==> scrollY >= 500.0
    ensures RingDash(Progress(scrollY)) >= 141.5 <==> !IsLocked(Progress(scrollY))
  {
  }

  /** A FAQ item's chevron. */
  datatype Chevron = Up | Down

  /** `openFaq === idx ? ChevronUp : ChevronDown`: the up chevron marks the one open answer. */
  function ChevronFor(s: Accordion.State, idx: int): (c: Chevron)
    ensures c == Up <==> Accordion.IsOpen(s, idx)
  {
    if Accordion.IsOpen(s, idx) then Up else Down
  }

  /** After a click, at most the clicked item shows the up chevron, and it does exactly when its answer opened. */
  lemma ChevronAfterClick(s: Accordion.State, idx: int, j: int)
    ensures ChevronFor(Accordion.Toggle(s, idx), j) == Up <==> j == idx && !Accordion.IsOpen(s, idx)
  {
  }
}
