/** The FAQ accordion the three trade-site templates share: `openFaq` holds the index of the open answer,
    or `null` when every answer is closed. */
module Accordion {
  import opened Wrappers

  /** `openFaq`. */
  type State = Option<int>

  /** `useState(null)`: every answer starts closed. */
  const Initial: State := None

  /** Item `idx` shows its answer (and its turned chevron) exactly when `openFaq === idx`. */
  predicate IsOpen(s: State, idx: int) {
    s == Some(idx)
  }

  /** A click on item `idx`: `setOpenFaq(openFaq === idx ? null : idx)`. The clicked item flips and every other
      item ends up closed. */
  function Toggle(s: State, idx: int): (r: State)
    ensures IsOpen(r, idx) <==> !IsOpen(s, idx)
    ensures forall j :: j != idx ==> !IsOpen(r, j)
  {
    if s == Some(idx) then None else Some(idx)
  }

  /** The state after a sequence of clicks, first click first. */
  function Clicks(s: State, clicks: seq<int>): State
    decreases |clicks|
  {
    if |clicks| == 0 then s else Clicks(Toggle(s, clicks[0]), clicks[1..])
  }

  /** Clicking the same item twice restores the state when that item was open, and otherwise closes everything:
      a second click on an item opened over another does not reopen the other. */
  lemma ToggleTwice(s: State, idx: int)
    ensures Toggle(Toggle(s, idx), idx) == (if IsOpen(s, idx) then s else None)
  {
  }

  /** After any clicks, the only item that can be open is the one clicked last. */
  lemma {:induction false} OnlyLastClickedOpen(s: State, clicks: seq<int>, j: int)
    requires |clicks| > 0
    requires IsOpen(Clicks(s, clicks), j)
    ensures j == clicks[|clicks| - 1]
    decreases |clicks|
  {
    if |clicks| == 1 {
      assert Clicks(s, clicks) == Clicks(Toggle(s, clicks[0]), []);
    } else {
      OnlyLastClickedOpen(Toggle(s, clicks[0]), clicks[1..], j);
    }
  }

  /** The last click opens its item unless the item was already open before it: from any state when an other
      item was clicked just before, and from a state where the item is closed when it is the only click. */
  lemma {:induction false} LastClickOpens(s: State, clicks: seq<int>, idx: int)
    requires |clicks| > 0 && clicks[|clicks| - 1] == idx
    requires if |clicks| == 1 then !IsOpen(s, idx) else clicks[|clicks| - 2] != idx
    ensures IsOpen(Clicks(s, clicks), idx)
    decreases |clicks|
  {
    if |clicks| == 1 {
      assert Clicks(s, clicks) == Clicks(Toggle(s, clicks[0]), []);
    } else if |clicks| == 2 {
      var t := Toggle(s, clicks[0]);
      assert clicks[1..][1..] == [];
      assert Clicks(s, clicks) == Clicks(t, clicks[1..]);
      assert Clicks(t, clicks[1..]) == Clicks(Toggle(t, idx), []);
    } else {
      LastClickOpens(Toggle(s, clicks[0]), clicks[1..], idx);
    }
  }
}
