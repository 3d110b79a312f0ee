/** The handyman site's state machines: the before/after gallery (`BeforeAfterGallery`) and the active service
    of the tool belt. Its FAQ is the shared `Accordion`. */
module Handyman {
  import opened Modular

  datatype Slide = Slide(image: string, title: string)

  /** The gallery's slides (their descriptions are presentational and not modelled). */
  const Slides: seq<Slide> := [
    Slide("/handyman_05.png", "Richmond Deck"),
    Slide("/handyman_01.png", "South Yarra Door"),
    Slide("/handyman_03.png", "Hawthorn Bathroom")
  ]

  /** The right arrow, for `n` slides: `prev === slides.length - 1 ? 0 : prev + 1`. On a valid index it is
      addition modulo `n`. */
  function Next(i: int, n: int): (r: int)
    ensures 0 <= i < n ==> 0 <= r < n && r == (i + 1) % n
  {
    if i == n - 1 then 0 else i + 1
  }

  /** The left arrow: `prev === 0 ? slides.length - 1 : prev - 1`. On a valid index it is subtraction modulo `n`
      (Dafny's `%` never returns a negative number, so `(0 - 1) % n == n - 1`). */
  function Prev(i: int, n: int): (r: int)
    ensures 0 <= i < n ==> 0 <= r < n && r == (i - 1) % n
  {
    if i == 0 then n - 1 else i - 1
  }

  /** The two arrows undo each other. */
  lemma ArrowsInverse(i: int, n: int)
    requires 0 <= i < n
    ensures Prev(Next(i, n), n) == i && Next(Prev(i, n), n) == i
  {
  }

  /** `k` presses of the right arrow. */
  function Forward(i: int, n: int, k: nat): int
    decreases k
  {
    if k == 0 then i else Next(Forward(i, n, k - 1), n)
  }

  /** `k` presses move `k` slides on, wrapping round. */
  lemma {:induction false} ForwardIsModular(i: int, n: int, k: nat)
    requires 0 <= i < n
    ensures Forward(i, n, k) == (i + k) % n
    decreases k
  {
    if k > 0 {
      ForwardIsModular(i, n, k - 1);
      ModSucc(i + k - 1, n);
    }
  }

  /** As many presses as there are slides come back to the start. */
  lemma FullTurn(i: int, n: int)
    requires 0 <= i < n
    ensures Forward(i, n, n) == i
  {
    ForwardIsModular(i, n, n);
    ModUnique(i + n, n, 1, i);
  }

  /** A user action on the gallery. */
  datatype Event = NextClick | PrevClick | DotClick(idx: int)

  /** The new `activeSlide`; a dot sets it to exactly the dot's index. */
  function Apply(active: int, e: Event, n: int): int {
    match e
    case NextClick => Next(active, n)
    case PrevClick => Prev(active, n)
    case DotClick(idx) => idx
  }

  /** The dots are drawn from `slides.map`, so a dot's index is a slide's index. */
  predicate DotsInRange(events: seq<Event>, n: int) {
    forall k :: 0 <= k < |events| && events[k].DotClick? ==> 0 <= events[k].idx < n
  }

  /** The gallery after a sequence of actions, first action first. */
  function Run(active: int, events: seq<Event>, n: int): int
    decreases |events|
  {
    if |events| == 0 then active else Run(Apply(active, events[0], n), events[1..], n)
  }

  /** `translateX(-${activeSlide * 100}%)`: the track is shifted left by whole slide widths, in percent. */
  function Offset(active: int): int {
    active * 100
  }

  /** The offset tells the slides apart: two positions have the same offset only if they are the same slide. */
  lemma OffsetInjective(a: int, b: int)
    ensures Offset(a) == Offset(b) <==> a == b
  {
  }

  /** Starting at slide 0 (`useState(0)`), any sequence of clicks keeps the active slide among the slides and the
      track within its width; after a dot click the active slide is that dot. */
  lemma {:induction false} RunInRange(active: int, events: seq<Event>, n: int)
    requires 0 <= active < n
    requires DotsInRange(events, n)
    ensures var r := Run(active, events, n);
      0 <= r < n && 0 <= Offset(r) <= 100 * (n - 1)
    ensures |events| > 0 && events[|events| - 1].DotClick? ==> Run(active, events, n) == events[|events| - 1].idx
    decreases |events|
  {
    if |events| > 0 {
      var a := Apply(active, events[0], n);
      assert events[0].DotClick? ==> 0 <= events[0].idx < n;
      assert DotsInRange(events[1..], n) by {
        forall k | 0 <= k < |events[1..]| && events[1..][k].DotClick?
          ensures 0 <= events[1..][k].idx < n
        {
          assert events[1..][k] == events[k + 1];
        }
      }
      RunInRange(a, events[1..], n);
    }
  }

  /** The gallery's own three slides: from the first, three right-arrow presses show it again. */
  lemma GalleryCycles()
    ensures Forward(0, |Slides|, |Slides|) == 0
    ensures Slides[Forward(0, |Slides|, 1)].title == "South Yarra Door"
  {
    FullTurn(0, |Slides|);
  }

  datatype Service = Service(title: string, price: string)

  /** The tool belt's services (icons, descriptions and details are presentational and not modelled). */
  const Services: seq<Service> := [
    Service("Repairs", "$85/hour"),
    Service("Painting", "From $400/room"),
    Service("Plumbing", "$95/hour"),
    Service("Electrical", "$90/hour"),
    Service("Carpentry", "Quoted onsite"),
    Service("Assembly", "$75/hour")
  ]

  /** `activeService` after the tool-belt clicks `clicks` starting from `active`: each click sets it to the
      clicked item's index. */
  function ActiveService(active: nat, clicks: seq<nat>): (r: nat)
    ensures |clicks| == 0 ==> r == active
    ensures |clicks| > 0 ==> r == clicks[|clicks| - 1]
    decreases |clicks|
  {
    if |clicks| == 0 then active else ActiveService(clicks[0], clicks[1..])
  }

  /** The detail panel: `services[activeService]`, the service at index 0 until the first click. Clicks come
      from `services.map`, so each names a service. */
  function ShownService(clicks: seq<nat>): (s: Service)
    requires forall k :: 0 <= k < |clicks| ==> clicks[k] < |Services|
    ensures |clicks| == 0 ==> s.title == "Repairs"
    ensures |clicks| > 0 ==> s == Services[clicks[|clicks| - 1]]
  {
    Services[ActiveService(0, clicks)]
  }
}
