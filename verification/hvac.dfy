/** The HVAC site's state: the season toggle, the animated thermometer that steps toward a season's target, the
    season-dependent selections and the portfolio's temperature badges. Its FAQ is the shared `Accordion`. */
module Hvac {

  /** `season`; the page only ever sets `'summer'` or `'winter'`, and starts in summer. */
  datatype Season = Summer | Winter

  /** `useState(30)`: the thermometer's fill before any tick. */
  const Start: int := 30

  /** The fill the animation heads for: `season === 'summer' ? 75 : 45`. */
  function Target(season: Season): int {
    if season == Summer then 75 else 45
  }

  /** `|a - b|`. */
  function Dist(a: int, b: int): nat {
    if a < b then b - a else a - b
  }

  /** One interval tick: one step toward `target`, none at the target. The value moves at most one unit, gets one
      unit closer unless already there, and never passes the target. */
  function Step(prev: int, target: int): (r: int)
    ensures Dist(r, target) == if prev == target then 0 else Dist(prev, target) - 1
    ensures Dist(r, prev) <= 1
    ensures prev <= target ==> prev <= r <= target
    ensures prev >= target ==> target <= r <= prev
  {
    if prev < target then prev + 1
    else if prev > target then prev - 1
    else prev
  }

  /** The value after `k` ticks. */
  function Ticks(v: int, target: int, k: nat): int
    decreases k
  {
    if k == 0 then v else Ticks(Step(v, target), target, k - 1)
  }

  /** The whole animation in closed form: the value moves one unit per tick from `v` toward `target` and stays
      there once it arrives. */
  lemma {:induction false} TicksClosedForm(v: int, target: int, k: nat)
    ensures Ticks(v, target, k) ==
      if k >= Dist(v, target) then target
      else if v < target then v + k
      else v - k
    decreases k
  {
    if k > 0 {
      TicksClosedForm(Step(v, target), target, k - 1);
    }
  }

  /** The animation reaches its target after exactly `|v - target|` ticks, never earlier, and never overshoots. */
  lemma ReachesTarget(v: int, target: int, k: nat)
    ensures Ticks(v, target, k) == target <==> k >= Dist(v, target)
    ensures v <= target ==> v <= Ticks(v, target, k) <= target
    ensures v >= target ==> target <= Ticks(v, target, k) <= v
  {
    TicksClosedForm(v, target, k);
  }

  /** From the first render: 45 ticks fill up to summer's 75, 15 ticks to winter's 45. */
  lemma FromStart(season: Season)
    ensures Ticks(Start, Target(season), if season == Summer then 45 else 15) == Target(season)
  {
    TicksClosedForm(Start, Target(season), if season == Summer then 45 else 15);
  }

  /** A portfolio badge's colour. */
  datatype Badge = Orange | Blue | Green

  /** `temp >= 23 ? orange : temp <= 20 ? blue : green`: warm, cool, or comfortable in between. */
  function BadgeFor(temp: int): (b: Badge)
    ensures b == Orange <==> temp >= 23
    ensures b == Blue <==> temp <= 20
    ensures b == Green <==> 20 < temp < 23
  {
    if temp >= 23 then Orange else if temp <= 20 then Blue else Green
  }

  /** The portfolio's temperatures, in order. */
  const PortfolioTemps: seq<int> := [22, 24, 20, 23, 21, 22]

  /** The six projects show green, orange, blue, orange, green, green. */
  lemma PortfolioBadges()
    ensures seq(|PortfolioTemps|, i requires 0 <= i < |PortfolioTemps| => BadgeFor(PortfolioTemps[i]))
      == [Green, Orange, Blue, Orange, Green, Green]
  {
  }

  /** The service grid's titles; only the first depends on the season. */
  function ServiceTitles(season: Season): seq<string> {
    [if season == Summer then "Air Conditioning" else "Heating",
     "Ventilation", "Duct Cleaning", "Climate Control", "Air Quality", "Repairs"]
  }

  const SummerTasks: seq<string> :=
    ["Clean AC filters", "Check refrigerant levels", "Inspect outdoor unit", "Test thermostat"]

  const WinterTasks: seq<string> :=
    ["Service heating system", "Check ductwork", "Replace filters", "Test safety switches"]

  /** What the season selects on the page: the thermometer's reading, the service grid, the checklist and the
      animation's target. */
  datatype View = View(reading: string, services: seq<string>, checklist: seq<string>, target: int)

  /** Every selection is summer's exactly when the season is summer. */
  function ViewOf(season: Season): (v: View)
    ensures |v.services| == 6
    ensures v.reading == "24°C" <==> season == Summer
    ensures v.services[0] == "Air Conditioning" <==> season == Summer
    ensures v.checklist == SummerTasks <==> season == Summer
    ensures v.target == 75 <==> season == Summer
  {
    assert SummerTasks[0] != WinterTasks[0];
    View(
      if season == Summer then "24°C" else "21°C",
      ServiceTitles(season),
      if season == Summer then SummerTasks else WinterTasks,
      Target(season))
  }

  /** Each season has its own view; the two differ in every season-dependent selection and share the rest of the
      service grid. */
  lemma SeasonsDiffer()
    ensures ViewOf(Summer).reading != ViewOf(Winter).reading
    ensures ViewOf(Summer).services[0] == "Air Conditioning" && ViewOf(Winter).services[0] == "Heating"
    ensures ViewOf(Summer).checklist == SummerTasks && ViewOf(Winter).checklist == WinterTasks
    ensures ViewOf(Summer).checklist[0] != ViewOf(Winter).checklist[0]
    ensures ViewOf(Summer).services[1..] == ViewOf(Winter).services[1..]
    ensures ViewOf(Summer).target > ViewOf(Winter).target
  {
    assert ViewOf(Summer).reading[1] != ViewOf(Winter).reading[1];
    assert SummerTasks[0][0] != WinterTasks[0][0];
  }
}
