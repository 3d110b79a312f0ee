/**
 * What the ticket scraper reads off a page (`ticket_scraper.py`): the sale status, VIP
 * package names and prices found in an event page's text, and the city/venue split of
 * a listing card's caption.
 */
module TicketDetails {
  import opened Wrappers
  import opened Text

  // ---------------------------------------------------------------------------
  // Sale status

  /** "sold out" wins over the ticket-buying phrases; all three are matched case-insensitively. */
  function ClassifyStatus(text: string): (status: string)
    ensures status == "sold_out" <==> Contains(Lower(text), "sold out")
    ensures status == "on_sale" <==>
      !Contains(Lower(text), "sold out")
      && (Contains(Lower(text), "find tickets") || Contains(Lower(text), "buy tickets"))
    ensures status == "announced" || status == "sold_out" || status == "on_sale"
  {
    var t := Lower(text);
    if Contains(t, "sold out") then "sold_out"
    else if Contains(t, "find tickets") || Contains(t, "buy tickets") then "on_sale"
    else "announced"
  }

  lemma LowerIdempotent(s: string)
    ensures Lower(Lower(s)) == Lower(s)
  {
    forall i | 0 <= i < |s|
      ensures Lower(Lower(s))[i] == Lower(s)[i]
    {
      assert LowerChar(LowerChar(s[i])) == LowerChar(s[i]);
    }
  }

  /** Classification ignores case: a page and its lower-cased text get the same status. */
  lemma ClassifyIgnoresCase(text: string)
    ensures ClassifyStatus(Lower(text)) == ClassifyStatus(text)
  {
    LowerIdempotent(text);
  }

  // ---------------------------------------------------------------------------
  // The two patterns searched in the page text, as scanners

  /** `s[i..]` starts with `word`, ignoring ASCII case (`re.I`); `word` is lower-case. */
  predicate WordAt(s: string, i: nat, word: string) {
    i + |word| <= |s| && Lower(s[i..i + |word|]) == word
  }

  /** Length of the keyword `TICKET|EXPERIENCE|PACKAGE` at `j`, tried in that order. */
  function KeywordAt(s: string, j: nat): (n: Option<nat>)
    ensures n.Some? ==> j + n.value <= |s|
    ensures n.Some? <==> WordAt(s, j, "ticket") || WordAt(s, j, "experience") || WordAt(s, j, "package")
  {
    if WordAt(s, j, "ticket") then Some(6)
    else if WordAt(s, j, "experience") then Some(10)
    else if WordAt(s, j, "package") then Some(7)
    else None
  }

  /** The lazy `.*?`: where the earliest keyword at or after `j` on the same line starts. */
  function KeywordFrom(s: string, j: nat): (k: Option<nat>)
    ensures k.Some? ==> j <= k.value && KeywordAt(s, k.value).Some?
    ensures k.Some? ==> forall m :: j <= m < k.value ==> m < |s| && s[m] != '\n' && KeywordAt(s, m).None?
    decreases |s| - j
  {
    if KeywordAt(s, j).Some? then Some(j)
    else if j < |s| && s[j] != '\n' then KeywordFrom(s, j + 1)
    else None
  }

  /** A keyword later on the same line is always found: the scan stops only at a line break or the end. */
  lemma {:induction false} KeywordFromFinds(s: string, j: nat, k: nat)
    requires j <= k && KeywordAt(s, k).Some?
    requires forall m :: j <= m < k ==> m < |s| && s[m] != '\n'
    ensures KeywordFrom(s, j).Some? && KeywordFrom(s, j).value <= k
    decreases |s| - j
  {
    if KeywordAt(s, j).None? {
      KeywordFromFinds(s, j + 1, k);
    }
  }

  /** End of the match: the end of the earliest keyword on the line. */
  function VipEnd(s: string, j: nat): (e: Option<nat>)
    ensures e.Some? ==> j < e.value <= |s|
  {
    match KeywordFrom(s, j)
    case Some(k) => Some(k + KeywordAt(s, k).value)
    case None => None
  }

  /** `VIP.*?(?:TICKET|EXPERIENCE|PACKAGE)` with `re.I`, matched at `i`: the end of the match. */
  function VipAt(s: string, i: nat): (e: Option<nat>)
    ensures e.Some? ==> i + 3 < e.value <= |s| && WordAt(s, i, "vip")
  {
    if WordAt(s, i, "vip") then VipEnd(s, i + 3) else None
  }

  /** Length of the run of `[\d,]` at `j`. */
  function DigitRun(s: string, j: nat): (n: nat)
    ensures j + n <= |s| || n == 0
    ensures forall k :: j <= k < j + n ==> IsDigit(s[k]) || s[k] == ','
    ensures j + n < |s| ==> !(IsDigit(s[j + n]) || s[j + n] == ',')
    decreases |s| - j
  {
    if j < |s| && (IsDigit(s[j]) || s[j] == ',') then 1 + DigitRun(s, j + 1) else 0
  }

  /** Length of the run of whitespace (`\s`) at `j`. */
  function SpaceRun(s: string, j: nat): (n: nat)
    ensures j + n <= |s| || n == 0
    ensures j + n < |s| ==> s[j + n] !in PyWhitespace
    decreases |s| - j
  {
    if j < |s| && s[j] in PyWhitespace then 1 + SpaceRun(s, j + 1) else 0
  }

  /** `\$[\d,]+(?:\.\d{2})?` at `i`. */
  function AmountAt(s: string, i: nat): (e: Option<nat>)
    ensures e.Some? ==> i + 2 <= e.value <= |s| && s[i] == '$'
  {
    if i < |s| && s[i] == '$' && DigitRun(s, i + 1) >= 1 then
      var e := i + 1 + DigitRun(s, i + 1);
      if e + 3 <= |s| && s[e] == '.' && IsDigit(s[e + 1]) && IsDigit(s[e + 2]) then Some(e + 3) else Some(e)
    else None
  }

  /** `\$[\d,]+\s*-\s*\$[\d,]+` at `i`. */
  function RangeAt(s: string, i: nat): (e: Option<nat>)
    ensures e.Some? ==> i + 5 <= e.value <= |s| && s[i] == '$' && '-' in s[i..e.value]
  {
    if i < |s| && s[i] == '$' && DigitRun(s, i + 1) >= 1 then
      var a := i + 1 + DigitRun(s, i + 1);
      var d := a + SpaceRun(s, a);
      if d < |s| && s[d] == '-' then
        var b := d + 1 + SpaceRun(s, d + 1);
        if b < |s| && s[b] == '$' && DigitRun(s, b + 1) >= 1 then
          assert s[i..b + 1 + DigitRun(s, b + 1)][d - i] == '-';
          Some(b + 1 + DigitRun(s, b + 1))
        else None
      else None
    else None
  }

  datatype Pattern =
    | Vip
    | PriceAsWritten    // the amount alternative first, as in the scraper
    | PriceRangeFirst   // the range alternative first

  /** Where a match of `p` at `i` ends, trying alternatives left to right like Python's `re`. */
  function MatchAt(p: Pattern, s: string, i: nat): (e: Option<nat>)
    ensures e.Some? ==> i < e.value <= |s|
  {
    match p
    case Vip => VipAt(s, i)
    case PriceAsWritten => if AmountAt(s, i).Some? then AmountAt(s, i) else RangeAt(s, i)
    case PriceRangeFirst => if RangeAt(s, i).Some? then RangeAt(s, i) else AmountAt(s, i)
  }

  /** `pattern.findall(s[i..])`: leftmost matches, each search resuming where the last match ended. */
  function FindAll(p: Pattern, s: string, i: nat): (r: seq<string>)
    ensures forall m :: m in r ==> exists k :: i <= k && MatchAt(p, s, k).Some? && m == s[k..MatchAt(p, s, k).value]
    decreases |s| - i
  {
    if i >= |s| then []
    else
      match MatchAt(p, s, i)
      case Some(e) => [s[i..e]] + FindAll(p, s, e)
      case None => FindAll(p, s, i + 1)
  }

  // ---------------------------------------------------------------------------
  // The price pattern's unreachable alternative

  /** Wherever a range matches, the amount alternative already matches at the same place. */
  lemma RangeShadowed(s: string, i: nat)
    requires RangeAt(s, i).Some?
    ensures AmountAt(s, i).Some?
  {
  }

  /** An amount match holds no dash. */
  lemma AmountHasNoDash(s: string, i: nat)
    requires AmountAt(s, i).Some?
    ensures '-' !in s[i..AmountAt(s, i).value]
  {
    var e := AmountAt(s, i).value;
    var a := i + 1 + DigitRun(s, i + 1);
    forall k | i <= k < e
      ensures s[k] != '-'
    {
      if k > i && k < a {
        assert IsDigit(s[k]) || s[k] == ',';
      }
    }
    assert forall k :: 0 <= k < e - i ==> s[i..e][k] == s[i + k];
  }

  /** As written, the pattern never reports a range: no match it finds contains a dash. */
  lemma AsWrittenNeverRange(s: string, m: string)
    requires m in FindAll(PriceAsWritten, s, 0)
    ensures '-' !in m
  {
    var k :| 0 <= k && MatchAt(PriceAsWritten, s, k).Some? && m == s[k..MatchAt(PriceAsWritten, s, k).value];
    if AmountAt(s, k).None? {
      RangeShadowed(s, k);
    }
    AmountHasNoDash(s, k);
  }

  lemma RangeDigitRuns(s: string)
    requires s == "$50 - $100"
    ensures DigitRun(s, 1) == 2 && DigitRun(s, 7) == 3
    ensures forall i :: 3 <= i < 6 ==> s[i] != '$'
    ensures s[0] == '$' && s[3] == ' ' && s[4] == '-' && s[5] == ' ' && s[6] == '$'
  {
    assert s[0] == '$' && s[1] == '5' && s[2] == '0' && s[3] == ' ' && s[4] == '-' && s[5] == ' ';
    assert s[6] == '$' && s[7] == '1' && s[8] == '0' && s[9] == '0';
    assert DigitRun(s, 10) == 0;
    assert DigitRun(s, 9) == 1 && DigitRun(s, 8) == 2;
    assert DigitRun(s, 3) == 0 && DigitRun(s, 2) == 1;
  }

  lemma RangeSpaceRuns(s: string)
    requires |s| == 10 && s[3] == ' ' && s[4] == '-' && s[5] == ' ' && s[6] == '$'
    ensures SpaceRun(s, 3) == 1 && SpaceRun(s, 5) == 1
  {
    assert ' ' in PyWhitespace && '-' !in PyWhitespace && '$' !in PyWhitespace;
    assert SpaceRun(s, 4) == 0 && SpaceRun(s, 6) == 0;
  }

  lemma PricesOfRange(s: string)
    requires s == "$50 - $100"
    ensures AmountAt(s, 0) == Some(3) && RangeAt(s, 0) == Some(10)
    ensures forall i :: 3 <= i < 6 ==> AmountAt(s, i).None? && RangeAt(s, i).None?
    ensures AmountAt(s, 6) == Some(10)
  {
    RangeDigitRuns(s);
    RangeSpaceRuns(s);
  }

  /** "$50 - $100" is reported as two separate prices, not as the range it is. */
  lemma AsWrittenSplitsRange(s: string)
    requires s == "$50 - $100"
    ensures FindAll(PriceAsWritten, s, 0) == ["$50", "$100"]
  {
    PricesOfRange(s);
    assert FindAll(PriceAsWritten, s, 10) == [];
    assert FindAll(PriceAsWritten, s, 6) == [s[6..10]];
    assert FindAll(PriceAsWritten, s, 5) == [s[6..10]];
    assert FindAll(PriceAsWritten, s, 4) == [s[6..10]];
    assert FindAll(PriceAsWritten, s, 3) == [s[6..10]];
    assert s[0..3] == "$50" && s[6..10] == "$100";
  }

  /** With the range alternative tried first, the same text yields the range whole. */
  lemma RangeFirstKeepsRange(s: string)
    requires s == "$50 - $100"
    ensures FindAll(PriceRangeFirst, s, 0) == ["$50 - $100"]
  {
    PricesOfRange(s);
    assert FindAll(PriceRangeFirst, s, 10) == [];
    assert s[0..10] == s;
  }

  /** With the range alternative first, a range is always matched whole; elsewhere nothing changes. */
  lemma RangeFirstAgrees(s: string, i: nat)
    ensures RangeAt(s, i).Some? ==> MatchAt(PriceRangeFirst, s, i) == RangeAt(s, i)
    ensures RangeAt(s, i).None? ==> MatchAt(PriceRangeFirst, s, i) == MatchAt(PriceAsWritten, s, i)
  {
  }

  // ---------------------------------------------------------------------------
  // fetch_event_details

  /** `list(set(xs))`: each element once. Python's set order is unspecified; first occurrences are kept here. */
  function Distinct(xs: seq<string>): (r: seq<string>)
    ensures forall x :: x in r <==> x in xs
    ensures forall i, j :: 0 <= i < j < |r| ==> r[i] != r[j]
    ensures |r| <= |xs|
  {
    if xs == [] then []
    else
      var rest := Distinct(xs[..|xs| - 1]);
      var x := xs[|xs| - 1];
      assert forall y :: y in xs <==> y in xs[..|xs| - 1] || y == x;
      if x in rest then rest else rest + [x]
  }

  datatype Details = Details(price: string, status: string, vipPackages: seq<string>)

  const Unknown: Details := Details("", "announced", [])

  /** `list(set(matches))[:2]`: at most two of the distinct prices `p` finds, each once. */
  function ShownPrices(p: Pattern, text: string): (shown: seq<string>)
    ensures var found := FindAll(p, text, 0);
      && |shown| == (if |Distinct(found)| < 2 then |Distinct(found)| else 2)
      && (forall x :: x in shown ==> x in found)
      && (forall i, j :: 0 <= i < j < |shown| ==> shown[i] != shown[j])
      && (shown == [] <==> found == [])
  {
    var found := FindAll(p, text, 0);
    assert found != [] ==> found[0] in Distinct(found);
    Take(Distinct(found), 2)
  }

  /**
   * `fetch_event_details(event_url)`: `page` is the page's text, `None` when fetching
   * failed (any exception: network error, HTTP error status). `prices` is the price
   * pattern: the scraper's own, with the amount alternative first, unless another is given.
   */
  function FetchDetails(url: string, page: Option<string>, prices: Pattern := PriceAsWritten): (d: Details)
    ensures url == "" || page.None? ==> d == Unknown
    ensures url != "" && page.Some? ==>
      var vips := FindAll(Vip, page.value, 0);
      && d.status == ClassifyStatus(page.value)
      // At most three distinct VIP package names, as many as there are up to three.
      && |d.vipPackages| == (if |Distinct(vips)| < 3 then |Distinct(vips)| else 3)
      && (forall v :: v in d.vipPackages ==> v in vips)
      && (forall i, j :: 0 <= i < j < |d.vipPackages| ==> d.vipPackages[i] != d.vipPackages[j])
      // At most two distinct prices, joined with ", "; no price text when nothing matched.
      && d.price == Join(ShownPrices(prices, page.value), ", ")
      && (d.price == "" <==> FindAll(prices, page.value, 0) == [])
  {
    if url == "" then Unknown
    else match page
      case None => Unknown
      case Some(text) =>
        var vips := Distinct(FindAll(Vip, text, 0));
        var shown := ShownPrices(prices, text);
        var price := Join(shown, ", ");
        assert price == "" <==> shown == [] by {
          if shown != [] {
            assert shown[0] in FindAll(prices, text, 0);
            NonEmptyMatch(prices, text, shown[0]);
            JoinHead(shown, ", ");
          }
        }
        Details(price, ClassifyStatus(text), Take(vips, 3))
  }

  /** Every match is non-empty. */
  lemma NonEmptyMatch(p: Pattern, s: string, m: string)
    requires m in FindAll(p, s, 0)
    ensures m != ""
  {
    var k :| 0 <= k && MatchAt(p, s, k).Some? && m == s[k..MatchAt(p, s, k).value];
  }

  lemma DistinctOne(a: string)
    ensures Distinct([a]) == [a]
  {
    assert [a][..0] == [];
  }

  lemma DistinctPair(a: string, b: string)
    requires a != b
    ensures Distinct([a, b]) == [a, b]
  {
    assert [a, b][..1] == [a];
    DistinctOne(a);
  }

  /** When the matches are already distinct and at most two, they are the prices shown, joined. */
  lemma PriceOfFound(url: string, page: string, p: Pattern, found: seq<string>)
    requires url != "" && FindAll(p, page, 0) == found && Distinct(found) == found && |found| <= 2
    ensures FetchDetails(url, Some(page), p).price == Join(found, ", ")
  {
    assert ShownPrices(p, page) == found;
  }

  /**
   * The scraper reports a page quoting the range "$50 - $100" as the two prices $50 and $100, here
   * "$50, $100" in first-occurrence order (Python's set may list them the other way round).
   */
  lemma FetchSplitsRange(url: string, page: string)
    requires url != "" && page == "$50 - $100"
    ensures FetchDetails(url, Some(page)).price == "$50, $100"
  {
    AsWrittenSplitsRange(page);
    DistinctPair("$50", "$100");
    PriceOfFound(url, page, PriceAsWritten, ["$50", "$100"]);
    JoinPair("$50", "$100", ", ");
    RangeEndsJoined();
  }

  lemma RangeEndsJoined()
    ensures "$50" + ", " + "$100" == "$50, $100"
  {
  }

  /** With the range alternative first, the same page reports the range "$50 - $100" whole. */
  lemma CorrectedFetchKeepsRange(url: string, page: string)
    requires url != "" && page == "$50 - $100"
    ensures FetchDetails(url, Some(page), PriceRangeFirst).price == "$50 - $100"
  {
    RangeFirstKeepsRange(page);
    DistinctOne("$50 - $100");
    PriceOfFound(url, page, PriceRangeFirst, ["$50 - $100"]);
  }

  lemma JoinPair(a: string, b: string, sep: string)
    ensures Join([a, b], sep) == a + sep + b
  {
    assert [a, b][1..] == [b];
  }

  lemma JoinHead(parts: seq<string>, sep: string)
    requires parts != []
    ensures |Join(parts, sep)| >= |parts[0]|
  {
  }

  // ---------------------------------------------------------------------------
  // parse_livenation_event: the caption

  /**
   * `"City, Venue"`: the stripped text before the first comma is the city and the stripped text after it
   * the venue; with no comma all of it is the venue and the city is empty.
   */
  function SplitCaption(caption: string): (r: (string, string))
    ensures ',' !in caption ==> r == ("", caption)
    ensures forall i :: 0 <= i < |caption| && caption[i] == ',' && ',' !in caption[..i] ==>
      r == (PyStrip(caption[..i]), PyStrip(caption[i + 1..]))
    ensures ',' in caption ==> ',' !in r.0 && Trimmed(r.0, PyWhitespace) && Trimmed(r.1, PyWhitespace)
  {
    if ',' in caption then
      var i := FirstIndexOf(caption, ',');
      FirstIndexOfUnique(caption, ',');
      NotInTrim(caption[..i], PyWhitespace, ',');
      TrimIsTrimmed(caption[..i], PyWhitespace);
      TrimIsTrimmed(caption[i + 1..], PyWhitespace);
      (PyStrip(caption[..i]), PyStrip(caption[i + 1..]))
    else ("", caption)
  }

  /** A caption written as "City, Venue" splits back into that city and venue. */
  lemma SplitCaptionRoundTrip(city: string, venue: string)
    requires ',' !in city && Trimmed(city, PyWhitespace) && Trimmed(venue, PyWhitespace)
    ensures SplitCaption(city + ", " + venue) == (city, venue)
  {
    var caption := city + ", " + venue;
    CaptionParts(city, venue);
    assert SplitCaption(caption) == (PyStrip(city), PyStrip([' '] + venue));
    StripParts(city, venue, PyWhitespace);
  }

  lemma StripParts(city: string, venue: string, ws: set<char>)
    requires ' ' in ws && Trimmed(city, ws) && Trimmed(venue, ws)
    ensures Trim(city, ws) == city && Trim([' '] + venue, ws) == venue
  {
    TrimTrimmed(city, ws);
    TrimTrimmed(venue, ws);
    TrimLeading(' ', venue, ws);
  }

  lemma CaptionParts(city: string, venue: string)
    requires ',' !in city
    ensures var caption := city + ", " + venue;
      ',' in caption && FirstIndexOf(caption, ',') == |city|
      && caption[..|city|] == city && caption[|city| + 1..] == [' '] + venue
  {
    var caption := city + ", " + venue;
    assert caption[|city|] == ',';
    assert caption[..|city|] == city;
    assert caption[|city| + 1..] == [' '] + venue;
  }
}
