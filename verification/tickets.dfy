/**
 * The ticket-scraper's daily diff and report (`ticket_scraper.py`): two days' event rows
 * are keyed by artist, date and venue, compared key by key, and summarised in a report
 * that shows at most ten entries per category.
 */
module Tickets {
  import opened Wrappers
  import opened Text
  import opened Decimal

  /** One CSV row; a missing column reads as the empty string. */
  datatype Row = Row(
    artist: string, tourName: string, date: string, venue: string,
    ticketPrice: string, ticketUrl: string, status: string)

  /** `f"{artist}-{date}-{venue}"` */
  function Key(r: Row): string {
    r.artist + "-" + r.date + "-" + r.venue
  }

  // ---------------------------------------------------------------------------
  // A day's rows as a Python dict: keys in first-insertion order, the last row per key

  datatype Snapshot = Snapshot(order: seq<string>, rows: map<string, Row>)

  /** The snapshot's keys are exactly its listed keys, listed once each. */
  ghost predicate Coherent(s: Snapshot) {
    && (forall k :: k in s.rows <==> k in s.order)
    && (forall i, j :: 0 <= i < j < |s.order| ==> s.order[i] != s.order[j])
  }

  /** Row `i` is the last of `rows` with key `k`. */
  ghost predicate LastWithKey(rows: seq<Row>, i: int, k: string) {
    0 <= i < |rows| && Key(rows[i]) == k && forall j :: i < j < |rows| ==> Key(rows[j]) != k
  }

  /** `for row in reader: events[key] = row` */
  function Index(rows: seq<Row>): (s: Snapshot)
    ensures Coherent(s)
    decreases |rows|
  {
    if rows == [] then Snapshot([], map[])
    else
      var n := |rows| - 1;
      var p := Index(rows[..n]);
      var k := Key(rows[n]);
      if k in p.rows then Snapshot(p.order, p.rows[k := rows[n]])
      else Snapshot(p.order + [k], p.rows[k := rows[n]])
  }

  /** Every row's key is in the snapshot. */
  lemma {:induction false} IndexCovers(rows: seq<Row>, i: int)
    requires 0 <= i < |rows|
    ensures Key(rows[i]) in Index(rows).rows
    decreases |rows|
  {
    var n := |rows| - 1;
    if i < n {
      assert rows[..n][i] == rows[i];
      IndexCovers(rows[..n], i);
    }
  }

  /** The snapshot holds under each key the last row carrying it, and nothing else. */
  lemma {:induction false} IndexLast(rows: seq<Row>, k: string) returns (i: nat)
    requires k in Index(rows).rows
    ensures LastWithKey(rows, i, k) && Index(rows).rows[k] == rows[i]
    decreases |rows|
  {
    var n := |rows| - 1;
    if Key(rows[n]) == k {
      i := n;
    } else {
      i := IndexLast(rows[..n], k);
      LastWithKeyExtend(rows, i, k);
    }
  }

  lemma LastWithKeyExtend(rows: seq<Row>, i: nat, k: string)
    requires |rows| > 0 && LastWithKey(rows[..|rows| - 1], i, k) && Key(rows[|rows| - 1]) != k
    ensures LastWithKey(rows, i, k) && rows[..|rows| - 1][i] == rows[i]
  {
    var q := rows[..|rows| - 1];
    forall j | i < j < |rows|
      ensures Key(rows[j]) != k
    {
      if j < |q| {
        assert q[j] == rows[j];
      }
    }
  }

  /** Row `i` is the first of `rows` with key `k`. */
  ghost predicate FirstWithKey(rows: seq<Row>, i: int, k: string) {
    0 <= i < |rows| && Key(rows[i]) == k && forall j :: 0 <= j < i ==> Key(rows[j]) != k
  }

  /** Every listed key first appears at some row. */
  lemma {:induction false} IndexFirst(rows: seq<Row>, k: string) returns (i: nat)
    requires k in Index(rows).rows
    ensures FirstWithKey(rows, i, k)
    decreases |rows|
  {
    var n := |rows| - 1;
    var q := rows[..n];
    if k in Index(q).rows {
      i := IndexFirst(q, k);
      assert q[i] == rows[i];
      forall j | 0 <= j < i
        ensures Key(rows[j]) != k
      {
        assert q[j] == rows[j];
      }
    } else {
      i := n;
      forall j | 0 <= j < n
        ensures Key(rows[j]) != k
      {
        assert q[j] == rows[j];
        IndexCovers(q, j);
      }
    }
  }

  /** The snapshot lists its keys in the order in which they first appear in `rows`. */
  lemma {:induction false} IndexOrder(rows: seq<Row>, i: int, j: int, a: nat, b: nat)
    requires 0 <= i < j < |Index(rows).order|
    requires FirstWithKey(rows, a, Index(rows).order[i]) && FirstWithKey(rows, b, Index(rows).order[j])
    ensures a < b
    decreases |rows|
  {
    var n := |rows| - 1;
    var q := rows[..n];
    var p := Index(q);
    var order := Index(rows).order;
    assert order[i] in p.order;
    FirstBeforeLast(rows, a, order[i]);
    if j < |p.order| {
      assert order[j] == p.order[j];
      FirstBeforeLast(rows, b, order[j]);
      IndexOrder(q, i, j, a, b);
    } else {
      assert Key(rows[n]) == order[j] && order[j] !in p.rows;
      if b < n {
        assert q[b] == rows[b];
        IndexCovers(q, b);
      }
    }
  }

  /** A key already present before the last row first appears before it. */
  lemma FirstBeforeLast(rows: seq<Row>, a: nat, k: string)
    requires |rows| > 0 && FirstWithKey(rows, a, k) && k in Index(rows[..|rows| - 1]).rows
    ensures a < |rows| - 1 && FirstWithKey(rows[..|rows| - 1], a, k)
  {
    var q := rows[..|rows| - 1];
    var l := IndexLast(q, k);
    assert q[l] == rows[l];
    assert a <= l;
    forall j | 0 <= j < a
      ensures Key(q[j]) != k
    {
      assert q[j] == rows[j];
    }
  }

  /**
   * The key is not injective: a dash inside a field can make two different events share a
   * key, and the later row then replaces the earlier one.
   */
  lemma KeysCanCollide(a: Row, b: Row)
    requires a.artist == "A-B" && a.date == "C" && a.venue == "D"
    requires b.artist == "A" && b.date == "B-C" && b.venue == "D"
    ensures a != b && Key(a) == Key(b)
    ensures Index([a, b]).order == [Key(a)] && Index([a, b]).rows[Key(a)] == b
  {
    assert |a.artist| != |b.artist|;
    CollidingKey(a);
    CollidingKey(b);
    IndexSameKey(a, b);
  }

  lemma CollidingKey(r: Row)
    requires (r.artist == "A-B" && r.date == "C") || (r.artist == "A" && r.date == "B-C")
    requires r.venue == "D"
    ensures Key(r) == "A-B-C-D"
  {
  }

  /** Two rows under one key leave one listed key holding the later row. */
  lemma IndexSameKey(a: Row, b: Row)
    requires Key(a) == Key(b)
    ensures Index([a, b]).order == [Key(a)] && Index([a, b]).rows[Key(a)] == b
  {
    assert [a, b][..1] == [a] && [a][..0] == [];
    assert Index([a]) == Snapshot([Key(a)], map[Key(a) := a]);
  }

  // ---------------------------------------------------------------------------
  // compare_with_previous

  datatype PriceChange = PriceChange(artist: string, oldPrice: string, newPrice: string, venue: string, date: string)

  datatype Changes = Changes(newEvents: seq<Row>, priceChanges: seq<PriceChange>, soldOut: seq<Row>, onSale: seq<Row>)

  const NoChanges: Changes := Changes([], [], [], [])

  predicate PriceChanged(was: Row, now: Row) {
    was.ticketPrice != now.ticketPrice && now.ticketPrice != ""
  }

  function PriceChangeOf(was: Row, now: Row): PriceChange {
    PriceChange(now.artist, was.ticketPrice, now.ticketPrice, now.venue, now.date)
  }

  /** The status moved, and moved to `status`. */
  predicate BecameStatus(was: Row, now: Row, status: string) {
    was.status != now.status && now.status == status
  }

  /** Key `k` of today is new: yesterday lacks it. */
  predicate IsNew(k: string, y: map<string, Row>, t: map<string, Row>) {
    k in t && k !in y
  }

  /** Key `k` is on both days and its price moved to a non-empty one. */
  predicate IsRepriced(k: string, y: map<string, Row>, t: map<string, Row>) {
    k in t && k in y && PriceChanged(y[k], t[k])
  }

  /** Key `k` is on both days and its status moved to `status`. */
  predicate IsNowStatus(k: string, y: map<string, Row>, t: map<string, Row>, status: string) {
    k in t && k in y && BecameStatus(y[k], t[k], status)
  }

  /** The comparison over today's keys, in order. */
  function Diff(keys: seq<string>, y: map<string, Row>, t: map<string, Row>): (c: Changes)
    requires forall k :: k in keys ==> k in t
    ensures |c.newEvents| + |c.priceChanges| <= |keys| && |c.soldOut| + |c.onSale| <= |keys|
  {
    if keys == [] then NoChanges
    else
      var k := keys[0];
      var rest := Diff(keys[1..], y, t);
      var e := t[k];
      if k !in y then
        Changes([e] + rest.newEvents, rest.priceChanges, rest.soldOut, rest.onSale)
      else
        var was := y[k];
        Changes(
          rest.newEvents,
          (if PriceChanged(was, e) then [PriceChangeOf(was, e)] else []) + rest.priceChanges,
          (if BecameStatus(was, e, "sold_out") then [e] else []) + rest.soldOut,
          (if BecameStatus(was, e, "on_sale") then [e] else []) + rest.onSale)
  }

  lemma {:induction false} DiffNew(keys: seq<string>, y: map<string, Row>, t: map<string, Row>, e: Row)
    requires forall k :: k in keys ==> k in t
    ensures e in Diff(keys, y, t).newEvents <==> exists k :: k in keys && IsNew(k, y, t) && e == t[k]
  {
    if keys != [] {
      DiffNew(keys[1..], y, t, e);
      assert forall k' :: k' in keys <==> k' == keys[0] || k' in keys[1..];
    }
  }

  lemma {:induction false} DiffRepriced(keys: seq<string>, y: map<string, Row>, t: map<string, Row>, p: PriceChange)
    requires forall k :: k in keys ==> k in t
    ensures p in Diff(keys, y, t).priceChanges <==>
      exists k :: k in keys && IsRepriced(k, y, t) && p == PriceChangeOf(y[k], t[k])
  {
    if keys != [] {
      DiffRepriced(keys[1..], y, t, p);
      assert forall k' :: k' in keys <==> k' == keys[0] || k' in keys[1..];
    }
  }

  lemma {:induction false} DiffSoldOut(keys: seq<string>, y: map<string, Row>, t: map<string, Row>, e: Row)
    requires forall k :: k in keys ==> k in t
    ensures e in Diff(keys, y, t).soldOut <==> exists k :: k in keys && IsNowStatus(k, y, t, "sold_out") && e == t[k]
  {
    if keys != [] {
      DiffSoldOut(keys[1..], y, t, e);
      assert forall k' :: k' in keys <==> k' == keys[0] || k' in keys[1..];
    }
  }

  lemma {:induction false} DiffOnSale(keys: seq<string>, y: map<string, Row>, t: map<string, Row>, e: Row)
    requires forall k :: k in keys ==> k in t
    ensures e in Diff(keys, y, t).onSale <==> exists k :: k in keys && IsNowStatus(k, y, t, "on_sale") && e == t[k]
  {
    if keys != [] {
      DiffOnSale(keys[1..], y, t, e);
      assert forall k' :: k' in keys <==> k' == keys[0] || k' in keys[1..];
    }
  }

  /** `compare_with_previous`: `None` stands for a day whose file does not exist. */
  function Compare(yesterday: Option<seq<Row>>, today: Option<seq<Row>>): (c: Changes)
    ensures yesterday.None? || today.None? ==> c == NoChanges
    ensures today.Some? ==> |c.newEvents| + |c.priceChanges| <= |Index(today.value).order|
  {
    if yesterday.None? || today.None? then NoChanges
    else
      var ts := Index(today.value);
      Diff(ts.order, Index(yesterday.value).rows, ts.rows)
  }

  /**
   * What the four lists hold against yesterday's rows `y` and today's `t`: new events are
   * exactly today's rows under keys yesterday lacks, price changes one per key whose price
   * moved to a non-empty one, and the status lists today's rows whose status moved to
   * `sold_out` or `on_sale`. Keys that vanished since yesterday are reported nowhere.
   */
  ghost predicate Characterised(c: Changes, y: map<string, Row>, t: map<string, Row>, e: Row, p: PriceChange) {
    && (e in c.newEvents <==> exists k :: IsNew(k, y, t) && e == t[k])
    && (p in c.priceChanges <==> exists k :: IsRepriced(k, y, t) && p == PriceChangeOf(y[k], t[k]))
    && (e in c.soldOut <==> exists k :: IsNowStatus(k, y, t, "sold_out") && e == t[k])
    && (e in c.onSale <==> exists k :: IsNowStatus(k, y, t, "on_sale") && e == t[k])
  }

  /** Over a coherent snapshot of today, the four lists are characterised key by key. */
  lemma DiffOfSnapshot(y: map<string, Row>, ts: Snapshot, e: Row, p: PriceChange)
    requires Coherent(ts)
    ensures Characterised(Diff(ts.order, y, ts.rows), y, ts.rows, e, p)
  {
    SnapshotNew(y, ts, e);
    SnapshotRepriced(y, ts, p);
    SnapshotStatus(y, ts, e, "sold_out");
    SnapshotStatus(y, ts, e, "on_sale");
  }

  lemma SnapshotNew(y: map<string, Row>, ts: Snapshot, e: Row)
    requires Coherent(ts)
    ensures e in Diff(ts.order, y, ts.rows).newEvents <==> exists k :: IsNew(k, y, ts.rows) && e == ts.rows[k]
  {
    DiffNew(ts.order, y, ts.rows, e);
  }

  lemma SnapshotRepriced(y: map<string, Row>, ts: Snapshot, p: PriceChange)
    requires Coherent(ts)
    ensures p in Diff(ts.order, y, ts.rows).priceChanges <==>
      exists k :: IsRepriced(k, y, ts.rows) && p == PriceChangeOf(y[k], ts.rows[k])
  {
    DiffRepriced(ts.order, y, ts.rows, p);
  }

  lemma SnapshotStatus(y: map<string, Row>, ts: Snapshot, e: Row, status: string)
    requires Coherent(ts) && (status == "sold_out" || status == "on_sale")
    ensures status == "sold_out" ==>
      (e in Diff(ts.order, y, ts.rows).soldOut <==> exists k :: IsNowStatus(k, y, ts.rows, status) && e == ts.rows[k])
    ensures status == "on_sale" ==>
      (e in Diff(ts.order, y, ts.rows).onSale <==> exists k :: IsNowStatus(k, y, ts.rows, status) && e == ts.rows[k])
  {
    if status == "sold_out" {
      DiffSoldOut(ts.order, y, ts.rows, e);
    } else {
      DiffOnSale(ts.order, y, ts.rows, e);
    }
  }

  /** For two days that both have data, the comparison is characterised key by key. */
  lemma CompareContents(yesterday: seq<Row>, today: seq<Row>, e: Row, p: PriceChange)
    ensures Characterised(Compare(Some(yesterday), Some(today)), Index(yesterday).rows, Index(today).rows, e, p)
  {
    DiffOfSnapshot(Index(yesterday).rows, Index(today), e, p);
  }

  /** Every reported row is one of today's rows, the last one under its key. */
  lemma ReportedRowsAreToday(yesterday: seq<Row>, today: seq<Row>, e: Row) returns (i: nat)
    requires var c := Compare(Some(yesterday), Some(today));
      e in c.newEvents || e in c.soldOut || e in c.onSale
    ensures i < |today| && today[i] == e && LastWithKey(today, i, Key(e))
  {
    var t := Index(today).rows;
    CompareContents(yesterday, today, e, PriceChange("", "", "", "", ""));
    var k :| k in t && e == t[k];
    i := IndexLast(today, k);
  }

  /** The same row can be reported as both a price change and a status change. */
  lemma PriceAndStatusTogether(was: Row, now: Row)
    requires Key(was) == Key(now) && was.ticketPrice == "$80" && now.ticketPrice == "$95"
    requires was.status == "announced" && now.status == "on_sale"
    ensures var c := Compare(Some([was]), Some([now]));
      c.priceChanges == [PriceChangeOf(was, now)] && c.onSale == [now] && c.newEvents == []
  {
    IndexOne(was);
    IndexOne(now);
    var k := Key(now);
    var c := Diff([k], map[k := was], map[k := now]);
    assert [k][1..] == [];
    assert c.priceChanges == [PriceChangeOf(was, now)];
  }

  /** A single row is indexed under its key. */
  lemma IndexOne(r: Row)
    ensures Index([r]) == Snapshot([Key(r)], map[Key(r) := r])
  {
    assert [r][..0] == [];
  }

  // ---------------------------------------------------------------------------
  // generate_report

  const Bullet: string := "  \U{2022} "
  const TicketsIndent: string := "    Tickets: "
  const NoChangesLine: string := "\n\U{2728} No changes detected since yesterday."

  /** A line that lists one entry. */
  predicate IsBullet(line: string) {
    |line| >= 3 && line[0] == ' ' && line[1] == ' ' && line[2] == '\U{2022}'
  }

  /** A line that could be the closing "no changes" line. */
  predicate IsClosing(line: string) {
    |line| >= 2 && line[1] == '\U{2728}'
  }

  function CountBullets(lines: seq<string>): (n: nat)
    ensures n <= |lines|
  {
    if lines == [] then 0
    else (if IsBullet(lines[0]) then 1 else 0) + CountBullets(lines[1..])
  }

  lemma {:induction false} CountBulletsAppend(a: seq<string>, b: seq<string>)
    ensures CountBullets(a + b) == CountBullets(a) + CountBullets(b)
    decreases |a|
  {
    if a != [] {
      assert (a + b)[0] == a[0] && (a + b)[1..] == a[1..] + b;
      CountBulletsAppend(a[1..], b);
    } else {
      assert a + b == b;
    }
  }

  lemma BulletLine(rest: string)
    ensures IsBullet(Bullet + rest) && !IsClosing(Bullet + rest)
  {
    var l := Bullet + rest;
    assert l[0] == ' ' && l[1] == ' ' && l[2] == '\U{2022}';
  }

  lemma TicketsLine(url: string)
    ensures !IsBullet(TicketsIndent + url) && !IsClosing(TicketsIndent + url)
  {
    var l := TicketsIndent + url;
    assert l[1] == ' ' && l[2] == ' ';
  }

  /** The lines for new events: one bullet per event, plus a tickets line when it has a URL. */
  function NewEventLines(es: seq<Row>): (r: seq<string>)
    ensures CountBullets(r) == |es|
    ensures forall i :: 0 <= i < |r| ==> !IsClosing(r[i])
  {
    if es == [] then []
    else
      var e := es[0];
      var b := Bullet + (e.artist + " - " + e.tourName + " at " + e.venue + " (" + e.date + ")");
      var head := [b] + (if e.ticketUrl != "" then [TicketsIndent + e.ticketUrl] else []);
      var rest := NewEventLines(es[1..]);
      BulletLine(e.artist + " - " + e.tourName + " at " + e.venue + " (" + e.date + ")");
      TicketsLine(e.ticketUrl);
      assert CountBullets(head) == 1 by {
        assert head[1..] == [] || head[1..] == [TicketsIndent + e.ticketUrl];
      }
      CountBulletsAppend(head, rest);
      head + rest
  }

  /** One bullet per line: the lines of a list whose entries each render as a single bullet. */
  predicate AllBullets(r: seq<string>) {
    forall i :: 0 <= i < |r| ==> IsBullet(r[i]) && !IsClosing(r[i])
  }

  lemma {:induction false} AllBulletsCount(r: seq<string>)
    requires AllBullets(r)
    ensures CountBullets(r) == |r|
  {
    if r != [] {
      AllBulletsCount(r[1..]);
    }
  }

  function PriceLines(ps: seq<PriceChange>): (r: seq<string>)
    ensures |r| == |ps| && AllBullets(r)
  {
    if ps == [] then []
    else
      var p := ps[0];
      var text := p.artist + " at " + p.venue + ": " + p.oldPrice + " \U{2192} " + p.newPrice;
      BulletLine(text);
      [Bullet + text] + PriceLines(ps[1..])
  }

  function SoldOutLines(es: seq<Row>): (r: seq<string>)
    ensures |r| == |es| && AllBullets(r)
  {
    if es == [] then []
    else
      var text := es[0].artist + " at " + es[0].venue + " (" + es[0].date + ")";
      BulletLine(text);
      [Bullet + text] + SoldOutLines(es[1..])
  }

  function OnSaleLines(es: seq<Row>): (r: seq<string>)
    ensures |r| == |es| && AllBullets(r)
  {
    if es == [] then []
    else
      var text := es[0].artist + " at " + es[0].venue + " - " + es[0].ticketUrl;
      BulletLine(text);
      [Bullet + text] + OnSaleLines(es[1..])
  }

  function Repeat(c: char, n: nat): (r: string)
    ensures |r| == n && forall i :: 0 <= i < n ==> r[i] == c
  {
    if n == 0 then "" else [c] + Repeat(c, n - 1)
  }

  /** A category's heading: a blank line, its emoji, and how many entries it has in all. */
  function Heading(emoji: char, count: nat, title: string): (h: string)
    ensures |h| >= 2 && h[0] == '\n' && h[1] == emoji
  {
    "\n" + [emoji] + " " + IntToString(count) + title
  }

  /** A category's heading and bullets, or nothing when the category is empty. */
  function Section(emoji: char, title: string, count: nat, bullets: seq<string>): seq<string> {
    if count == 0 then [] else [Heading(emoji, count, title)] + bullets
  }

  /** A section adds one bullet per shown entry and never a closing line. */
  lemma SectionShape(emoji: char, title: string, count: nat, bullets: seq<string>)
    requires emoji != '\U{2728}'
    requires forall i :: 0 <= i < |bullets| ==> !IsClosing(bullets[i])
    ensures CountBullets(Section(emoji, title, count, bullets)) == if count == 0 then 0 else CountBullets(bullets)
    ensures forall l :: l in Section(emoji, title, count, bullets) ==> !IsClosing(l)
  {
    if count != 0 {
      var h := Heading(emoji, count, title);
      assert !IsBullet(h) && !IsClosing(h);
      CountBulletsAppend([h], bullets);
      forall l | l in [h] + bullets
        ensures !IsClosing(l)
      {
        if l != h {
          var i :| 0 <= i < |bullets| && bullets[i] == l;
        }
      }
    }
  }

  predicate AllEmpty(c: Changes) {
    c.newEvents == [] && c.priceChanges == [] && c.soldOut == [] && c.onSale == []
  }

  /** The first two lines of every report. */
  function ReportHeader(today: string): seq<string> {
    ["\U{1F4CA} Ticket Scraper Report - " + today, Repeat('=', 50)]
  }

  /** The four categories' sections, in the report's order. */
  function ReportBody(c: Changes): seq<string> {
    Section('\U{1F3B5}', " New Events Announced:", |c.newEvents|, NewEventLines(Take(c.newEvents, 10)))
    + Section('\U{1F4B0}', " Price Changes:", |c.priceChanges|, PriceLines(Take(c.priceChanges, 10)))
    + Section('\U{1F6AB}', " Events Sold Out:", |c.soldOut|, SoldOutLines(Take(c.soldOut, 10)))
    + Section('\U{2705}', " Events Now On Sale:", |c.onSale|, OnSaleLines(Take(c.onSale, 10)))
  }

  /** The report's lines, before they are joined with newlines. */
  function ReportLines(today: string, c: Changes): seq<string> {
    ReportHeader(today) + ReportBody(c) + (if AllEmpty(c) then [NoChangesLine] else [])
  }

  function Min10(n: nat): nat {
    if n <= 10 then n else 10
  }

  lemma HeaderShape(today: string)
    ensures CountBullets(ReportHeader(today)) == 0
    ensures forall l :: l in ReportHeader(today) ==> !IsClosing(l)
  {
    var h := ReportHeader(today);
    assert h[0][0] == '\U{1F4CA}' && h[0][1] == ' ';
    assert h[1][0] == '=' && h[1][1] == '=';
    assert h[1..] == [h[1]] && h[1..][1..] == [];
  }

  lemma BodyShape(c: Changes)
    ensures CountBullets(ReportBody(c))
      == Min10(|c.newEvents|) + Min10(|c.priceChanges|) + Min10(|c.soldOut|) + Min10(|c.onSale|)
    ensures forall l :: l in ReportBody(c) ==> !IsClosing(l)
  {
    NewSection(c.newEvents);
    PriceSection(c.priceChanges);
    SoldOutSection(c.soldOut);
    OnSaleSection(c.onSale);
    JoinSections(
      Section('\U{1F3B5}', " New Events Announced:", |c.newEvents|, NewEventLines(Take(c.newEvents, 10))),
      Section('\U{1F4B0}', " Price Changes:", |c.priceChanges|, PriceLines(Take(c.priceChanges, 10))),
      Section('\U{1F6AB}', " Events Sold Out:", |c.soldOut|, SoldOutLines(Take(c.soldOut, 10))),
      Section('\U{2705}', " Events Now On Sale:", |c.onSale|, OnSaleLines(Take(c.onSale, 10))));
  }

  /** Sections laid end to end: their bullets add up, and none of them closes the report. */
  lemma JoinSections(s1: seq<string>, s2: seq<string>, s3: seq<string>, s4: seq<string>)
    requires forall l :: l in s1 ==> !IsClosing(l)
    requires forall l :: l in s2 ==> !IsClosing(l)
    requires forall l :: l in s3 ==> !IsClosing(l)
    requires forall l :: l in s4 ==> !IsClosing(l)
    ensures CountBullets(s1 + s2 + s3 + s4) == CountBullets(s1) + CountBullets(s2) + CountBullets(s3) + CountBullets(s4)
    ensures forall l :: l in s1 + s2 + s3 + s4 ==> !IsClosing(l)
  {
    CountBulletsAppend(s1, s2);
    CountBulletsAppend(s1 + s2, s3);
    CountBulletsAppend(s1 + s2 + s3, s4);
  }

  lemma NewSection(es: seq<Row>)
    ensures var s := Section('\U{1F3B5}', " New Events Announced:", |es|, NewEventLines(Take(es, 10)));
      CountBullets(s) == Min10(|es|) && forall l :: l in s ==> !IsClosing(l)
  {
    SectionShape('\U{1F3B5}', " New Events Announced:", |es|, NewEventLines(Take(es, 10)));
  }

  lemma PriceSection(ps: seq<PriceChange>)
    ensures var s := Section('\U{1F4B0}', " Price Changes:", |ps|, PriceLines(Take(ps, 10)));
      CountBullets(s) == Min10(|ps|) && forall l :: l in s ==> !IsClosing(l)
  {
    AllBulletsCount(PriceLines(Take(ps, 10)));
    SectionShape('\U{1F4B0}', " Price Changes:", |ps|, PriceLines(Take(ps, 10)));
  }

  lemma SoldOutSection(es: seq<Row>)
    ensures var s := Section('\U{1F6AB}', " Events Sold Out:", |es|, SoldOutLines(Take(es, 10)));
      CountBullets(s) == Min10(|es|) && forall l :: l in s ==> !IsClosing(l)
  {
    AllBulletsCount(SoldOutLines(Take(es, 10)));
    SectionShape('\U{1F6AB}', " Events Sold Out:", |es|, SoldOutLines(Take(es, 10)));
  }

  lemma OnSaleSection(es: seq<Row>)
    ensures var s := Section('\U{2705}', " Events Now On Sale:", |es|, OnSaleLines(Take(es, 10)));
      CountBullets(s) == Min10(|es|) && forall l :: l in s ==> !IsClosing(l)
  {
    AllBulletsCount(OnSaleLines(Take(es, 10)));
    SectionShape('\U{2705}', " Events Now On Sale:", |es|, OnSaleLines(Take(es, 10)));
  }

  /**
   * The report lists at most ten entries per category, one bullet each, and closes with
   * "no changes" exactly when all four categories are empty.
   */
  lemma ReportShape(today: string, c: Changes)
    ensures var r := ReportLines(today, c);
      && CountBullets(r) == Min10(|c.newEvents|) + Min10(|c.priceChanges|) + Min10(|c.soldOut|) + Min10(|c.onSale|)
      && (NoChangesLine in r <==> AllEmpty(c))
  {
    var h := ReportHeader(today);
    var b := ReportBody(c);
    var tail := if AllEmpty(c) then [NoChangesLine] else [];
    HeaderShape(today);
    BodyShape(c);
    ClosingShape(tail);
    assert ReportLines(today, c) == h + b + tail;
    CountBulletsAppend(h, b);
    CountBulletsAppend(h + b, tail);
    assert NoChangesLine !in h + b;
  }

  lemma ClosingShape(tail: seq<string>)
    requires tail == [] || tail == [NoChangesLine]
    ensures IsClosing(NoChangesLine) && CountBullets(tail) == 0
  {
    var l := NoChangesLine;
    assert l[0] == '\n' && l[1] == '\U{2728}';
    if tail != [] {
      assert tail[1..] == [];
    }
  }

  /** `generate_report`: the lines joined by newlines. */
  function Report(today: string, c: Changes): string {
    Join(ReportLines(today, c), "\n")
  }
}
