/**
 * The missing-alt report built by `extra_post_info_page`: every attachment is
 * classed as having alt text ("good") or missing it ("bad") by PHP truthiness
 * of its alt text, and the two counts are turned into coverage percentages.
 * The host's database query and `get_post_meta` lookups are modelled by the
 * input sequence of attachments with their alt text.
 */
module AltReport {
  import opened Wrappers

  /** One row of the attachment query together with its `_wp_attachment_image_alt` meta value. */
  datatype Attachment = Attachment(id: nat, altText: string)

  /** PHP truthiness of a string: only `""` and `"0"` are falsy. */
  predicate Truthy(s: string) {
    s != "" && s != "0"
  }

  /** The ids classed as having alt text, in input order. */
  function GoodIds(atts: seq<Attachment>): seq<nat>
    decreases |atts|
  {
    if atts == [] then []
    else
      var last := atts[|atts| - 1];
      GoodIds(atts[..|atts| - 1]) + (if Truthy(last.altText) then [last.id] else [])
  }

  /** The ids classed as missing alt text, in input order. */
  function BadIds(atts: seq<Attachment>): seq<nat>
    decreases |atts|
  {
    if atts == [] then []
    else
      var last := atts[|atts| - 1];
      BadIds(atts[..|atts| - 1]) + (if Truthy(last.altText) then [] else [last.id])
  }

  /** The ids of all attachments, in input order. */
  function Ids(atts: seq<Attachment>): (r: seq<nat>)
    ensures |r| == |atts|
    ensures forall k :: 0 <= k < |atts| ==> r[k] == atts[k].id
  {
    seq(|atts|, k requires 0 <= k < |atts| => atts[k].id)
  }

  /** The two buckets together hold exactly as many ids as there are attachments. */
  lemma {:induction false} BucketCounts(atts: seq<Attachment>)
    ensures |GoodIds(atts)| + |BadIds(atts)| == |atts|
    decreases |atts|
  {
    if atts != [] {
      BucketCounts(atts[..|atts| - 1]);
    }
  }

  /** Every attachment lands in exactly one bucket: together the buckets are the input's ids. */
  lemma {:induction false} BucketsPartition(atts: seq<Attachment>)
    ensures multiset(GoodIds(atts)) + multiset(BadIds(atts)) == multiset(Ids(atts))
    decreases |atts|
  {
    if atts != [] {
      var init := atts[..|atts| - 1];
      BucketsPartition(init);
      assert Ids(atts) == Ids(init) + [atts[|atts| - 1].id];
    }
  }

  /** Classification is element by element: the buckets of a concatenation are the concatenated buckets. */
  lemma {:induction false} BucketsOfConcat(a: seq<Attachment>, b: seq<Attachment>)
    ensures GoodIds(a + b) == GoodIds(a) + GoodIds(b)
    ensures BadIds(a + b) == BadIds(a) + BadIds(b)
    decreases |b|
  {
    if b == [] {
      assert a + b == a;
    } else {
      var binit := b[..|b| - 1];
      assert (a + b)[..|a + b| - 1] == a + binit;
      BucketsOfConcat(a, binit);
    }
  }

  /** Any id in the good bucket comes from an attachment with truthy alt text, and conversely. */
  lemma {:induction false} GoodIdsExactly(atts: seq<Attachment>, x: nat)
    ensures x in GoodIds(atts) <==> exists k :: 0 <= k < |atts| && atts[k].id == x && Truthy(atts[k].altText)
    decreases |atts|
  {
    if atts != [] {
      var init := atts[..|atts| - 1];
      GoodIdsExactly(init, x);
      if x in GoodIds(init) {
        var k :| 0 <= k < |init| && init[k].id == x && Truthy(init[k].altText);
        assert atts[k] == init[k];
      }
      if exists k :: 0 <= k < |atts| && atts[k].id == x && Truthy(atts[k].altText) {
        var k :| 0 <= k < |atts| && atts[k].id == x && Truthy(atts[k].altText);
        if k < |init| {
          assert init[k] == atts[k];
        }
      }
    }
  }

  /** Any id in the bad bucket comes from an attachment with falsy alt text, and conversely. */
  lemma {:induction false} BadIdsExactly(atts: seq<Attachment>, x: nat)
    ensures x in BadIds(atts) <==> exists k :: 0 <= k < |atts| && atts[k].id == x && !Truthy(atts[k].altText)
    decreases |atts|
  {
    if atts != [] {
      var init := atts[..|atts| - 1];
      BadIdsExactly(init, x);
      if x in BadIds(init) {
        var k :| 0 <= k < |init| && init[k].id == x && !Truthy(init[k].altText);
        assert atts[k] == init[k];
      }
      if exists k :: 0 <= k < |atts| && atts[k].id == x && !Truthy(atts[k].altText) {
        var k :| 0 <= k < |atts| && atts[k].id == x && !Truthy(atts[k].altText);
        if k < |init| {
          assert init[k] == atts[k];
        }
      }
    }
  }

  /** Attachment ids are unique, as the rows of the attachment query are. */
  predicate DistinctIds(atts: seq<Attachment>) {
    forall i, j :: 0 <= i < j < |atts| ==> atts[i].id != atts[j].id
  }

  /**
   * With unique ids, an attachment is in the good bucket iff its alt text is
   * truthy and in the bad bucket iff it is not; so `""` and `"0"` are missing.
   */
  lemma Placement(atts: seq<Attachment>, k: nat)
    requires DistinctIds(atts)
    requires k < |atts|
    ensures atts[k].id in GoodIds(atts) <==> Truthy(atts[k].altText)
    ensures atts[k].id in BadIds(atts) <==> !Truthy(atts[k].altText)
  {
    GoodIdsExactly(atts, atts[k].id);
    BadIdsExactly(atts, atts[k].id);
  }

  /**
   * `round(a / b, 0)` for a non-negative ratio, exactly: the nearest integer,
   * halves rounded up (PHP rounds halves away from zero).
   */
  function RoundDiv(a: nat, b: nat): (r: nat)
    requires b > 0
    ensures 2 * b * r <= 2 * a + b < 2 * b * (r + 1)
  {
    (2 * a + b) / (2 * b)
  }

  /**
   * `get_percentage(total, number)` in hundredths of a percent:
   * `round(number / total * 100, 2)`, or 0 when `number` is 0. `None` is
   * PHP 8's `DivisionByZeroError` when `number` is not 0 but `total` is.
   */
  function GetPercentage(total: nat, number: nat): (r: Option<nat>)
    ensures number == 0 ==> r == Some(0)
    ensures r.None? <==> number != 0 && total == 0
    ensures r.Some? && total > 0 ==>
      2 * total * r.value <= 20000 * number + total < 2 * total * (r.value + 1)
  {
    if number == 0 then Some(0)
    else if total == 0 then None
    else
      Some(RoundDiv(10000 * number, total))
  }

  /** A share of at most the whole is defined and lies in [0, 100.00] percent. */
  lemma PercentageInRange(total: nat, number: nat)
    requires number <= total
    ensures GetPercentage(total, number).Some?
    ensures GetPercentage(total, number).value <= 10000
  {
    var p := GetPercentage(total, number).value;
    if p > 10000 {
      calc {
        2 * total * p;
      >= { MulMonotone(2 * total, 10001, p); }
        2 * total * 10001;
      >
        20000 * total + total;
      >= 20000 * number + total;
      }
    }
  }

  lemma MulMonotone(a: nat, b: nat, c: nat)
    requires b <= c
    ensures a * b <= a * c
  {
  }

  /** What the report page shows: both buckets, the counts and the two coverages. */
  datatype Report = Report(
    good: seq<nat>,
    bad: seq<nat>,
    countTotal: nat,
    countGood: nat,
    countBad: nat,
    coverageGood: nat,
    coverageBad: nat)

  /**
   * `extra_post_info_page` up to its HTML output: the classification loop,
   * the counts and the coverages. Both coverages are defined, lie in
   * [0, 100.00], and the counts add up.
   */
  method BuildReport(atts: seq<Attachment>) returns (report: Report)
    ensures report.good == GoodIds(atts) && report.bad == BadIds(atts)
    ensures report.countTotal == |atts|
    ensures report.countGood == |report.good| && report.countBad == |report.bad|
    ensures report.countGood + report.countBad == report.countTotal
    ensures GetPercentage(report.countTotal, report.countGood) == Some(report.coverageGood)
    ensures GetPercentage(report.countTotal, report.countBad) == Some(report.coverageBad)
    ensures report.coverageGood <= 10000 && report.coverageBad <= 10000
  {
    var good: seq<nat> := [];
    var bad: seq<nat> := [];
    var i := 0;
    while i < |atts|
      invariant 0 <= i <= |atts|
      invariant good == GoodIds(atts[..i])
      invariant bad == BadIds(atts[..i])
    {
      assert atts[..i + 1][..i] == atts[..i];
      if Truthy(atts[i].altText) {
        good := good + [atts[i].id];
      } else {
        bad := bad + [atts[i].id];
      }
      i := i + 1;
    }
    assert atts[..i] == atts;
    BucketCounts(atts);
    PercentageInRange(|atts|, |good|);
    PercentageInRange(|atts|, |bad|);
    var total, countGood, countBad := |atts|, |good|, |bad|;
    var coverageGood := GetPercentage(total, countGood);
    var coverageBad := GetPercentage(total, countBad);
    report := Report(good, bad, total, countGood, countBad, coverageGood.value, coverageBad.value);
  }

  /**
   * With at least one attachment the two coverages add up to 100.00 percent,
   * or to 100.01 when both shares are exact halves of a hundredth.
   */
  lemma CoverageSum(total: nat, good: nat, bad: nat)
    requires total > 0 && good + bad == total
    ensures GetPercentage(total, good).Some? && GetPercentage(total, bad).Some?
    ensures 10000 <= GetPercentage(total, good).value + GetPercentage(total, bad).value <= 10001
  {
    var pg := GetPercentage(total, good).value;
    var pb := GetPercentage(total, bad).value;
    assert 2 * total * pg + 2 * total * pb <= 20000 * total + 2 * total;
    assert 20000 * total + 2 * total < 2 * total * (pg + 1) + 2 * total * (pb + 1);
    SumBounds(total, pg + pb);
  }

  lemma SumBounds(t: nat, s: nat)
    requires t > 0
    requires 2 * t * s <= 20000 * t + 2 * t
    requires 20000 * t + 2 * t < 2 * t * (s + 2)
    ensures 10000 <= s <= 10001
  {
    if s > 10001 {
      MulMonotone(2 * t, 10002, s);
    }
    if s < 10000 {
      MulMonotone(2 * t, s + 2, 10001);
    }
  }

  /** One attachment in 20000 with alt text: 0.01 percent good and 100.00 percent bad. */
  lemma CoverageSumCanExceedHundred()
    ensures GetPercentage(20000, 1) == Some(1)
    ensures GetPercentage(20000, 19999) == Some(10000)
  {
  }

  /** The status a table row shows. */
  datatype Status = MissingAlt | HasAlt

  datatype TableRow = TableRow(id: nat, status: Status)

  /** The table body: every bad id, then every good id, each with its status. */
  function TableRows(report: Report): (rows: seq<TableRow>)
    ensures |rows| == |report.bad| + |report.good|
    ensures forall k :: 0 <= k < |report.bad| ==> rows[k] == TableRow(report.bad[k], MissingAlt)
    ensures forall k :: 0 <= k < |report.good| ==> rows[|report.bad| + k] == TableRow(report.good[k], HasAlt)
  {
    seq(|report.bad|, k requires 0 <= k < |report.bad| => TableRow(report.bad[k], MissingAlt))
      + seq(|report.good|, k requires 0 <= k < |report.good| => TableRow(report.good[k], HasAlt))
  }
}
