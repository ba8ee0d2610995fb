/**
 * `updateGroups` of scripts/update_channel_groups.js: pages through the
 * `channels` table 5000 rows at a time and re-classifies every row's group
 * title with the same eight rules as `parseGroupTitle`, but with a different
 * final check on the cleaned title.
 *
 * The table is a sequence of rows read in one fixed order; which updates
 * throw is an input (a set of row ids).
 */
module Regroup {
  import opened Js
  import opened GroupTitle
  import opened Ingest

  /** The two columns the loop selects. */
  datatype Row = Row(id: int, groupTitle: Option<string>)

  /** One successful `update ... set locationCode, cleanedGroupTitle where id = ...`. */
  datatype Update = Update(id: int, locationCode: string, cleanedGroupTitle: string)

  /**
   * The classification a row gets: the rules on `groupTitle || ''`, then the
   * cleaned title is reset to the original only when it is empty and the
   * code is neither `AR` nor `OTHER`. There is no `'Uncategorized'` fallback.
   */
  function RegroupedOf(title: Option<string>): Classification {
    var originalTitle := title.GetOr("");
    var h := Decide(originalTitle);
    Classification(h.code, if h.code != "AR" && h.code != "OTHER" && h.cleaned == "" then originalTitle else h.cleaned)
  }

  /** The per-row body of the loop, statement by statement. */
  method ClassifyRow(title: Option<string>) returns (r: Classification)
    ensures r == RegroupedOf(title)
  {
    var originalTitle := title.GetOr("");
    var h := ApplyRules(originalTitle);
    var locationCode, cleanedTitle := h.code, h.cleaned;
    // Final check: AR and OTHER are never reset
    if locationCode != "AR" && locationCode != "OTHER" && cleanedTitle == "" {
      cleanedTitle := originalTitle;
    }
    r := Classification(locationCode, cleanedTitle);
  }

  /**
   * The two scripts agree on the location code of every title, and it is
   * never null. Both sides rest on `Decide` because lines 71-128 of
   * update_channel_groups.js repeat lines 40-96 of parseM3u.js rule for
   * rule; the only difference before the final title check is how a missing
   * title becomes `''`, which gives the same text.
   */
  lemma SameLocationCode(title: Option<string>)
    ensures RegroupedOf(title).locationCode == GroupTitleOf(title).locationCode
    ensures IsKnownCode(RegroupedOf(title).locationCode)
  {
  }

  /**
   * Where the two scripts' titles differ: exactly when the rules leave an
   * empty cleaned title and either the code is `AR` or `OTHER` (never reset
   * here) or the original title is empty (`'Uncategorized'` there, empty here).
   */
  lemma CleanedTitlesDiffer(title: Option<string>)
    ensures var h := Decide(title.GetOr(""));
      RegroupedOf(title).groupTitle != GroupTitleOf(title).groupTitle
      <==> h.cleaned == "" && (h.code == "AR" || h.code == "OTHER" || title.GetOr("") == "")
    ensures RegroupedOf(title).groupTitle != GroupTitleOf(title).groupTitle ==> RegroupedOf(title).groupTitle == ""
  {
  }

  /** A missing or empty title gives `OTHER` with an empty cleaned title. */
  lemma EmptyTitleStaysEmpty()
    ensures RegroupedOf(None) == Classification("OTHER", "")
    ensures RegroupedOf(Some("")) == Classification("OTHER", "")
  {
    NullIsEmpty();
  }

  /** `AR|` takes rule 1 with nothing after the bar: `parseGroupTitle` keeps `AR|`, this script writes an empty title. */
  lemma ArPipeExample()
    ensures GroupTitleOf(Some("AR|")) == Classification("AR", "AR|")
    ensures RegroupedOf(Some("AR|")) == Classification("AR", "")
  {
    var t := "AR|";
    assert TrimStart(t[3..]) == "" && Trim("") == "";
    PipeRuleWins(t);
    assert t[..2] == "AR";
  }

  // ---------------------------------------------------------------------
  // The paged loop
  // ---------------------------------------------------------------------

  /** The updates the rows lead to, in order, leaving out the rows whose update throws. */
  function Updates(rows: seq<Row>, failing: set<int>): seq<Update> {
    if |rows| == 0 then []
    else
      Updates(rows[..|rows| - 1], failing) + UpdateOf(rows[|rows| - 1], failing)
  }

  /** The update one row leads to, unless it throws. */
  function UpdateOf(row: Row, failing: set<int>): seq<Update> {
    var c := RegroupedOf(row.groupTitle);
    if row.id in failing then [] else [Update(row.id, c.locationCode, c.groupTitle)]
  }

  lemma UpdatesSnoc(rows: seq<Row>, row: Row, failing: set<int>)
    ensures Updates(rows + [row], failing) == Updates(rows, failing) + UpdateOf(row, failing)
  {
    assert (rows + [row])[..|rows|] == rows;
  }

  lemma PrefixSnoc<T>(front: seq<T>, xs: seq<T>, j: nat)
    requires j < |xs|
    ensures front + xs[..j + 1] == (front + xs[..j]) + [xs[j]]
  {
    assert xs[..j + 1] == xs[..j] + [xs[j]];
  }

  /** One update per row whose id does not fail, so never more updates than rows. */
  lemma {:induction false} UpdatesCount(rows: seq<Row>, failing: set<int>)
    ensures |Updates(rows, failing)| <= |rows|
    ensures failing == {} ==> |Updates(rows, failing)| == |rows|
    ensures (forall k :: 0 <= k < |rows| ==> rows[k].id in failing) ==> Updates(rows, failing) == []
  {
    if |rows| > 0 {
      UpdatesCount(rows[..|rows| - 1], failing);
    }
  }

  /** Every update writes a known code. */
  lemma {:induction false} UpdatesWriteKnownCodes(rows: seq<Row>, failing: set<int>)
    ensures forall k :: 0 <= k < |Updates(rows, failing)| ==> IsKnownCode(Updates(rows, failing)[k].locationCode)
  {
    if |rows| > 0 {
      UpdatesWriteKnownCodes(rows[..|rows| - 1], failing);
    }
  }

  /** The counters of one run of `updateGroups`. */
  datatype Summary = Summary(processedCount: nat, updatedCount: nat)

  /**
   * The `for (const channel of channelsToUpdate)` loop: each row counts as
   * processed, and as updated when its update does not throw.
   */
  method ProcessBatch(channelsToUpdate: seq<Row>, failing: set<int>, ghost done: seq<Row>,
                      written0: seq<Update>, processed0: nat, updated0: nat)
    returns (written: seq<Update>, processedCount: nat, updatedCount: nat)
    requires written0 == Updates(done, failing) && processed0 == |done| && updated0 == |written0|
    ensures written == Updates(done + channelsToUpdate, failing)
    ensures processedCount == |done + channelsToUpdate| && updatedCount == |written|
  {
    written, processedCount, updatedCount := written0, processed0, updated0;
    assert done + channelsToUpdate[..0] == done;
    for j := 0 to |channelsToUpdate|
      invariant processedCount == |done| + j
      invariant written == Updates(done + channelsToUpdate[..j], failing) && updatedCount == |written|
    {
      var channel := channelsToUpdate[j];
      ghost var prev := done + channelsToUpdate[..j];
      PrefixSnoc(done, channelsToUpdate, j);
      UpdatesSnoc(prev, channel, failing);
      processedCount := processedCount + 1;
      var c := ClassifyRow(channel.groupTitle);
      if channel.id !in failing {
        written := written + [Update(channel.id, c.locationCode, c.groupTitle)];
        updatedCount := updatedCount + 1;
      }
    }
    assert done + channelsToUpdate[..|channelsToUpdate|] == done + channelsToUpdate;
  }

  /** Fetching at `offset` takes the next batch of `Chunks` and moves the offset to its end. */
  lemma FetchStep<T>(table: seq<T>, offset: nat, to: nat, fetched: seq<seq<T>>)
    requires offset < |table| && to == (if offset + BatchSize <= |table| then offset + BatchSize else |table|)
    requires fetched + Chunks(table, offset) == Chunks(table, 0)
    ensures (fetched + [table[offset..to]]) + Chunks(table, to) == Chunks(table, 0)
  {
    assert Chunks(table, offset) == [table[offset..to]] + Chunks(table, offset + BatchSize);
    assert Chunks(table, offset + BatchSize) == Chunks(table, to);
    assert (fetched + [table[offset..to]]) + Chunks(table, to) == fetched + ([table[offset..to]] + Chunks(table, to));
  }

  lemma PrefixConcat<T>(xs: seq<T>, i: nat, j: nat)
    requires i <= j <= |xs|
    ensures xs[..i] + xs[i..j] == xs[..j]
  {
  }

  /**
   * `updateGroups`: nothing when the table is empty; otherwise fetch at the
   * offset, stop at the first empty batch, classify and update each row, and
   * advance the offset by the number of rows fetched.
   */
  method UpdateGroups(table: seq<Row>, failing: set<int>)
    returns (summary: Summary, fetched: seq<seq<Row>>, written: seq<Update>)
    ensures summary.processedCount == |table|
    ensures fetched == Chunks(table, 0)
    ensures written == Updates(table, failing)
    ensures summary.updatedCount == |written| <= summary.processedCount
  {
    fetched, written := [], [];
    var updatedCount, processedCount := 0, 0;
    UpdatesCount(table, failing);
    var totalToProcess := |table|;
    if totalToProcess == 0 {
      assert Chunks(table, 0) == [];
      return Summary(0, 0), fetched, written;
    }

    var offset := 0;
    while true
      invariant offset == processedCount <= |table|
      invariant fetched + Chunks(table, offset) == Chunks(table, 0)
      invariant written == Updates(table[..offset], failing) && updatedCount == |written|
      decreases |table| - offset
    {
      var to := if offset + BatchSize <= |table| then offset + BatchSize else |table|;
      var channelsToUpdate := table[offset..to];
      if |channelsToUpdate| == 0 {
        break;
      }
      ghost var done := table[..offset];
      PrefixConcat(table, offset, to);
      FetchStep(table, offset, to, fetched);
      written, processedCount, updatedCount :=
        ProcessBatch(channelsToUpdate, failing, done, written, processedCount, updatedCount);
      offset := offset + |channelsToUpdate|;
      fetched := fetched + [channelsToUpdate];
    }
    assert table[..offset] == table;
    summary := Summary(processedCount, updatedCount);
  }
}
