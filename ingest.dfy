/**
 * The preparation and batch-insert loops of `parseAndStoreM3u`
 * (scripts/parseM3u.js). Each parsed playlist segment becomes a channel row
 * or is counted as skipped; the rows are then inserted 5000 at a time, and
 * what the database reports for each batch is an input of the model.
 */
module Ingest {
  import opened Js
  import opened GroupTitle
  import opened Extinf

  /** A segment as the playlist parser hands it over; a field it did not set is `None`. */
  datatype Segment = Segment(uri: Option<string>, inf: Option<string>, title: Option<string>)

  /** A row of the `channels` table as the loop builds it. */
  datatype ChannelRow = ChannelRow(
    name: string, groupTitle: string, locationCode: string,
    tvgId: Option<string>, tvgLogo: Option<string>, url: string)

  /** Property access on the attributes object: `undefined` when the key is absent. */
  function Lookup(attributes: map<string, string>, key: string): Option<string> {
    if key in attributes then Some(attributes[key]) else None
  }

  // ---------------------------------------------------------------------
  // Preparing rows
  // ---------------------------------------------------------------------

  /** The text the attributes are read from: `inf` if truthy, else `title` if truthy, else none (skipped). */
  function SourceText(seg: Segment): Option<string> {
    if Truthy(seg.inf) then seg.inf
    else if Truthy(seg.title) then seg.title
    else None
  }

  /** The row a segment becomes, or `None` when the loop skips it. */
  function RowOf(seg: Segment): Option<ChannelRow> {
    match SourceText(seg)
    case None => None
    case Some(text) =>
      var attributes := ExtractedAttributes(text);
      var parsed := GroupTitleOf(Some(OrElse(Lookup(attributes, "group-title"), "Uncategorized")));
      if Truthy(seg.uri) then
        Some(ChannelRow(OrElse(Lookup(attributes, ExtractedNameKey), "Unknown"),
                        parsed.groupTitle, parsed.locationCode,
                        Lookup(attributes, "tvg-id"), Lookup(attributes, "tvg-logo"), seg.uri.value))
      else None
  }

  /** The rows of the segments that are not skipped, in order. */
  function Prepared(segments: seq<Segment>): seq<ChannelRow> {
    if |segments| == 0 then []
    else
      var last := RowOf(segments[|segments| - 1]);
      Prepared(segments[..|segments| - 1]) + (if last.Some? then [last.value] else [])
  }

  /** What the rest of the program relies on about a row. */
  predicate ValidRow(row: ChannelRow) {
    row.url != "" && row.name != "" && row.groupTitle != "" && IsKnownCode(row.locationCode)
  }

  /**
   * A segment gives a row exactly when it has a truthy `inf` or `title` and a
   * truthy `uri`. The row's name is the extracted channel name (never empty, so
   * the `'Unknown'` default of the loop is never used), its group fields are
   * `parseGroupTitle` of the `group-title` attribute or `'Uncategorized'`, and
   * the url is the segment's.
   */
  lemma RowOfSegment(seg: Segment)
    ensures RowOf(seg).Some? <==> SourceText(seg).Some? && Truthy(seg.uri)
    ensures RowOf(seg).Some? ==>
      var attributes := ExtractedAttributes(SourceText(seg).value);
      var row := RowOf(seg).value;
      && ValidRow(row)
      && row.url == seg.uri.value
      && ExtractedNameKey in attributes && row.name == attributes[ExtractedNameKey]
      && Classification(row.locationCode, row.groupTitle)
         == GroupTitleOf(Some(OrElse(Lookup(attributes, "group-title"), "Uncategorized")))
      && row.tvgId == Lookup(attributes, "tvg-id") && row.tvgLogo == Lookup(attributes, "tvg-logo")
  {
    if SourceText(seg).Some? {
      ExtractedNameAddsOneKey(SourceText(seg).value);
    }
  }

  /** Every prepared row is valid, and there are never more rows than segments. */
  lemma {:induction false} PreparedRowsValid(segments: seq<Segment>)
    ensures |Prepared(segments)| <= |segments|
    ensures forall i :: 0 <= i < |Prepared(segments)| ==> ValidRow(Prepared(segments)[i])
  {
    if |segments| > 0 {
      var front := segments[..|segments| - 1];
      PreparedRowsValid(front);
      RowOfSegment(segments[|segments| - 1]);
    }
  }

  /** The segment-preparation loop: every segment is pushed as a row or counted in `skippedCount`. */
  method PrepareRows(segments: seq<Segment>) returns (channelsToInsert: seq<ChannelRow>, skippedCount: nat)
    ensures channelsToInsert == Prepared(segments)
    ensures |channelsToInsert| + skippedCount == |segments|
  {
    channelsToInsert, skippedCount := [], 0;
    for n := 0 to |segments|
      invariant channelsToInsert == Prepared(segments[..n])
      invariant |channelsToInsert| + skippedCount == n
    {
      var segment := segments[n];
      assert segments[..n + 1][..n] == segments[..n];
      var url := segment.uri;
      var attributes: map<string, string>;
      if Truthy(segment.inf) {
        attributes := ExtractAttributesFromString(segment.inf.value);
      } else if Truthy(segment.title) {
        attributes := ExtractAttributesFromString(segment.title.value);
      } else {
        skippedCount := skippedCount + 1;
        continue;
      }
      var name := Lookup(attributes, ExtractedNameKey);
      var groupTitle := Lookup(attributes, "group-title");
      var tvgId := Lookup(attributes, "tvg-id");
      var tvgLogo := Lookup(attributes, "tvg-logo");

      var originalGroupTitle := OrElse(groupTitle, "Uncategorized");
      var rowName := OrElse(name, "Unknown");
      var parsedGroupInfo := ParseGroupTitle(Some(originalGroupTitle));

      if !Truthy(url) {
        skippedCount := skippedCount + 1;
        continue;
      }
      channelsToInsert := channelsToInsert + [ChannelRow(
        rowName, parsedGroupInfo.groupTitle, parsedGroupInfo.locationCode, tvgId, tvgLogo, url.value)];
    }
    assert segments[..|segments|] == segments;
  }

  // ---------------------------------------------------------------------
  // Batches
  // ---------------------------------------------------------------------

  const BatchSize: nat := 5000

  /** `rows.slice(i, i + BatchSize)` for `i` = `from`, `from + BatchSize`, ... while `i < rows.length`. */
  function Chunks<T>(rows: seq<T>, from: nat): seq<seq<T>>
    decreases |rows| - from
  {
    if from >= |rows| then []
    else
      var to := if from + BatchSize <= |rows| then from + BatchSize else |rows|;
      [rows[from..to]] + Chunks(rows, from + BatchSize)
  }

  /** The batches one after the other. */
  function Flatten<T>(batches: seq<seq<T>>): seq<T> {
    if |batches| == 0 then [] else Flatten(batches[..|batches| - 1]) + batches[|batches| - 1]
  }

  lemma {:induction false} FlattenCons<T>(b: seq<T>, rest: seq<seq<T>>)
    ensures Flatten([b] + rest) == b + Flatten(rest)
    decreases |rest|
  {
    if |rest| > 0 {
      var init := rest[..|rest| - 1];
      assert ([b] + rest)[..|rest|] == [b] + init;
      FlattenCons(b, init);
    }
  }

  /** The batches partition the rows in order: put back together they are the rows from `from` on. */
  lemma {:induction false} ChunksPartition<T>(rows: seq<T>, from: nat)
    requires from <= |rows|
    ensures Flatten(Chunks(rows, from)) == rows[from..]
    decreases |rows| - from
  {
    if from < |rows| {
      var to := if from + BatchSize <= |rows| then from + BatchSize else |rows|;
      if from + BatchSize <= |rows| {
        ChunksPartition(rows, from + BatchSize);
      }
      FlattenCons(rows[from..to], Chunks(rows, from + BatchSize));
    }
  }

  /** No batch is empty (so the loop's `batch.length === 0` test never holds), none exceeds 5000 rows, and all but the last are full. */
  lemma {:induction false} ChunkSizes<T>(rows: seq<T>, from: nat)
    ensures forall k :: 0 <= k < |Chunks(rows, from)| ==> 1 <= |Chunks(rows, from)[k]| <= BatchSize
    ensures forall k :: 0 <= k < |Chunks(rows, from)| - 1 ==> |Chunks(rows, from)[k]| == BatchSize
    ensures |Chunks(rows, from)| == if from >= |rows| then 0 else (|rows| - from + BatchSize - 1) / BatchSize
    decreases |rows| - from
  {
    if from < |rows| {
      ChunkSizes(rows, from + BatchSize);
    }
  }

  /**
   * What the database reported for one batch: the insert threw, or
   * `returning` gave `count` ids and the transaction committed, or it gave
   * `count` ids, the callback added them to the counters, and then the
   * commit threw.
   */
  datatype InsertOutcome = Failed | Inserted(count: nat) | CountedThenFailed(count: nat)

  /** The database returns at most one id per row it was given. */
  predicate Fits(outcome: InsertOutcome, batch: seq<ChannelRow>) {
    !outcome.Failed? ==> outcome.count <= |batch|
  }

  /** The three counters the batch loop keeps. */
  datatype Tally = Tally(inserted: nat, conflicts: nat, failed: nat)

  /**
   * The counters after one more batch: all its rows failed, or `count`
   * inserted and the rest conflicts, or both when the commit threw after the
   * callback had counted.
   */
  function Step(t: Tally, batch: seq<ChannelRow>, outcome: InsertOutcome): Tally
    requires Fits(outcome, batch)
  {
    match outcome
    case Failed => Tally(t.inserted, t.conflicts, t.failed + |batch|)
    case Inserted(count) => Tally(t.inserted + count, t.conflicts + (|batch| - count), t.failed)
    case CountedThenFailed(count) => Tally(t.inserted + count, t.conflicts + (|batch| - count), t.failed + |batch|)
  }

  /** The rows of the batches whose commit threw after the callback had counted them. */
  function Recounted(batches: seq<seq<ChannelRow>>, outcomes: seq<InsertOutcome>): nat
    requires |outcomes| == |batches|
  {
    if |batches| == 0 then 0
    else
      var n := |batches| - 1;
      Recounted(batches[..n], outcomes[..n]) + (if outcomes[n].CountedThenFailed? then |batches[n]| else 0)
  }

  /** The counters after the given batches with the given outcomes. */
  function TallyOf(batches: seq<seq<ChannelRow>>, outcomes: seq<InsertOutcome>): Tally
    requires |outcomes| == |batches|
    requires forall k :: 0 <= k < |batches| ==> Fits(outcomes[k], batches[k])
  {
    if |batches| == 0 then Tally(0, 0, 0)
    else
      var n := |batches| - 1;
      Step(TallyOf(batches[..n], outcomes[..n]), batches[n], outcomes[n])
  }

  /**
   * Every row sent is counted once (inserted, a url conflict, or in a failed
   * batch), except the rows of a batch whose commit threw after the callback
   * counted them, which are counted twice. Only such batches are counted twice.
   */
  lemma {:induction false} TallyTotal(batches: seq<seq<ChannelRow>>, outcomes: seq<InsertOutcome>)
    requires |outcomes| == |batches|
    requires forall k :: 0 <= k < |batches| ==> Fits(outcomes[k], batches[k])
    ensures var t := TallyOf(batches, outcomes);
            t.inserted + t.conflicts + t.failed == |Flatten(batches)| + Recounted(batches, outcomes)
    ensures (forall k :: 0 <= k < |outcomes| ==> !outcomes[k].CountedThenFailed?) ==> Recounted(batches, outcomes) == 0
  {
    if |batches| > 0 {
      var n := |batches| - 1;
      TallyTotal(batches[..n], outcomes[..n]);
    }
  }

  /** The counters after one more batch. */
  lemma TallyStep(batches: seq<seq<ChannelRow>>, outcomes: seq<InsertOutcome>, k: nat)
    requires |outcomes| == |batches| && k < |batches|
    requires forall j :: 0 <= j < |batches| ==> Fits(outcomes[j], batches[j])
    ensures TallyOf(batches[..k + 1], outcomes[..k + 1])
            == Step(TallyOf(batches[..k], outcomes[..k]), batches[k], outcomes[k])
  {
    assert batches[..k + 1][..k] == batches[..k];
    assert outcomes[..k + 1][..k] == outcomes[..k];
  }

  /** With the loop's cursor `i` at batch `k`, the batches still to send are `Chunks(rows, i)`. */
  lemma {:induction false} ChunksSplit<T>(rows: seq<T>, i: nat, k: nat)
    requires i == k * BatchSize && i < |rows|
    ensures |Chunks(rows, 0)| > k && Chunks(rows, 0)[k..] == Chunks(rows, i)
  {
    if k > 0 {
      var c := Chunks(rows, 0);
      var j := i - BatchSize;
      assert j == (k - 1) * BatchSize;
      ChunksSplit(rows, j, k - 1);
      var rest := Chunks(rows, j);
      assert rest[1..] == Chunks(rows, i);
      assert c[k..] == c[k - 1..][1..];
    }
  }

  /** With the cursor past the end after `k` batches, there were at most `k` batches. */
  lemma {:induction false} ChunksDone<T>(rows: seq<T>, i: nat, k: nat)
    requires i == k * BatchSize && i >= |rows|
    ensures |Chunks(rows, 0)| <= k
  {
    if k > 0 {
      var j := i - BatchSize;
      assert j == (k - 1) * BatchSize;
      if j < |rows| {
        ChunksSplit(rows, j, k - 1);
        assert Chunks(rows, j) == [rows[j..|rows|]];
      } else {
        ChunksDone(rows, j, k - 1);
      }
    }
  }

  /** The batch-insert loop; a failed batch is added to `skippedCount`. */
  method InsertBatches(channelsToInsert: seq<ChannelRow>, outcomes: seq<InsertOutcome>, skipped0: nat)
    returns (sent: seq<seq<ChannelRow>>, insertedCount: nat, conflictSkippedCount: nat, skippedCount: nat)
    requires |outcomes| == |Chunks(channelsToInsert, 0)|
    requires forall k :: 0 <= k < |outcomes| ==> Fits(outcomes[k], Chunks(channelsToInsert, 0)[k])
    ensures sent == Chunks(channelsToInsert, 0)
    ensures skippedCount >= skipped0
    ensures TallyOf(sent, outcomes) == Tally(insertedCount, conflictSkippedCount, skippedCount - skipped0)
    ensures insertedCount + conflictSkippedCount + skippedCount
            == skipped0 + |channelsToInsert| + Recounted(sent, outcomes)
  {
    sent, insertedCount, conflictSkippedCount, skippedCount := [], 0, 0, skipped0;
    ghost var all := Chunks(channelsToInsert, 0);
    var i := 0;
    while i < |channelsToInsert|
      invariant i == |sent| * BatchSize
      invariant |sent| <= |all| && sent == all[..|sent|]
      invariant skippedCount >= skipped0
      invariant TallyOf(sent, outcomes[..|sent|]) == Tally(insertedCount, conflictSkippedCount, skippedCount - skipped0)
      decreases |channelsToInsert| - i
    {
      var to := if i + BatchSize <= |channelsToInsert| then i + BatchSize else |channelsToInsert|;
      var batch := channelsToInsert[i..to];
      var k := |sent|;
      ChunksSplit(channelsToInsert, i, k);
      assert all[k..][0] == batch;
      TallyStep(all, outcomes, k);
      if |batch| > 0 {
        match outcomes[k]
        case Failed =>
          skippedCount := skippedCount + |batch|;
        case Inserted(actuallyInserted) =>
          insertedCount := insertedCount + actuallyInserted;
          conflictSkippedCount := conflictSkippedCount + (|batch| - actuallyInserted);
        case CountedThenFailed(actuallyInserted) =>
          insertedCount := insertedCount + actuallyInserted;
          conflictSkippedCount := conflictSkippedCount + (|batch| - actuallyInserted);
          skippedCount := skippedCount + |batch|;
      }
      assert all[..k + 1] == sent + [batch];
      sent := sent + [batch];
      i := i + BatchSize;
    }
    ChunksDone(channelsToInsert, i, |sent|);
    assert sent == all;
    assert outcomes[..|sent|] == outcomes;
    ChunksPartition(channelsToInsert, 0);
    TallyTotal(sent, outcomes);
  }

  /** The summary `parseAndStoreM3u` logs at the end. */
  datatype Report = Report(parsed: nat, skipped: nat, inserted: nat, conflicts: nat)

  /**
   * `parseAndStoreM3u` after the table is cleared and the file parsed: nothing
   * when there are no segments, else the preparation loop, then the batches.
   */
  method ParseAndStore(segments: seq<Segment>, outcomes: seq<InsertOutcome>) returns (report: Option<Report>)
    requires |outcomes| == |Chunks(Prepared(segments), 0)|
    requires forall k :: 0 <= k < |outcomes| ==> Fits(outcomes[k], Chunks(Prepared(segments), 0)[k])
    ensures report.None? <==> |segments| == 0
    ensures report.Some? ==> report.value.parsed == |segments|
    ensures report.Some? ==>
              report.value.inserted + report.value.conflicts + report.value.skipped
              == |segments| + Recounted(Chunks(Prepared(segments), 0), outcomes)
    ensures report.Some? && (forall k :: 0 <= k < |outcomes| ==> !outcomes[k].CountedThenFailed?) ==>
              report.value.inserted + report.value.conflicts + report.value.skipped == |segments|
  {
    if |segments| == 0 {
      return None;
    }
    var channelsToInsert, skippedCount := PrepareRows(segments);
    var sent, insertedCount, conflictSkippedCount;
    sent, insertedCount, conflictSkippedCount, skippedCount := InsertBatches(channelsToInsert, outcomes, skippedCount);
    TallyTotal(sent, outcomes);
    report := Some(Report(|segments|, skippedCount, insertedCount, conflictSkippedCount));
  }
}
