/**
 * The chunk loop of the older converter (sumstats_to_chisq.py, lines
 * 553-584): every chunk read goes through `filter_na`, the `--merge-alleles`
 * membership test and `filter_snps`, while `tot_snps`, `merge_drops` and the
 * `drops` counters accumulate; the kept rows are concatenated in order.
 * The chunks are given, their columns already renamed to fields.
 */
module LegacyChunks {
  import opened Wrappers
  import opened Schema
  import opened Seqs
  import opened LegacyFilters
  import Dedup

  /** Line 561: the rows whose SNP the `--merge-alleles` list holds (`isin`). */
  function MergeMask(rows: seq<LRow>, snps: set<Cell>): (m: seq<bool>)
    ensures |m| == |rows| && forall i :: 0 <= i < |rows| ==> (m[i] <==> Get(rows[i].cells, Snp) in snps)
  {
    seq(|rows|, i requires 0 <= i < |rows| => Get(rows[i].cells, Snp) in snps)
  }

  /** A chunk after `filter_na` and, with a `--merge-alleles` list, its membership test. */
  function ChunkFrame(dat: Frame, merge: Option<set<Cell>>): Frame
  {
    var na := NaRows(dat.rows);
    Frame(dat.cols, dat.infoCols, if merge.Some? then Select(na, MergeMask(na, merge.value)) else na)
  }

  /** The rows a chunk contributes to `dat_list`. */
  function ChunkKept(dat: Frame, merge: Option<set<Cell>>, infoMin: real, mafMin: real): seq<Row>
  {
    var f := ChunkFrame(dat, merge);
    Stripped(Select(f.rows, FrqStage(f, infoMin, mafMin)))
  }

  /** What the chunks contribute, chunk by chunk. */
  function KeptLists(chunks: seq<Frame>, merge: Option<set<Cell>>, infoMin: real, mafMin: real): (ks: seq<seq<Row>>)
    ensures |ks| == |chunks|
  {
    if chunks == [] then []
    else KeptLists(chunks[..|chunks| - 1], merge, infoMin, mafMin) + [ChunkKept(chunks[|chunks| - 1], merge, infoMin, mafMin)]
  }

  /** `tot_snps`: the rows of all chunks. */
  function RowsIn(chunks: seq<Frame>): nat
  {
    if chunks == [] then 0 else RowsIn(chunks[..|chunks| - 1]) + |chunks[|chunks| - 1].rows|
  }

  /** No chunk before `k` has a P value in text. */
  predicate NumericUpTo(chunks: seq<Frame>, merge: Option<set<Cell>>, k: nat)
    requires k <= |chunks|
  {
    forall j :: 0 <= j < k ==> !PHasText(ChunkFrame(chunks[j], merge).rows)
  }

  /** One more chunk whose P column is numeric extends the numeric prefix. */
  lemma NumericSnoc(chunks: seq<Frame>, merge: Option<set<Cell>>, k: nat)
    requires k < |chunks| && NumericUpTo(chunks, merge, k)
    requires !PHasText(ChunkFrame(chunks[k], merge).rows)
    ensures NumericUpTo(chunks, merge, k + 1)
  {
  }

  /**
   * Every row the loop keeps comes from a row of its chunk that `filter_na`
   * kept, that the `--merge-alleles` list holds and that passes every test of
   * `filter_snps`; FRQ is gone from it.
   */
  lemma ChunkKeptOrigin(dat: Frame, merge: Option<set<Cell>>, infoMin: real, mafMin: real, j: nat) returns (r: LRow)
    requires j < |ChunkKept(dat, merge, infoMin, mafMin)|
    ensures r in NaRows(dat.rows)
    ensures merge.Some? ==> Get(r.cells, Snp) in merge.value
    ensures SnpPasses(ChunkFrame(dat, merge), r, infoMin, mafMin)
    ensures ChunkKept(dat, merge, infoMin, mafMin)[j] == OutRow(r)
  {
    var f := ChunkFrame(dat, merge);
    var m := FrqStage(f, infoMin, mafMin);
    var i := SelectOrigin(f.rows, m, j);
    FrqStageExact(f, infoMin, mafMin);
    r := f.rows[i];
    var na := NaRows(dat.rows);
    if merge.Some? {
      var mm := MergeMask(na, merge.value);
      var k := SelectOrigin(na, mm, i);
    }
  }

  /** A row of the concatenation comes from the contribution of one chunk. */
  lemma {:induction false} KeptFromChunk(chunks: seq<Frame>, merge: Option<set<Cell>>, infoMin: real, mafMin: real, x: Row)
    returns (k: nat, j: nat)
    requires x in Flatten(KeptLists(chunks, merge, infoMin, mafMin))
    ensures k < |chunks| && j < |ChunkKept(chunks[k], merge, infoMin, mafMin)|
    ensures ChunkKept(chunks[k], merge, infoMin, mafMin)[j] == x
  {
    var n := |chunks| - 1;
    var front := chunks[..n];
    var last := ChunkKept(chunks[n], merge, infoMin, mafMin);
    FlattenSnoc(KeptLists(front, merge, infoMin, mafMin), last);
    if x in Flatten(KeptLists(front, merge, infoMin, mafMin)) {
      k, j := KeptFromChunk(front, merge, infoMin, mafMin, x);
      assert front[k] == chunks[k];
    } else {
      k := n;
      j :| 0 <= j < |last| && last[j] == x;
    }
  }

  /**
   * Every row the loop returns is, FRQ dropped, a row of some chunk that
   * `filter_na` kept, that the `--merge-alleles` list holds, and that passes
   * every test of `filter_snps`.
   */
  lemma ReadRowsPass(chunks: seq<Frame>, merge: Option<set<Cell>>, infoMin: real, mafMin: real, x: Row)
    requires x in Flatten(KeptLists(chunks, merge, infoMin, mafMin))
    ensures exists k, r ::
              && 0 <= k < |chunks| && r in NaRows(chunks[k].rows)
              && (merge.Some? ==> Get(r.cells, Snp) in merge.value)
              && SnpPasses(ChunkFrame(chunks[k], merge), r, infoMin, mafMin)
              && x == OutRow(r)
  {
    var k, j := KeptFromChunk(chunks, merge, infoMin, mafMin, x);
    var r := ChunkKeptOrigin(chunks[k], merge, infoMin, mafMin, j);
  }

  /** A row `filter_na` keeps is a row of the chunk. */
  lemma NaRowsFrom(rows: seq<LRow>, r: LRow)
    requires r in NaRows(rows)
    ensures r in rows
  {
    NaRowsProperties(rows);
    var j :| 0 <= j < |NaRows(rows)| && NaRows(rows)[j] == r;
    var d := DedupRows(rows);
    var k :| 0 <= k < |d| && d[k] == r;
    var i := SelectOrigin(rows, Dedup.FirstMask(Cells(rows)), k);
  }

  /** When every chunk has the same columns, so does every row of the concatenation. */
  lemma ReadRowsRectangular(chunks: seq<Frame>, cols: set<Field>, merge: Option<set<Cell>>, infoMin: real, mafMin: real)
    requires forall k :: 0 <= k < |chunks| ==> chunks[k].Valid() && chunks[k].cols == cols
    ensures Table(OutCols(cols), Flatten(KeptLists(chunks, merge, infoMin, mafMin))).Rectangular()
  {
    var rows := Flatten(KeptLists(chunks, merge, infoMin, mafMin));
    forall i | 0 <= i < |rows| ensures rows[i].Keys == OutCols(cols) {
      var k, j := KeptFromChunk(chunks, merge, infoMin, mafMin, rows[i]);
      var r := ChunkKeptOrigin(chunks[k], merge, infoMin, mafMin, j);
      NaRowsFrom(chunks[k].rows, r);
      OutRowShape(r, cols);
    }
  }

  /** The rows one chunk loses: to the filters' counters and to the merge list. */
  lemma ChunkAccounting(dat: Frame, merge: Option<set<Cell>>, infoMin: real, mafMin: real)
    ensures var f := ChunkFrame(dat, merge);
      && |DedupRows(dat.rows)| <= |dat.rows|
      && |NaRows(dat.rows)| <= |DedupRows(dat.rows)|
      && |f.rows| <= |NaRows(dat.rows)|
      && |ChunkKept(dat, merge, infoMin, mafMin)| <= |f.rows|
  {
    var f := ChunkFrame(dat, merge);
    StagesShrink(f, infoMin, mafMin);
  }

  /**
   * Lines 558-566 on one chunk: `filter_na`, the membership test against the
   * `--merge-alleles` list and `filter_snps`. Every row read is kept or
   * counted, by the filters' counters or as a merge drop.
   */
  method ProcessChunk(dat: Frame, merge: Option<set<Cell>>, drops: Drops, infoMin: real, mafMin: real)
    returns (r: Result<seq<Row>, Failure>, mergeLost: nat)
    modifies drops
    ensures r.Err? <==> PHasText(ChunkFrame(dat, merge).rows)
    ensures r.Err? ==> r.error == PNotNumeric
    ensures r.Ok? ==> r.value == ChunkKept(dat, merge, infoMin, mafMin)
    ensures r.Ok? ==> drops.Total() + mergeLost + |r.value| == old(drops.Total()) + |dat.rows|
    ensures merge.None? ==> mergeLost == 0
  {
    ChunkAccounting(dat, merge, infoMin, mafMin);
    var na := FilterNa(dat, drops);
    mergeLost := 0;
    if merge.Some? {
      var ii := MergeMask(na.rows, merge.value);
      mergeLost := |na.rows| - Count(ii);
      na := Frame(na.cols, na.infoCols, Select(na.rows, ii));
    }
    assert na == ChunkFrame(dat, merge);
    var kept := FilterSnps(na, drops, infoMin, mafMin);
    if kept.Err? {
      return Err(kept.error), mergeLost;
    }
    r := Ok(kept.value.rows);
  }

  lemma KeptListsSnoc(chunks: seq<Frame>, merge: Option<set<Cell>>, infoMin: real, mafMin: real, k: nat)
    requires k < |chunks|
    ensures KeptLists(chunks[..k + 1], merge, infoMin, mafMin)
      == KeptLists(chunks[..k], merge, infoMin, mafMin) + [ChunkKept(chunks[k], merge, infoMin, mafMin)]
  {
    assert chunks[..k + 1][..k] == chunks[..k];
  }

  lemma RowsInSnoc(chunks: seq<Frame>, k: nat)
    requires k < |chunks|
    ensures RowsIn(chunks[..k + 1]) == RowsIn(chunks[..k]) + |chunks[k].rows|
  {
    assert chunks[..k + 1][..k] == chunks[..k];
  }

  /**
   * One turn of the loop of lines 556-566, on chunk `k`: the kept rows join
   * `dat_list`, the rows read join `tot_snps`, the merge losses join
   * `merge_drops`, and the accounting of every row read still holds.
   */
  method NextChunk(chunks: seq<Frame>, k: nat, merge: Option<set<Cell>>, drops: Drops, infoMin: real, mafMin: real,
                   ghost d0: nat, datList: seq<seq<Row>>, tot: nat, mergeDrops: nat)
    returns (kept: Result<seq<Row>, Failure>, datList': seq<seq<Row>>, tot': nat, mergeDrops': nat)
    requires k < |chunks|
    requires datList == KeptLists(chunks[..k], merge, infoMin, mafMin) && tot == RowsIn(chunks[..k])
    requires tot + d0 == |Flatten(datList)| + drops.Total() + mergeDrops
    requires merge.None? ==> mergeDrops == 0
    modifies drops
    ensures kept.Err? <==> PHasText(ChunkFrame(chunks[k], merge).rows)
    ensures kept.Err? ==> kept.error == PNotNumeric
    ensures kept.Ok? ==> datList' == KeptLists(chunks[..k + 1], merge, infoMin, mafMin) && tot' == RowsIn(chunks[..k + 1])
    ensures kept.Ok? ==> tot' + d0 == |Flatten(datList')| + drops.Total() + mergeDrops'
    ensures merge.None? ==> mergeDrops' == 0
  {
    KeptListsSnoc(chunks, merge, infoMin, mafMin, k);
    RowsInSnoc(chunks, k);
    var lost;
    kept, lost := ProcessChunk(chunks[k], merge, drops, infoMin, mafMin);
    tot', mergeDrops', datList' := tot + |chunks[k].rows|, mergeDrops + lost, datList;
    if kept.Ok? {
      FlattenSnoc(datList, kept.value);
      datList' := datList + [kept.value];
    }
  }

  /**
   * Lines 556-566: the loop over the chunks. A chunk with a P value in text
   * stops the loop; otherwise every chunk adds the rows it keeps, and every
   * row read is kept, dropped by a filter or dropped by the merge list.
   */
  method CollectChunks(chunks: seq<Frame>, merge: Option<set<Cell>>, drops: Drops, infoMin: real, mafMin: real)
    returns (r: Result<seq<seq<Row>>, Failure>, tot: nat, mergeDrops: nat, stop: nat)
    modifies drops
    ensures r.Err? ==> r.error == PNotNumeric && stop < |chunks| && NumericUpTo(chunks, merge, stop) && PHasText(ChunkFrame(chunks[stop], merge).rows)
    ensures r.Ok? ==> NumericUpTo(chunks, merge, |chunks|) && r.value == KeptLists(chunks, merge, infoMin, mafMin)
    ensures r.Ok? ==> tot == RowsIn(chunks) && tot + old(drops.Total()) == |Flatten(r.value)| + drops.Total() + mergeDrops
    ensures merge.None? ==> mergeDrops == 0
  {
    tot, mergeDrops, stop := 0, 0, 0;
    var datList: seq<seq<Row>> := [];
    ghost var d0 := drops.Total();
    var k := 0;
    while k < |chunks|
      invariant 0 <= k <= |chunks|
      invariant NumericUpTo(chunks, merge, k)
      invariant datList == KeptLists(chunks[..k], merge, infoMin, mafMin) && tot == RowsIn(chunks[..k])
      invariant tot + d0 == |Flatten(datList)| + drops.Total() + mergeDrops
      invariant merge.None? ==> mergeDrops == 0
    {
      var kept;
      kept, datList, tot, mergeDrops := NextChunk(chunks, k, merge, drops, infoMin, mafMin, d0, datList, tot, mergeDrops);
      if kept.Err? {
        return Err(kept.error), tot, mergeDrops, k;
      }
      NumericSnoc(chunks, merge, k);
      k := k + 1;
    }
    assert chunks[..|chunks|] == chunks;
    r := Ok(datList);
  }

  /**
   * Lines 553-583 as a value: the first chunk whose P column holds text
   * fails the loop; then `pd.concat` of no chunk fails, and so does a
   * concatenation without rows.
   */
  function ReadResult(chunks: seq<Frame>, cols: set<Field>, merge: Option<set<Cell>>, infoMin: real, mafMin: real)
    : Result<Table, Failure>
  {
    if !NumericUpTo(chunks, merge, |chunks|) then Err(PNotNumeric)
    else if chunks == [] then Err(NothingToConcatenate)
    else if Flatten(KeptLists(chunks, merge, infoMin, mafMin)) == [] then Err(NoSnpsRemain)
    else Ok(Table(OutCols(cols), Flatten(KeptLists(chunks, merge, infoMin, mafMin))))
  }

  /**
   * Lines 553-570: the loop over the chunks and the concatenation. A chunk
   * with a P value in text stops the loop; an empty chunk list cannot be
   * concatenated; no row left raises.
   */
  method ReadChunks(chunks: seq<Frame>, cols: set<Field>, merge: Option<set<Cell>>, infoMin: real, mafMin: real)
    returns (r: Result<Table, Failure>, tot: nat, mergeDrops: nat, drops: Drops)
    ensures fresh(drops)
    ensures r.Err? && r.error == PNotNumeric ==>
      exists k :: 0 <= k < |chunks| && NumericUpTo(chunks, merge, k) && PHasText(ChunkFrame(chunks[k], merge).rows)
    ensures r.Err? ==> r.error in {PNotNumeric, NothingToConcatenate, NoSnpsRemain}
    ensures r.Err? && r.error != PNotNumeric ==> NumericUpTo(chunks, merge, |chunks|)
    ensures r.Err? && r.error == NothingToConcatenate ==> chunks == []
    ensures r.Err? && r.error == NoSnpsRemain ==> chunks != [] && Flatten(KeptLists(chunks, merge, infoMin, mafMin)) == []
    ensures r.Ok? ==> NumericUpTo(chunks, merge, |chunks|) && chunks != []
    ensures r.Ok? ==> r.value == Table(OutCols(cols), Flatten(KeptLists(chunks, merge, infoMin, mafMin)))
    ensures r.Ok? ==> |r.value.rows| > 0
    ensures r.Ok? ==> tot == RowsIn(chunks) && tot == |r.value.rows| + drops.Total() + mergeDrops
    ensures r.Ok? && merge.None? ==> mergeDrops == 0
    ensures r == ReadResult(chunks, cols, merge, infoMin, mafMin)
  {
    drops := new Drops();
    var lists, stop;
    lists, tot, mergeDrops, stop := CollectChunks(chunks, merge, drops, infoMin, mafMin);
    if lists.Err? {
      return Err(lists.error), tot, mergeDrops, drops;
    }
    if chunks == [] {
      return Err(NothingToConcatenate), tot, mergeDrops, drops;
    }
    var rows := Flatten(lists.value);
    if |rows| == 0 {
      return Err(NoSnpsRemain), tot, mergeDrops, drops;
    }
    r := Ok(Table(OutCols(cols), rows));
  }
}
