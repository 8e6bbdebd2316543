/** Facts about a video's variant rows: what each repository operation does row by row. */
module VariantRows {
  import opened Playlist
  import opened PipelineState

  predicate HasReady(rows: seq<Variant>, res: string) {
    exists v :: v in rows && v.res == res && v.status.Ready?
  }

  predicate FirstProcessing(rows: seq<Variant>, res: string, j: nat) {
    && j < |rows| && rows[j].res == res && rows[j].status.Processing?
    && forall k :: 0 <= k < j ==> rows[k].res != res || !rows[k].status.Processing?
  }

  function FindProcessing(rows: seq<Variant>, res: string): (j: nat)
    ensures j < |rows| ==> FirstProcessing(rows, res, j)
    ensures j >= |rows| ==> forall k :: 0 <= k < |rows| ==> rows[k].res != res || !rows[k].status.Processing?
  {
    if rows == [] || (rows[0].res == res && rows[0].status.Processing?) then 0
    else 1 + FindProcessing(rows[1..], res)
  }

  /** Marking a resolution ready changes the status of its first processing row, and nothing when there is none. */
  lemma {:induction false} MarkReadyRows(rows: seq<Variant>, res: string)
    ensures var j := FindProcessing(rows, res);
            MarkReady(rows, res) == if j < |rows| then rows[j := rows[j].(status := VariantStatus.Ready)] else rows
  {
    if rows != [] && !(rows[0].res == res && rows[0].status.Processing?) {
      MarkReadyRows(rows[1..], res);
    }
  }

  /** The position of the row of that resolution and codec, or |rows|. */
  function FindRow(rows: seq<Variant>, res: string, codec: string): (j: nat)
    ensures j <= |rows| && (j < |rows| ==> rows[j].res == res && rows[j].codec == codec)
    ensures forall k :: 0 <= k < j ==> rows[k].res != res || rows[k].codec != codec
  {
    if rows == [] || (rows[0].res == res && rows[0].codec == codec) then 0
    else 1 + FindRow(rows[1..], res, codec)
  }

  /** The upsert assigns to the row of that resolution and codec, and appends one when there is none. */
  lemma {:induction false} CreateOrUpdateRows(rows: seq<Variant>, v: Variant)
    ensures var j := FindRow(rows, v.res, v.codec);
            CreateOrUpdate(rows, v) == if j < |rows| then rows[j := Assign(rows[j], v)] else rows + [v]
  {
    if rows != [] && !(rows[0].res == v.res && rows[0].codec == v.codec) {
      CreateOrUpdateRows(rows[1..], v);
    }
  }

  lemma {:induction false} RemoveFirstRows(rows: seq<Variant>, res: string)
    ensures forall v :: v in RemoveFirst(rows, res) ==> v in rows
  {
    if rows != [] {
      RemoveFirstRows(rows[1..], res);
    }
  }

  lemma {:induction false} ReadyIsListed(rows: seq<Variant>, v: Variant)
    requires v in rows && v.status.Ready?
    ensures Info(v) in ReadyInfos(rows)
  {
    var n := |rows| - 1;
    if v != rows[n] {
      assert v in rows[..n];
      ReadyIsListed(rows[..n], v);
    }
  }

  lemma {:induction false} ListedIsReady(rows: seq<Variant>, x: VariantInfo) returns (v: Variant)
    requires x in ReadyInfos(rows)
    ensures v in rows && v.status.Ready? && Info(v) == x
  {
    var n := |rows| - 1;
    if x in ReadyInfos(rows[..n]) {
      v := ListedIsReady(rows[..n], x);
    } else {
      v := rows[n];
    }
  }

  /** Marking a variant ready takes nothing off the list of ready variants. */
  lemma MarkReadyKeepsListed(rows: seq<Variant>, res: string)
    ensures forall x :: x in ReadyInfos(rows) ==> x in ReadyInfos(MarkReady(rows, res))
  {
    forall x | x in ReadyInfos(rows) ensures x in ReadyInfos(MarkReady(rows, res)) {
      var v := ListedIsReady(rows, x);
      var i :| 0 <= i < |rows| && rows[i] == v;
      MarkReadyRows(rows, res);
      assert MarkReady(rows, res)[i] == v;
      ReadyIsListed(MarkReady(rows, res), v);
    }
  }
}
