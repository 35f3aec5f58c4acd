/** A field's joined cell table (detections left-joined with phenotypes) and
    the phenotype selection `df[df[column] == value]` both drivers apply. */
module Cells {
  import opened Stats

  /** One row: the centroid, the categorical columns and the numeric marker
      columns. A column the left join left empty is absent from the map. */
  datatype Cell = Cell(pos: Point, labels: map<string, string>, markers: map<string, real>)

  /** A phenotype predicate: the column to test and the value to match. */
  datatype Phenotype = Phenotype(column: string, value: string)

  /** A missing value (NaN) never equals the phenotype value. */
  predicate Matches(c: Cell, ph: Phenotype)
  {
    ph.column in c.labels && c.labels[ph.column] == ph.value
  }

  /** The rows whose phenotype column holds the value, in table order. */
  function Select(cells: seq<Cell>, ph: Phenotype): (sel: seq<Cell>)
    ensures |sel| <= |cells|
    ensures forall c :: c in sel ==> c in cells && Matches(c, ph)
  {
    if |cells| == 0 then []
    else
      Select(cells[..|cells| - 1], ph)
        + (if Matches(cells[|cells| - 1], ph) then [cells[|cells| - 1]] else [])
  }

  /** `np.array(rows[["Centroid X µm", "Centroid Y µm"]])`. */
  function Positions(rows: seq<Cell>): (xy: seq<Point>)
    ensures |xy| == |rows|
  {
    seq(|rows|, j requires 0 <= j < |rows| => rows[j].pos)
  }

  /** Every row the phenotype selects carries the intensity channel. */
  predicate HasChannel(cells: seq<Cell>, ph: Phenotype, channel: string)
  {
    forall c :: c in cells && Matches(c, ph) ==> channel in c.markers
  }

  /** `np.array(rows[channel])`. */
  function Intensities(rows: seq<Cell>, channel: string): (v: seq<real>)
    requires forall c :: c in rows ==> channel in c.markers
    ensures |v| == |rows|
  {
    seq(|rows|, j requires 0 <= j < |rows| => rows[j].markers[channel])
  }

  /** The indices of the rows the phenotype selects, in table order. */
  function MatchingRows(cells: seq<Cell>, ph: Phenotype): (idx: seq<nat>)
    ensures forall k :: 0 <= k < |idx| ==> idx[k] < |cells|
  {
    if |cells| == 0 then []
    else
      MatchingRows(cells[..|cells| - 1], ph)
        + (if Matches(cells[|cells| - 1], ph) then [|cells| - 1] else [])
  }

  /** Entry k of the selection is table row idx[k]. */
  lemma {:induction false} SelectedRowsAt(cells: seq<Cell>, ph: Phenotype)
    ensures var sel, idx := Select(cells, ph), MatchingRows(cells, ph);
      && |idx| == |sel|
      && (forall k :: 0 <= k < |idx| ==> sel[k] == cells[idx[k]])
  {
    if |cells| > 0 {
      var n := |cells| - 1;
      var front := cells[..n];
      SelectedRowsAt(front, ph);
      var sel, selFront := Select(cells, ph), Select(front, ph);
      var idx, before := MatchingRows(cells, ph), MatchingRows(front, ph);
      if Matches(cells[n], ph) {
        assert sel == selFront + [cells[n]] && idx == before + [n];
      } else {
        assert sel == selFront && idx == before;
      }
      forall k | 0 <= k < |idx| ensures sel[k] == cells[idx[k]] {
        if k < |before| {
          assert sel[k] == selFront[k] == front[before[k]];
        }
      }
    }
  }

  /** The row indices increase and are exactly the rows that match. */
  lemma {:induction false} MatchingRowsExact(cells: seq<Cell>, ph: Phenotype)
    ensures var idx := MatchingRows(cells, ph);
      && (forall k, l :: 0 <= k < l < |idx| ==> idx[k] < idx[l])
      && (forall j :: 0 <= j < |cells| ==> (Matches(cells[j], ph) <==> j in idx))
  {
    if |cells| > 0 {
      var n := |cells| - 1;
      var front := cells[..n];
      MatchingRowsExact(front, ph);
      var idx, before := MatchingRows(cells, ph), MatchingRows(front, ph);
      assert idx == before + (if Matches(cells[n], ph) then [n] else []);
      assert n !in before;
      forall j | 0 <= j < |cells| ensures Matches(cells[j], ph) <==> j in idx {
        assert j in idx <==> j in before || (j == n && Matches(cells[n], ph));
        if j < n {
          assert cells[j] == front[j];
        }
      }
    }
  }

  /** The coordinates and intensities built from a selection are aligned row
      by row: entry k of both comes from table row idx[k], and idx lists the
      matching rows in increasing order. */
  lemma SelectionAligned(cells: seq<Cell>, ph: Phenotype, channel: string) returns (idx: seq<nat>)
    requires HasChannel(cells, ph, channel)
    ensures var sel := Select(cells, ph);
      && |idx| == |Positions(sel)| == |Intensities(sel, channel)|
      && (forall k :: 0 <= k < |idx| ==>
            && idx[k] < |cells|
            && sel[k] == cells[idx[k]]
            && Positions(sel)[k] == cells[idx[k]].pos
            && Intensities(sel, channel)[k] == cells[idx[k]].markers[channel])
      && (forall k, l :: 0 <= k < l < |idx| ==> idx[k] < idx[l])
      && (forall j :: 0 <= j < |cells| ==> (Matches(cells[j], ph) <==> j in idx))
  {
    idx := MatchingRows(cells, ph);
    SelectedRowsAt(cells, ph);
    MatchingRowsExact(cells, ph);
  }
}
