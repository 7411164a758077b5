/**
 * The 3D thought cloud (src/components/explore/thought-cloud.tsx): converting backend records to
 * coloured markers, re-centring their positions on the centroid, picking the nearest neighbours
 * of the selected marker, and the selection rules of the scene.
 */
module ThoughtCloud {
  import opened Wrappers
  import opened Vectors
  import opened Types
  import opened Seqs
  import opened Sorting

  /** The marker palette; a cluster label picks `Palette[label mod 11]`. */
  const Palette: seq<string> := [
    "#be123c", "#0ea5e9", "#16a34a", "#d97706", "#8b5cf6", "#ec4899",
    "#f59e0b", "#8b5cf6", "#ec4899", "#f59e0b", "#8b5cf6"]

  /** One marker of the cloud: the record's display fields, its position and its colour. */
  datatype ThoughtNode = ThoughtNode(
    id: string,
    title: string,
    excerpt: string,
    position: Vec3,
    color: string,
    clusterLabel: nat)

  function LabelColor(lbl: nat): (c: string)
    ensures c in Palette
    ensures c == Palette[lbl % 11]
  {
    Palette[lbl % |Palette|]
  }

  /** Labels eleven apart share a colour. */
  lemma LabelColorPeriodic(lbl: nat)
    ensures LabelColor(lbl + |Palette|) == LabelColor(lbl)
  {
    assert |Palette| == 11;
    assert (lbl + 11) % 11 == lbl % 11;
  }

  function ToThoughtNode(t: ThoughtRecord): ThoughtNode {
    ThoughtNode(t.id, t.title, t.excerpt, t.position, LabelColor(t.clusterLabel), t.clusterLabel)
  }

  /** `convertToThoughtNodes`: one marker per record, in order, coloured by cluster label. */
  function ConvertToThoughtNodes(thoughts: seq<ThoughtRecord>): (r: seq<ThoughtNode>)
    ensures |r| == |thoughts|
    ensures forall i :: 0 <= i < |r| ==>
      && r[i].id == thoughts[i].id
      && r[i].title == thoughts[i].title
      && r[i].excerpt == thoughts[i].excerpt
      && r[i].position == thoughts[i].position
      && r[i].clusterLabel == thoughts[i].clusterLabel
      && r[i].color == Palette[thoughts[i].clusterLabel % 11]
  {
    seq(|thoughts|, i requires 0 <= i < |thoughts| => ToThoughtNode(thoughts[i]))
  }

  // ---------------------------------------------------------------------------------------------
  // Re-centring on the centroid

  function Positions(ts: seq<ThoughtNode>): (ps: seq<Vec3>)
    ensures |ps| == |ts| && forall i :: 0 <= i < |ts| ==> ps[i] == ts[i].position
  {
    seq(|ts|, i requires 0 <= i < |ts| => ts[i].position)
  }

  /** Coordinate-wise sum, accumulated from the first position to the last. */
  function Sum(ps: seq<Vec3>): Vec3 {
    if ps == [] then Origin else Add(Sum(ps[..|ps| - 1]), ps[|ps| - 1])
  }

  function Centroid(ps: seq<Vec3>): Vec3
    requires |ps| > 0
  {
    var s, n := Sum(ps), |ps| as real;
    Vec3(s.x / n, s.y / n, s.z / n)
  }

  /** Each marker moved by the same offset `-c`; nothing but the position changes. */
  function Shifted(ts: seq<ThoughtNode>, c: Vec3): (r: seq<ThoughtNode>)
    ensures |r| == |ts|
    ensures forall i :: 0 <= i < |ts| ==> r[i] == ts[i].(position := Sub(ts[i].position, c))
  {
    seq(|ts|, i requires 0 <= i < |ts| => ts[i].(position := Sub(ts[i].position, c)))
  }

  /** The markers translated so that their centroid is the origin (an empty list stays empty). */
  function Centered(ts: seq<ThoughtNode>): seq<ThoughtNode> {
    if ts == [] then [] else Shifted(ts, Centroid(Positions(ts)))
  }

  /**
   * `centerThoughtPositions`: accumulate the coordinate sums, divide by the count, subtract.
   * For an empty list the source divides by zero, but maps over no element, so the result is [].
   */
  method CenterThoughtPositions(thoughts: seq<ThoughtNode>) returns (r: seq<ThoughtNode>)
    ensures r == Centered(thoughts)
  {
    var n := |thoughts|;
    var cx, cy, cz := 0.0, 0.0, 0.0;
    var i := 0;
    while i < n
      invariant 0 <= i <= n
      invariant Vec3(cx, cy, cz) == Sum(Positions(thoughts[..i]))
    {
      assert Positions(thoughts[..i + 1])[..i] == Positions(thoughts[..i]);
      cx := cx + thoughts[i].position.x;
      cy := cy + thoughts[i].position.y;
      cz := cz + thoughts[i].position.z;
      i := i + 1;
    }
    if n == 0 {
      return [];
    }
    assert thoughts[..n] == thoughts;
    var center := Vec3(cx / n as real, cy / n as real, cz / n as real);
    r := seq(n, j requires 0 <= j < n => thoughts[j].(position := Sub(thoughts[j].position, center)));
  }

  /** Every position minus `c`, built in the same order as `Sum` accumulates. */
  function ShiftAll(ps: seq<Vec3>, c: Vec3): (r: seq<Vec3>)
    ensures |r| == |ps|
    ensures forall i :: 0 <= i < |ps| ==> r[i] == Sub(ps[i], c)
  {
    if ps == [] then [] else ShiftAll(ps[..|ps| - 1], c) + [Sub(ps[|ps| - 1], c)]
  }

  lemma ShiftStep(prev: Vec3, last: Vec3, c: Vec3, n: real)
    ensures Add(Sub(prev, Scale(c, n)), Sub(last, c)) == Sub(Add(prev, last), Scale(c, n + 1.0))
  {
  }

  lemma {:induction false} SumOfShiftAll(ps: seq<Vec3>, c: Vec3)
    ensures Sum(ShiftAll(ps, c)) == Sub(Sum(ps), Scale(c, |ps| as real))
  {
    if ps != [] {
      var k := |ps| - 1;
      var sh := ShiftAll(ps, c);
      assert sh[..k] == ShiftAll(ps[..k], c);
      SumOfShiftAll(ps[..k], c);
      ShiftStep(Sum(ps[..k]), ps[k], c, k as real);
    }
  }

  lemma SumOfShifted(ts: seq<ThoughtNode>, c: Vec3)
    ensures Sum(Positions(Shifted(ts, c))) == Sub(Sum(Positions(ts)), Scale(c, |ts| as real))
  {
    assert Positions(Shifted(ts, c)) == ShiftAll(Positions(ts), c);
    SumOfShiftAll(Positions(ts), c);
  }

  lemma DivTimes(a: real, n: real)
    requires n != 0.0
    ensures a / n * n == a
  {
  }

  /** After centring, the coordinate sums (and so the centroid) are exactly zero. */
  lemma CenteredSumIsZero(ts: seq<ThoughtNode>)
    requires |ts| > 0
    ensures Sum(Positions(Centered(ts))) == Origin
  {
    var s, n := Sum(Positions(ts)), |ts| as real;
    var c := Centroid(Positions(ts));
    assert c == Vec3(s.x / n, s.y / n, s.z / n);
    SumOfShifted(ts, c);
    DivTimes(s.x, n);
    DivTimes(s.y, n);
    DivTimes(s.z, n);
    calc {
      Scale(c, n);
    ==
      Vec3(s.x / n * n, s.y / n * n, s.z / n * n);
    ==
      Vec3(s.x, s.y, s.z);
    }
  }

  /** A single marker is moved to the origin. */
  lemma SingleNodeCentered(t: ThoughtNode)
    ensures Centered([t]) == [t.(position := Origin)]
  {
    assert Positions([t])[..0] == [];
    assert Sum(Positions([t])) == Add(Origin, t.position);
  }

  /** Centring keeps length, order and every field but the position. */
  lemma CenteredKeepsFields(ts: seq<ThoughtNode>, i: nat)
    requires i < |ts|
    ensures |Centered(ts)| == |ts|
    ensures Centered(ts)[i].(position := ts[i].position) == ts[i]
  {
  }

  /** Moving by the zero vector changes nothing. */
  lemma ShiftedByOrigin(ts: seq<ThoughtNode>)
    ensures Shifted(ts, Origin) == ts
  {
    var r := Shifted(ts, Origin);
    forall i | 0 <= i < |ts| ensures r[i] == ts[i] {
      assert Sub(ts[i].position, Origin) == ts[i].position;
    }
  }

  lemma CentroidOfCentered(ts: seq<ThoughtNode>)
    requires ts != []
    ensures Centroid(Positions(Centered(ts))) == Origin
  {
    CenteredSumIsZero(ts);
    var n := |Centered(ts)| as real;
    assert Centroid(Positions(Centered(ts))) == Vec3(0.0 / n, 0.0 / n, 0.0 / n);
  }

  /** Centring an already centred list changes nothing. */
  lemma CenteringIsIdempotent(ts: seq<ThoughtNode>)
    ensures Centered(Centered(ts)) == Centered(ts)
  {
    if ts != [] {
      var once := Centered(ts);
      assert once != [] by {
        assert |once| == |ts|;
      }
      CentroidOfCentered(ts);
      assert Centered(once) == Shifted(once, Origin);
      ShiftedByOrigin(once);
    }
  }

  // ---------------------------------------------------------------------------------------------
  // Neighbour lines

  const MaxNeighbours := 4

  /** Markers that may be linked to `selected`: same cluster label, different id. */
  function Candidates(thoughts: seq<ThoughtNode>, selected: ThoughtNode): (r: seq<ThoughtNode>)
    ensures forall t :: t in r ==> t.clusterLabel == selected.clusterLabel && t.id != selected.id
    ensures forall i :: 0 <= i < |thoughts| ==>
      (thoughts[i].clusterLabel == selected.clusterLabel && thoughts[i].id != selected.id ==> thoughts[i] in r)
  {
    Filter(thoughts, (t: ThoughtNode) => t.clusterLabel == selected.clusterLabel && t.id != selected.id)
  }

  /** Distance to the selected marker, squared (ordering by it equals ordering by distance). */
  function DistanceFrom(selected: ThoughtNode): ThoughtNode -> real {
    (t: ThoughtNode) => SqDist(t.position, selected.position)
  }

  /** The filter, the stable sort by distance and `slice(0, 4)` of `ConnectionLines`. */
  function Neighbours(thoughts: seq<ThoughtNode>, selected: ThoughtNode): (r: seq<ThoughtNode>)
    ensures |r| == if |Candidates(thoughts, selected)| < MaxNeighbours
                   then |Candidates(thoughts, selected)| else MaxNeighbours
    ensures forall i :: 0 <= i < |r| ==>
      r[i].clusterLabel == selected.clusterLabel && r[i].id != selected.id
    ensures SortedAsc(r, DistanceFrom(selected))
    ensures multiset(r) <= multiset(Candidates(thoughts, selected))
  {
    var cands := Candidates(thoughts, selected);
    var sorted := StableSortAsc(cands, DistanceFrom(selected));
    var n := if |sorted| < MaxNeighbours then |sorted| else MaxNeighbours;
    PrefixOfPermutation(sorted, cands, n);
    SortedAscPrefix(sorted, n, DistanceFrom(selected));
    sorted[..n]
  }

  /** A prefix of a rearrangement of `s` holds only elements of `s`. */
  lemma PrefixOfPermutation<T>(p: seq<T>, s: seq<T>, n: nat)
    requires multiset(p) == multiset(s) && n <= |p|
    ensures multiset(p[..n]) <= multiset(s)
    ensures forall i :: 0 <= i < n ==> p[i] in s
  {
    assert p == p[..n] + p[n..];
    forall i | 0 <= i < n ensures p[i] in s {
      assert p[i] in multiset(p);
    }
  }

  /** No candidate left out is closer than a chosen neighbour. */
  lemma NeighboursAreNearest(thoughts: seq<ThoughtNode>, selected: ThoughtNode, c: ThoughtNode)
    requires c in Candidates(thoughts, selected)
    requires c !in Neighbours(thoughts, selected)
    ensures forall i :: 0 <= i < |Neighbours(thoughts, selected)| ==>
      SqDist(Neighbours(thoughts, selected)[i].position, selected.position)
      <= SqDist(c.position, selected.position)
  {
    var key := DistanceFrom(selected);
    var sorted := StableSortAsc(Candidates(thoughts, selected), key);
    var r := Neighbours(thoughts, selected);
    assert c in multiset(sorted);
    var j :| 0 <= j < |sorted| && sorted[j] == c;
    assert r == sorted[..|r|];
    assert j >= |r|;
    forall i | 0 <= i < |r| ensures key(r[i]) <= key(c) {
      assert r[i] == sorted[i];
    }
  }

  /** Neighbours at equal distance appear in the order of the marker list (the sort is stable). */
  lemma NeighbourTiesKeepInputOrder(thoughts: seq<ThoughtNode>, selected: ThoughtNode, d: real)
    ensures KeyClass(Neighbours(thoughts, selected), DistanceFrom(selected), d)
         <= KeyClass(Candidates(thoughts, selected), DistanceFrom(selected), d)
  {
    var key := DistanceFrom(selected);
    var cands := Candidates(thoughts, selected);
    var sorted := StableSortAsc(cands, key);
    StableSortKeepsKeyClasses(cands, key, d);
    KeyClassOfPrefix(sorted, |Neighbours(thoughts, selected)|, key, d);
  }

  /**
   * `ConnectionLines`: no geometry without a selection; otherwise the point list
   * (selected, neighbour) for each neighbour, built by pushing pairs.
   */
  method ConnectionLines(thoughts: seq<ThoughtNode>, selected: Option<ThoughtNode>)
    returns (points: Option<seq<Vec3>>)
    ensures selected.None? <==> points.None?
    ensures selected.Some? ==>
      var ns := Neighbours(thoughts, selected.value);
      && |points.value| == 2 * |ns|
      && forall i :: 0 <= i < |ns| ==>
           points.value[2 * i] == selected.value.position && points.value[2 * i + 1] == ns[i].position
  {
    if selected.None? {
      return None;
    }
    var source := selected.value.position;
    var ns := Neighbours(thoughts, selected.value);
    var acc: seq<Vec3> := [];
    var i := 0;
    while i < |ns|
      invariant 0 <= i <= |ns|
      invariant |acc| == 2 * i
      invariant forall j :: 0 <= j < i ==> acc[2 * j] == source && acc[2 * j + 1] == ns[j].position
    {
      acc := acc + [source, ns[i].position];
      i := i + 1;
    }
    points := Some(acc);
  }

  // ---------------------------------------------------------------------------------------------
  // Selection

  datatype SelectionEvent =
    | MarkerClicked(node: ThoughtNode)    // a marker's onClick (propagation stopped)
    | CanvasClicked(targetIsCanvas: bool) // the canvas onClick; `target === currentTarget`
    | ResetClicked                        // the "Reset View" button

  /** The selection after an event: click toggles, background click and reset clear. */
  function NextSelection(selected: Option<ThoughtNode>, event: SelectionEvent): (r: Option<ThoughtNode>)
    ensures event.MarkerClicked? ==>
      (r.None? <==> selected == Some(event.node)) && (r.Some? ==> r.value == event.node)
    ensures event.CanvasClicked? ==> (if event.targetIsCanvas then r.None? else r == selected)
    ensures event.ResetClicked? ==> r.None?
  {
    match event
    case MarkerClicked(t) => if selected == Some(t) then None else Some(t)
    case CanvasClicked(onCanvas) => if onCanvas then None else selected
    case ResetClicked => None
  }

  /**
   * Clicking marker `t` twice leaves `t` selected if it was, and nothing selected otherwise: it
   * restores the starting selection exactly when that was empty or `t` itself.
   */
  lemma ClickTwiceRestores(selected: Option<ThoughtNode>, t: ThoughtNode)
    ensures NextSelection(NextSelection(selected, MarkerClicked(t)), MarkerClicked(t))
            == if selected == Some(t) then selected else None
    ensures NextSelection(NextSelection(selected, MarkerClicked(t)), MarkerClicked(t)) == selected
            <==> selected.None? || selected == Some(t)
  {
  }

  /** Clicking another marker switches directly, with no empty selection in between. */
  lemma ClickOtherSwitches(u: ThoughtNode, t: ThoughtNode)
    requires u != t
    ensures NextSelection(Some(u), MarkerClicked(t)) == Some(t)
  {
  }

  /** The `selected` flag a marker receives: the selection has the marker's id. */
  predicate IsMarkerSelected(selected: Option<ThoughtNode>, t: ThoughtNode) {
    selected.Some? && selected.value.id == t.id
  }
}
