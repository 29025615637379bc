/**
 * The tree walk `_iter_dicts` and the candidate filter `_find_pin_objects`.
 *
 * The walk yields every dict node of a decoded value in pre-order: a dict
 * before the nodes below it, and the nodes below a dict or a list in the
 * order of its values. A node is identified by its position: the sequence
 * of child indexes (list index, or position of the key in the dict) that
 * leads to it from the root.
 */
module RecordFinder {
  import opened PyJson

  /** `_iter_dicts(obj)`: the dict nodes of `obj`, each given by its pairs,
      in the order the generator yields them. */
  function Dicts(j: Json): seq<Dict>
    decreases j, 1
  {
    match j
    case JObj(fs) => [fs] + FieldDicts(fs, 0)
    case JArr(xs) => ItemDicts(xs, 0)
    case _ => []
  }

  /** The dict nodes under the values `fs[i].1`, `fs[i+1].1`, ... */
  function FieldDicts(fs: Dict, i: nat): seq<Dict>
    decreases JObj(fs), 0, |fs| - i
  {
    if i >= |fs| then []
    else
      assert fs[i] in fs;
      Dicts(fs[i].1) + FieldDicts(fs, i + 1)
  }

  /** The dict nodes under the items `xs[i]`, `xs[i+1]`, ... */
  function ItemDicts(xs: seq<Json>, i: nat): seq<Dict>
    decreases JArr(xs), 0, |xs| - i
  {
    if i >= |xs| then [] else Dicts(xs[i]) + ItemDicts(xs, i + 1)
  }

  /** A position in a value: the child indexes followed from the root. */
  type Path = seq<nat>

  /** The node of `j` at position `p`, if there is one. */
  function At(j: Json, p: Path): Option<Json>
    decreases p
  {
    if p == [] then Some(j)
    else
      match j
      case JArr(xs) => if p[0] < |xs| then At(xs[p[0]], p[1..]) else None
      case JObj(fs) => if p[0] < |fs| then At(fs[p[0]].1, p[1..]) else None
      case _ => None
  }

  /** The positions `ps` of a child, seen from its parent as child `i`. */
  function Under(i: nat, ps: seq<Path>): (r: seq<Path>)
    ensures |r| == |ps|
    ensures forall k :: 0 <= k < |ps| ==> r[k] == [i] + ps[k]
  {
    seq(|ps|, k requires 0 <= k < |ps| => [i] + ps[k])
  }

  /** The positions of the dict nodes of `j`, listed in the order of `Dicts(j)`. */
  ghost function DictPaths(j: Json): seq<Path>
    decreases j, 1
  {
    match j
    case JObj(fs) => [[]] + FieldPaths(fs, 0)
    case JArr(xs) => ItemPaths(xs, 0)
    case _ => []
  }

  ghost function FieldPaths(fs: Dict, i: nat): seq<Path>
    decreases JObj(fs), 0, |fs| - i
  {
    if i >= |fs| then []
    else
      assert fs[i] in fs;
      Under(i, DictPaths(fs[i].1)) + FieldPaths(fs, i + 1)
  }

  ghost function ItemPaths(xs: seq<Json>, i: nat): seq<Path>
    decreases JArr(xs), 0, |xs| - i
  {
    if i >= |xs| then [] else Under(i, DictPaths(xs[i])) + ItemPaths(xs, i + 1)
  }

  /** `a` comes before `b` in pre-order: `a` is a proper prefix of `b`, or at
      the first index where they differ `a` has the smaller child index. */
  predicate PreBefore(a: Path, b: Path)
    decreases |a|
  {
    |b| > 0 && (|a| == 0 || a[0] < b[0] || (a[0] == b[0] && PreBefore(a[1..], b[1..])))
  }

  predicate PreOrdered(ps: seq<Path>)
  {
    forall k, l :: 0 <= k < l < |ps| ==> PreBefore(ps[k], ps[l])
  }

  lemma {:induction false} PreBeforeIrreflexive(a: Path)
    ensures !PreBefore(a, a)
    decreases |a|
  {
    if |a| > 0 {
      PreBeforeIrreflexive(a[1..]);
    }
  }

  /** Listing positions in pre-order lists no position twice. */
  lemma PreOrderedDistinct(ps: seq<Path>)
    requires PreOrdered(ps)
    ensures forall k, l :: 0 <= k < l < |ps| ==> ps[k] != ps[l]
  {
    forall k, l | 0 <= k < l < |ps|
      ensures ps[k] != ps[l]
    {
      PreBeforeIrreflexive(ps[k]);
    }
  }

  lemma AtChild(j: Json, i: nat, p: Path)
    ensures j.JObj? && i < |j.fields| ==> At(j, [i] + p) == At(j.fields[i].1, p)
    ensures j.JArr? && i < |j.items| ==> At(j, [i] + p) == At(j.items[i], p)
  {
    assert ([i] + p)[0] == i && ([i] + p)[1..] == p;
  }

  /** The `k`-th dict that `_iter_dicts(j)` yields is the node at the `k`-th
      position of `DictPaths(j)`. */
  lemma {:induction false} DictsAt(j: Json)
    ensures |Dicts(j)| == |DictPaths(j)|
    ensures forall k :: 0 <= k < |Dicts(j)| ==> At(j, DictPaths(j)[k]) == Some(JObj(Dicts(j)[k]))
    decreases j, 1
  {
    match j
    case JObj(fs) =>
      FieldDictsAt(fs, 0);
    case JArr(xs) =>
      ItemDictsAt(xs, 0);
    case _ =>
  }

  lemma {:induction false} FieldDictsAt(fs: Dict, i: nat)
    ensures |FieldDicts(fs, i)| == |FieldPaths(fs, i)|
    ensures forall k :: 0 <= k < |FieldDicts(fs, i)| ==>
              At(JObj(fs), FieldPaths(fs, i)[k]) == Some(JObj(FieldDicts(fs, i)[k]))
    decreases JObj(fs), 0, |fs| - i
  {
    if i < |fs| {
      assert fs[i] in fs;
      var v := fs[i].1;
      DictsAt(v);
      FieldDictsAt(fs, i + 1);
      var head := Under(i, DictPaths(v));
      forall k | 0 <= k < |head|
        ensures At(JObj(fs), head[k]) == Some(JObj(Dicts(v)[k]))
      {
        AtChild(JObj(fs), i, DictPaths(v)[k]);
      }
    }
  }

  lemma {:induction false} ItemDictsAt(xs: seq<Json>, i: nat)
    ensures |ItemDicts(xs, i)| == |ItemPaths(xs, i)|
    ensures forall k :: 0 <= k < |ItemDicts(xs, i)| ==>
              At(JArr(xs), ItemPaths(xs, i)[k]) == Some(JObj(ItemDicts(xs, i)[k]))
    decreases JArr(xs), 0, |xs| - i
  {
    if i < |xs| {
      var v := xs[i];
      DictsAt(v);
      ItemDictsAt(xs, i + 1);
      var head := Under(i, DictPaths(v));
      forall k | 0 <= k < |head|
        ensures At(JArr(xs), head[k]) == Some(JObj(Dicts(v)[k]))
      {
        AtChild(JArr(xs), i, DictPaths(v)[k]);
      }
    }
  }

  /** Every dict node of `j` has its position in `DictPaths(j)`. */
  lemma {:induction false} DictPathsComplete(j: Json, p: Path)
    requires At(j, p).Some? && At(j, p).value.JObj?
    ensures p in DictPaths(j)
    decreases p
  {
    if p != [] {
      var i, q := p[0], p[1..];
      assert p == [i] + q;
      match j
      case JObj(fs) =>
        AtChild(j, i, q);
        DictPathsComplete(fs[i].1, q);
        FieldPathsCover(fs, 0, i, q);
      case JArr(xs) =>
        AtChild(j, i, q);
        DictPathsComplete(xs[i], q);
        ItemPathsCover(xs, 0, i, q);
    }
  }

  lemma {:induction false} FieldPathsCover(fs: Dict, k: nat, i: nat, q: Path)
    requires k <= i < |fs| && q in DictPaths(fs[i].1)
    ensures [i] + q in FieldPaths(fs, k)
    decreases i - k
  {
    if k < i {
      FieldPathsCover(fs, k + 1, i, q);
    } else {
      var n :| 0 <= n < |DictPaths(fs[i].1)| && DictPaths(fs[i].1)[n] == q;
      assert Under(i, DictPaths(fs[i].1))[n] == [i] + q;
    }
  }

  lemma {:induction false} ItemPathsCover(xs: seq<Json>, k: nat, i: nat, q: Path)
    requires k <= i < |xs| && q in DictPaths(xs[i])
    ensures [i] + q in ItemPaths(xs, k)
    decreases i - k
  {
    if k < i {
      ItemPathsCover(xs, k + 1, i, q);
    } else {
      var n :| 0 <= n < |DictPaths(xs[i])| && DictPaths(xs[i])[n] == q;
      assert Under(i, DictPaths(xs[i]))[n] == [i] + q;
    }
  }

  lemma UnderOrdered(i: nat, ps: seq<Path>)
    requires PreOrdered(ps)
    ensures PreOrdered(Under(i, ps))
  {
    var u := Under(i, ps);
    forall k, l | 0 <= k < l < |u|
      ensures PreBefore(u[k], u[l])
    {
      assert u[k][1..] == ps[k] && u[l][1..] == ps[l];
    }
  }

  /** A run of positions that all start with child indexes from `lo` up. */
  predicate From(ps: seq<Path>, lo: nat)
  {
    forall k :: 0 <= k < |ps| ==> |ps[k]| > 0 && ps[k][0] >= lo
  }

  /** Children's blocks of positions, concatenated in child order, stay in
      pre-order. */
  lemma BlocksOrdered(i: nat, head: seq<Path>, tail: seq<Path>)
    requires PreOrdered(head) && PreOrdered(tail)
    requires forall k :: 0 <= k < |head| ==> |head[k]| > 0 && head[k][0] == i
    requires From(tail, i + 1)
    ensures PreOrdered(head + tail)
  {
  }

  /** `DictPaths(j)` lists positions in pre-order, hence each one once. */
  lemma {:induction false} DictPathsOrdered(j: Json)
    ensures PreOrdered(DictPaths(j))
    decreases j, 1
  {
    match j
    case JObj(fs) =>
      FieldPathsOrdered(fs, 0);
      var ps := FieldPaths(fs, 0);
      assert forall l :: 0 <= l < |ps| ==> PreBefore([], ps[l]);
    case JArr(xs) =>
      ItemPathsOrdered(xs, 0);
    case _ =>
  }

  lemma {:induction false} FieldPathsOrdered(fs: Dict, i: nat)
    ensures PreOrdered(FieldPaths(fs, i)) && From(FieldPaths(fs, i), i)
    decreases JObj(fs), 0, |fs| - i
  {
    if i < |fs| {
      assert fs[i] in fs;
      DictPathsOrdered(fs[i].1);
      UnderOrdered(i, DictPaths(fs[i].1));
      FieldPathsOrdered(fs, i + 1);
      BlocksOrdered(i, Under(i, DictPaths(fs[i].1)), FieldPaths(fs, i + 1));
    }
  }

  lemma {:induction false} ItemPathsOrdered(xs: seq<Json>, i: nat)
    ensures PreOrdered(ItemPaths(xs, i)) && From(ItemPaths(xs, i), i)
    decreases JArr(xs), 0, |xs| - i
  {
    if i < |xs| {
      DictPathsOrdered(xs[i]);
      UnderOrdered(i, DictPaths(xs[i]));
      ItemPathsOrdered(xs, i + 1);
      BlocksOrdered(i, Under(i, DictPaths(xs[i])), ItemPaths(xs, i + 1));
    }
  }

  /**
   * `_iter_dicts(j)` yields each dict node of `j` exactly once, in pre-order:
   * the `k`-th yielded dict is the node at the `k`-th position of a list of
   * positions that holds only dict nodes, holds every dict node, is in
   * pre-order and has no position twice.
   */
  lemma IterDictsPreOrder(j: Json)
    ensures |Dicts(j)| == |DictPaths(j)|
    ensures forall k :: 0 <= k < |Dicts(j)| ==> At(j, DictPaths(j)[k]) == Some(JObj(Dicts(j)[k]))
    ensures forall p :: At(j, p).Some? && At(j, p).value.JObj? ==> p in DictPaths(j)
    ensures PreOrdered(DictPaths(j))
    ensures forall k, l :: 0 <= k < l < |DictPaths(j)| ==> DictPaths(j)[k] != DictPaths(j)[l]
  {
    DictsAt(j);
    forall p | At(j, p).Some? && At(j, p).value.JObj?
      ensures p in DictPaths(j)
    {
      DictPathsComplete(j, p);
    }
    DictPathsOrdered(j);
    PreOrderedDistinct(DictPaths(j));
  }

  /** Every dict node is yielded: the dict at any position is among `Dicts(j)`. */
  lemma NodeYielded(j: Json, p: Path)
    requires At(j, p).Some? && At(j, p).value.JObj?
    ensures At(j, p).value.fields in Dicts(j)
  {
    DictsAt(j);
    DictPathsComplete(j, p);
    var k :| 0 <= k < |DictPaths(j)| && DictPaths(j)[k] == p;
    assert Dicts(j)[k] == At(j, p).value.fields;
  }

  /** The heuristic of `_find_pin_objects`: an `id` key and one of the keys
      `images`, `grid_title`, `title`. Only presence counts, not the values. */
  predicate IsPinCandidate(d: Dict)
  {
    HasKey(d, "id") && (HasKey(d, "images") || HasKey(d, "grid_title") || HasKey(d, "title"))
  }

  /** The candidates among `ds`, in their order. */
  function Candidates(ds: seq<Dict>): seq<Dict>
  {
    if ds == [] then []
    else Candidates(ds[..|ds| - 1]) + (if IsPinCandidate(ds[|ds| - 1]) then [ds[|ds| - 1]] else [])
  }

  /** The dict nodes of all blobs, blob after blob. */
  function AllDicts(blobs: seq<Json>): seq<Dict>
  {
    if blobs == [] then [] else AllDicts(blobs[..|blobs| - 1]) + Dicts(blobs[|blobs| - 1])
  }

  /** What `_find_pin_objects(blobs)` returns. */
  function PinObjects(blobs: seq<Json>): seq<Dict>
  {
    Candidates(AllDicts(blobs))
  }

  lemma {:induction false} CandidatesAppend(a: seq<Dict>, b: seq<Dict>)
    ensures Candidates(a + b) == Candidates(a) + Candidates(b)
    decreases |b|
  {
    if b == [] {
      assert a + b == a;
    } else {
      var b', last := b[..|b| - 1], b[|b| - 1];
      assert (a + b)[..|a + b| - 1] == a + b';
      assert (a + b)[|a + b| - 1] == last;
      CandidatesAppend(a, b');
    }
  }

  /** A dict is kept exactly when it is among the inputs and is a candidate. */
  lemma {:induction false} CandidatesMember(ds: seq<Dict>, d: Dict)
    ensures d in Candidates(ds) <==> d in ds && IsPinCandidate(d)
    decreases |ds|
  {
    if ds != [] {
      var init := ds[..|ds| - 1];
      CandidatesMember(init, d);
      assert ds == init + [ds[|ds| - 1]];
    }
  }

  lemma {:induction false} AllDictsMember(blobs: seq<Json>, d: Dict)
    ensures d in AllDicts(blobs) <==> exists i :: 0 <= i < |blobs| && d in Dicts(blobs[i])
    decreases |blobs|
  {
    if blobs != [] {
      var init := blobs[..|blobs| - 1];
      AllDictsMember(init, d);
      assert forall i :: 0 <= i < |init| ==> init[i] == blobs[i];
    }
  }

  /** `_find_pin_objects`. */
  method FindPinObjects(blobs: seq<Json>) returns (pins: seq<Dict>)
    ensures pins == PinObjects(blobs)
  {
    pins := [];
    var b := 0;
    while b < |blobs|
      invariant 0 <= b <= |blobs|
      invariant pins == PinObjects(blobs[..b])
    {
      var nodes := Dicts(blobs[b]);
      var n := 0;
      while n < |nodes|
        invariant 0 <= n <= |nodes|
        invariant pins == PinObjects(blobs[..b]) + Candidates(nodes[..n])
      {
        var node := nodes[n];
        if IsPinCandidate(node) {
          pins := pins + [node];
        }
        n := n + 1;
        assert nodes[..n][..n - 1] == nodes[..n - 1];
      }
      assert nodes[..n] == nodes;
      assert blobs[..b + 1][..b] == blobs[..b];
      CandidatesAppend(AllDicts(blobs[..b]), nodes);
      b := b + 1;
    }
    assert blobs[..b] == blobs;
  }

  /** Every dict returned is a candidate and a node of one of the blobs. */
  lemma PinObjectsSound(blobs: seq<Json>, d: Dict)
    requires d in PinObjects(blobs)
    ensures IsPinCandidate(d)
    ensures exists i, p :: 0 <= i < |blobs| && At(blobs[i], p) == Some(JObj(d))
  {
    CandidatesMember(AllDicts(blobs), d);
    AllDictsMember(blobs, d);
    var i :| 0 <= i < |blobs| && d in Dicts(blobs[i]);
    DictsAt(blobs[i]);
    var k :| 0 <= k < |Dicts(blobs[i])| && Dicts(blobs[i])[k] == d;
    assert At(blobs[i], DictPaths(blobs[i])[k]) == Some(JObj(d));
  }

  /** Every candidate node of every blob is returned, whatever the dicts
      above it are. */
  lemma PinObjectsComplete(blobs: seq<Json>, i: nat, p: Path)
    requires i < |blobs| && At(blobs[i], p).Some? && At(blobs[i], p).value.JObj?
    requires IsPinCandidate(At(blobs[i], p).value.fields)
    ensures At(blobs[i], p).value.fields in PinObjects(blobs)
  {
    var d := At(blobs[i], p).value.fields;
    NodeYielded(blobs[i], p);
    AllDictsMember(blobs, d);
    CandidatesMember(AllDicts(blobs), d);
  }

  /** Presence is what counts: keys whose values are null still qualify. */
  lemma NullValuesQualify()
    ensures IsPinCandidate([("id", JNull), ("title", JNull)])
    ensures !IsPinCandidate([("id", JStr("1")), ("description", JStr("x"))])
  {
    var d := [("id", JNull), ("title", JNull)];
    assert d[0].0 == "id" && d[1].0 == "title";
  }
}
