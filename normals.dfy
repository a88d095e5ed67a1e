/**
 * `calculateNormals` and `smoothNormals` (project C). The first pass walks
 * the vertex list three at a time and writes each vertex's normal; in
 * smooth mode a second pass groups the vertices by the text of their
 * position and gives every vertex of a group the normalised sum of the
 * group's normals. The `Vec3` arithmetic is floating point, so its
 * operations are parameters (`VectorMath`), and so is the position-to-text
 * conversion that keys the groups (`Vec3.toString`, eight decimals with
 * `-0` printed as `0`).
 */
module Normals {
  import opened Common
  import opened Meshes

  /** The `Vec3` methods and `Math.acos`, as the floating-point functions they are. */
  datatype VectorMath = VectorMath(
    add: (Vec3, Vec3) -> Vec3,       // a.add(b)
    subtract: (Vec3, Vec3) -> Vec3,  // a.subtract(b)
    multiply: (Vec3, real) -> Vec3,  // a.multiply(k)
    cross: (Vec3, Vec3) -> Vec3,     // a.cross(b)
    dot: (Vec3, Vec3) -> real,       // a.dot(b)
    normalize: Vec3 -> Vec3,         // a.normalized()
    acos: real -> real)              // Math.acos

  /** `u.angle(v)`: the arc cosine of the dot product of the normalised vectors. */
  function Angle(u: Vec3, v: Vec3, vm: VectorMath): real
  {
    vm.acos(vm.dot(vm.normalize(u), vm.normalize(v)))
  }

  /** Whether vertex `j` belongs to a complete triangle of `vs`. */
  predicate InTriangle(vs: seq<Vertex>, j: int)
  {
    0 <= j < |vs| / 3 * 3
  }

  /**
   * The normals one iteration of the triangle loop writes to the corners
   * `p1`, `p2`, `p3`: the normalised cross product of the two sides from
   * `p1` for all three, or in smooth mode that unnormalised product scaled
   * by the angle at each corner.
   */
  function TriangleNormals(p1: Vec3, p2: Vec3, p3: Vec3, smooth: bool, vm: VectorMath): (Vec3, Vec3, Vec3)
  {
    var n := vm.cross(vm.subtract(p2, p1), vm.subtract(p3, p1));
    if !smooth then (vm.normalize(n), vm.normalize(n), vm.normalize(n))
    else (vm.multiply(n, Angle(vm.subtract(p2, p1), vm.subtract(p3, p1), vm)),
          vm.multiply(n, Angle(vm.subtract(p1, p2), vm.subtract(p3, p2), vm)),
          vm.multiply(n, Angle(vm.subtract(p1, p3), vm.subtract(p2, p3), vm)))
  }

  /** The normal the triangle loop writes to vertex `j`, by its corner of its triangle. */
  function CornerNormal(vs: seq<Vertex>, j: nat, smooth: bool, vm: VectorMath): Vec3
    requires InTriangle(vs, j)
  {
    var t := j / 3 * 3;
    var ns := TriangleNormals(vs[t].pos, vs[t + 1].pos, vs[t + 2].pos, smooth, vm);
    if j == t then ns.0 else if j == t + 1 then ns.1 else ns.2
  }

  /** The vertices once the triangle loop has handled the first `done` of them. */
  function FirstPass(vs: seq<Vertex>, done: nat, smooth: bool, vm: VectorMath): seq<Vertex>
    requires done <= |vs| / 3 * 3
  {
    seq(|vs|, j requires 0 <= j < |vs| =>
      if j < done then vs[j].(normal := CornerNormal(vs, j, smooth, vm)) else vs[j])
  }

  /**
   * After the whole triangle loop: the three vertices of every complete
   * triangle share one normal in flat mode, the normalised cross product of
   * its sides; vertices after the last complete triangle are untouched, and
   * no position or colour changes.
   */
  lemma FlatTrianglesShareNormal(vs: seq<Vertex>, vm: VectorMath)
    ensures var r := FirstPass(vs, |vs| / 3 * 3, false, vm);
            |r| == |vs| &&
            (forall j :: 0 <= j < |vs| ==> r[j].pos == vs[j].pos && r[j].color == vs[j].color) &&
            (forall j :: |vs| / 3 * 3 <= j < |vs| ==> r[j] == vs[j]) &&
            (forall t :: 0 <= t < |vs| / 3 ==>
               r[3 * t].normal == r[3 * t + 1].normal == r[3 * t + 2].normal ==
               vm.normalize(vm.cross(vm.subtract(vs[3 * t + 1].pos, vs[3 * t].pos), vm.subtract(vs[3 * t + 2].pos, vs[3 * t].pos))))
  {
    var r := FirstPass(vs, |vs| / 3 * 3, false, vm);
    forall t | 0 <= t < |vs| / 3
      ensures r[3 * t].normal == r[3 * t + 1].normal == r[3 * t + 2].normal ==
              vm.normalize(vm.cross(vm.subtract(vs[3 * t + 1].pos, vs[3 * t].pos), vm.subtract(vs[3 * t + 2].pos, vs[3 * t].pos)))
    {
      assert (3 * t) / 3 * 3 == 3 * t && (3 * t + 1) / 3 * 3 == 3 * t && (3 * t + 2) / 3 * 3 == 3 * t;
    }
  }

  /** The text of each vertex's position, the key `smoothNormals` files it under. */
  function Keys(vs: seq<Vertex>, key: Vec3 -> string): (ks: seq<string>)
    ensures |ks| == |vs|
  {
    seq(|vs|, j requires 0 <= j < |vs| => key(vs[j].pos))
  }

  /** The indices, ascending, of the first `n` vertices whose key is `k`. */
  function Group(ks: seq<string>, k: string, n: nat): (g: seq<nat>)
    requires n <= |ks|
    ensures forall i :: 0 <= i < |g| ==> g[i] < n
  {
    if n == 0 then [] else Group(ks, k, n - 1) + (if ks[n - 1] == k then [n - 1] else [])
  }

  /** A vertex is in the group of `k` exactly when its key is `k`. */
  lemma {:induction false} GroupMembers(ks: seq<string>, k: string, n: nat)
    requires n <= |ks|
    ensures forall j :: j in Group(ks, k, n) <==> 0 <= j < n && ks[j] == k
  {
    if n > 0 {
      GroupMembers(ks, k, n - 1);
    }
  }

  lemma {:induction false} NoGroup(ks: seq<string>, k: string, n: nat)
    requires n <= |ks|
    requires forall i :: 0 <= i < n ==> ks[i] != k
    ensures Group(ks, k, n) == []
  {
    if n > 0 {
      NoGroup(ks, k, n - 1);
    }
  }

  /** `vertsDict` once the first loop of `smoothNormals` has filed the first `n` vertices. */
  function Index(ks: seq<string>, n: nat): map<string, seq<nat>>
    requires n <= |ks|
  {
    if n == 0 then map[]
    else
      var d := Index(ks, n - 1);
      var k := ks[n - 1];
      d[k := (if k in d then d[k] else []) + [n - 1]]
  }

  /** The keys of `Index(ks, n)` in insertion order, the order `for (var key in vertsDict)` visits them. */
  function KeyOrder(ks: seq<string>, n: nat): seq<string>
    requires n <= |ks|
  {
    if n == 0 then [] else KeyOrder(ks, n - 1) + (if ks[n - 1] in Index(ks, n - 1) then [] else [ks[n - 1]])
  }

  /** The dictionary is keyed by exactly the keys met so far, each listed once in the key order. */
  lemma {:induction false} IndexKeys(ks: seq<string>, n: nat)
    requires n <= |ks|
    ensures forall k :: k in Index(ks, n) <==> k in KeyOrder(ks, n)
    ensures forall j :: 0 <= j < n ==> ks[j] in Index(ks, n)
    ensures forall a, b :: 0 <= a < b < |KeyOrder(ks, n)| ==> KeyOrder(ks, n)[a] != KeyOrder(ks, n)[b]
  {
    if n > 0 {
      IndexKeys(ks, n - 1);
    }
  }

  /** Each list holds, in order, the vertices filed under its key, and none is empty. */
  lemma IndexGroups(ks: seq<string>, n: nat)
    requires n <= |ks|
    ensures forall k :: k in Index(ks, n) ==> Index(ks, n)[k] == Group(ks, k, n) && |Index(ks, n)[k]| > 0
  {
    forall k | k in Index(ks, n)
      ensures Index(ks, n)[k] == Group(ks, k, n) && |Index(ks, n)[k]| > 0
    {
      IndexGroup(ks, n, k);
    }
  }

  lemma {:induction false} IndexGroup(ks: seq<string>, n: nat, k: string)
    requires n <= |ks| && k in Index(ks, n)
    ensures Index(ks, n)[k] == Group(ks, k, n) && |Index(ks, n)[k]| > 0
  {
    var d := Index(ks, n - 1);
    if ks[n - 1] != k {
      IndexGroup(ks, n - 1, k);
      AppendNil(Group(ks, k, n - 1));
    } else if k in d {
      IndexGroup(ks, n - 1, k);
    } else {
      UnfiledNoGroup(ks, k, n - 1);
    }
  }

  /** A key the dictionary does not hold yet has no vertices filed under it. */
  lemma UnfiledNoGroup(ks: seq<string>, k: string, n: nat)
    requires n <= |ks| && k !in Index(ks, n)
    ensures Group(ks, k, n) == []
  {
    IndexKeys(ks, n);
    NoGroup(ks, k, n);
  }

  /** The normals of a group's vertices, in the group's order. */
  function Normals(vs: seq<Vertex>, g: seq<nat>): seq<Vec3>
    requires forall i :: 0 <= i < |g| ==> g[i] < |vs|
  {
    seq(|g|, i requires 0 <= i < |g| => vs[g[i]].normal)
  }

  /** `cumSum`: the first normal, then each later one added on the right. */
  function Sum(ns: seq<Vec3>, add: (Vec3, Vec3) -> Vec3): Vec3
  {
    if |ns| == 0 then Origin
    else if |ns| == 1 then ns[0]
    else add(Sum(ns[..|ns| - 1], add), ns[|ns| - 1])
  }

  /** The normal `smoothNormals` gives every vertex whose key is `k`. */
  function GroupNormal(vs: seq<Vertex>, ks: seq<string>, k: string, vm: VectorMath): Vec3
    requires |ks| == |vs|
  {
    vm.normalize(Sum(Normals(vs, Group(ks, k, |vs|)), vm.add))
  }

  /** The vertices after `smoothNormals`. */
  function Smoothed(vs: seq<Vertex>, key: Vec3 -> string, vm: VectorMath): seq<Vertex>
  {
    var ks := Keys(vs, key);
    seq(|vs|, j requires 0 <= j < |vs| => vs[j].(normal := GroupNormal(vs, ks, ks[j], vm)))
  }

  /**
   * Smoothing keeps every position and colour; each vertex ends with the
   * normalised sum of the normals of exactly the vertices whose positions
   * print like its own, so vertices that print alike share one normal.
   */
  lemma SmoothedSharesByKey(vs: seq<Vertex>, key: Vec3 -> string, vm: VectorMath)
    ensures var r := Smoothed(vs, key, vm);
            |r| == |vs| &&
            (forall j :: 0 <= j < |vs| ==> r[j].pos == vs[j].pos && r[j].color == vs[j].color) &&
            (forall i, j :: 0 <= i < |vs| && 0 <= j < |vs| && key(vs[i].pos) == key(vs[j].pos) ==>
               r[i].normal == r[j].normal) &&
            (forall j :: 0 <= j < |vs| ==>
               var g := Group(Keys(vs, key), key(vs[j].pos), |vs|);
               r[j].normal == vm.normalize(Sum(Normals(vs, g), vm.add)) &&
               forall i :: i in g <==> 0 <= i < |vs| && key(vs[i].pos) == key(vs[j].pos))
  {
    var ks := Keys(vs, key);
    forall j | 0 <= j < |vs|
      ensures forall i :: i in Group(ks, ks[j], |vs|) <==> 0 <= i < |vs| && ks[i] == ks[j]
    {
      GroupMembers(ks, ks[j], |vs|);
    }
  }

  /** A vertex whose position no other vertex shares keeps its own normal, normalised. */
  lemma LoneVertexNormalised(vs: seq<Vertex>, key: Vec3 -> string, vm: VectorMath, j: nat)
    requires j < |vs|
    requires forall i :: 0 <= i < |vs| && i != j ==> key(vs[i].pos) != key(vs[j].pos)
    ensures Smoothed(vs, key, vm)[j].normal == vm.normalize(vs[j].normal)
  {
    var ks := Keys(vs, key);
    LoneGroup(ks, j, |vs|);
  }

  lemma {:induction false} LoneGroup(ks: seq<string>, j: nat, n: nat)
    requires j < n <= |ks|
    requires forall i :: 0 <= i < |ks| && i != j ==> ks[i] != ks[j]
    ensures Group(ks, ks[j], n) == [j]
  {
    if n - 1 > j {
      LoneGroup(ks, j, n - 1);
    } else {
      NoGroup(ks, ks[j], j);
    }
  }

  const NotTriangles := " - Normals cannot be calculated for anything other than GL_TRIANGLES!"

  /**
   * `calculateNormals(mesh, smooth)`. Any render type but TRIANGLES throws
   * before a vertex is touched. Otherwise every complete triangle gets its
   * normals; a trailing partial triangle throws when its missing vertex is
   * read, leaving the earlier triangles written and skipping the smoothing.
   * A `smooth` of `undefined` or `null` (`None`) means flat.
   */
  method CalculateNormals(m: Mesh, smooth: Option<bool>, vm: VectorMath, key: Vec3 -> string)
    returns (r: Result<()>)
    modifies m`verts
    ensures m.renderType != TRIANGLES ==>
              r == Err("Cannot calculate normals for " + m.name + NotTriangles) && m.verts == old(m.verts)
    ensures m.renderType == TRIANGLES && |old(m.verts)| % 3 != 0 ==>
              r == Err(TypeError) &&
              m.verts == FirstPass(old(m.verts), |old(m.verts)| / 3 * 3, smooth == Some(true), vm)
    ensures m.renderType == TRIANGLES && |old(m.verts)| % 3 == 0 ==>
              r == Ok(()) &&
              var pass := FirstPass(old(m.verts), |old(m.verts)|, smooth == Some(true), vm);
              m.verts == if smooth == Some(true) then Smoothed(pass, key, vm) else pass
  {
    if m.renderType != TRIANGLES {
      return Err("Cannot calculate normals for " + m.name + NotTriangles);
    }
    var smoothing := smooth.Some? && smooth.value;
    assert smoothing == (smooth == Some(true));
    ghost var vs := m.verts;
    ghost var full := |vs| / 3 * 3;
    var i := 0;
    while i < |m.verts|
      invariant i % 3 == 0 && i <= full
      invariant m.verts == FirstPass(vs, i, smoothing, vm)
      decreases |m.verts| - i
    {
      if i + 2 >= |m.verts| {
        LoopEnd(|vs|, i);
        return Err(TypeError);
      }
      var side1, side2, side3 := m.verts[i], m.verts[i + 1], m.verts[i + 2];
      var normals := TriangleNormals(side1.pos, side2.pos, side3.pos, smoothing, vm);
      TriangleStep(vs, i, smoothing, vm);
      m.verts := m.verts[i := side1.(normal := normals.0)][i + 1 := side2.(normal := normals.1)][i + 2 := side3.(normal := normals.2)];
      i := i + 3;
    }
    LoopEnd(|vs|, i);
    if smoothing {
      SmoothNormals(m, key, vm);
    }
    r := Ok(());
  }

  /** Where the triangle loop stops: at the end of the last complete triangle. */
  lemma LoopEnd(len: nat, i: nat)
    requires i % 3 == 0 && i <= len / 3 * 3
    ensures i + 2 >= len ==> i == len / 3 * 3
    ensures i >= len ==> i == len && len % 3 == 0
  {
  }

  /** One iteration of the triangle loop writes the three corner normals of triangle `i`. */
  lemma TriangleStep(vs: seq<Vertex>, i: nat, smooth: bool, vm: VectorMath)
    requires i % 3 == 0 && i + 3 <= |vs|
    ensures i + 3 <= |vs| / 3 * 3
    ensures var prev := FirstPass(vs, i, smooth, vm);
            var ns := TriangleNormals(vs[i].pos, vs[i + 1].pos, vs[i + 2].pos, smooth, vm);
            prev[i] == vs[i] && prev[i + 1] == vs[i + 1] && prev[i + 2] == vs[i + 2] &&
            FirstPass(vs, i + 3, smooth, vm) ==
              prev[i := vs[i].(normal := ns.0)][i + 1 := vs[i + 1].(normal := ns.1)][i + 2 := vs[i + 2].(normal := ns.2)]
  {
    TriangleIndex(i, |vs|);
    var ns := TriangleNormals(vs[i].pos, vs[i + 1].pos, vs[i + 2].pos, smooth, vm);
    assert CornerNormal(vs, i, smooth, vm) == ns.0;
    assert CornerNormal(vs, i + 1, smooth, vm) == ns.1;
    assert CornerNormal(vs, i + 2, smooth, vm) == ns.2;
    var prev, next := FirstPass(vs, i, smooth, vm), FirstPass(vs, i + 3, smooth, vm);
    var upd := prev[i := vs[i].(normal := ns.0)][i + 1 := vs[i + 1].(normal := ns.1)][i + 2 := vs[i + 2].(normal := ns.2)];
    forall j | 0 <= j < |vs|
      ensures next[j] == upd[j]
    {
    }
  }

  /** The three corners of the triangle starting at `i` all belong to it. */
  lemma TriangleIndex(i: nat, len: nat)
    requires i % 3 == 0 && i + 3 <= len
    ensures i / 3 * 3 == i && (i + 1) / 3 * 3 == i && (i + 2) / 3 * 3 == i
    ensures i + 3 <= len / 3 * 3
  {
  }

  /**
   * `smoothNormals(mesh)`: file every vertex under the text of its
   * position, then give each list the normalised sum of its normals. The
   * lists are disjoint, so each is summed before any of its normals changes.
   */
  method SmoothNormals(m: Mesh, key: Vec3 -> string, vm: VectorMath)
    modifies m`verts
    ensures m.verts == Smoothed(old(m.verts), key, vm)
  {
    ghost var vs := m.verts;
    ghost var ks := Keys(vs, key);
    var vertsDict, keys := FileByKey(m, key);
    Filed(ks, vertsDict, keys);
    var q := 0;
    while q < |keys|
      invariant q <= |keys|
      invariant SmoothedFor(m.verts, vs, ks, keys[..q], vm)
    {
      var k := keys[q];
      var vertList := vertsDict[k];
      ghost var before := m.verts;
      SmoothReady(before, vs, ks, keys[..q], k, vm);
      SmoothGroup(m, vertList, vs, ks, k, vm);
      PrefixStep(keys, q);
      SmoothStep(before, m.verts, vs, ks, keys[..q], k, vm);
      q := q + 1;
    }
    assert keys[..q] == keys;
    SmoothedPointwise(vs, key, vm, m.verts);
  }

  /** The vertices after the lists of the keys `done` have been smoothed, the others untouched. */
  ghost predicate SmoothedFor(r: seq<Vertex>, vs: seq<Vertex>, ks: seq<string>, done: seq<string>, vm: VectorMath)
    requires |ks| == |vs|
  {
    |r| == |vs| &&
    forall j :: 0 <= j < |vs| ==> r[j] == if ks[j] in done then vs[j].(normal := GroupNormal(vs, ks, ks[j], vm)) else vs[j]
  }

  /** A key not yet smoothed still has all its vertices as they were. */
  lemma SmoothReady(r: seq<Vertex>, vs: seq<Vertex>, ks: seq<string>, done: seq<string>, k: string, vm: VectorMath)
    requires |ks| == |vs| && SmoothedFor(r, vs, ks, done, vm) && k !in done
    ensures |r| == |vs| && forall j :: 0 <= j < |vs| && ks[j] == k ==> r[j] == vs[j]
  {
  }

  /** Smoothing the list of a further key `k` extends the smoothed keys by `k`. */
  lemma SmoothStep(r: seq<Vertex>, r': seq<Vertex>, vs: seq<Vertex>, ks: seq<string>, done: seq<string>, k: string, vm: VectorMath)
    requires |ks| == |vs| && SmoothedFor(r, vs, ks, done, vm)
    requires |r'| == |vs|
    requires forall j :: 0 <= j < |vs| ==> r'[j] == if ks[j] == k then vs[j].(normal := GroupNormal(vs, ks, k, vm)) else r[j]
    ensures SmoothedFor(r', vs, ks, done + [k], vm)
  {
    forall j | 0 <= j < |vs|
      ensures r'[j] == if ks[j] in done + [k] then vs[j].(normal := GroupNormal(vs, ks, ks[j], vm)) else vs[j]
    {
      assert ks[j] in done + [k] <==> ks[j] in done || ks[j] == k;
    }
  }

  /** What the second loop of `smoothNormals` needs of the filed dictionary. */
  lemma Filed(ks: seq<string>, vertsDict: map<string, seq<nat>>, keys: seq<string>)
    requires vertsDict == Index(ks, |ks|) && keys == KeyOrder(ks, |ks|)
    ensures forall q :: 0 <= q < |keys| ==>
              keys[q] in vertsDict && vertsDict[keys[q]] == Group(ks, keys[q], |ks|) && |vertsDict[keys[q]]| > 0
    ensures forall j :: 0 <= j < |ks| ==> ks[j] in keys
    ensures forall q :: 0 <= q < |keys| ==> keys[q] !in keys[..q]
  {
    FiledGroups(ks);
    FiledKeys(ks);
  }

  lemma FiledGroups(ks: seq<string>)
    ensures forall q :: 0 <= q < |KeyOrder(ks, |ks|)| ==>
              KeyOrder(ks, |ks|)[q] in Index(ks, |ks|) &&
              Index(ks, |ks|)[KeyOrder(ks, |ks|)[q]] == Group(ks, KeyOrder(ks, |ks|)[q], |ks|) &&
              |Index(ks, |ks|)[KeyOrder(ks, |ks|)[q]]| > 0
  {
    IndexKeys(ks, |ks|);
    IndexGroups(ks, |ks|);
  }

  lemma FiledKeys(ks: seq<string>)
    ensures forall j :: 0 <= j < |ks| ==> ks[j] in KeyOrder(ks, |ks|)
    ensures forall q :: 0 <= q < |KeyOrder(ks, |ks|)| ==> KeyOrder(ks, |ks|)[q] !in KeyOrder(ks, |ks|)[..q]
  {
    IndexKeys(ks, |ks|);
    DistinctPrefixes(KeyOrder(ks, |ks|));
  }

  /** In a sequence without repeats, no element occurs before its own position. */
  lemma DistinctPrefixes<T>(s: seq<T>)
    requires forall a, b :: 0 <= a < b < |s| ==> s[a] != s[b]
    ensures forall q :: 0 <= q < |s| ==> s[q] !in s[..q]
  {
  }

  lemma SmoothedPointwise(vs: seq<Vertex>, key: Vec3 -> string, vm: VectorMath, r: seq<Vertex>)
    requires |r| == |vs|
    requires forall j :: 0 <= j < |vs| ==> r[j] == vs[j].(normal := GroupNormal(vs, Keys(vs, key), Keys(vs, key)[j], vm))
    ensures r == Smoothed(vs, key, vm)
  {
  }

  /** One round of the second loop of `smoothNormals`: the list of key `k` gets its normalised sum. */
  method SmoothGroup(m: Mesh, vertList: seq<nat>, ghost vs: seq<Vertex>, ghost ks: seq<string>, k: string, vm: VectorMath)
    requires |m.verts| == |vs| == |ks| && vertList == Group(ks, k, |vs|) && |vertList| > 0
    requires forall j :: 0 <= j < |vs| && ks[j] == k ==> m.verts[j] == vs[j]
    modifies m`verts
    ensures |m.verts| == |vs|
    ensures forall j :: 0 <= j < |vs| ==>
              m.verts[j] == if ks[j] == k then vs[j].(normal := GroupNormal(vs, ks, k, vm)) else old(m.verts[j])
  {
    GroupMembers(ks, k, |vs|);
    var cumSum := SumGroup(m, vertList, vs, ks, k, vm.add);
    cumSum := vm.normalize(cumSum);
    AssignGroup(m, vertList, cumSum);
  }

  /** The first loop of `smoothNormals`: the dictionary of lists and its keys in insertion order. */
  method FileByKey(m: Mesh, key: Vec3 -> string) returns (vertsDict: map<string, seq<nat>>, keys: seq<string>)
    ensures vertsDict == Index(Keys(m.verts, key), |m.verts|)
    ensures keys == KeyOrder(Keys(m.verts, key), |m.verts|)
  {
    ghost var ks := Keys(m.verts, key);
    vertsDict := map[];
    keys := [];
    var i := 0;
    while i < |m.verts|
      invariant i <= |m.verts|
      invariant vertsDict == Index(ks, i) && keys == KeyOrder(ks, i)
    {
      var k := key(m.verts[i].pos);
      assert k == ks[i];
      if k !in vertsDict {
        vertsDict := vertsDict[k := []];
        keys := keys + [k];
      }
      vertsDict := vertsDict[k := vertsDict[k] + [i]];
      i := i + 1;
    }
  }

  /** `for (var vert of vertList) vert.normal = new Vec3(cumSum)`. */
  method AssignGroup(m: Mesh, vertList: seq<nat>, normal: Vec3)
    requires forall i :: 0 <= i < |vertList| ==> vertList[i] < |m.verts|
    modifies m`verts
    ensures |m.verts| == |old(m.verts)|
    ensures forall j :: 0 <= j < |m.verts| ==>
              m.verts[j] == if j in vertList then old(m.verts[j]).(normal := normal) else old(m.verts[j])
  {
    var p := 0;
    while p < |vertList|
      invariant p <= |vertList| && |m.verts| == |old(m.verts)|
      invariant forall j :: 0 <= j < |m.verts| ==>
                  m.verts[j] == if j in vertList[..p] then old(m.verts[j]).(normal := normal) else old(m.verts[j])
    {
      var v := vertList[p];
      m.verts := m.verts[v := m.verts[v].(normal := normal)];
      assert vertList[..p + 1] == vertList[..p] + [v];
      p := p + 1;
    }
    assert vertList[..p] == vertList;
  }

  /** The `cumSum` loop over one list, reading normals no earlier list has rewritten. */
  method SumGroup(m: Mesh, vertList: seq<nat>, ghost vs: seq<Vertex>, ghost ks: seq<string>, k: string, add: (Vec3, Vec3) -> Vec3)
    returns (cumSum: Vec3)
    requires |m.verts| == |vs| == |ks| && vertList == Group(ks, k, |vs|) && |vertList| > 0
    requires forall j :: j in vertList <==> 0 <= j < |vs| && ks[j] == k
    requires forall j :: 0 <= j < |vs| && ks[j] == k ==> m.verts[j] == vs[j]
    ensures cumSum == Sum(Normals(vs, vertList), add)
  {
    ghost var ns := Normals(vs, vertList);
    assert vertList[0] in vertList && ns[..1] == [m.verts[vertList[0]].normal];
    cumSum := m.verts[vertList[0]].normal;
    var i := 1;
    while i < |vertList|
      invariant 1 <= i <= |vertList|
      invariant cumSum == Sum(ns[..i], add)
    {
      assert ns[..i + 1][..i] == ns[..i];
      assert vertList[i] in vertList && ns[i] == m.verts[vertList[i]].normal;
      cumSum := add(cumSum, m.verts[vertList[i]].normal);
      i := i + 1;
    }
    assert ns[..i] == ns;
  }
}
