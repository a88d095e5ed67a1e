/**
 * Project C's materials: `initMaterials` gives every mesh-bearing node a
 * default material, an entry in the mesh selector and the five material
 * binders, and the colour inputs show a material's colour channels as
 * two-digit hexadecimal values that `parseInt(..., 16) / 255` reads back.
 */
module Materials {
  import opened Common
  import opened SceneTree

  /** `new Material(albedo, diffuse, specular, shininess)`; `useVertColors` starts false. */
  datatype Material = Material(albedo: Vec3, diffuse: Vec3, specular: Vec3, shininess: real, useVertColors: bool)

  const DefaultMaterial := Material(White, White, White, 80.0, false)

  /** The uniform names of the binders `initMaterials` stores on a node. */
  const MaterialUniforms: set<string> :=
    {"u_Material.Ka", "u_Material.Kd", "u_Material.shininess", "u_Material.Ks", "u_UseVertColors"}

  /** Names of the mesh-bearing nodes of a tree, in pre-order. */
  function MeshNodeNames<M>(t: Node<M>): seq<string>
    decreases t, 1
  {
    (if t.mesh.Some? then [t.name] else []) + MeshNodeNamesList(t, |t.children|)
  }

  /** The same for the subtrees of the first `k` children of `t`. */
  function MeshNodeNamesList<M>(t: Node<M>, k: nat): seq<string>
    requires k <= |t.children|
    decreases t, 0, k
  {
    if k == 0 then [] else MeshNodeNamesList(t, k - 1) + MeshNodeNames(t.children[k - 1])
  }

  /** Some node of the tree has a mesh and the name `name`. */
  predicate HasMeshNode<M>(t: Node<M>, name: string)
  {
    (t.mesh.Some? && t.name == name) || exists i :: 0 <= i < |t.children| && HasMeshNode(t.children[i], name)
  }

  /** The pre-order list names exactly the mesh-bearing nodes. */
  lemma {:induction false} MeshNodeNamesExact<M>(t: Node<M>, name: string)
    ensures name in MeshNodeNames(t) <==> HasMeshNode(t, name)
    decreases t, 1
  {
    MeshNodeNamesListExact(t, |t.children|, name);
  }

  lemma {:induction false} MeshNodeNamesListExact<M>(t: Node<M>, k: nat, name: string)
    requires k <= |t.children|
    ensures name in MeshNodeNamesList(t, k) <==> exists i :: 0 <= i < k && HasMeshNode(t.children[i], name)
    decreases t, 0, k
  {
    if k > 0 {
      MeshNodeNamesListExact(t, k - 1, name);
      MeshNodeNamesExact(t.children[k - 1], name);
      if HasMeshNode(t.children[k - 1], name) {
        assert exists i :: 0 <= i < k && HasMeshNode(t.children[i], name);
      }
    }
  }

  /** A default material for each name. */
  function Defaults(names: seq<string>): map<string, Material>
  {
    map n | n in names :: DefaultMaterial
  }

  /** Adding the defaults for `b` after those for `a` adds the defaults for `a + b`. */
  lemma DefaultsStep(m0: map<string, Material>, m: map<string, Material>, a: seq<string>, b: seq<string>)
    requires m == m0 + Defaults(a)
    ensures m + Defaults(b) == m0 + Defaults(a + b)
  {
    assert Defaults(a + b) == Defaults(a) + Defaults(b);
  }

  /** The binder names per node name. */
  function Binders(names: seq<string>): map<string, set<string>>
  {
    map n | n in names :: MaterialUniforms
  }

  lemma BindersStep(m0: map<string, set<string>>, m: map<string, set<string>>, a: seq<string>, b: seq<string>)
    requires m == m0 + Binders(a)
    ensures m + Binders(b) == m0 + Binders(a + b)
  {
    assert Binders(a + b) == Binders(a) + Binders(b);
  }

  /**
   * What `initMaterials` writes: `Animation.materials`, the options of the
   * mesh selector, and the `uniforms` property of each node it visits, by
   * node name (names are unique in `Animation.nodes`). The binders go on
   * the node, not on its mesh, so the per-mesh binders `drawNode` runs are
   * not these; no mesh object is among what this class changes.
   */
  class MaterialPage {
    var materials: map<string, Material>
    var options: seq<string>
    var nodeUniforms: map<string, set<string>>

    constructor ()
      ensures materials == map[] && options == [] && nodeUniforms == map[]
    {
      materials, options, nodeUniforms := map[], [], map[];
    }

    /** `initMaterials(t)`: a pre-order walk over the whole tree, enabled or not. */
    method InitMaterials<M>(t: Node<M>)
      modifies this
      decreases t, 1
      ensures options == old(options) + MeshNodeNames(t)
      ensures materials == old(materials) + Defaults(MeshNodeNames(t))
      ensures nodeUniforms == old(nodeUniforms) + Binders(MeshNodeNames(t))
    {
      var own: seq<string> := if t.mesh.Some? then [t.name] else [];
      if t.mesh.Some? {
        options := options + [t.name];
        materials := materials[t.name := DefaultMaterial];
        nodeUniforms := nodeUniforms[t.name := MaterialUniforms];
      }
      assert options == old(options) + own;
      assert materials == old(materials) + Defaults(own);
      assert nodeUniforms == old(nodeUniforms) + Binders(own);
      ghost var m, u := materials, nodeUniforms;
      InitChildren(t, own);
      ghost var rest := MeshNodeNamesList(t, |t.children|);
      DefaultsStep(old(materials), m, own, rest);
      BindersStep(old(nodeUniforms), u, own, rest);
      AppendAssoc(old(options), own, rest);
    }

    method InitChildren<M>(t: Node<M>, ghost own: seq<string>)
      requires own == if t.mesh.Some? then [t.name] else []
      modifies this
      decreases t, 0
      ensures options == old(options) + MeshNodeNamesList(t, |t.children|)
      ensures materials == old(materials) + Defaults(MeshNodeNamesList(t, |t.children|))
      ensures nodeUniforms == old(nodeUniforms) + Binders(MeshNodeNamesList(t, |t.children|))
    {
      var i := 0;
      while i < |t.children|
        invariant i <= |t.children|
        invariant options == old(options) + MeshNodeNamesList(t, i)
        invariant materials == old(materials) + Defaults(MeshNodeNamesList(t, i))
        invariant nodeUniforms == old(nodeUniforms) + Binders(MeshNodeNamesList(t, i))
      {
        ghost var before := MeshNodeNamesList(t, i);
        ghost var m, u := materials, nodeUniforms;
        InitMaterials(t.children[i]);
        ghost var next := MeshNodeNames(t.children[i]);
        DefaultsStep(old(materials), m, before, next);
        BindersStep(old(nodeUniforms), u, before, next);
        AppendAssoc(old(options), before, next);
        i := i + 1;
      }
    }
  }

  /** `Math.round`: halves round up. */
  function Round(x: real): int
  {
    (x + 0.5).Floor
  }

  /** The lowercase hexadecimal digit of `d`. */
  function HexDigit(d: int): char
    requires 0 <= d < 16
  {
    if d < 10 then (48 + d) as char else (87 + d) as char
  }

  /** `n.toString(16)` for an integer `n`. */
  function ToHex(n: int): string
    decreases if n < 0 then 1 - n else n
  {
    if n < 0 then "-" + ToHex(-n)
    else if n < 16 then [HexDigit(n)]
    else ToHex(n / 16) + [HexDigit(n % 16)]
  }

  /** `s.padStart(2, '0')`. */
  function PadStart2(s: string): string
  {
    if |s| >= 2 then s else seq(2 - |s|, _ => '0') + s
  }

  /** `toHexColorValue(v)`: the channel `v` as the hexadecimal of `round(v * 255)`, padded to two digits. */
  function ToHexColorValue(v: real): string
  {
    PadStart2(ToHex(Round(v * 255.0)))
  }

  predicate IsLowerHex(c: char)
  {
    '0' <= c <= '9' || 'a' <= c <= 'f'
  }

  /** The value of a hexadecimal digit of either case, as `parseInt` reads it. */
  function DigitValue(c: char): Option<nat>
  {
    if '0' <= c <= '9' then Some(c as nat - 48)
    else if 'a' <= c <= 'f' then Some(c as nat - 87)
    else if 'A' <= c <= 'F' then Some(c as nat - 55)
    else None
  }

  /** Length of the run of hexadecimal digits at the front of `s`. */
  function HexRun(s: string): (k: nat)
    ensures k <= |s|
  {
    if s == [] || DigitValue(s[0]).None? then 0 else 1 + HexRun(s[1..])
  }

  function HexValue(ds: string): nat
    requires forall i :: 0 <= i < |ds| ==> DigitValue(ds[i]).Some?
  {
    if ds == [] then 0 else HexValue(ds[..|ds| - 1]) * 16 + DigitValue(ds[|ds| - 1]).value
  }

  lemma {:induction false} HexRunDigits(s: string)
    ensures forall i :: 0 <= i < HexRun(s) ==> DigitValue(s[i]).Some?
  {
    if s != [] && DigitValue(s[0]).Some? {
      HexRunDigits(s[1..]);
    }
  }

  /** `parseInt(s, 16)`: the value of the leading run of digits; no digits is `NaN` (`None`). */
  function ParseInt16(s: string): Option<nat>
  {
    var k := HexRun(s);
    HexRunDigits(s);
    if k == 0 then None else Some(HexValue(s[..k]))
  }

  /** For a channel value in [0, 1], `toHexColorValue` gives exactly two lowercase hexadecimal digits. */
  lemma HexColorShape(v: real)
    requires 0.0 <= v <= 1.0
    ensures var s := ToHexColorValue(v); |s| == 2 && IsLowerHex(s[0]) && IsLowerHex(s[1])
  {
    var n := Round(v * 255.0);
    assert 0 <= n <= 255;
    if n >= 16 {
      assert ToHex(n) == ToHex(n / 16) + [HexDigit(n % 16)];
    }
    DigitRoundTrip(n / 16, ' ');
    DigitRoundTrip(n % 16, ' ');
  }

  lemma DigitRoundTrip(d: int, c: char)
    requires 0 <= d < 16
    ensures DigitValue(HexDigit(d)) == Some(d) && IsLowerHex(HexDigit(d))
    ensures IsLowerHex(c) ==> DigitValue(c).Some? && DigitValue(c).value < 16 && HexDigit(DigitValue(c).value) == c
  {
  }

  /** `parseInt` of two hexadecimal digits. */
  lemma ParseTwoDigits(s: string)
    requires |s| == 2 && DigitValue(s[0]).Some? && DigitValue(s[1]).Some?
    ensures ParseInt16(s) == Some(DigitValue(s[0]).value * 16 + DigitValue(s[1]).value)
  {
    assert HexRun(s) == 2 by {
      assert s[1..][0] == s[1];
      assert s[1..][1..] == [];
    }
    assert s[..2] == s;
    var first := s[..1];
    assert first == [s[0]] && first[..0] == [];
    assert HexValue(first) == DigitValue(s[0]).value;
    assert s[..|s| - 1] == first;
    assert HexValue(s) == HexValue(first) * 16 + DigitValue(s[1]).value;
  }

  /** `toHexColorValue(n / 255)` for a channel value `n` in [0, 255]: `n` in two digits. */
  lemma WriteChannel(n: nat)
    requires n < 256
    ensures ToHexColorValue(n as real / 255.0) == [HexDigit(n / 16), HexDigit(n % 16)]
  {
    assert n as real / 255.0 * 255.0 == n as real;
    assert Round(n as real) == n;
    if n >= 16 {
      assert ToHex(n) == ToHex(n / 16) + [HexDigit(n % 16)];
    }
  }

  /** Two lowercase digits read by `parseInt(s, 16) / 255` and written back by `toHexColorValue` give `s` again. */
  lemma HexColorRoundTrip(s: string)
    requires |s| == 2 && IsLowerHex(s[0]) && IsLowerHex(s[1])
    ensures ParseInt16(s).Some? && ParseInt16(s).value < 256
    ensures ToHexColorValue(ParseInt16(s).value as real / 255.0) == s
  {
    DigitRoundTrip(0, s[0]);
    DigitRoundTrip(0, s[1]);
    ParseTwoDigits(s);
    var a := DigitValue(s[0]).value;
    var b := DigitValue(s[1]).value;
    WriteChannel(a * 16 + b);
    assert (a * 16 + b) / 16 == a && (a * 16 + b) % 16 == b;
  }

  /** A channel value `n / 255` is written as the digits that `parseInt(..., 16)` reads back as `n`. */
  lemma HexChannelRoundTrip(n: nat)
    requires n < 256
    ensures ParseInt16(ToHexColorValue(n as real / 255.0)) == Some(n)
  {
    WriteChannel(n);
    DigitRoundTrip(n / 16, ' ');
    DigitRoundTrip(n % 16, ' ');
    ParseTwoDigits([HexDigit(n / 16), HexDigit(n % 16)]);
  }
}
