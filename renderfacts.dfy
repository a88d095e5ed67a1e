/**
 * Properties of the draw traversal `Render.DrawNode`, for every tree and
 * every style: which meshes are drawn, in which order and at which scale;
 * that the matrix stack is balanced; that a uniform binder is only called
 * for a name the program in use declares; that project C selects one
 * program per drawn mesh; and that every draw call passes the mesh's own
 * fields, lines being drawn only when a wireframe index list exists.
 */
module RenderFacts {
  import opened Common
  import opened Meshes
  import opened SceneTree
  import opened Render

  /** The values `g` picks out of each call, concatenated in call order. */
  function Pick<M, T>(ev: seq<Event<M>>, g: Event<M> -> seq<T>): seq<T>
  {
    if ev == [] then [] else g(ev[0]) + Pick(ev[1..], g)
  }

  lemma {:induction false} PickAppend<M, T>(a: seq<Event<M>>, b: seq<Event<M>>, g: Event<M> -> seq<T>)
    ensures Pick(a + b, g) == Pick(a, g) + Pick(b, g)
  {
    if a == [] {
      assert a + b == b;
    } else {
      assert (a + b)[0] == a[0] && (a + b)[1..] == a[1..] + b;
      PickAppend(a[1..], b, g);
    }
  }

  lemma {:induction false} PickNone<M, T>(ev: seq<Event<M>>, g: Event<M> -> seq<T>)
    requires forall i :: 0 <= i < |ev| ==> g(ev[i]) == []
    ensures Pick(ev, g) == []
  {
    if ev != [] {
      assert g(ev[0]) == [];
      PickNone(ev[1..], g);
    }
  }

  /** Binder calls, uniform uploads: calls that neither move the stack, select, nor draw. */
  predicate Setup<M>(e: Event<M>)
  {
    e.Bind? || e.UniformMatrix? || e.UniformVec?
  }

  lemma {:induction false} BindersAreSetup<M>(names: seq<string>, ids: set<string>)
    ensures forall i :: 0 <= i < |Binders<M>(names, ids)| ==> Binders<M>(names, ids)[i].Bind?
  {
    if names != [] {
      BindersAreSetup<M>(names[..|names| - 1], ids);
    }
  }

  lemma RolesAreSetup<M>(p: Program, f: Frame, model: Mat)
    ensures forall i :: 0 <= i < |RoleUniforms<M>(p, f, model)| ==> Setup(RoleUniforms<M>(p, f, model)[i])
  {
  }

  /**
   * The calls of a mesh block: a push first, a pop last, and between them
   * the selection (project C), set-up calls, and exactly one draw, second
   * to last.
   */
  lemma MeshEventsShape<M>(mesh: M, v: MeshView, m1: Mat, s1: Vec3, f: Frame)
    ensures var ev := MeshEvents(mesh, v, m1, s1, f);
            |ev| >= 3 && ev[0] == Push(m1) && ev[|ev| - 1] == Pop &&
            (ev[|ev| - 2].DrawArrays? || ev[|ev| - 2].DrawElements?) &&
            ev[|ev| - 2].mesh == mesh && ev[|ev| - 2].scale == s1 &&
            (forall i :: 1 <= i < |ev| - 2 ==> Setup(ev[i]) || (i == 1 && ev[i] == UseProgram(v.program) && f.style.Shaded?))
  {
    var ev := MeshEvents(mesh, v, m1, s1, f);
    if f.style.Shaded? {
      var model := ModelOf(v.program, m1, s1);
      var b1 := Binders<M>(f.globals, v.program.attribIds);
      var r := RoleUniforms<M>(v.program, f, model);
      var b2 := Binders<M>(v.uniforms, v.program.attribIds);
      BindersAreSetup<M>(f.globals, v.program.attribIds);
      RolesAreSetup<M>(v.program, f, model);
      BindersAreSetup<M>(v.uniforms, v.program.attribIds);
      var mid := b1 + r + b2;
      Regroup(Push(m1), UseProgram(v.program), b1, r, b2, DrawCall(mesh, v, f.wireframe, s1, model), Pop);
      assert forall i :: 0 <= i < |mid| ==> Setup(mid[i]);
    }
  }

  lemma Regroup<E>(a: E, b: E, x: seq<E>, y: seq<E>, z: seq<E>, d: E, e: E)
    ensures [a] + ([b] + x) + y + z + [d, e] == [a, b] + (x + y + z) + [d, e]
  {
  }

  // ---------------------------------------------------------------------
  // What is drawn
  // ---------------------------------------------------------------------

  /** A draw call's mesh and the scale it is drawn at. */
  function DrawRecord<M>(e: Event<M>): seq<(M, Vec3)>
  {
    match e
    case DrawArrays(mesh, _, _, _, scale, _) => [(mesh, scale)]
    case DrawElements(mesh, _, scale, _) => [(mesh, scale)]
    case _ => []
  }

  /**
   * The mesh-bearing nodes reached by a pre-order walk that stops at
   * disabled nodes when `checks` is set, each with the component-wise
   * product of the scales from the walk's start down to it.
   */
  function Visible<M>(t: Node<M>, s: Vec3, checks: bool): seq<(M, Vec3)>
    decreases t, 1
  {
    if checks && !t.enabled then []
    else
      var s1 := Mul(s, t.scale);
      (if t.mesh.Some? then [(t.mesh.value, s1)] else []) + VisibleChildren(t, |t.children|, s1, checks)
  }

  function VisibleChildren<M>(t: Node<M>, k: nat, s1: Vec3, checks: bool): seq<(M, Vec3)>
    requires k <= |t.children|
    decreases t, 0, k
  {
    if k == 0 then [] else VisibleChildren(t, k - 1, s1, checks) + Visible(t.children[k - 1], s1, checks)
  }

  /** The mesh block draws its mesh once, at the node's accumulated scale. */
  lemma MeshEventsDraw<M>(mesh: M, v: MeshView, m1: Mat, s1: Vec3, f: Frame)
    ensures Pick(MeshEvents(mesh, v, m1, s1, f), DrawRecord) == [(mesh, s1)]
  {
    var ev := MeshEvents(mesh, v, m1, s1, f);
    MeshEventsShape(mesh, v, m1, s1, f);
    var n := |ev|;
    forall i | 0 <= i < n - 2
      ensures DrawRecord(ev[i]) == []
    {
      if i > 0 {
        assert Setup(ev[i]) || ev[i].UseProgram?;
      }
    }
    DrawsOnce(ev, mesh, s1);
  }

  /** Calls that draw nothing, then one draw of `mesh` at scale `s1`, then a pop. */
  lemma DrawsOnce<M>(ev: seq<Event<M>>, mesh: M, s1: Vec3)
    requires |ev| >= 2 && ev[|ev| - 1] == Pop
    requires (ev[|ev| - 2].DrawArrays? || ev[|ev| - 2].DrawElements?) && ev[|ev| - 2].mesh == mesh && ev[|ev| - 2].scale == s1
    requires forall i :: 0 <= i < |ev| - 2 ==> DrawRecord(ev[i]) == []
    ensures Pick(ev, DrawRecord) == [(mesh, s1)]
  {
    var n := |ev|;
    var pre, draw := ev[..n - 2], ev[n - 2];
    calc {
      Pick(ev, DrawRecord);
      { SplitLastTwo(ev); }
      Pick(pre + [draw] + [Pop], DrawRecord);
      { PickLastTwo(pre, draw, Pop, DrawRecord); }
      Pick(pre, DrawRecord) + DrawRecord(draw) + DrawRecord(Pop);
      { NoDrawsBefore(ev, n - 2); }
      [] + DrawRecord(draw) + [];
      { assert DrawRecord(draw) == [(mesh, s1)]; }
      [(mesh, s1)];
    }
  }

  /** A prefix of calls none of which draws records nothing. */
  lemma NoDrawsBefore<M>(ev: seq<Event<M>>, k: nat)
    requires k <= |ev|
    requires forall i :: 0 <= i < k ==> DrawRecord(ev[i]) == []
    ensures Pick(ev[..k], DrawRecord) == []
  {
    var pre := ev[..k];
    forall i | 0 <= i < |pre|
      ensures DrawRecord(pre[i]) == []
    {
      assert pre[i] == ev[i];
    }
    PickNone(pre, DrawRecord);
  }

  lemma SplitLastTwo<E>(s: seq<E>)
    requires |s| >= 2
    ensures s == s[..|s| - 2] + [s[|s| - 2]] + [s[|s| - 1]]
  {
  }

  lemma PickLastTwo<M, T>(pre: seq<Event<M>>, d: Event<M>, e: Event<M>, g: Event<M> -> seq<T>)
    ensures Pick(pre + [d] + [e], g) == Pick(pre, g) + g(d) + g(e)
  {
    PickAppend(pre + [d], [e], g);
    PickAppend(pre, [d], g);
    PickOne(d, g);
    PickOne(e, g);
  }

  lemma PickOne<M, T>(e: Event<M>, g: Event<M> -> seq<T>)
    ensures Pick([e], g) == g(e)
  {
    assert [e][1..] == [];
  }

  /** What a push, some calls, and a pop select is what the calls between them select. */
  lemma PickWrapped<M, T>(m: Mat, own: seq<Event<M>>, kids: seq<Event<M>>, g: Event<M> -> seq<T>)
    requires g(Push(m)) == [] && g(Pop) == []
    ensures Pick([Push(m)] + own + kids + [Pop], g) == Pick(own, g) + Pick(kids, g)
  {
    PickAppend([Push(m)] + own + kids, [Pop], g);
    PickAppend([Push(m)] + own, kids, g);
    PickAppend([Push(m)], own, g);
  }

  /**
   * `drawNode` draws exactly the meshes of the enabled nodes whose
   * ancestors are all enabled (every mesh node, for the framework with no
   * `enabled` test), in pre-order with children in array order, each at the
   * incoming scale times the scales of the nodes from the start down to it.
   */
  lemma {:induction false} DrawnInPreOrder<M>(t: Node<M>, m: Mat, s: Vec3, f: Frame, info: map<M, MeshView>)
    requires Viewed(t, info)
    ensures Pick(DrawNode(t, m, s, f, info), DrawRecord) == Visible(t, s, ChecksEnabled(f.style))
    decreases t, 1
  {
    if !(ChecksEnabled(f.style) && !t.enabled) {
      var m1, s1 := Local(t, m, s), Mul(s, t.scale);
      var own := OwnEvents(t, m1, s1, f, info);
      var kids := DrawChildren(t, |t.children|, m1, s1, f, info);
      PickWrapped(m, own, kids, DrawRecord);
      if t.mesh.Some? {
        MeshEventsDraw(t.mesh.value, info[t.mesh.value], m1, s1, f);
      }
      DrawnChildren(t, |t.children|, m1, s1, f, info);
    }
  }

  lemma {:induction false} DrawnChildren<M>(t: Node<M>, k: nat, m1: Mat, s1: Vec3, f: Frame, info: map<M, MeshView>)
    requires k <= |t.children| && Viewed(t, info)
    ensures Pick(DrawChildren(t, k, m1, s1, f, info), DrawRecord) == VisibleChildren(t, k, s1, ChecksEnabled(f.style))
    decreases t, 0, k
  {
    if k > 0 {
      DrawnChildren(t, k - 1, m1, s1, f, info);
      DrawnInPreOrder(t.children[k - 1], m1, s1, f, info);
      PickAppend(DrawChildren(t, k - 1, m1, s1, f, info), DrawNode(t.children[k - 1], m1, s1, f, info), DrawRecord);
    }
  }

  function Firsts<M>(ps: seq<(M, Vec3)>): (r: seq<M>)
    ensures |r| == |ps|
  {
    seq(|ps|, i requires 0 <= i < |ps| => ps[i].0)
  }

  lemma FirstsAppend<M>(a: seq<(M, Vec3)>, b: seq<(M, Vec3)>)
    ensures Firsts(a + b) == Firsts(a) + Firsts(b)
  {
  }

  /**
   * Without `enabled` tests the walk draws one mesh per mesh-bearing node,
   * in the same pre-order in which `buildBuffer` meets them.
   */
  lemma {:induction false} UncheckedDrawsAll<M>(t: Node<M>, s: Vec3)
    ensures Firsts(Visible(t, s, false)) == MeshOcc(t)
    decreases t, 1
  {
    var s1 := Mul(s, t.scale);
    var own := if t.mesh.Some? then [(t.mesh.value, s1)] else [];
    UncheckedChildren(t, |t.children|, s1);
    assert t.children[..|t.children|] == t.children;
    assert Firsts(own) == Own(t);
    FirstsAppend(own, VisibleChildren(t, |t.children|, s1, false));
  }

  lemma {:induction false} UncheckedChildren<M>(t: Node<M>, k: nat, s1: Vec3)
    requires k <= |t.children|
    ensures Firsts(VisibleChildren(t, k, s1, false)) == MeshOccList(t.children[..k])
    decreases t, 0, k
  {
    if k == 0 {
      assert t.children[..0] == [];
    } else {
      UncheckedChildren(t, k - 1, s1);
      UncheckedDrawsAll(t.children[k - 1], s1);
      MeshOccPrefix(t, k - 1);
      FirstsAppend(VisibleChildren(t, k - 1, s1, false), Visible(t.children[k - 1], s1, false));
    }
  }

  // ---------------------------------------------------------------------
  // The matrix stack
  // ---------------------------------------------------------------------

  function PushOf<M>(e: Event<M>): seq<Mat> { if e.Push? then [e.saved] else [] }

  function PopOf<M>(e: Event<M>): seq<()> { if e.Pop? then [()] else [] }

  /** Pushes minus pops. */
  function Depth<M>(ev: seq<Event<M>>): int
  {
    |Pick(ev, PushOf)| - |Pick(ev, PopOf)|
  }

  /** As many pops as pushes, and no prefix that pops more than it pushed. */
  ghost predicate Balanced<M>(ev: seq<Event<M>>)
  {
    Depth(ev) == 0 && forall i :: 0 <= i <= |ev| ==> Depth(ev[..i]) >= 0
  }

  lemma DepthAppend<M>(a: seq<Event<M>>, b: seq<Event<M>>)
    ensures Depth(a + b) == Depth(a) + Depth(b)
  {
    PickAppend(a, b, PushOf);
    PickAppend(a, b, PopOf);
  }

  lemma BalancedAppend<M>(a: seq<Event<M>>, b: seq<Event<M>>)
    requires Balanced(a) && Balanced(b)
    ensures Balanced(a + b)
  {
    DepthAppend(a, b);
    forall i | 0 <= i <= |a + b|
      ensures Depth((a + b)[..i]) >= 0
    {
      if i <= |a| {
        assert (a + b)[..i] == a[..i];
      } else {
        assert (a + b)[..i] == a + b[..i - |a|];
        DepthAppend(a, b[..i - |a|]);
      }
    }
  }

  /** Calls that neither push nor pop leave every prefix at depth 0. */
  lemma StackNeutral<M>(ev: seq<Event<M>>)
    requires forall i :: 0 <= i < |ev| ==> !ev[i].Push? && !ev[i].Pop?
    ensures Balanced(ev)
  {
    forall i | 0 <= i <= |ev|
      ensures Depth(ev[..i]) == 0
    {
      PickNone(ev[..i], PushOf);
      PickNone(ev[..i], PopOf);
    }
    assert ev[..|ev|] == ev;
  }

  lemma BalancedWrap<M>(m: Mat, x: seq<Event<M>>)
    requires Balanced(x)
    ensures Balanced([Push(m)] + x + [Pop])
  {
    var push: seq<Event<M>>, pop: seq<Event<M>>, none: seq<Event<M>> := [Push(m)], [Pop], [];
    var w := push + x + pop;
    DepthAppend(push + x, pop);
    DepthAppend(push, x);
    assert Depth(push) == 1 by {
      assert Pick(push, PushOf) == [m] + Pick(none, PushOf);
      assert Pick(push, PopOf) == [] + Pick(none, PopOf);
    }
    assert Depth(pop) == -1 by {
      assert Pick(pop, PopOf) == [()] + Pick(none, PopOf);
      assert Pick(pop, PushOf) == [] + Pick(none, PushOf);
    }
    forall i | 0 <= i <= |w|
      ensures Depth(w[..i]) >= 0
    {
      if i == 0 {
        assert w[..i] == none;
      } else if i <= |x| + 1 {
        assert w[..i] == push + x[..i - 1];
        DepthAppend(push, x[..i - 1]);
      } else {
        assert w[..i] == w;
      }
    }
  }

  lemma MeshEventsBalanced<M>(mesh: M, v: MeshView, m1: Mat, s1: Vec3, f: Frame)
    ensures Balanced(MeshEvents(mesh, v, m1, s1, f))
  {
    var ev := MeshEvents(mesh, v, m1, s1, f);
    MeshEventsShape(mesh, v, m1, s1, f);
    var mid := ev[1..|ev| - 1];
    assert ev == [Push(m1)] + mid + [Pop];
    StackNeutral(mid);
    BalancedWrap(m1, mid);
  }

  /** `drawNode` pops exactly what it pushed and never pops below where it started. */
  lemma {:induction false} DrawNodeBalanced<M>(t: Node<M>, m: Mat, s: Vec3, f: Frame, info: map<M, MeshView>)
    requires Viewed(t, info)
    ensures Balanced(DrawNode(t, m, s, f, info))
    decreases t, 1
  {
    if ChecksEnabled(f.style) && !t.enabled {
      StackNeutral(DrawNode(t, m, s, f, info));
    } else {
      var m1, s1 := Local(t, m, s), Mul(s, t.scale);
      var own := OwnEvents(t, m1, s1, f, info);
      var kids := DrawChildren(t, |t.children|, m1, s1, f, info);
      if t.mesh.Some? {
        MeshEventsBalanced(t.mesh.value, info[t.mesh.value], m1, s1, f);
      } else {
        StackNeutral(own);
      }
      ChildrenBalanced(t, |t.children|, m1, s1, f, info);
      BalancedAppend(own, kids);
      BalancedWrap(m, own + kids);
      AppendAssoc([Push(m)], own, kids);
    }
  }

  lemma {:induction false} ChildrenBalanced<M>(t: Node<M>, k: nat, m1: Mat, s1: Vec3, f: Frame, info: map<M, MeshView>)
    requires k <= |t.children| && Viewed(t, info)
    ensures Balanced(DrawChildren(t, k, m1, s1, f, info))
    decreases t, 0, k
  {
    if k == 0 {
      StackNeutral(DrawChildren(t, k, m1, s1, f, info));
    } else {
      ChildrenBalanced(t, k - 1, m1, s1, f, info);
      DrawNodeBalanced(t.children[k - 1], m1, s1, f, info);
      BalancedAppend(DrawChildren(t, k - 1, m1, s1, f, info), DrawNode(t.children[k - 1], m1, s1, f, info));
    }
  }

  // ---------------------------------------------------------------------
  // Uniform binders and program selection
  // ---------------------------------------------------------------------

  /** The program in use after the calls `ev`, `cur` being the one in use before them. */
  function After<M>(ev: seq<Event<M>>, cur: Option<Program>): Option<Program>
  {
    if ev == [] then cur else After(ev[1..], if ev[0].UseProgram? then Some(ev[0].program) else cur)
  }

  /** Every binder call in `ev` is for a name that the program in use at that point declares. */
  predicate WellBound<M>(ev: seq<Event<M>>, cur: Option<Program>)
  {
    if ev == [] then true
    else
      (ev[0].Bind? ==> cur.Some? && ev[0].attr in cur.value.attribIds) &&
      WellBound(ev[1..], if ev[0].UseProgram? then Some(ev[0].program) else cur)
  }

  lemma {:induction false} WellBoundAppend<M>(a: seq<Event<M>>, b: seq<Event<M>>, cur: Option<Program>)
    ensures After(a + b, cur) == After(b, After(a, cur))
    ensures WellBound(a + b, cur) <==> WellBound(a, cur) && WellBound(b, After(a, cur))
  {
    if a == [] {
      assert a + b == b;
    } else {
      assert (a + b)[0] == a[0] && (a + b)[1..] == a[1..] + b;
      WellBoundAppend(a[1..], b, if a[0].UseProgram? then Some(a[0].program) else cur);
    }
  }

  /** Calls that neither bind nor select keep whatever program is in use. */
  lemma {:induction false} NoBinding<M>(ev: seq<Event<M>>, cur: Option<Program>)
    requires forall i :: 0 <= i < |ev| ==> !ev[i].Bind? && !ev[i].UseProgram?
    ensures WellBound(ev, cur) && After(ev, cur) == cur
  {
    if ev != [] {
      NoBinding(ev[1..], cur);
    }
  }

  /** The binder loop calls only names the program declares, and selects nothing. */
  lemma {:induction false} BindersBound<M>(names: seq<string>, p: Program)
    ensures WellBound(Binders<M>(names, p.attribIds), Some(p)) && After(Binders<M>(names, p.attribIds), Some(p)) == Some(p)
  {
    if names != [] {
      var last := names[|names| - 1];
      var tail: seq<Event<M>> := if last in p.attribIds then [Bind(last)] else [];
      BindersBound<M>(names[..|names| - 1], p);
      WellBoundAppend(Binders<M>(names[..|names| - 1], p.attribIds), tail, Some(p));
    }
  }

  /** A mesh block is well bound whatever program was in use before it. */
  lemma MeshEventsBound<M>(mesh: M, v: MeshView, m1: Mat, s1: Vec3, f: Frame, cur: Option<Program>)
    ensures WellBound(MeshEvents(mesh, v, m1, s1, f), cur)
  {
    if f.style.Shaded? {
      var model := ModelOf(v.program, m1, s1);
      var ev := MeshEvents(mesh, v, m1, s1, f);
      var head: seq<Event<M>> := [Push(m1)] + Selection(v.program, f.globals);
      var tail := [DrawCall(mesh, v, f.wireframe, s1, model), Pop];
      assert ev == head + RoleUniforms(v.program, f, model) + Binders(v.uniforms, v.program.attribIds) + tail;
      HeadBound<M>(m1, v.program, f.globals, cur);
      ShadedBound(head, v.program, f, model, v.uniforms, tail, cur);
    } else {
      NoBinding(MeshEvents(mesh, v, m1, s1, f), cur);
    }
  }

  /** Project C's mesh block: after the selection, only the program's own names are bound. */
  lemma ShadedBound<M>(head: seq<Event<M>>, p: Program, f: Frame, model: Mat, uniforms: seq<string>, tail: seq<Event<M>>, cur: Option<Program>)
    requires WellBound(head, cur) && After(head, cur) == Some(p)
    requires forall i :: 0 <= i < |tail| ==> !tail[i].Bind? && !tail[i].UseProgram?
    ensures WellBound(head + RoleUniforms(p, f, model) + Binders(uniforms, p.attribIds) + tail, cur)
  {
    RolesSelectNothing<M>(p, f, model);
    BindersBound<M>(uniforms, p);
    ChainBound(head, RoleUniforms(p, f, model), Binders(uniforms, p.attribIds), tail, p, cur);
  }

  /** The role uniforms neither bind nor select a program. */
  lemma RolesSelectNothing<M>(p: Program, f: Frame, model: Mat)
    ensures forall i :: 0 <= i < |RoleUniforms<M>(p, f, model)| ==>
              !RoleUniforms<M>(p, f, model)[i].Bind? && !RoleUniforms<M>(p, f, model)[i].UseProgram?
  {
    RolesAreSetup<M>(p, f, model);
  }

  /** A selection of `p`, calls that bind nothing, `p`'s own binders, then calls that bind nothing. */
  lemma ChainBound<M>(head: seq<Event<M>>, r: seq<Event<M>>, b: seq<Event<M>>, tail: seq<Event<M>>, p: Program, cur: Option<Program>)
    requires WellBound(head, cur) && After(head, cur) == Some(p)
    requires forall i :: 0 <= i < |r| ==> !r[i].Bind? && !r[i].UseProgram?
    requires WellBound(b, Some(p)) && After(b, Some(p)) == Some(p)
    requires forall i :: 0 <= i < |tail| ==> !tail[i].Bind? && !tail[i].UseProgram?
    ensures WellBound(head + r + b + tail, cur)
  {
    NoBinding(r, Some(p));
    WellBoundAppend(head, r, cur);
    WellBoundAppend(head + r, b, cur);
    NoBinding(tail, Some(p));
    WellBoundAppend(head + r + b, tail, cur);
  }

  /** The push and the selection of program `p` are well bound and leave `p` in use. */
  lemma HeadBound<M>(m1: Mat, p: Program, globals: seq<string>, cur: Option<Program>)
    ensures WellBound<M>([Push(m1)] + Selection(p, globals), cur)
    ensures After<M>([Push(m1)] + Selection(p, globals), cur) == Some(p)
  {
    var push: seq<Event<M>> := [Push(m1)];
    var use: seq<Event<M>> := [UseProgram(p)];
    var b1 := Binders<M>(globals, p.attribIds);
    NoBinding(push, cur);
    WellBoundAppend(use, b1, cur);
    BindersBound<M>(globals, p);
    WellBoundAppend(push, use + b1, cur);
  }

  /**
   * Per-mesh and global binders are called only for names present in the
   * `attribIds` of the program in use, whatever program was in use when the
   * walk started.
   */
  lemma {:induction false} BindersOnlyDeclared<M>(t: Node<M>, m: Mat, s: Vec3, f: Frame, info: map<M, MeshView>, cur: Option<Program>)
    requires Viewed(t, info)
    ensures WellBound(DrawNode(t, m, s, f, info), cur)
    decreases t, 1
  {
    if !(ChecksEnabled(f.style) && !t.enabled) {
      var m1, s1 := Local(t, m, s), Mul(s, t.scale);
      var push: seq<Event<M>> := [Push(m)];
      var own := OwnEvents(t, m1, s1, f, info);
      var kids := DrawChildren(t, |t.children|, m1, s1, f, info);
      NoBinding(push, cur);
      WellBoundAppend(push, own, cur);
      if t.mesh.Some? {
        MeshEventsBound(t.mesh.value, info[t.mesh.value], m1, s1, f, cur);
      }
      WellBoundAppend(push + own, kids, cur);
      ChildrenBound(t, |t.children|, m1, s1, f, info, After(push + own, cur));
      WellBoundAppend(push + own + kids, [Pop], cur);
      NoBinding<M>([Pop], After(push + own + kids, cur));
    }
  }

  lemma {:induction false} ChildrenBound<M>(t: Node<M>, k: nat, m1: Mat, s1: Vec3, f: Frame, info: map<M, MeshView>, cur: Option<Program>)
    requires k <= |t.children| && Viewed(t, info)
    ensures WellBound(DrawChildren(t, k, m1, s1, f, info), cur)
    decreases t, 0, k
  {
    if k > 0 {
      var prev := DrawChildren(t, k - 1, m1, s1, f, info);
      ChildrenBound(t, k - 1, m1, s1, f, info, cur);
      BindersOnlyDeclared(t.children[k - 1], m1, s1, f, info, After(prev, cur));
      WellBoundAppend(prev, DrawNode(t.children[k - 1], m1, s1, f, info), cur);
    }
  }

  function Selected<M>(e: Event<M>): seq<Program>
  {
    if e.UseProgram? then [e.program] else []
  }

  /** The program each drawn mesh held, in drawing order (every drawn mesh has a view). */
  function Programs<M>(vis: seq<(M, Vec3)>, info: map<M, MeshView>): seq<Program>
  {
    seq(|vis|, i requires 0 <= i < |vis| => if vis[i].0 in info then info[vis[i].0].program else NoProgram)
  }

  lemma MeshEventsSelect<M>(mesh: M, v: MeshView, m1: Mat, s1: Vec3, f: Frame)
    ensures Pick(MeshEvents(mesh, v, m1, s1, f), Selected) == if f.style.Shaded? then [v.program] else []
  {
    var ev := MeshEvents(mesh, v, m1, s1, f);
    MeshEventsShape(mesh, v, m1, s1, f);
    var n := |ev|;
    if f.style.Shaded? {
      assert ev == [ev[0]] + [ev[1]] + ev[2..];
      PickAppend([ev[0]] + [ev[1]], ev[2..], Selected);
      PickAppend([ev[0]], [ev[1]], Selected);
      assert ev[1] == UseProgram(v.program);
      PickNone(ev[2..], Selected);
    } else {
      PickNone(ev, Selected);
    }
  }

  /**
   * Project C calls `selectRenderProgram` once for every mesh it draws,
   * with that mesh's program; projects A and B never switch programs.
   */
  lemma {:induction false} OneSelectionPerDraw<M>(t: Node<M>, m: Mat, s: Vec3, f: Frame, info: map<M, MeshView>)
    requires Viewed(t, info)
    ensures Pick(DrawNode(t, m, s, f, info), Selected) ==
              if f.style.Shaded? then Programs(Visible(t, s, ChecksEnabled(f.style)), info) else []
    decreases t, 1
  {
    if !(ChecksEnabled(f.style) && !t.enabled) {
      var m1, s1 := Local(t, m, s), Mul(s, t.scale);
      var own := OwnEvents(t, m1, s1, f, info);
      var kids := DrawChildren(t, |t.children|, m1, s1, f, info);
      var ownVis := if t.mesh.Some? then [(t.mesh.value, s1)] else [];
      PickWrapped(m, own, kids, Selected);
      OwnSelection(t, m1, s1, f, info);
      SelectionsChildren(t, |t.children|, m1, s1, f, info);
      ProgramsAppend(ownVis, VisibleChildren(t, |t.children|, s1, ChecksEnabled(f.style)), info);
    }
  }

  /** A node's own mesh block selects that mesh's program, in project C only. */
  lemma OwnSelection<M>(t: Node<M>, m1: Mat, s1: Vec3, f: Frame, info: map<M, MeshView>)
    requires Viewed(t, info)
    ensures Pick(OwnEvents(t, m1, s1, f, info), Selected) ==
              if f.style.Shaded? then Programs(if t.mesh.Some? then [(t.mesh.value, s1)] else [], info) else []
  {
    if t.mesh.Some? {
      MeshEventsSelect(t.mesh.value, info[t.mesh.value], m1, s1, f);
    }
  }

  lemma {:induction false} SelectionsChildren<M>(t: Node<M>, k: nat, m1: Mat, s1: Vec3, f: Frame, info: map<M, MeshView>)
    requires k <= |t.children| && Viewed(t, info)
    ensures Pick(DrawChildren(t, k, m1, s1, f, info), Selected) ==
              if f.style.Shaded? then Programs(VisibleChildren(t, k, s1, ChecksEnabled(f.style)), info) else []
    decreases t, 0, k
  {
    if k > 0 {
      var checks := ChecksEnabled(f.style);
      var dc, dn := DrawChildren(t, k - 1, m1, s1, f, info), DrawNode(t.children[k - 1], m1, s1, f, info);
      var vc, vn := VisibleChildren(t, k - 1, s1, checks), Visible(t.children[k - 1], s1, checks);
      assert DrawChildren(t, k, m1, s1, f, info) == dc + dn;
      assert VisibleChildren(t, k, s1, checks) == vc + vn;
      SelectionsChildren(t, k - 1, m1, s1, f, info);
      OneSelectionPerDraw(t.children[k - 1], m1, s1, f, info);
      PickAppend(dc, dn, Selected);
      if f.style.Shaded? {
        ProgramsAppend(vc, vn, info);
        assert Pick(dc + dn, Selected) == Programs(vc, info) + Programs(vn, info);
      } else {
        assert Pick(dc + dn, Selected) == [];
      }
    }
  }

  lemma ProgramsAppend<M>(a: seq<(M, Vec3)>, b: seq<(M, Vec3)>, info: map<M, MeshView>)
    ensures Programs(a + b, info) == Programs(a, info) + Programs(b, info)
  {
  }

  // ---------------------------------------------------------------------
  // Draw calls
  // ---------------------------------------------------------------------

  /**
   * A `drawArrays` passes the mesh's render type, `vboStart` and `vboCount`,
   * and is used whenever lines cannot be; a `drawElements` happens only in
   * project C wireframe mode for a mesh with a wireframe index list, and
   * draws all of it.
   */
  predicate DrawAgrees<M>(e: Event<M>, f: Frame, info: map<M, MeshView>)
  {
    match e
    case DrawArrays(mesh, mode, first, count, _, _) =>
      mesh in info && mode == info[mesh].renderType && first == info[mesh].vboStart && count == info[mesh].vboCount &&
      !(f.style.Shaded? && f.wireframe && info[mesh].wireframe.Some?)
    case DrawElements(mesh, size, _, _) =>
      f.style.Shaded? && f.wireframe && mesh in info && info[mesh].wireframe.Some? && size == |info[mesh].wireframe.value|
    case _ => true
  }

  ghost predicate DrawsAgree<M>(ev: seq<Event<M>>, f: Frame, info: map<M, MeshView>)
  {
    forall i :: 0 <= i < |ev| ==> DrawAgrees(ev[i], f, info)
  }

  lemma {:induction false} DrawCallsAgree<M>(t: Node<M>, m: Mat, s: Vec3, f: Frame, info: map<M, MeshView>)
    requires Viewed(t, info)
    ensures DrawsAgree(DrawNode(t, m, s, f, info), f, info)
    decreases t, 1
  {
    if !(ChecksEnabled(f.style) && !t.enabled) {
      var m1, s1 := Local(t, m, s), Mul(s, t.scale);
      var own := OwnEvents(t, m1, s1, f, info);
      var kids := DrawChildren(t, |t.children|, m1, s1, f, info);
      if t.mesh.Some? {
        var mesh := t.mesh.value;
        MeshEventsShape(mesh, info[mesh], m1, s1, f);
        assert forall i :: 0 <= i < |own| ==> own[i].Push? || own[i].Pop? || own[i].UseProgram? || Setup(own[i]) || i == |own| - 2;
      }
      ChildCallsAgree(t, |t.children|, m1, s1, f, info);
      assert DrawNode(t, m, s, f, info) == [Push(m)] + own + kids + [Pop];
    }
  }

  lemma {:induction false} ChildCallsAgree<M>(t: Node<M>, k: nat, m1: Mat, s1: Vec3, f: Frame, info: map<M, MeshView>)
    requires k <= |t.children| && Viewed(t, info)
    ensures DrawsAgree(DrawChildren(t, k, m1, s1, f, info), f, info)
    decreases t, 0, k
  {
    if k > 0 {
      ChildCallsAgree(t, k - 1, m1, s1, f, info);
      DrawCallsAgree(t.children[k - 1], m1, s1, f, info);
    }
  }
}
