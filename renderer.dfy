/**
 * Model of the renderer of renderer.js:1-104. `createRenderer` closes over
 * host callbacks; here every call of one of them is an operation appended
 * to a log, and `createElement` hands out fresh element numbers. A vnode is
 * a value: `vnode.el = ...` becomes a vnode returned with its `el` filled
 * in, and `container._vnode` is a map from containers to the vnode last
 * rendered into them.
 */
module Renderer {
  import opened Seqs

  /** A node of the host surface: a container the caller supplies, or an element `createElement` made. */
  datatype HostNode = Container(name: nat) | Created(id: nat)

  /**
   * A prop value, compared with `!==`: primitives by value, handlers by
   * identity. `Inherited(name)` is what a plain object inherits from
   * `Object.prototype` under name (a built-in function, or the prototype
   * itself for `__proto__`).
   */
  datatype PropValue = Str(s: string) | Num(n: int) | Bool(b: bool) | Handler(id: nat) | Inherited(name: string)

  type Prop = (string, PropValue)

  predicate DistinctKeys(ps: seq<Prop>) {
    forall i, j | 0 <= i < j < |ps| :: ps[i].0 != ps[j].0
  }

  /** A props object: its own keys in `for...in` order, each once. */
  type Props = ps: seq<Prop> | DistinctKeys(ps) witness []

  /** `children`: a string, an array of vnodes, or neither. */
  datatype Children = TextChildren(text: string) | Nodes(nodes: seq<VNode>) | NoChildren

  datatype VNode = VNode(tag: string, props: Props, children: Children, el: Option<HostNode>)

  /** The host callbacks the renderer calls (renderer.js:2-10). */
  datatype HostOp =
    | CreateElement(el: HostNode, tag: string)
    | PatchProp(el: HostNode, key: string, prev: Option<PropValue>, next: Option<PropValue>)
    | SetElementText(el: HostNode, text: string)
    | Insert(el: HostNode, parent: HostNode)
    | RemoveElement(el: HostNode)

  // ---------------------------------------------------------------------------
  // Vnode trees

  /** Every vnode of the tree, down through array children, has its host element. */
  predicate Mounted(v: VNode)
    decreases v
  {
    v.el.Some? && (v.children.Nodes? ==> forall i | 0 <= i < |v.children.nodes| :: Mounted(v.children.nodes[i]))
  }

  predicate AllMounted(ns: seq<VNode>) {
    forall i | 0 <= i < |ns| :: Mounted(ns[i])
  }

  /** The tree with its host elements erased: what the caller described. */
  function Strip(v: VNode): (r: VNode)
    decreases v, 1
  {
    VNode(v.tag, v.props, StripChildren(v.children), None)
  }

  function StripChildren(c: Children): (r: Children)
    decreases c, 1
  {
    match c
    case Nodes(ns) => Nodes(StripAll(ns))
    case TextChildren(t) => c
    case NoChildren => c
  }

  function StripAll(ns: seq<VNode>): (r: seq<VNode>)
    ensures |r| == |ns|
    decreases ns, 0
  {
    if ns == [] then [] else StripAll(ns[..|ns| - 1]) + [Strip(ns[|ns| - 1])]
  }

  /** The number of vnodes in the tree. */
  function Size(v: VNode): (r: nat)
    decreases v, 1
  {
    1 + if v.children.Nodes? then SizeAll(v.children.nodes) else 0
  }

  function SizeAll(ns: seq<VNode>): (r: nat)
    decreases ns, 0
  {
    if ns == [] then 0 else SizeAll(ns[..|ns| - 1]) + Size(ns[|ns| - 1])
  }

  // ---------------------------------------------------------------------------
  // The host calls each operation makes

  /** The value of an own key of the props, or none. */
  function Lookup(ps: seq<Prop>, key: string): (r: Option<PropValue>)
    ensures r.Some? <==> exists i | 0 <= i < |ps| :: ps[i].0 == key
  {
    if ps == [] then None
    else if ps[|ps| - 1].0 == key then Some(ps[|ps| - 1].1)
    else Lookup(ps[..|ps| - 1], key)
  }

  /** The names of `Object.prototype`'s properties, which every plain props object inherits. */
  const ProtoKeys: set<string> := {
    "constructor", "hasOwnProperty", "isPrototypeOf", "propertyIsEnumerable", "toLocaleString",
    "toString", "valueOf", "__defineGetter__", "__defineSetter__", "__lookupGetter__",
    "__lookupSetter__", "__proto__" }

  /** `props[key]`: the own value, else the inherited member, else `undefined`. */
  function Get(ps: seq<Prop>, key: string): (r: Option<PropValue>)
    ensures Lookup(ps, key).Some? ==> r == Lookup(ps, key)
    ensures Lookup(ps, key).None? ==> (r.Some? <==> key in ProtoKeys)
    ensures Lookup(ps, key).None? && key in ProtoKeys ==> r == Some(Inherited(key))
  {
    if Lookup(ps, key).Some? then Lookup(ps, key)
    else if key in ProtoKeys then Some(Inherited(key))
    else None
  }

  /** `key in props`: an own key or an inherited one. */
  predicate Has(ps: seq<Prop>, key: string) {
    Lookup(ps, key).Some? || key in ProtoKeys
  }

  /** The first loop of `patchElement` (renderer.js:41-45): new keys whose value differs. */
  function ChangedProps(el: HostNode, oldProps: seq<Prop>, newProps: seq<Prop>): (r: seq<HostOp>) {
    if newProps == [] then []
    else
      var (key, value) := newProps[|newProps| - 1];
      var prev := Get(oldProps, key);
      ChangedProps(el, oldProps, newProps[..|newProps| - 1])
        + if Some(value) != prev then [PatchProp(el, key, prev, Some(value))] else []
  }

  /** The second loop (renderer.js:47-51): old keys the new props lack are patched to null. */
  function RemovedProps(el: HostNode, oldProps: seq<Prop>, newProps: seq<Prop>): (r: seq<HostOp>) {
    if oldProps == [] then []
    else
      var (key, value) := oldProps[|oldProps| - 1];
      RemovedProps(el, oldProps[..|oldProps| - 1], newProps)
        + if !Has(newProps, key) then [PatchProp(el, key, Some(value), None)] else []
  }

  function PropOps(el: HostNode, oldProps: seq<Prop>, newProps: seq<Prop>): (r: seq<HostOp>) {
    ChangedProps(el, oldProps, newProps) + RemovedProps(el, oldProps, newProps)
  }

  /** `mountElement`'s props loop (renderer.js:83-87): every prop with prev null. */
  function InitialProps(el: HostNode, ps: seq<Prop>): (r: seq<HostOp>) {
    if ps == [] then []
    else InitialProps(el, ps[..|ps| - 1]) + [PatchProp(el, ps[|ps| - 1].0, None, Some(ps[|ps| - 1].1))]
  }

  /** The host calls of a mount, the vnode with its elements, and the next free element number. */
  datatype Mounting = Mounting(ops: seq<HostOp>, node: VNode, next: nat)

  datatype MountingAll = MountingAll(ops: seq<HostOp>, nodes: seq<VNode>, next: nat)

  /** `mountElement(vnode, container)` (renderer.js:80-97) with elements numbered from next. */
  function Mount(v: VNode, parent: HostNode, next: nat): (r: Mounting)
    ensures r.next > next
    decreases v, 1
  {
    var el := Created(next);
    var create := [CreateElement(el, v.tag)] + InitialProps(el, v.props);
    match v.children
    case TextChildren(t) =>
      Mounting(create + [SetElementText(el, t)] + [Insert(el, parent)], v.(el := Some(el)), next + 1)
    case Nodes(ns) =>
      var cs := MountAll(ns, el, next + 1);
      Mounting(create + cs.ops + [Insert(el, parent)], v.(el := Some(el), children := Nodes(cs.nodes)), cs.next)
    case NoChildren =>
      Mounting(create + [Insert(el, parent)], v.(el := Some(el)), next + 1)
  }

  /** `children.forEach((c) => patch(null, c, el))`: each child mounted in turn. */
  function MountAll(ns: seq<VNode>, parent: HostNode, next: nat): (r: MountingAll)
    ensures r.next >= next && |r.nodes| == |ns|
    decreases ns, 0
  {
    if ns == [] then MountingAll([], [], next)
    else
      var r := MountAll(ns[..|ns| - 1], parent, next);
      var m := Mount(ns[|ns| - 1], parent, r.next);
      MountingAll(r.ops + m.ops, r.nodes + [m.node], m.next)
  }

  /** `children.forEach((c) => unmount(c))`: one removal per child, none for its descendants. */
  function Removals(ns: seq<VNode>): (r: seq<HostOp>)
    requires AllMounted(ns)
    ensures |r| == |ns|
  {
    if ns == [] then [] else Removals(ns[..|ns| - 1]) + [RemoveElement(ns[|ns| - 1].el.value)]
  }

  datatype ChildPatch = ChildPatch(ops: seq<HostOp>, children: Children, next: nat)

  /** `patchChildren(n1, n2, el)` (renderer.js:56-78) on the old and new children. */
  function PatchChildrenOps(c1: Children, c2: Children, el: HostNode, next: nat): (r: ChildPatch)
    requires c1.Nodes? ==> AllMounted(c1.nodes)
    decreases c2, 0
  {
    var unmountOld := if c1.Nodes? then Removals(c1.nodes) else [];
    match c2
    case TextChildren(t) => ChildPatch(unmountOld + [SetElementText(el, t)], c2, next)
    case Nodes(ns) =>
      var clear := if c1.Nodes? then unmountOld else [SetElementText(el, "")];
      var m := MountAll(ns, el, next);
      ChildPatch(clear + m.ops, Nodes(m.nodes), m.next)
    case NoChildren =>
      ChildPatch(if c1.TextChildren? then [SetElementText(el, "")] else unmountOld, c2, next)
  }

  /** `patchElement(n1, n2)` (renderer.js:36-54): n2 takes n1's element. */
  function PatchElementOps(n1: VNode, n2: VNode, next: nat): (r: Mounting)
    requires Mounted(n1)
    decreases n2, 1
  {
    var el := n1.el.value;
    var c := PatchChildrenOps(n1.children, n2.children, el, next);
    Mounting(PropOps(el, n1.props, n2.props) + c.ops, n2.(el := n1.el, children := c.children), c.next)
  }

  /** `patch(n1, n2, container)` (renderer.js:24-34). */
  function PatchOps(n1: Option<VNode>, n2: VNode, parent: HostNode, next: nat): (r: Mounting)
    requires n1.Some? ==> Mounted(n1.value)
  {
    if n1.Some? && n1.value.tag != n2.tag then
      var m := Mount(n2, parent, next);
      Mounting([RemoveElement(n1.value.el.value)] + m.ops, m.node, m.next)
    else if n1.None? then Mount(n2, parent, next)
    else PatchElementOps(n1.value, n2, next)
  }

  /** The numbers of the elements created, in order. */
  function CreatedIds(ops: seq<HostOp>): (r: seq<nat>) {
    if ops == [] then []
    else
      var op := ops[|ops| - 1];
      CreatedIds(ops[..|ops| - 1]) + if op.CreateElement? && op.el.Created? then [op.el.id] else []
  }

  function Range(lo: nat, hi: nat): (r: seq<nat>)
    requires lo <= hi
  {
    seq(hi - lo, i => lo + i)
  }

  // ---------------------------------------------------------------------------
  // The renderer

  /** Mounting one more child after the first i. */
  lemma MountAllStep(ns: seq<VNode>, i: nat, parent: HostNode, next: nat)
    requires i < |ns|
    ensures var r := MountAll(ns[..i], parent, next);
      var m := Mount(ns[i], parent, r.next);
      MountAll(ns[..i + 1], parent, next) == MountingAll(r.ops + m.ops, r.nodes + [m.node], m.next)
  {
    assert ns[..i + 1][..i] == ns[..i];
  }

  class HostRenderer {
    /** Every host call made so far, in order. */
    var log: seq<HostOp>
    /** The number `createElement` gives its next element. */
    var nextId: nat
    /** `container._vnode` for every container rendered into. */
    var vnodes: map<HostNode, VNode>

    /** Every stored tree has its elements, and elements are numbered 0, 1, ... in creation order. */
    ghost predicate Valid()
      reads this
    {
      && (forall c | c in vnodes :: Mounted(vnodes[c]))
      && CreatedIds(log) == Range(0, nextId)
    }

    constructor ()
      ensures Valid() && log == [] && nextId == 0 && vnodes == map[]
    {
      log := [];
      nextId := 0;
      vnodes := map[];
    }

    /** `unmount(vnode)` (renderer.js:99-101): only the vnode's own element is removed. */
    method Unmount(v: VNode)
      requires Mounted(v)
      modifies this`log
      ensures log == old(log) + [RemoveElement(v.el.value)]
    {
      log := log + [RemoveElement(v.el.value)];
    }

    method UnmountAll(ns: seq<VNode>)
      requires AllMounted(ns)
      modifies this`log
      ensures log == old(log) + Removals(ns)
    {
      var i := 0;
      while i < |ns|
        invariant 0 <= i <= |ns|
        invariant log == old(log) + Removals(ns[..i])
      {
        assert ns[..i + 1][..i] == ns[..i];
        Unmount(ns[i]);
        i := i + 1;
      }
      assert ns[..i] == ns;
    }

    /** `mountElement(vnode, container)` (renderer.js:80-97). */
    method MountElement(v: VNode, parent: HostNode) returns (m: VNode)
      modifies this`log, this`nextId
      ensures var r := Mount(v, parent, old(nextId));
        log == old(log) + r.ops && nextId == r.next && m == r.node
      decreases v, 2
    {
      var el := Created(nextId);
      ghost var r := Mount(v, parent, nextId);
      ghost var before := log;
      log := log + [CreateElement(el, v.tag)];
      nextId := nextId + 1;
      MountProps(el, v.props);
      ghost var create := [CreateElement(el, v.tag)] + InitialProps(el, v.props);
      assert log == before + create;
      m := v.(el := Some(el));
      match v.children {
        case TextChildren(t) =>
          log := log + [SetElementText(el, t)];
        case Nodes(ns) =>
          var cs := MountChildren(ns, el);
          m := m.(children := Nodes(cs));
          assert log == before + (create + MountAll(ns, el, old(nextId) + 1).ops);
        case NoChildren =>
      }
      log := log + [Insert(el, parent)];
    }

    /** `mountElement`'s props loop (renderer.js:83-87): each prop patched with prev null, in order. */
    method MountProps(el: HostNode, ps: Props)
      modifies this`log
      ensures log == old(log) + InitialProps(el, ps)
    {
      var i := 0;
      while i < |ps|
        invariant 0 <= i <= |ps|
        invariant log == old(log) + InitialProps(el, ps[..i])
      {
        assert ps[..i + 1][..i] == ps[..i];
        log := log + [PatchProp(el, ps[i].0, None, Some(ps[i].1))];
        i := i + 1;
      }
      assert ps[..i] == ps;
    }

    /** `children.forEach((c) => patch(null, c, el))`. */
    method MountChildren(ns: seq<VNode>, parent: HostNode) returns (ms: seq<VNode>)
      modifies this`log, this`nextId
      ensures var r := MountAll(ns, parent, old(nextId));
        log == old(log) + r.ops && nextId == r.next && ms == r.nodes
      decreases ns, 1
    {
      ms := [];
      var i := 0;
      while i < |ns|
        invariant 0 <= i <= |ns|
        invariant var r := MountAll(ns[..i], parent, old(nextId));
          log == old(log) + r.ops && nextId == r.next && ms == r.nodes
      {
        ghost var r := MountAll(ns[..i], parent, old(nextId));
        MountAllStep(ns, i, parent, old(nextId));
        var m := Patch(None, ns[i], parent);
        Assoc3(old(log), r.ops, Mount(ns[i], parent, r.next).ops);
        ms := ms + [m];
        i := i + 1;
      }
      assert ns[..i] == ns;
    }

    /** `patchChildren(n1, n2, container)` (renderer.js:56-78); returns n2's children as mounted. */
    method PatchChildren(c1: Children, c2: Children, el: HostNode) returns (c: Children)
      requires c1.Nodes? ==> AllMounted(c1.nodes)
      modifies this`log, this`nextId
      ensures var r := PatchChildrenOps(c1, c2, el, old(nextId));
        log == old(log) + r.ops && nextId == r.next && c == r.children
      decreases c2, 1
    {
      c := c2;
      match c2 {
        case TextChildren(t) =>
          if c1.Nodes? {
            UnmountAll(c1.nodes);
          }
          log := log + [SetElementText(el, t)];
          Assoc3(old(log), if c1.Nodes? then Removals(c1.nodes) else [], [SetElementText(el, t)]);
        case Nodes(ns) =>
          ghost var clear := if c1.Nodes? then Removals(c1.nodes) else [SetElementText(el, "")];
          if c1.Nodes? {
            UnmountAll(c1.nodes);
          } else {
            log := log + [SetElementText(el, "")];
          }
          var ms := MountChildren(ns, el);
          Assoc3(old(log), clear, MountAll(ns, el, old(nextId)).ops);
          c := Nodes(ms);
        case NoChildren =>
          if c1.Nodes? {
            UnmountAll(c1.nodes);
          } else if c1.TextChildren? {
            log := log + [SetElementText(el, "")];
          }
      }
    }

    /** The two props loops of `patchElement` (renderer.js:41-51). */
    method PatchProps(el: HostNode, oldProps: Props, newProps: Props)
      modifies this`log
      ensures log == old(log) + PropOps(el, oldProps, newProps)
    {
      var i := 0;
      while i < |newProps|
        invariant 0 <= i <= |newProps|
        invariant log == old(log) + ChangedProps(el, oldProps, newProps[..i])
      {
        assert newProps[..i + 1][..i] == newProps[..i];
        var (key, value) := newProps[i];
        var prev := Get(oldProps, key);
        if Some(value) != prev {
          log := log + [PatchProp(el, key, prev, Some(value))];
        }
        i := i + 1;
      }
      assert newProps[..i] == newProps;
      ghost var changed := log;
      var j := 0;
      while j < |oldProps|
        invariant 0 <= j <= |oldProps|
        invariant log == changed + RemovedProps(el, oldProps[..j], newProps)
      {
        assert oldProps[..j + 1][..j] == oldProps[..j];
        var (key, value) := oldProps[j];
        if !Has(newProps, key) {
          log := log + [PatchProp(el, key, Some(value), None)];
        }
        j := j + 1;
      }
      assert oldProps[..j] == oldProps;
    }

    /** `patchElement(n1, n2)` (renderer.js:36-54). */
    method PatchElement(n1: VNode, n2: VNode) returns (m: VNode)
      requires Mounted(n1)
      modifies this`log, this`nextId
      ensures var r := PatchElementOps(n1, n2, old(nextId));
        log == old(log) + r.ops && nextId == r.next && m == r.node
      decreases n2, 2
    {
      var el := n1.el.value;
      PatchProps(el, n1.props, n2.props);
      var c := PatchChildren(n1.children, n2.children, el);
      m := n2.(el := n1.el, children := c);
    }

    /** `patch(n1, n2, container)` (renderer.js:24-34). */
    method Patch(n1: Option<VNode>, n2: VNode, parent: HostNode) returns (m: VNode)
      requires n1.Some? ==> Mounted(n1.value)
      modifies this`log, this`nextId
      ensures var r := PatchOps(n1, n2, parent, old(nextId));
        log == old(log) + r.ops && nextId == r.next && m == r.node
      decreases n2, 3
    {
      var old1 := n1;
      if old1.Some? && old1.value.tag != n2.tag {
        Unmount(old1.value);
        old1 := None;
      }
      if old1.None? {
        m := MountElement(n2, parent);
      } else {
        m := PatchElement(old1.value, n2);
      }
    }

    /** `render(vnode, container)` (renderer.js:12-22); a null vnode is None. */
    method Render(v: Option<VNode>, container: HostNode)
      requires Valid()
      modifies this
      ensures Valid()
      ensures v.Some? ==>
        var r := PatchOps(if container in old(vnodes) then Some(old(vnodes)[container]) else None, v.value, container, old(nextId));
        log == old(log) + r.ops && nextId == r.next && vnodes == old(vnodes)[container := r.node]
      ensures v.None? ==>
        && log == old(log) + (if container in old(vnodes) then [RemoveElement(old(vnodes)[container].el.value)] else [])
        && nextId == old(nextId) && vnodes == old(vnodes) - {container}
      ensures v.Some? ==> container in vnodes && Strip(vnodes[container]) == Strip(v.value)
    {
      var prev := if container in vnodes then Some(vnodes[container]) else None;
      if v.Some? {
        ghost var log0, next0 := log, nextId;
        var m := Patch(prev, v.value, container);
        PatchFacts(prev, v.value, container, next0);
        CreatedIdsAppend(log0, log[|log0|..]);
        assert log == log0 + log[|log0|..];
        RangeAppend(0, next0, nextId);
        vnodes := vnodes[container := m];
      } else {
        if prev.Some? {
          Unmount(prev.value);
          CreatedIdsAppend(old(log), [RemoveElement(prev.value.el.value)]);
        }
        vnodes := vnodes - {container};
      }
    }
  }

  // ---------------------------------------------------------------------------
  // Properties

  lemma {:induction false} CreatedIdsAppend(a: seq<HostOp>, b: seq<HostOp>)
    ensures CreatedIds(a + b) == CreatedIds(a) + CreatedIds(b)
    decreases |b|
  {
    if b == [] {
      assert a + b == a;
    } else {
      var b' := b[..|b| - 1];
      assert (a + b)[..|a + b| - 1] == a + b';
      CreatedIdsAppend(a, b');
    }
  }

  lemma RangeAppend(lo: nat, mid: nat, hi: nat)
    requires lo <= mid <= hi
    ensures Range(lo, mid) + Range(mid, hi) == Range(lo, hi)
  {
  }

  /** Operations that create nothing. */
  predicate NoCreates(ops: seq<HostOp>) {
    forall i | 0 <= i < |ops| :: !ops[i].CreateElement?
  }

  lemma {:induction false} NoCreatesIds(ops: seq<HostOp>)
    requires NoCreates(ops)
    ensures CreatedIds(ops) == []
    decreases |ops|
  {
    if ops != [] {
      NoCreatesIds(ops[..|ops| - 1]);
    }
  }

  lemma {:induction false} InitialPropsShape(el: HostNode, ps: seq<Prop>)
    ensures var r := InitialProps(el, ps);
      |r| == |ps| && forall i | 0 <= i < |ps| :: r[i] == PatchProp(el, ps[i].0, None, Some(ps[i].1))
    decreases |ps|
  {
    if ps != [] {
      InitialPropsShape(el, ps[..|ps| - 1]);
    }
  }

  /**
   * Mounting creates one element per vnode, numbered from next in order,
   * creates the vnode's own element first and inserts it into the parent
   * last, and returns the same tree with every element filled in.
   */
  lemma {:induction false} MountFacts(v: VNode, parent: HostNode, next: nat)
    ensures var r := Mount(v, parent, next);
      && Mounted(r.node) && Strip(r.node) == Strip(v) && r.node.el == Some(Created(next))
      && r.next == next + Size(v) && CreatedIds(r.ops) == Range(next, r.next)
      && |r.ops| >= 2 && r.ops[0] == CreateElement(Created(next), v.tag)
      && r.ops[|r.ops| - 1] == Insert(Created(next), parent)
    decreases v, 1
  {
    if v.children.Nodes? {
      MountNodesFacts(v, parent, next);
    } else {
      MountLeafFacts(v, parent, next);
    }
  }

  /** The same for a vnode with text or no children: one element. */
  lemma {:induction false} MountLeafFacts(v: VNode, parent: HostNode, next: nat)
    requires !v.children.Nodes?
    ensures var r := Mount(v, parent, next);
      && Mounted(r.node) && Strip(r.node) == Strip(v) && r.node.el == Some(Created(next))
      && r.next == next + Size(v) && CreatedIds(r.ops) == Range(next, r.next)
      && |r.ops| >= 2 && r.ops[0] == CreateElement(Created(next), v.tag)
      && r.ops[|r.ops| - 1] == Insert(Created(next), parent)
  {
    var el := Created(next);
    var create := [CreateElement(el, v.tag)] + InitialProps(el, v.props);
    MountCreate(next, v.tag, v.props);
    var mid := if v.children.TextChildren? then [SetElementText(el, v.children.text)] else [];
    assert CreatedIds(mid) == [];
    MountWrap(create, mid, el, parent, next, next + 1);
  }

  /** The same for a vnode with array children: its element, then theirs. */
  lemma {:induction false} MountNodesFacts(v: VNode, parent: HostNode, next: nat)
    requires v.children.Nodes?
    ensures var r := Mount(v, parent, next);
      && Mounted(r.node) && Strip(r.node) == Strip(v) && r.node.el == Some(Created(next))
      && r.next == next + Size(v) && CreatedIds(r.ops) == Range(next, r.next)
      && |r.ops| >= 2 && r.ops[0] == CreateElement(Created(next), v.tag)
      && r.ops[|r.ops| - 1] == Insert(Created(next), parent)
    decreases v, 0
  {
    var el := Created(next);
    var create := [CreateElement(el, v.tag)] + InitialProps(el, v.props);
    MountCreate(next, v.tag, v.props);
    var ns := v.children.nodes;
    var cs := MountAll(ns, el, next + 1);
    MountAllFacts(ns, el, next + 1);
    MountWrap(create, cs.ops, el, parent, next, cs.next);
  }

  /** The element's own calls before its children: its creation, then its props. */
  lemma MountCreate(next: nat, tag: string, props: Props)
    ensures var create := [CreateElement(Created(next), tag)] + InitialProps(Created(next), props);
      CreatedIds(create) == [next] && create[0] == CreateElement(Created(next), tag)
  {
    var el := Created(next);
    InitialPropsShape(el, props);
    NoCreatesIds(InitialProps(el, props));
    CreatedIdsAppend([CreateElement(el, tag)], InitialProps(el, props));
    assert CreatedIds([CreateElement(el, tag)]) == [next];
  }

  /** The creation, the children's calls, and the final insert, in that order. */
  lemma MountWrap(create: seq<HostOp>, mid: seq<HostOp>, el: HostNode, parent: HostNode, next: nat, hi: nat)
    requires next < hi && |create| >= 1
    requires CreatedIds(create) == [next] && CreatedIds(mid) == Range(next + 1, hi)
    ensures var ops := create + mid + [Insert(el, parent)];
      && CreatedIds(ops) == Range(next, hi) && |ops| >= 2
      && ops[0] == create[0] && ops[|ops| - 1] == Insert(el, parent)
  {
    assert CreatedIds([Insert(el, parent)]) == [];
    CreatedIdsAppend(create, mid);
    CreatedIdsAppend(create + mid, [Insert(el, parent)]);
    RangeAppend(next, next + 1, hi);
    assert Range(next, next + 1) == [next];
  }

  lemma {:induction false} MountAllFacts(ns: seq<VNode>, parent: HostNode, next: nat)
    ensures var r := MountAll(ns, parent, next);
      && AllMounted(r.nodes) && StripAll(r.nodes) == StripAll(ns)
      && r.next == next + SizeAll(ns) && CreatedIds(r.ops) == Range(next, r.next)
    decreases ns, 0
  {
    if ns != [] {
      var r := MountAll(ns[..|ns| - 1], parent, next);
      var m := Mount(ns[|ns| - 1], parent, r.next);
      MountAllFacts(ns[..|ns| - 1], parent, next);
      MountFacts(ns[|ns| - 1], parent, r.next);
      CreatedIdsAppend(r.ops, m.ops);
      RangeAppend(next, r.next, m.next);
      MountedAppend(r.nodes, m.node);
    }
  }

  /** Appending a mounted vnode keeps a list mounted, and strips to the stripped list plus it. */
  lemma MountedAppend(ns: seq<VNode>, v: VNode)
    requires AllMounted(ns) && Mounted(v)
    ensures AllMounted(ns + [v]) && StripAll(ns + [v]) == StripAll(ns) + [Strip(v)]
  {
    var all := ns + [v];
    assert all[..|all| - 1] == ns;
  }

  lemma {:induction false} RemovalsShape(ns: seq<VNode>)
    requires AllMounted(ns)
    ensures forall i | 0 <= i < |ns| :: Removals(ns)[i] == RemoveElement(ns[i].el.value)
    decreases |ns|
  {
    if ns != [] {
      var init := ns[..|ns| - 1];
      RemovalsShape(init);
      forall i | 0 <= i < |ns| - 1
        ensures Removals(ns)[i] == RemoveElement(ns[i].el.value)
      {
        assert init[i] == ns[i];
      }
    }
  }

  lemma {:induction false} ChangedPropsShape(el: HostNode, oldProps: seq<Prop>, newProps: seq<Prop>)
    ensures forall i | 0 <= i < |ChangedProps(el, oldProps, newProps)| ::
      ChangedProps(el, oldProps, newProps)[i].PatchProp? && ChangedProps(el, oldProps, newProps)[i].el == el
    decreases |newProps|
  {
    if newProps != [] {
      ChangedPropsShape(el, oldProps, newProps[..|newProps| - 1]);
    }
  }

  lemma {:induction false} RemovedPropsShape(el: HostNode, oldProps: seq<Prop>, newProps: seq<Prop>)
    ensures forall i | 0 <= i < |RemovedProps(el, oldProps, newProps)| ::
      RemovedProps(el, oldProps, newProps)[i].PatchProp? && RemovedProps(el, oldProps, newProps)[i].el == el
    decreases |oldProps|
  {
    if oldProps != [] {
      RemovedPropsShape(el, oldProps[..|oldProps| - 1], newProps);
    }
  }

  /** Patching props only calls `patchProps`, on the element given. */
  lemma PropOpsOnElement(el: HostNode, oldProps: seq<Prop>, newProps: seq<Prop>)
    ensures var ops := PropOps(el, oldProps, newProps);
      forall i | 0 <= i < |ops| :: ops[i].PatchProp? && ops[i].el == el
  {
    ChangedPropsShape(el, oldProps, newProps);
    RemovedPropsShape(el, oldProps, newProps);
  }

  /** Patching children leaves n2's children with their elements, creating elements numbered from next. */
  lemma PatchChildrenFacts(c1: Children, c2: Children, el: HostNode, next: nat)
    requires c1.Nodes? ==> AllMounted(c1.nodes)
    ensures var r := PatchChildrenOps(c1, c2, el, next);
      && StripChildren(r.children) == StripChildren(c2)
      && (r.children.Nodes? ==> AllMounted(r.children.nodes))
      && r.next >= next && CreatedIds(r.ops) == Range(next, r.next)
  {
    ClearFacts(c1, el);
    match c2 {
      case TextChildren(t) =>
        var unmountOld := if c1.Nodes? then Removals(c1.nodes) else [];
        assert CreatedIds([SetElementText(el, t)]) == [];
        CreatedIdsAppend(unmountOld, [SetElementText(el, t)]);
      case Nodes(ns) =>
        PatchNodesFacts(c1, ns, el, next);
      case NoChildren =>
    }
  }

  /** Neither unmounting the old children nor clearing the old text creates an element. */
  lemma ClearFacts(c1: Children, el: HostNode)
    requires c1.Nodes? ==> AllMounted(c1.nodes)
    ensures CreatedIds(if c1.Nodes? then Removals(c1.nodes) else []) == []
    ensures CreatedIds(if c1.Nodes? then Removals(c1.nodes) else [SetElementText(el, "")]) == []
    ensures CreatedIds([SetElementText(el, "")]) == []
  {
    if c1.Nodes? {
      RemovalsShape(c1.nodes);
      NoCreatesIds(Removals(c1.nodes));
    }
    assert CreatedIds([SetElementText(el, "")]) == [];
  }

  /** New array children: the old ones go, then every new one is mounted. */
  lemma PatchNodesFacts(c1: Children, ns: seq<VNode>, el: HostNode, next: nat)
    requires c1.Nodes? ==> AllMounted(c1.nodes)
    ensures var r := PatchChildrenOps(c1, Nodes(ns), el, next);
      && StripChildren(r.children) == StripChildren(Nodes(ns))
      && (r.children.Nodes? ==> AllMounted(r.children.nodes))
      && r.next >= next && CreatedIds(r.ops) == Range(next, r.next)
  {
    var clear := if c1.Nodes? then Removals(c1.nodes) else [SetElementText(el, "")];
    ClearFacts(c1, el);
    MountAllFacts(ns, el, next);
    CreatedIdsAppend(clear, MountAll(ns, el, next).ops);
  }

  /**
   * `patch` leaves the new tree with its elements and creates elements
   * numbered from next. A vnode of the old type keeps the old element; one
   * of another type removes the old element and then mounts.
   */
  lemma PatchFacts(n1: Option<VNode>, n2: VNode, parent: HostNode, next: nat)
    requires n1.Some? ==> Mounted(n1.value)
    ensures var r := PatchOps(n1, n2, parent, next);
      && Mounted(r.node) && Strip(r.node) == Strip(n2)
      && r.next >= next && CreatedIds(r.ops) == Range(next, r.next)
      && (n1.Some? && n1.value.tag == n2.tag ==> r.node.el == n1.value.el)
      && (n1.Some? && n1.value.tag != n2.tag ==> r.ops == [RemoveElement(n1.value.el.value)] + Mount(n2, parent, next).ops)
      && (n1.None? ==> r == Mount(n2, parent, next))
  {
    if n1.Some? && n1.value.tag == n2.tag {
      var el := n1.value.el.value;
      var c := PatchChildrenOps(n1.value.children, n2.children, el, next);
      PatchChildrenFacts(n1.value.children, n2.children, el, next);
      PropOpsOnElement(el, n1.value.props, n2.props);
      NoCreatesIds(PropOps(el, n1.value.props, n2.props));
      CreatedIdsAppend(PropOps(el, n1.value.props, n2.props), c.ops);
    } else {
      MountFacts(n2, parent, next);
      if n1.Some? {
        CreatedIdsAppend([RemoveElement(n1.value.el.value)], Mount(n2, parent, next).ops);
      }
    }
  }

  /** Over distinct keys, `props[key]` is the value stored under key. */
  lemma {:induction false} LookupFound(ps: seq<Prop>, key: string)
    requires DistinctKeys(ps)
    ensures forall i | 0 <= i < |ps| && ps[i].0 == key :: Lookup(ps, key) == Some(ps[i].1)
    ensures Lookup(ps, key).Some? ==> exists i | 0 <= i < |ps| :: ps[i] == (key, Lookup(ps, key).value)
    decreases |ps|
  {
    if ps != [] {
      var init := ps[..|ps| - 1];
      assert DistinctKeys(init) by {
        forall i, j | 0 <= i < j < |init|
          ensures init[i].0 != init[j].0
        {
          assert init[i] == ps[i] && init[j] == ps[j];
        }
      }
      LookupFound(init, key);
      if ps[|ps| - 1].0 != key && Lookup(init, key).Some? {
        var i :| 0 <= i < |init| && init[i] == (key, Lookup(init, key).value);
        assert ps[i] == init[i];
      }
      forall i | 0 <= i < |init| && ps[i].0 == key
        ensures Lookup(ps, key) == Some(ps[i].1)
      {
        assert init[i] == ps[i];
      }
    }
  }

  lemma {:induction false} ChangedPropsIn(el: HostNode, oldProps: seq<Prop>, newProps: seq<Prop>, op: HostOp)
    ensures op in ChangedProps(el, oldProps, newProps) <==>
      exists i | 0 <= i < |newProps| ::
        && Get(oldProps, newProps[i].0) != Some(newProps[i].1)
        && op == PatchProp(el, newProps[i].0, Get(oldProps, newProps[i].0), Some(newProps[i].1))
    decreases |newProps|
  {
    if newProps != [] {
      var init := newProps[..|newProps| - 1];
      ChangedPropsIn(el, oldProps, init, op);
      if exists i | 0 <= i < |init| ::
        && Get(oldProps, newProps[i].0) != Some(newProps[i].1)
        && op == PatchProp(el, newProps[i].0, Get(oldProps, newProps[i].0), Some(newProps[i].1))
      {
        var i :| 0 <= i < |init|
          && Get(oldProps, newProps[i].0) != Some(newProps[i].1)
          && op == PatchProp(el, newProps[i].0, Get(oldProps, newProps[i].0), Some(newProps[i].1));
        assert init[i] == newProps[i];
      }
      forall i | 0 <= i < |init|
        ensures init[i] == newProps[i]
      {
      }
    }
  }

  lemma {:induction false} RemovedPropsIn(el: HostNode, oldProps: seq<Prop>, newProps: seq<Prop>, op: HostOp)
    ensures op in RemovedProps(el, oldProps, newProps) <==>
      exists i | 0 <= i < |oldProps| ::
        && !Has(newProps, oldProps[i].0)
        && op == PatchProp(el, oldProps[i].0, Some(oldProps[i].1), None)
    decreases |oldProps|
  {
    if oldProps != [] {
      var init := oldProps[..|oldProps| - 1];
      RemovedPropsIn(el, init, newProps, op);
      if exists i | 0 <= i < |init| ::
        && !Has(newProps, oldProps[i].0)
        && op == PatchProp(el, oldProps[i].0, Some(oldProps[i].1), None)
      {
        var i :| 0 <= i < |init|
          && !Has(newProps, oldProps[i].0)
          && op == PatchProp(el, oldProps[i].0, Some(oldProps[i].1), None);
        assert init[i] == oldProps[i];
      }
      forall i | 0 <= i < |init|
        ensures init[i] == oldProps[i]
      {
      }
    }
  }

  /**
   * `patchProps(el, key, prev, next)` is called exactly for the keys of the
   * new props whose value is not `oldProps[key]` (prev is that value: the old
   * one, the inherited member, or undefined), and for the keys of the old
   * props that are not `in` the new ones (next is null); no other call is made.
   */
  lemma PropOpsExact(el: HostNode, oldProps: Props, newProps: Props, key: string, prev: Option<PropValue>, next: Option<PropValue>)
    ensures PatchProp(el, key, prev, next) in PropOps(el, oldProps, newProps) <==>
      || (next.Some? && next == Lookup(newProps, key) && prev == Get(oldProps, key) && prev != next)
      || (next.None? && !Has(newProps, key) && prev.Some? && prev == Lookup(oldProps, key))
  {
    var op := PatchProp(el, key, prev, next);
    ChangedPropsIn(el, oldProps, newProps, op);
    RemovedPropsIn(el, oldProps, newProps, op);
    LookupFound(newProps, key);
    LookupFound(oldProps, key);
  }

  /**
   * A key naming an `Object.prototype` member is `in` every props object, so
   * it is never patched to null; and when the old props lack it, a new value
   * is compared with, and patched from, the inherited member.
   */
  lemma InheritedKeys(el: HostNode, oldProps: Props, newProps: Props, key: string, prev: Option<PropValue>, next: Option<PropValue>)
    requires key in ProtoKeys
    ensures PatchProp(el, key, prev, None) !in PropOps(el, oldProps, newProps)
    ensures Lookup(oldProps, key).None? ==>
      (PatchProp(el, key, Some(Inherited(key)), next) in PropOps(el, oldProps, newProps) <==>
        next.Some? && next == Lookup(newProps, key) && next != Some(Inherited(key)))
  {
    PropOpsExact(el, oldProps, newProps, key, prev, None);
    PropOpsExact(el, oldProps, newProps, key, Some(Inherited(key)), next);
  }

  /** Props that did not change cause no `patchProps` call. */
  lemma PropOpsSame(el: HostNode, ps: Props)
    ensures PropOps(el, ps, ps) == []
  {
    if PropOps(el, ps, ps) != [] {
      var op := PropOps(el, ps, ps)[0];
      PropOpsOnElement(el, ps, ps);
      PropOpsExact(el, ps, ps, op.key, op.prev, op.next);
    }
  }

  /**
   * Rendering again a tree that describes the same element with text
   * children reuses the element and only sets its text again.
   */
  lemma RerenderText(m: VNode, v: VNode, parent: HostNode, next: nat)
    requires Mounted(m) && Strip(m) == Strip(v) && v.children.TextChildren?
    ensures PatchOps(Some(m), v, parent, next) == Mounting([SetElementText(m.el.value, v.children.text)], v.(el := m.el), next)
  {
    assert m.tag == v.tag && m.props == v.props;
    assert m.children == v.children;
    PropOpsSame(m.el.value, m.props);
  }
}
