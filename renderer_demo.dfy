/** A render, a patch and an unmount on one container, with the exact host calls each makes. */
module RendererDemo {
  import opened Seqs
  import opened Renderer

  const App := Container(0)
  const Div := Created(0)
  const Para := Created(1)

  /** `<div id="a">hi</div>` */
  function First(): (r: VNode) {
    VNode("div", [("id", Str("a"))], TextChildren("hi"), None)
  }

  /** `<div class="b"><p>x</p></div>` */
  function Second(): (r: VNode) {
    VNode("div", [("class", Str("b"))], Nodes([VNode("p", [], TextChildren("x"), None)]), None)
  }

  /** The first render mounts: create, props with prev null, text, insert into the container last. */
  function MountCalls(): (r: seq<HostOp>) {
    [CreateElement(Div, "div"), PatchProp(Div, "id", None, Some(Str("a"))), SetElementText(Div, "hi"), Insert(Div, App)]
  }

  /**
   * The second render keeps the div: the new prop, the removed prop patched
   * to null, the old text cleared, and the child mounted into the div.
   */
  function PatchCalls(): (r: seq<HostOp>) {
    [ PatchProp(Div, "class", None, Some(Str("b"))), PatchProp(Div, "id", Some(Str("a")), None),
      SetElementText(Div, ""), CreateElement(Para, "p"), SetElementText(Para, "x"), Insert(Para, Div) ]
  }

  lemma MountFirst()
    ensures PatchOps(None, First(), App, 0) == Mounting(MountCalls(), First().(el := Some(Div)), 1)
  {
    var ps := First().props;
    assert InitialProps(Div, ps) == [PatchProp(Div, "id", None, Some(Str("a")))];
  }

  lemma PropsSecond()
    ensures PropOps(Div, First().props, Second().props) == PatchCalls()[..2]
  {
    var o := First().props;
    var n := Second().props;
    assert Get(o, "class") == None;
    assert ChangedProps(Div, o, n) == [PatchProp(Div, "class", None, Some(Str("b")))];
    assert !Has(n, "id");
    assert RemovedProps(Div, o, n) == [PatchProp(Div, "id", Some(Str("a")), None)];
  }

  /**
   * Keys naming `Object.prototype` members: dropping an own `toString` makes
   * no call, since `"toString" in {}` holds, and a new `constructor` is
   * patched from the inherited `Object`.
   */
  lemma PrototypeKeys()
    ensures PropOps(Div, [("toString", Str("a"))], []) == []
    ensures PropOps(Div, [], [("constructor", Str("x"))]) == [PatchProp(Div, "constructor", Some(Inherited("constructor")), Some(Str("x")))]
  {
    assert Has([], "toString");
    assert RemovedProps(Div, [("toString", Str("a"))], []) == [];
    assert Get([], "constructor") == Some(Inherited("constructor"));
    assert ChangedProps(Div, [], [("constructor", Str("x"))]) == [PatchProp(Div, "constructor", Some(Inherited("constructor")), Some(Str("x")))];
  }

  lemma ChildrenSecond()
    ensures PatchChildrenOps(First().children, Second().children, Div, 1).ops == PatchCalls()[2..]
  {
    var p := VNode("p", [], TextChildren("x"), None);
    assert InitialProps(Para, []) == [];
    assert Mount(p, Div, 1).ops == [CreateElement(Para, "p"), SetElementText(Para, "x"), Insert(Para, Div)];
    assert [p][..0] == [];
    assert MountAll([p], Div, 1).ops == Mount(p, Div, 1).ops;
  }

  lemma PatchSecond()
    ensures PatchOps(Some(First().(el := Some(Div))), Second(), App, 1).ops == PatchCalls()
  {
    PropsSecond();
    ChildrenSecond();
    assert PatchCalls() == PatchCalls()[..2] + PatchCalls()[2..];
  }

  /** Mount, patch, then `render(null, container)`: the whole call log. */
  method Scenario() returns (calls: seq<HostOp>, stored: bool)
    ensures calls == MountCalls() + PatchCalls() + [RemoveElement(Div)]
    ensures !stored
  {
    var r := new HostRenderer();
    MountFirst();
    r.Render(Some(First()), App);
    assert r.vnodes[App] == First().(el := Some(Div));
    PatchSecond();
    r.Render(Some(Second()), App);
    assert r.vnodes[App].el == Some(Div);
    r.Render(None, App);
    calls := r.log;
    stored := App in r.vnodes;
  }
}
