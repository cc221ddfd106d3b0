/**
 * Model of compiler.js: a toy template compiler. `tokenize` is a six-state
 * machine over characters, `parse` builds a tree with an element stack,
 * `transform` attaches a JavaScript AST to every node through enter and exit
 * hooks, and `generate` prints that AST with an indentation counter.
 */
module Compiler {
  import opened Seqs

  // ---------------------------------------------------------------------------
  // Tokenizer (compiler.js:1-91)

  datatype State = Initial | TagOpen | TagName | TagEnd | Text | TagEndName

  datatype Token = TagTok(name: string) | TextTok(content: string) | TagEndTok(name: string)

  /** `isAlpha` (compiler.js:10-12): an ASCII letter. */
  predicate IsAlpha(c: char) {
    ('a' <= c <= 'z') || ('A' <= c <= 'Z')
  }

  predicate AllAlpha(s: string) {
    forall i | 0 <= i < |s| :: IsAlpha(s[i])
  }

  /** The locals of `tokenize` between two iterations: `currentState`, `chars` and `tokens`. */
  datatype Lexer = Lexer(state: State, chars: string, tokens: seq<Token>)

  const Start := Lexer(Initial, [], [])

  /** Whether the iteration on c consumes it: in `tagEnd` only a letter is sliced off (compiler.js:54-60). */
  predicate Advances(m: Lexer, c: char) {
    m.state != TagEnd || IsAlpha(c)
  }

  /**
   * One iteration of the loop on the first character c (compiler.js:21-86).
   * An iteration that does not consume c changes nothing either, so the loop
   * would repeat it forever.
   */
  function Step(m: Lexer, c: char): (r: Lexer)
    ensures !Advances(m, c) ==> r == m
  {
    match m.state
    case Initial =>
      if c == '<' then m.(state := TagOpen)
      else if IsAlpha(c) then m.(state := Text, chars := m.chars + [c])
      else m
    case TagOpen =>
      if c == '/' then m.(state := TagEnd)
      else if IsAlpha(c) then m.(state := TagName, chars := m.chars + [c])
      else m
    case TagName =>
      if c == '>' then Lexer(Initial, [], m.tokens + [TagTok(m.chars)])
      else if IsAlpha(c) then m.(chars := m.chars + [c])
      else m
    case TagEnd =>
      if IsAlpha(c) then m.(state := TagEndName, chars := m.chars + [c]) else m
    case Text =>
      if IsAlpha(c) then m.(chars := m.chars + [c])
      else if c == '<' then Lexer(TagOpen, [], m.tokens + [TextTok(m.chars)])
      else m
    case TagEndName =>
      if c == '>' then Lexer(Initial, [], m.tokens + [TagEndTok(m.chars)])
      else if IsAlpha(c) then m.(chars := m.chars + [c])
      else m
  }

  /** The locals once `str` is used up, or None when the loop never ends. */
  function Lex(m: Lexer, s: string): (r: Option<Lexer>)
    decreases |s|
  {
    if s == [] then Some(m)
    else if !Advances(m, s[0]) then None
    else Lex(Step(m, s[0]), s[1..])
  }

  /** What `tokenize(str)` returns; None when it never returns. */
  function TokensOf(str: string): (r: Option<seq<Token>>) {
    match Lex(Start, str)
    case None => None
    case Some(m) => Some(m.tokens)
  }

  /** `tokenize` (compiler.js:14-91). Where the source would loop forever, the model returns None. */
  method Tokenize(str: string) returns (r: Option<seq<Token>>)
    ensures r == TokensOf(str)
  {
    var currentState := Initial;
    var chars: string := [];
    var tokens: seq<Token> := [];
    var s := str;
    while s != []
      invariant Lex(Start, str) == Lex(Lexer(currentState, chars, tokens), s)
      decreases |s|
    {
      var c := s[0];
      match currentState
      case Initial =>
        if c == '<' {
          currentState := TagOpen;
        } else if IsAlpha(c) {
          currentState := Text;
          chars := chars + [c];
        }
        s := s[1..];
      case TagOpen =>
        if c == '/' {
          currentState := TagEnd;
        } else if IsAlpha(c) {
          currentState := TagName;
          chars := chars + [c];
        }
        s := s[1..];
      case TagName =>
        if c == '>' {
          currentState := Initial;
          tokens := tokens + [TagTok(chars)];
          chars := [];
        } else if IsAlpha(c) {
          chars := chars + [c];
        }
        s := s[1..];
      case TagEnd =>
        if IsAlpha(c) {
          currentState := TagEndName;
          chars := chars + [c];
          s := s[1..];
        } else {
          // Nothing changes in this iteration, so the source repeats it forever.
          return None;
        }
      case Text =>
        if IsAlpha(c) {
          chars := chars + [c];
        } else if c == '<' {
          currentState := TagOpen;
          tokens := tokens + [TextTok(chars)];
          chars := [];
        }
        s := s[1..];
      case TagEndName =>
        if c == '>' {
          currentState := Initial;
          tokens := tokens + [TagEndTok(chars)];
          chars := [];
        } else if IsAlpha(c) {
          chars := chars + [c];
        }
        s := s[1..];
    }
    r := Some(tokens);
  }

  /** A token the tokenizer can produce: a non-empty run of ASCII letters. */
  predicate WellFormed(t: Token) {
    var s := match t case TagTok(n) => n case TextTok(c) => c case TagEndTok(n) => n;
    |s| > 0 && AllAlpha(s)
  }

  /** The buffer holds letters only, and is empty exactly in the states that have not started a name or text. */
  predicate LexerOk(m: Lexer) {
    && AllAlpha(m.chars)
    && (m.chars == [] <==> m.state in {Initial, TagOpen, TagEnd})
    && forall i | 0 <= i < |m.tokens| :: WellFormed(m.tokens[i])
  }

  lemma StepOk(m: Lexer, c: char)
    requires LexerOk(m)
    ensures LexerOk(Step(m, c))
  {
  }

  lemma {:induction false} LexOk(m: Lexer, s: string)
    requires LexerOk(m)
    ensures Lex(m, s).Some? ==> LexerOk(Lex(m, s).value)
    decreases |s|
  {
    if s != [] && Advances(m, s[0]) {
      StepOk(m, s[0]);
      LexOk(Step(m, s[0]), s[1..]);
    }
  }

  /** Every token is a non-empty string of ASCII letters; every other character was dropped. */
  lemma TokensWellFormed(str: string)
    ensures TokensOf(str).Some? ==> forall i | 0 <= i < |TokensOf(str).value| :: WellFormed(TokensOf(str).value[i])
  {
    LexOk(Start, str);
  }

  /** Without a `<` the machine never leaves `initial`/`text`, so trailing text never becomes a token. */
  lemma {:induction false} NoAngleNoTokens(m: Lexer, s: string)
    requires m.state in {Initial, Text} && '<' !in s
    ensures Lex(m, s).Some? && Lex(m, s).value.tokens == m.tokens
    decreases |s|
  {
    if s != [] {
      assert s[0] in s;
      assert forall c | c in s[1..] :: c in s;
      NoAngleNoTokens(Step(m, s[0]), s[1..]);
    }
  }

  /** Text with no `<` after it yields no tokens at all. */
  lemma TextOnly(str: string)
    requires '<' !in str
    ensures TokensOf(str) == Some([])
  {
    NoAngleNoTokens(Start, str);
  }

  /** `</` followed by a non-letter stalls the machine: `tokenize` never returns. */
  lemma StrayClose(c: char, rest: string)
    requires !IsAlpha(c)
    ensures TokensOf("</" + [c] + rest) == None
  {
    var s := "</" + [c] + rest;
    assert s[0] == '<' && s[1..][0] == '/' && s[1..][1..][0] == c;
    assert Lex(Start, s) == Lex(Lexer(TagOpen, [], []), s[1..]);
    assert Lex(Lexer(TagOpen, [], []), s[1..]) == Lex(Lexer(TagEnd, [], []), s[1..][1..]);
  }

  /** The text of an opening and of a closing tag. */
  function OpenTag(name: string): (r: string) { "<" + name + ">" }

  function CloseTag(name: string): (r: string) { "</" + name + ">" }

  /** The loop consumes `str` from the front: lexing a + b is lexing a, then b from where a left off. */
  lemma {:induction false} LexAppend(m: Lexer, a: string, b: string)
    ensures Lex(m, a + b) == match Lex(m, a) case None => None case Some(m') => Lex(m', b)
    decreases |a|
  {
    if a == [] {
      assert a + b == b;
    } else {
      assert (a + b)[0] == a[0] && (a + b)[1..] == a[1..] + b;
      if Advances(m, a[0]) {
        LexAppend(Step(m, a[0]), a[1..], b);
      }
    }
  }

  /** Letters extend the name or text being read. */
  lemma {:induction false} LexLetters(m: Lexer, w: string)
    requires m.state in {TagName, Text, TagEndName} && AllAlpha(w)
    ensures Lex(m, w) == Some(m.(chars := m.chars + w))
    decreases |w|
  {
    if w == [] {
      assert m.chars + w == m.chars;
    } else {
      LexLetters(Step(m, w[0]), w[1..]);
      assert m.chars + [w[0]] + w[1..] == m.chars + w;
    }
  }

  /** One iteration that consumes the first character. */
  lemma LexFirst(m: Lexer, s: string)
    requires s != [] && Advances(m, s[0])
    ensures Lex(m, s) == Lex(Step(m, s[0]), s[1..])
  {
  }

  /** `<name>` yields one tag token and leaves the machine in `initial`. */
  lemma LexOpenTag(ts: seq<Token>, name: string)
    requires name != [] && AllAlpha(name)
    ensures Lex(Lexer(Initial, [], ts), OpenTag(name)) == Some(Lexer(Initial, [], ts + [TagTok(name)]))
  {
    var s := "<" + name + ">";
    assert s[0] == '<' && s[1..] == name + ">";
    LexFirst(Lexer(Initial, [], ts), s);
    var m1 := Lexer(TagOpen, [], ts);
    assert IsAlpha(name[0]);
    assert (name + ">")[0] == name[0] && (name + ">")[1..] == name[1..] + ">";
    LexFirst(m1, name + ">");
    var m2 := Lexer(TagName, [name[0]], ts);
    assert Step(m1, name[0]) == m2;
    LexAppend(m2, name[1..], ">");
    LexLetters(m2, name[1..]);
    assert [name[0]] + name[1..] == name;
  }
  /** After `<`, the rest of a closing tag `/name>` yields one end-tag token. */
  lemma LexCloseRest(ts: seq<Token>, name: string)
    requires name != [] && AllAlpha(name)
    ensures Lex(Lexer(TagOpen, [], ts), "/" + name + ">") == Some(Lexer(Initial, [], ts + [TagEndTok(name)]))
  {
    var s := "/" + name + ">";
    assert s[0] == '/' && s[1..] == name + ">";
    LexFirst(Lexer(TagOpen, [], ts), s);
    var m1 := Lexer(TagEnd, [], ts);
    assert IsAlpha(name[0]);
    assert (name + ">")[0] == name[0] && (name + ">")[1..] == name[1..] + ">";
    LexFirst(m1, name + ">");
    var m2 := Lexer(TagEndName, [name[0]], ts);
    assert Step(m1, name[0]) == m2;
    LexAppend(m2, name[1..], ">");
    LexLetters(m2, name[1..]);
    assert [name[0]] + name[1..] == name;
  }

  /** `</name>` yields one end-tag token and leaves the machine in `initial`. */
  lemma LexCloseTag(ts: seq<Token>, name: string)
    requires name != [] && AllAlpha(name)
    ensures Lex(Lexer(Initial, [], ts), CloseTag(name)) == Some(Lexer(Initial, [], ts + [TagEndTok(name)]))
  {
    var s := "</" + name + ">";
    assert s[0] == '<' && s[1..] == "/" + name + ">";
    LexFirst(Lexer(Initial, [], ts), s);
    LexCloseRest(ts, name);
  }

  /** Text followed by a closing tag yields the text token, then the end-tag token. */
  lemma LexTextClose(ts: seq<Token>, text: string, name: string)
    requires text != [] && AllAlpha(text) && name != [] && AllAlpha(name)
    ensures Lex(Lexer(Initial, [], ts), text + CloseTag(name))
         == Some(Lexer(Initial, [], ts + [TextTok(text), TagEndTok(name)]))
  {
    var m0 := Lexer(Initial, [], ts);
    var rest := "</" + name + ">";
    assert IsAlpha(text[0]);
    assert (text + rest)[0] == text[0] && (text + rest)[1..] == text[1..] + rest;
    LexFirst(m0, text + rest);
    var m1 := Lexer(Text, [text[0]], ts);
    assert Step(m0, text[0]) == m1;
    LexAppend(m1, text[1..], rest);
    LexLetters(m1, text[1..]);
    assert [text[0]] + text[1..] == text;
    var m2 := Lexer(Text, text, ts);
    assert Lex(m1, text[1..]) == Some(m2);
    assert Lex(m0, text + rest) == Lex(m2, rest);
    assert rest[0] == '<' && rest[1..] == "/" + name + ">";
    LexFirst(m2, rest);
    assert Step(m2, '<') == Lexer(TagOpen, [], ts + [TextTok(text)]);
    LexCloseRest(ts + [TextTok(text)], name);
    assert Lex(m2, rest) == Lex(Lexer(TagOpen, [], ts + [TextTok(text)]), "/" + name + ">");
    assert Lex(m0, text + rest) == Some(Lexer(Initial, [], ts + [TextTok(text)] + [TagEndTok(name)]));
    assert text + CloseTag(name) == text + rest;
    assert ts + [TextTok(text)] + [TagEndTok(name)] == ts + [TextTok(text), TagEndTok(name)];
  }

  // ---------------------------------------------------------------------------
  // Parser (compiler.js:93-133)

  /** A template node below the root. */
  datatype Node = Element(tag: string, children: seq<Node>) | TextNode(content: string)

  /** The `Root` node `parse` returns. */
  datatype Root = Root(children: seq<Node>)

  /**
   * An element on `elementStack` with the children it has so far. The source
   * appends an element to its parent when it opens and fills it in through
   * the alias on the stack; the model attaches it when it is popped.
   */
  datatype Frame = Frame(tag: string, children: seq<Node>)

  /**
   * The state of `parse` between tokens: the stack (root frame first), the
   * root alone once a `tagEnd` popped it, or the TypeError of reading
   * `children` of an undefined parent.
   */
  datatype Builder = Open(frames: seq<Frame>) | Closed(rootChildren: seq<Node>) | Failed

  const Begin := Open([Frame("", [])])

  /** `parent.children.push(n)` on the stack top. */
  function AddChild(fs: seq<Frame>, n: Node): (r: seq<Frame>)
    requires fs != []
    ensures |r| == |fs| && r[..|fs| - 1] == fs[..|fs| - 1]
    ensures r[|fs| - 1] == Frame(fs[|fs| - 1].tag, fs[|fs| - 1].children + [n])
  {
    fs[..|fs| - 1] + [Frame(fs[|fs| - 1].tag, fs[|fs| - 1].children + [n])]
  }

  /** `elementStack.pop()` of an element: it becomes a finished child of the new top. */
  function Pop(fs: seq<Frame>): (r: seq<Frame>)
    requires |fs| >= 2
  {
    AddChild(fs[..|fs| - 1], Element(fs[|fs| - 1].tag, fs[|fs| - 1].children))
  }

  /** The tree the aliases show at the end: every open element is inside its parent. */
  function CloseAll(fs: seq<Frame>): (r: seq<Node>)
    requires fs != []
    decreases |fs|
  {
    if |fs| == 1 then fs[0].children else CloseAll(Pop(fs))
  }

  /** One iteration of `parse`'s loop (compiler.js:101-131). */
  function Feed(b: Builder, t: Token): (r: Builder) {
    match b
    case Failed => Failed
    case Closed(_) => if t.TagEndTok? then b else Failed
    case Open(fs) =>
      if fs == [] then Failed
      else match t
        case TagTok(name) => Open(fs + [Frame(name, [])])
        case TextTok(content) => Open(AddChild(fs, TextNode(content)))
        case TagEndTok(_) => if |fs| == 1 then Closed(fs[0].children) else Open(Pop(fs))
  }

  function FeedAll(b: Builder, ts: seq<Token>): (r: Builder)
    decreases |ts|
  {
    if ts == [] then b else FeedAll(Feed(b, ts[0]), ts[1..])
  }

  function Finish(b: Builder): (r: Option<Root>) {
    match b
    case Open(fs) => if fs == [] then None else Some(Root(CloseAll(fs)))
    case Closed(cs) => Some(Root(cs))
    case Failed => None
  }

  lemma {:induction false} FailedStays(ts: seq<Token>)
    ensures FeedAll(Failed, ts) == Failed
    decreases |ts|
  {
    if ts != [] {
      FailedStays(ts[1..]);
    }
  }

  /** The root `parse(tokens)` returns; None when it throws. */
  function ParseTokens(ts: seq<Token>): (r: Option<Root>) {
    Finish(FeedAll(Begin, ts))
  }

  /** `parse` (compiler.js:93-133). */
  method Parse(tokens: seq<Token>) returns (root: Option<Root>)
    ensures root == ParseTokens(tokens)
  {
    var elementStack: seq<Frame> := [Frame("", [])];
    var popped: seq<Node> := [];
    var i := 0;
    while i < |tokens|
      invariant 0 <= i <= |tokens|
      invariant FeedAll(Begin, tokens) == FeedAll(if elementStack == [] then Closed(popped) else Open(elementStack), tokens[i..])
    {
      assert tokens[i..] == [tokens[i]] + tokens[i + 1..];
      var t := tokens[i];
      if elementStack == [] {
        if !t.TagEndTok? {
          // `parent` is undefined: reading its `children` throws.
          FailedStays(tokens[i + 1..]);
          return None;
        }
      } else {
        match t
        case TagTok(name) =>
          elementStack := elementStack + [Frame(name, [])];
        case TextTok(content) =>
          elementStack := AddChild(elementStack, TextNode(content));
        case TagEndTok(_) =>
          if |elementStack| == 1 {
            popped := elementStack[0].children;
            elementStack := [];
          } else {
            elementStack := Pop(elementStack);
          }
      }
      i := i + 1;
    }
    if elementStack == [] {
      root := Some(Root(popped));
    } else {
      root := Some(Root(CloseAll(elementStack)));
    }
  }

  /** The tokens of a well-nested template: an element is its open tag, its children, its close tag. */
  function Serialize(n: Node): (r: seq<Token>) {
    match n
    case Element(tag, cs) => [TagTok(tag)] + SerializeAll(cs) + [TagEndTok(tag)]
    case TextNode(c) => [TextTok(c)]
  }

  function SerializeAll(ns: seq<Node>): (r: seq<Token>)
    decreases ns
  {
    if ns == [] then [] else Serialize(ns[0]) + SerializeAll(ns[1..])
  }

  /** The stack after children ns were added to its top, one by one. */
  function AddChildren(fs: seq<Frame>, ns: seq<Node>): (r: seq<Frame>)
    requires fs != []
    ensures r == fs[..|fs| - 1] + [Frame(fs[|fs| - 1].tag, fs[|fs| - 1].children + ns)]
    decreases |ns|
  {
    if ns == [] then
      assert fs[|fs| - 1].children + ns == fs[|fs| - 1].children;
      assert fs == fs[..|fs| - 1] + [fs[|fs| - 1]];
      fs
    else
      var r := AddChildren(AddChild(fs, ns[0]), ns[1..]);
      assert fs[|fs| - 1].children + [ns[0]] + ns[1..] == fs[|fs| - 1].children + ns;
      r
  }

  lemma {:induction false} FeedAllAppend(b: Builder, a: seq<Token>, c: seq<Token>)
    ensures FeedAll(b, a + c) == FeedAll(FeedAll(b, a), c)
    decreases |a|
  {
    if a != [] {
      assert (a + c)[0] == a[0] && (a + c)[1..] == a[1..] + c;
      FeedAllAppend(Feed(b, a[0]), a[1..], c);
    } else {
      assert a + c == c;
    }
  }

  /** Feeding the tokens of a node adds that node under the stack top. */
  lemma {:induction false} FeedSerialize(fs: seq<Frame>, n: Node)
    requires fs != []
    ensures FeedAll(Open(fs), Serialize(n)) == Open(AddChild(fs, n))
    decreases n, 1
  {
    match n
    case TextNode(c) =>
    case Element(tag, cs) =>
      var pushed := fs + [Frame(tag, [])];
      FeedAllAppend(Open(fs), [TagTok(tag)], SerializeAll(cs) + [TagEndTok(tag)]);
      assert [TagTok(tag)] + SerializeAll(cs) + [TagEndTok(tag)] == [TagTok(tag)] + (SerializeAll(cs) + [TagEndTok(tag)]);
      FeedAllAppend(Open(pushed), SerializeAll(cs), [TagEndTok(tag)]);
      FeedSerializeAll(pushed, cs);
      var filled := AddChildren(pushed, cs);
      assert filled[..|filled| - 1] == fs;
      assert [] + cs == cs;
  }

  /** Feeding the tokens of ns adds them, in order, under the stack top. */
  lemma {:induction false} FeedSerializeAll(fs: seq<Frame>, ns: seq<Node>)
    requires fs != []
    ensures FeedAll(Open(fs), SerializeAll(ns)) == Open(AddChildren(fs, ns))
    decreases ns, 0
  {
    if ns != [] {
      FeedAllAppend(Open(fs), Serialize(ns[0]), SerializeAll(ns[1..]));
      FeedSerialize(fs, ns[0]);
      FeedSerializeAll(AddChild(fs, ns[0]), ns[1..]);
    }
  }

  /** `tagEnd` pops the stack top whatever its name: `<a></b>` parses as the element a. */
  lemma {:induction false} EndTagUnchecked(a: string, b: string)
    ensures ParseTokens([TagTok(a), TagEndTok(b)]) == Some(Root([Element(a, [])]))
  {
    var ts := [TagTok(a), TagEndTok(b)];
    var fs := [Frame("", []), Frame(a, [])];
    assert Feed(Begin, ts[0]) == Open(fs);
    assert Feed(Open(fs), ts[1]) == Open(Pop(fs));
    assert fs[..1] == [Frame("", [])];
    assert [] + [Element(a, [])] == [Element(a, [])];
    assert Pop(fs) == [Frame("", [Element(a, [])])];
    assert ts[1..][1..] == [];
    assert FeedAll(Begin, ts) == FeedAll(Open(fs), ts[1..]);
    assert FeedAll(Open(fs), ts[1..]) == FeedAll(Open(Pop(fs)), []);
  }

  /** `parse` inverts serialization: well-nested tokens give back the tree they came from. */
  lemma ParseSerialized(ns: seq<Node>)
    ensures ParseTokens(SerializeAll(ns)) == Some(Root(ns))
  {
    FeedSerializeAll([Frame("", [])], ns);
    assert [] + ns == ns;
  }

  // ---------------------------------------------------------------------------
  // Transform (compiler.js:151-274)

  /** The JavaScript AST nodes built by the `create*` helpers and `transformRoot` (compiler.js:247-274, 185-196). */
  datatype Js =
    | FunctionDecl(id: string, params: seq<Js>, body: seq<Js>)
    | ReturnStatement(ret: Js)
    | CallExpression(callee: string, arguments: seq<Js>)
    | StringLiteral(value: string)
    | ArrayExpression(elements: seq<Js>)

  /**
   * The `jsNode` the transform attaches to a node: a string literal for text
   * (compiler.js:219-225), `h(tag, child)` for an element with exactly one
   * child and `h(tag, [children])` otherwise (compiler.js:200-217).
   */
  function JsOf(n: Node): (r: Js)
    decreases n, 1
  {
    match n
    case TextNode(c) => StringLiteral(c)
    case Element(tag, cs) => CallExpression("h", [StringLiteral(tag)] + ChildArg(cs))
  }

  function ChildArg(cs: seq<Node>): (r: seq<Js>)
    decreases cs, 2
  {
    if |cs| == 1 then [JsOf(cs[0])] else [ArrayExpression(JsOfAll(cs))]
  }

  function JsOfAll(ns: seq<Node>): (r: seq<Js>)
    ensures |r| == |ns|
    decreases ns, 0
  {
    if ns == [] then [] else JsOfAll(ns[..|ns| - 1]) + [JsOf(ns[|ns| - 1])]
  }

  /** The `render` function declaration `transformRoot` attaches; None when the root has no child to return. */
  function RenderDecl(r: Root): (res: Option<Js>) {
    if r.children == [] then None
    else Some(FunctionDecl("render", [], [ReturnStatement(JsOf(r.children[0]))]))
  }

  /** The exit hooks returned by `transformRoot` and `transformElement`, in registration order. */
  datatype Hook = RootExit | ElementExit

  /** Which node an exit hook was called for. */
  datatype Visited = AtRoot | AtNode(node: Node)

  /** The exit hooks called while traversing n, in call order: its subtree's first, then its own in reverse. */
  function ExitTrace(n: Node): (r: seq<(Hook, Visited)>)
    decreases n, 1
  {
    match n
    case TextNode(_) => [(ElementExit, AtNode(n)), (RootExit, AtNode(n))]
    case Element(_, cs) => ExitTraceAll(cs) + [(ElementExit, AtNode(n)), (RootExit, AtNode(n))]
  }

  function ExitTraceAll(ns: seq<Node>): (r: seq<(Hook, Visited)>)
    decreases ns, 0
  {
    if ns == [] then [] else ExitTraceAll(ns[..|ns| - 1]) + ExitTrace(ns[|ns| - 1])
  }

  /** The traversal state: the exit hooks called so far. */
  class Transformer {
    var exitLog: seq<(Hook, Visited)>

    constructor ()
      ensures exitLog == []
    {
      exitLog := [];
    }

    /** An exit hook of a node below the root: only `transformElement`'s acts, and only on an element. */
    method ExitNode(h: Hook, n: Node, childJs: seq<Js>, js: Option<Js>) returns (r: Option<Js>)
      modifies this
      ensures exitLog == old(exitLog) + [(h, AtNode(n))]
      ensures r == if h == ElementExit && n.Element? then
        Some(CallExpression("h", [StringLiteral(n.tag)] + if |childJs| == 1 then [childJs[0]] else [ArrayExpression(childJs)]))
        else js
    {
      exitLog := exitLog + [(h, AtNode(n))];
      r := js;
      if h == ElementExit && n.Element? {
        var args := [StringLiteral(n.tag)];
        if |childJs| == 1 {
          args := args + [childJs[0]];
        } else {
          args := args + [ArrayExpression(childJs)];
        }
        r := Some(CallExpression("h", args));
      }
    }

    /**
     * `traverseNode` (compiler.js:151-177) on a node below the root: enter
     * every transform, traverse the children, then call the exit hooks in
     * reverse order of registration.
     */
    method TraverseNode(n: Node) returns (js: Js)
      modifies this
      ensures js == JsOf(n)
      ensures exitLog == old(exitLog) + ExitTrace(n)
      decreases n
    {
      // transformRoot and transformElement return exit hooks; transformText acts on entry.
      var exitFns := [RootExit, ElementExit];
      var own: Option<Js> := if n.TextNode? then Some(StringLiteral(n.content)) else None;
      var children := if n.Element? then n.children else [];
      var childJs: seq<Js> := [];
      var i := 0;
      while i < |children|
        invariant 0 <= i <= |children|
        invariant childJs == JsOfAll(children[..i])
        invariant exitLog == old(exitLog) + ExitTraceAll(children[..i])
      {
        assert children[..i + 1][..i] == children[..i];
        var c := TraverseNode(children[i]);
        childJs := childJs + [c];
        i := i + 1;
      }
      assert children[..i] == children;
      ghost var mid := exitLog;
      var k := |exitFns|;
      while k > 0
        invariant 0 <= k <= 2
        invariant k == 2 ==> exitLog == mid && own == (if n.TextNode? then Some(StringLiteral(n.content)) else None)
        invariant k < 2 ==> own == Some(JsOf(n))
        invariant k == 1 ==> exitLog == mid + [(ElementExit, AtNode(n))]
        invariant k == 0 ==> exitLog == mid + [(ElementExit, AtNode(n)), (RootExit, AtNode(n))]
      {
        k := k - 1;
        own := ExitNode(exitFns[k], n, childJs, own);
      }
      js := own.value;
    }

    /** `traverseNode` on the root: the same walk, and `transformRoot`'s exit hook builds `render`. */
    method TraverseRoot(r: Root) returns (js: Option<Js>)
      modifies this
      ensures js == RenderDecl(r)
      ensures exitLog == old(exitLog) + ExitTraceAll(r.children) + [(ElementExit, AtRoot), (RootExit, AtRoot)]
    {
      var children := r.children;
      var childJs: seq<Js> := [];
      var i := 0;
      while i < |children|
        invariant 0 <= i <= |children|
        invariant childJs == JsOfAll(children[..i])
        invariant exitLog == old(exitLog) + ExitTraceAll(children[..i])
      {
        assert children[..i + 1][..i] == children[..i];
        var c := TraverseNode(children[i]);
        childJs := childJs + [c];
        i := i + 1;
      }
      assert children[..i] == children;
      // transformElement's exit hook ignores the root.
      exitLog := exitLog + [(ElementExit, AtRoot)];
      // transformRoot's exit hook reads `node.children[0].jsNode`.
      exitLog := exitLog + [(RootExit, AtRoot)];
      if childJs == [] {
        js := None;
      } else {
        FirstJs(children);
        js := Some(FunctionDecl("render", [], [ReturnStatement(childJs[0])]));
      }
    }
  }

  lemma {:induction false} FirstJs(ns: seq<Node>)
    requires ns != []
    ensures JsOfAll(ns)[0] == JsOf(ns[0])
    decreases |ns|
  {
    if |ns| > 1 {
      FirstJs(ns[..|ns| - 1]);
    }
  }

  /**
   * Exit hooks of a node run after every hook of its subtree, the element's
   * before the root's: child i's trace sits, contiguous, at index k, before
   * the node's own two exit calls.
   */
  lemma ExitsAfterChildren(tag: string, cs: seq<Node>, i: nat) returns (k: nat)
    requires i < |cs|
    ensures var t := ExitTrace(Element(tag, cs));
      && t[|t| - 2..] == [(ElementExit, AtNode(Element(tag, cs))), (RootExit, AtNode(Element(tag, cs)))]
      && k + |ExitTrace(cs[i])| <= |t| - 2 && t[k..k + |ExitTrace(cs[i])|] == ExitTrace(cs[i])
  {
    var t := ExitTrace(Element(tag, cs));
    k := InTraceAll(cs, i);
    assert t[k..k + |ExitTrace(cs[i])|] == ExitTraceAll(cs)[k..k + |ExitTrace(cs[i])|];
  }

  lemma {:induction false} InTraceAll(ns: seq<Node>, i: nat) returns (k: nat)
    requires i < |ns|
    ensures k + |ExitTrace(ns[i])| <= |ExitTraceAll(ns)| && ExitTraceAll(ns)[k..k + |ExitTrace(ns[i])|] == ExitTrace(ns[i])
    decreases |ns|
  {
    var init := ns[..|ns| - 1];
    if i == |ns| - 1 {
      k := |ExitTraceAll(init)|;
      assert ExitTraceAll(ns)[k..k + |ExitTrace(ns[i])|] == ExitTrace(ns[i]);
    } else {
      assert init[i] == ns[i];
      k := InTraceAll(init, i);
      assert ExitTraceAll(ns)[k..k + |ExitTrace(ns[i])|] == ExitTraceAll(init)[k..k + |ExitTrace(ns[i])|];
    }
  }

  // ---------------------------------------------------------------------------
  // Code generation (compiler.js:276-369)

  function Repeat(s: string, n: nat): (r: string)
    ensures |r| == |s| * n
  {
    if n == 0 then [] else s + Repeat(s, n - 1)
  }

  /** `newline()`: a line break and two spaces per indentation level. */
  function Newline(indent: nat): (r: string) {
    "\n" + Repeat("  ", indent)
  }

  /** The parts joined with sep between neighbours. */
  function Join(parts: seq<string>, sep: string): (r: string)
    decreases |parts|
  {
    if parts == [] then []
    else if |parts| == 1 then parts[0]
    else Join(parts[..|parts| - 1], sep) + sep + parts[|parts| - 1]
  }

  function SumLengths(parts: seq<string>): (r: nat)
    decreases |parts|
  {
    if parts == [] then 0 else SumLengths(parts[..|parts| - 1]) + |parts[|parts| - 1]|
  }

  /** n parts are joined with exactly n - 1 separators. */
  lemma {:induction false} JoinLength(parts: seq<string>, sep: string)
    requires parts != []
    ensures |Join(parts, sep)| == SumLengths(parts) + (|parts| - 1) * |sep|
    decreases |parts|
  {
    var k := |parts| - 1;
    if k > 0 {
      var init := parts[..k];
      JoinLength(init, sep);
      assert |Join(parts, sep)| == |Join(init, sep)| + |sep| + |parts[k]|;
      assert SumLengths(parts) == SumLengths(init) + |parts[k]|;
      MulStep(k - 1, |sep|);
    } else {
      assert parts[..0] == [];
    }
  }

  lemma MulStep(a: nat, b: nat)
    ensures (a + 1) * b == a * b + b
  {
  }

  /** The text `genNode` emits for n at indentation level indent (compiler.js:299-346). */
  function Emit(n: Js, indent: nat): (code: string)
    decreases n, 1
  {
    match n
    case FunctionDecl(id, params, body) =>
      "function " + id + " " + "(" + EmitList(params, indent) + ") " + "{"
      + Newline(indent + 1) + EmitBody(body, indent + 1) + Newline(indent) + "}"
    case ReturnStatement(r) => "return " + Emit(r, indent)
    case CallExpression(callee, args) => callee + "(" + EmitList(args, indent) + ")"
    case StringLiteral(v) => "'" + v + "'"
    case ArrayExpression(es) => "[" + EmitList(es, indent) + "]"
  }

  function EmitAll(ns: seq<Js>, indent: nat): (r: seq<string>)
    ensures |r| == |ns|
    decreases ns, 0
  {
    if ns == [] then [] else EmitAll(ns[..|ns| - 1], indent) + [Emit(ns[|ns| - 1], indent)]
  }

  /** `genNodeList`: the nodes separated by ", ". */
  function EmitList(ns: seq<Js>, indent: nat): (r: string)
    decreases ns, 1
  {
    Join(EmitAll(ns, indent), ", ")
  }

  /** `node.body.forEach(genNode)`: the statements back to back. */
  function EmitBody(ns: seq<Js>, indent: nat): (r: string)
    decreases ns, 0
  {
    if ns == [] then [] else EmitBody(ns[..|ns| - 1], indent) + Emit(ns[|ns| - 1], indent)
  }

  lemma EmitBodyStep(body: seq<Js>, i: nat, indent: nat)
    requires i < |body|
    ensures EmitBody(body[..i + 1], indent) == EmitBody(body[..i], indent) + Emit(body[i], indent)
  {
    assert body[..i + 1][..i] == body[..i];
  }

  function Header(id: string, params: seq<Js>, indent: nat): (r: string) {
    "function " + id + " " + "(" + EmitList(params, indent) + ") " + "{"
  }

  function Block(body: seq<Js>, indent: nat): (r: string) {
    Newline(indent + 1) + EmitBody(body, indent + 1) + Newline(indent) + "}"
  }

  lemma EmitFunctionDecl(id: string, params: seq<Js>, body: seq<Js>, indent: nat)
    ensures Emit(FunctionDecl(id, params, body), indent) == Header(id, params, indent) + Block(body, indent)
  {
  }

  /** Two nodes are printed with one separator between them. */
  lemma EmitPair(a: Js, b: Js, indent: nat)
    ensures EmitList([a, b], indent) == Emit(a, indent) + ", " + Emit(b, indent)
  {
    assert [a, b][..1] == [a] && [a][..0] == [];
    assert EmitAll([a], indent) == [Emit(a, indent)];
    var s := EmitAll([a, b], indent);
    assert s == [Emit(a, indent), Emit(b, indent)];
    assert s[..1] == [Emit(a, indent)];
    assert Join(s, ", ") == Join(s[..1], ", ") + ", " + s[1];
  }

  /** `h(tag, child)`: the call `transformElement` builds for an element with one child. */
  lemma EmitH(tag: string, child: Js, indent: nat)
    ensures Emit(CallExpression("h", [StringLiteral(tag), child]), indent)
         == "h(" + ("'" + tag + "'") + ", " + Emit(child, indent) + ")"
  {
    EmitPair(StringLiteral(tag), child, indent);
  }

  /** The `context` of `generate` (compiler.js:277-295). */
  class Codegen {
    var code: string
    var currentIndent: nat

    constructor ()
      ensures code == [] && currentIndent == 0
    {
      code := [];
      currentIndent := 0;
    }

    method Push(s: string)
      modifies this`code
      ensures code == old(code) + s
    {
      code := code + s;
    }

    method NewlineHere()
      modifies this`code
      ensures code == old(code) + Newline(currentIndent)
    {
      code := code + Newline(currentIndent);
    }

    method Indent()
      modifies this
      ensures currentIndent == old(currentIndent) + 1 && code == old(code) + Newline(currentIndent)
    {
      currentIndent := currentIndent + 1;
      NewlineHere();
    }

    /** `deIndent`; the counter never goes below 0 because every decrement follows an increment. */
    method DeIndent()
      requires currentIndent > 0
      modifies this
      ensures currentIndent == old(currentIndent) - 1 && code == old(code) + Newline(currentIndent)
    {
      currentIndent := currentIndent - 1;
      NewlineHere();
    }

    /** `genNode`: dispatch on the node type; the indentation level is the same afterwards. */
    method GenNode(n: Js)
      modifies this
      ensures code == old(code) + Emit(n, old(currentIndent)) && currentIndent == old(currentIndent)
      decreases n, 2
    {
      match n
      case FunctionDecl(_, _, _) => GenFunctionDecl(n);
      case ReturnStatement(_) => GenReturnStatement(n);
      case CallExpression(_, _) => GenCallExpression(n);
      case StringLiteral(_) => GenStringLiteral(n);
      case ArrayExpression(_) => GenArrayExpression(n);
    }

    method GenFunctionDecl(n: Js)
      requires n.FunctionDecl?
      modifies this
      ensures code == old(code) + Emit(n, old(currentIndent)) && currentIndent == old(currentIndent)
      decreases n, 1
    {
      var ind := currentIndent;
      GenHeader(n);
      ghost var head := code;
      GenBlock(n.body);
      EmitFunctionDecl(n.id, n.params, n.body, ind);
      assert code == head + Block(n.body, ind);
      Assoc3(old(code), Header(n.id, n.params, ind), Block(n.body, ind));
    }

    /** The declaration up to its opening brace: `function name (params) {`. */
    method GenHeader(n: Js)
      requires n.FunctionDecl?
      modifies this
      ensures code == old(code) + Header(n.id, n.params, old(currentIndent)) && currentIndent == old(currentIndent)
      decreases n, 0
    {
      Push("function " + n.id + " ");
      Push("(");
      GenNodeList(n.params);
      Push(") ");
      Push("{");
      Assoc6(old(code), "function " + n.id + " ", "(", EmitList(n.params, currentIndent), ") ", "{");
    }

    /** The indented statements and the closing brace on its own line. */
    method GenBlock(body: seq<Js>)
      modifies this
      ensures code == old(code) + Block(body, old(currentIndent)) && currentIndent == old(currentIndent)
      decreases body, 1
    {
      ghost var ind := currentIndent;
      Indent();
      GenBody(body);
      DeIndent();
      Push("}");
      Assoc5(old(code), Newline(ind + 1), EmitBody(body, ind + 1), Newline(ind), "}");
    }

    /** `node.body.forEach((n) => genNode(n, context))`. */
    method GenBody(body: seq<Js>)
      modifies this
      ensures code == old(code) + EmitBody(body, old(currentIndent)) && currentIndent == old(currentIndent)
      decreases body, 0
    {
      var i := 0;
      while i < |body|
        invariant 0 <= i <= |body|
        invariant code == old(code) + EmitBody(body[..i], currentIndent) && currentIndent == old(currentIndent)
      {
        EmitBodyStep(body, i, currentIndent);
        ghost var done := EmitBody(body[..i], currentIndent);
        GenNode(body[i]);
        assert code == old(code) + done + Emit(body[i], currentIndent);
        Assoc3(old(code), done, Emit(body[i], currentIndent));
        i := i + 1;
      }
      assert body[..i] == body;
    }

    method GenReturnStatement(n: Js)
      requires n.ReturnStatement?
      modifies this
      ensures code == old(code) + Emit(n, old(currentIndent)) && currentIndent == old(currentIndent)
      decreases n, 1
    {
      Push("return ");
      GenNode(n.ret);
    }

    method GenCallExpression(n: Js)
      requires n.CallExpression?
      modifies this
      ensures code == old(code) + Emit(n, old(currentIndent)) && currentIndent == old(currentIndent)
      decreases n, 1
    {
      Push(n.callee + "(");
      GenNodeList(n.arguments);
      Push(")");
    }

    /** Single quotes around the value, which is not escaped. */
    method GenStringLiteral(n: Js)
      requires n.StringLiteral?
      modifies this
      ensures code == old(code) + Emit(n, old(currentIndent)) && currentIndent == old(currentIndent)
      decreases n, 1
    {
      Push("'" + n.value + "'");
    }

    method GenArrayExpression(n: Js)
      requires n.ArrayExpression?
      modifies this
      ensures code == old(code) + Emit(n, old(currentIndent)) && currentIndent == old(currentIndent)
      decreases n, 1
    {
      Push("[");
      GenNodeList(n.elements);
      Push("]");
    }

    /** `genNodeList`: every node, with ", " after all but the last. */
    method GenNodeList(ns: seq<Js>)
      modifies this
      ensures code == old(code) + EmitList(ns, old(currentIndent)) && currentIndent == old(currentIndent)
      decreases ns, 0
    {
      var i := 0;
      assert old(code) + ListPrefix(ns, 0, currentIndent) == old(code);
      while i < |ns|
        invariant 0 <= i <= |ns| && currentIndent == old(currentIndent)
        invariant code == old(code) + ListPrefix(ns, i, currentIndent)
      {
        ghost var before := code;
        GenNode(ns[i]);
        ghost var sep := "";
        if i < |ns| - 1 {
          Push(", ");
          sep := ", ";
        }
        assert code == before + Emit(ns[i], currentIndent) + sep;
        ListPrefixStep(ns, i, currentIndent);
        Assoc4(old(code), ListPrefix(ns, i, currentIndent), Emit(ns[i], currentIndent), sep);
        i := i + 1;
      }
      ListPrefixAll(ns, currentIndent);
    }
  }

  /** What `genNodeList` has printed before node i: the nodes so far, and ", " when more follow. */
  function ListPrefix(ns: seq<Js>, i: nat, indent: nat): (r: string)
    requires i <= |ns|
  {
    Join(EmitAll(ns[..i], indent), ", ") + (if 0 < i < |ns| then ", " else "")
  }

  lemma ListPrefixStep(ns: seq<Js>, i: nat, indent: nat)
    requires i < |ns|
    ensures ListPrefix(ns, i + 1, indent)
         == ListPrefix(ns, i, indent) + Emit(ns[i], indent) + (if i < |ns| - 1 then ", " else "")
  {
    var e, sep := Emit(ns[i], indent), if i < |ns| - 1 then ", " else "";
    JoinStep(ns, i, indent);
    if i == 0 {
      assert ListPrefix(ns, 0, indent) == [];
      assert [] + e + sep == e + sep;
    } else {
      var j := Join(EmitAll(ns[..i], indent), ", ");
      assert ListPrefix(ns, i, indent) == j + ", ";
      assert ListPrefix(ns, i + 1, indent) == j + ", " + e + sep;
    }
  }

  /** The joined prefix grows by a separator and the next node, except at the first node. */
  lemma JoinStep(ns: seq<Js>, i: nat, indent: nat)
    requires i < |ns|
    ensures Join(EmitAll(ns[..i + 1], indent), ", ")
         == if i == 0 then Emit(ns[0], indent) else Join(EmitAll(ns[..i], indent), ", ") + ", " + Emit(ns[i], indent)
  {
    assert ns[..i + 1][..i] == ns[..i];
    var p := EmitAll(ns[..i + 1], indent);
    assert p == EmitAll(ns[..i], indent) + [Emit(ns[i], indent)];
    assert p[..i] == EmitAll(ns[..i], indent);
  }

  lemma ListPrefixAll(ns: seq<Js>, indent: nat)
    ensures ListPrefix(ns, |ns|, indent) == EmitList(ns, indent)
  {
    assert ns[..|ns|] == ns;
  }

  /** `generate` (compiler.js:276-297). */
  method Generate(n: Js) returns (code: string)
    ensures code == Emit(n, 0)
  {
    var context := new Codegen();
    context.GenNode(n);
    code := context.code;
  }

  /** What `compile(tokens)` returns; None when `parse` or the transform throws. */
  function CompileSpec(tokens: seq<Token>): (r: Option<string>) {
    match ParseTokens(tokens)
    case None => None
    case Some(root) =>
      match RenderDecl(root)
      case None => None
      case Some(fn) => Some(Emit(fn, 0))
  }

  /** `compile` (compiler.js:371-376): parse, transform, generate. */
  method Compile(tokens: seq<Token>) returns (code: Option<string>)
    ensures code == CompileSpec(tokens)
  {
    var ast := Parse(tokens);
    if ast.None? {
      return None;
    }
    var t := new Transformer();
    var js := t.TraverseRoot(ast.value);
    if js.None? {
      return None;
    }
    var text := Generate(js.value);
    code := Some(text);
  }
}
