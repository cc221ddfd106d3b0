/**
 * The demo at the end of compiler.js: the template
 * `<div><p>Vue</p><p>Template</p></div>` goes through every stage.
 */
module CompilerDemo {
  import opened Seqs
  import opened Compiler

  /** The template of the demo. */
  const Template := "<div><p>Vue</p><p>Template</p></div>"

  const TemplateTokens := [TagTok("div"), TagTok("p"), TextTok("Vue"), TagEndTok("p"),
                           TagTok("p"), TextTok("Template"), TagEndTok("p"), TagEndTok("div")]

  /** `<outer><inner>x</inner><inner>y</inner></outer>` tokenizes into its eight tags and texts. */
  lemma TokenizeTwoChildren(outer: string, inner: string, x: string, y: string)
    requires outer != [] && AllAlpha(outer) && inner != [] && AllAlpha(inner)
    requires x != [] && AllAlpha(x) && y != [] && AllAlpha(y)
    ensures TokensOf(OpenTag(outer) + (OpenTag(inner) + (x + CloseTag(inner) + (OpenTag(inner) + (y + CloseTag(inner) + CloseTag(outer))))))
         == Some([TagTok(outer), TagTok(inner), TextTok(x), TagEndTok(inner),
                  TagTok(inner), TextTok(y), TagEndTok(inner), TagEndTok(outer)])
  {
    var a, b, c, d, e := OpenTag(outer), OpenTag(inner), x + CloseTag(inner), y + CloseTag(inner), CloseTag(outer);
    var t1 := [TagTok(outer)];
    var t2 := t1 + [TagTok(inner)];
    var t3 := t2 + [TextTok(x), TagEndTok(inner)];
    var t4 := t3 + [TagTok(inner)];
    var t5 := t4 + [TextTok(y), TagEndTok(inner)];
    LexAppend(Start, a, b + (c + (b + (d + e))));
    LexOpenTag([], outer);
    assert [] + [TagTok(outer)] == t1;
    assert Lex(Start, a + (b + (c + (b + (d + e))))) == Lex(Lexer(Initial, [], t1), b + (c + (b + (d + e))));
    LexAppend(Lexer(Initial, [], t1), b, c + (b + (d + e)));
    LexOpenTag(t1, inner);
    assert Lex(Lexer(Initial, [], t1), b + (c + (b + (d + e)))) == Lex(Lexer(Initial, [], t2), c + (b + (d + e)));
    LexAppend(Lexer(Initial, [], t2), c, b + (d + e));
    LexTextClose(t2, x, inner);
    assert Lex(Lexer(Initial, [], t2), c + (b + (d + e))) == Lex(Lexer(Initial, [], t3), b + (d + e));
    LexAppend(Lexer(Initial, [], t3), b, d + e);
    LexOpenTag(t3, inner);
    assert Lex(Lexer(Initial, [], t3), b + (d + e)) == Lex(Lexer(Initial, [], t4), d + e);
    LexAppend(Lexer(Initial, [], t4), d, e);
    LexTextClose(t4, y, inner);
    assert Lex(Lexer(Initial, [], t4), d + e) == Lex(Lexer(Initial, [], t5), e);
    LexCloseTag(t5, outer);
    assert t5 + [TagEndTok(outer)] == [TagTok(outer), TagTok(inner), TextTok(x), TagEndTok(inner),
                  TagTok(inner), TextTok(y), TagEndTok(inner), TagEndTok(outer)];
  }

  lemma TemplateHalves()
    ensures Template == "<div><p>Vue</p>" + "<p>Template</p></div>"
  {
  }

  lemma FirstHalf()
    ensures "<div><p>Vue</p>" == "<div>" + ("<p>" + ("Vue" + "</p>"))
  {
  }

  lemma SecondHalf()
    ensures "<p>Template</p></div>" == "<p>" + ("Template" + "</p>" + "</div>")
  {
  }

  /** The template cut into its tags and texts. */
  lemma TemplatePieces()
    ensures Template == OpenTag("div") + (OpenTag("p") + ("Vue" + CloseTag("p") + (OpenTag("p") + ("Template" + CloseTag("p") + CloseTag("div")))))
  {
    var a, b, c, d, e := OpenTag("div"), OpenTag("p"), "Vue" + CloseTag("p"), "Template" + CloseTag("p"), CloseTag("div");
    assert a == "<div>" && b == "<p>" && CloseTag("p") == "</p>" && e == "</div>";
    TemplateHalves();
    FirstHalf();
    SecondHalf();
    assert (a + (b + c)) + (b + (d + e)) == a + (b + (c + (b + (d + e))));
  }

  lemma TokenizeTemplate()
    ensures TokensOf(Template) == Some(TemplateTokens)
  {
    TokenizeTwoChildren("div", "p", "Vue", "Template");
    TemplatePieces();
  }

  const TemplateTree := Element("div", [Element("p", [TextNode("Vue")]), Element("p", [TextNode("Template")])])

  lemma ParseTemplate()
    ensures ParseTokens(TemplateTokens) == Some(Root([TemplateTree]))
  {
    var p1, p2 := Element("p", [TextNode("Vue")]), Element("p", [TextNode("Template")]);
    assert SerializeAll([TextNode("Vue")]) == [TextTok("Vue")];
    assert SerializeAll([TextNode("Template")]) == [TextTok("Template")];
    assert Serialize(p1) == [TagTok("p"), TextTok("Vue"), TagEndTok("p")];
    assert Serialize(p2) == [TagTok("p"), TextTok("Template"), TagEndTok("p")];
    assert SerializeAll([p2]) == Serialize(p2);
    assert SerializeAll([p1, p2]) == Serialize(p1) + Serialize(p2);
    assert SerializeAll([TemplateTree]) == Serialize(TemplateTree);
    assert Serialize(TemplateTree) == TemplateTokens;
    ParseSerialized([TemplateTree]);
  }

  /** `function render () {\n  return h('div', [h('p', 'Vue'), h('p', 'Template')])\n}`, in the pieces the proof follows. */
  const TemplateCode := "function render () {" + ("\n  return " + "h('div', [" + "h('p', 'Vue')" + ", " + "h('p', 'Template')" + "])" + "\n}")

  lemma EmitFirstChild()
    ensures Emit(CallExpression("h", [StringLiteral("p"), StringLiteral("Vue")]), 1) == "h('p', 'Vue')"
  {
    EmitH("p", StringLiteral("Vue"), 1);
    assert "h(" + ("'" + "p" + "'") + ", " + ("'" + "Vue" + "'") + ")" == "h('p', 'Vue')";
  }

  lemma EmitSecondChild()
    ensures Emit(CallExpression("h", [StringLiteral("p"), StringLiteral("Template")]), 1) == "h('p', 'Template')"
  {
    EmitH("p", StringLiteral("Template"), 1);
    assert "h(" + ("'" + "p" + "'") + ", " + ("'" + "Template" + "'") + ")" == "h('p', 'Template')";
  }

  lemma JsOfTemplate()
    ensures JsOf(TemplateTree) == CallExpression("h", [StringLiteral("div"), ArrayExpression([
      CallExpression("h", [StringLiteral("p"), StringLiteral("Vue")]),
      CallExpression("h", [StringLiteral("p"), StringLiteral("Template")])])])
  {
    var p1, p2 := Element("p", [TextNode("Vue")]), Element("p", [TextNode("Template")]);
    assert [p1, p2][..1] == [p1] && [p1][..0] == [];
    assert JsOf(p1) == CallExpression("h", [StringLiteral("p"), StringLiteral("Vue")]);
    assert JsOf(p2) == CallExpression("h", [StringLiteral("p"), StringLiteral("Template")]);
    assert JsOfAll([p1]) == [JsOf(p1)];
    assert JsOfAll([p1, p2]) == [JsOf(p1), JsOf(p2)];
  }

  /** The layout of the declaration around the two printed children. */
  lemma TemplateLayout(e1: string, e2: string)
    ensures "\n" + "  " + ("return " + ("h(" + ("'" + "div" + "'") + ", " + ("[" + (e1 + ", " + e2) + "]") + ")")) + ("\n" + "") + "}"
         == "\n  return " + "h('div', [" + e1 + ", " + e2 + "])" + "\n}"
  {
  }

  lemma EmitTemplate()
    ensures RenderDecl(Root([TemplateTree])) == Some(FunctionDecl("render", [], [ReturnStatement(JsOf(TemplateTree))]))
    ensures Emit(FunctionDecl("render", [], [ReturnStatement(JsOf(TemplateTree))]), 0) == TemplateCode
  {
    var e1, e2 := "h('p', 'Vue')", "h('p', 'Template')";
    var j1 := CallExpression("h", [StringLiteral("p"), StringLiteral("Vue")]);
    var j2 := CallExpression("h", [StringLiteral("p"), StringLiteral("Template")]);
    var j := CallExpression("h", [StringLiteral("div"), ArrayExpression([j1, j2])]);
    JsOfTemplate();
    EmitFirstChild();
    EmitSecondChild();
    EmitPair(j1, j2, 1);
    assert Emit(ArrayExpression([j1, j2]), 1) == "[" + (e1 + ", " + e2) + "]";
    EmitH("div", ArrayExpression([j1, j2]), 1);
    var r := ReturnStatement(j);
    assert EmitBody([r], 1) == "return " + Emit(j, 1) by {
      assert [r][..0] == [];
    }
    EmitFunctionDecl("render", [], [r], 0);
    assert EmitList([], 0) == "";
    assert Header("render", [], 0) == "function render () {";
    assert Newline(1) == "\n" + "  " && Newline(0) == "\n" + "";
    TemplateLayout(e1, e2);
  }

  /** The later stages on any tokens that parse to the template's tree. */
  lemma CompileTemplateTokens(tokens: seq<Token>)
    requires ParseTokens(tokens) == Some(Root([TemplateTree]))
    ensures CompileSpec(tokens) == Some(TemplateCode)
  {
    EmitTemplate();
  }

  /** The demo (compiler.js:378-384): the template compiles to a `render` function returning nested `h` calls. */
  lemma CompileTemplate()
    ensures TokensOf(Template) == Some(TemplateTokens) && CompileSpec(TemplateTokens) == Some(TemplateCode)
  {
    TokenizeTemplate();
    ParseTemplate();
    CompileTemplateTokens(TemplateTokens);
  }

  /** `compile(tokenize(template))` through the imperative stages. */
  method RunDemo() returns (code: Option<string>)
    ensures code == Some(TemplateCode)
  {
    CompileTemplate();
    var tokens := Tokenize(Template);
    code := Compile(tokens.value);
  }
}
