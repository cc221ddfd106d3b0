/**
 * Properties of the parse functions of parser.js: where `parseText` stops,
 * the shape of attributes and tags, the comment and interpolation round
 * trips, and the inputs on which `parseChildren` never returns.
 */
module ParseFacts {
  import opened Seqs
  import opened Parser
  import DecodeFacts

  // ---------------------------------------------------------------------------
  // indexOf

  lemma IndexOfIs(s: string, p: string, k: nat)
    requires OccursAt(s, p, k)
    requires forall j | 0 <= j < k :: !OccursAt(s, p, j)
    ensures IndexOf(s, p) == k
  {
  }

  lemma IndexOfNone(s: string, p: string)
    requires forall j | 0 <= j <= |s| :: !OccursAt(s, p, j)
    ensures IndexOf(s, p) == -1
  {
  }

  /** `indexOf` finds something exactly when the pattern occurs. */
  lemma IndexOfContains(s: string, p: string)
    ensures IndexOf(s, p) > -1 <==> Contains(s, p)
  {
    var i := IndexOf(s, p);
    if Contains(s, p) {
      var k :| 0 <= k <= |s| && OccursAt(s, p, k);
      assert i != -1;
    }
  }

  predicate Lacks(s: string, c: char) {
    forall i | 0 <= i < |s| :: s[i] != c
  }

  /** c at k, the first of them. */
  lemma FirstChar(s: string, c: char, k: nat)
    requires k < |s| && s[k] == c && Lacks(s[..k], c)
    ensures IndexOf(s, [c]) == k
  {
    assert s[k..k + 1] == [c];
    forall j | 0 <= j < k
      ensures !OccursAt(s, [c], j)
    {
      assert s[..k][j] == s[j];
      assert s[j..j + 1][0] == s[j];
    }
    IndexOfIs(s, [c], k);
  }

  lemma NoChar(s: string, c: char)
    requires Lacks(s, c)
    ensures IndexOf(s, [c]) == -1
  {
    forall j | 0 <= j <= |s|
      ensures !OccursAt(s, [c], j)
    {
      if j < |s| {
        assert s[j..j + 1][0] == s[j];
      }
    }
    IndexOfNone(s, [c]);
  }

  /** "{{" at k, the first `{` of s. */
  lemma FirstDelimiter(s: string, k: nat)
    requires k + 1 < |s| && s[k] == '{' && s[k + 1] == '{' && Lacks(s[..k], '{')
    ensures IndexOf(s, "{{") == k
  {
    assert s[k..k + 2] == "{{";
    forall j | 0 <= j < k
      ensures !OccursAt(s, "{{", j)
    {
      assert s[..k][j] == s[j];
      if j + 2 <= |s| {
        assert s[j..j + 2][0] == s[j];
      }
    }
    IndexOfIs(s, "{{", k);
  }

  lemma NoDelimiterFrom(s: string, k: nat)
    requires k <= |s| && Lacks(s[k..], '{')
    ensures forall j | k <= j <= |s| :: !OccursAt(s, "{{", j)
  {
    forall j | k <= j <= |s|
      ensures !OccursAt(s, "{{", j)
    {
      if j + 2 <= |s| {
        assert s[j..j + 2][0] == s[j] == s[k..][j - k];
      }
    }
  }

  lemma NoDelimiter(s: string)
    requires Lacks(s, '{')
    ensures IndexOf(s, "{{") == -1
  {
    assert s[0..] == s;
    NoDelimiterFrom(s, 0);
    IndexOfNone(s, "{{");
  }

  // ---------------------------------------------------------------------------
  // Where parseText stops (parser.js:174-195)

  /** Text before a `<`, with no `{` anywhere, stops at the `<`. */
  lemma TextStopsAtLt(t: string, rest: string)
    requires Lacks(t, '<') && Lacks(t, '{') && Lacks(rest, '{')
    ensures TextEnd(t + "<" + rest) == |t|
  {
    var s := t + "<" + rest;
    assert s[..|t|] == t;
    FirstChar(s, '<', |t|);
    forall i | 0 <= i < |s|
      ensures s[i] != '{'
    {
      if i > |t| {
        assert s[i] == rest[i - |t| - 1];
      }
    }
    NoDelimiter(s);
  }

  /** Without a `<` the whole source is text, even when it holds `{{`. */
  lemma TextWithoutLt(s: string)
    requires Lacks(s, '<')
    ensures TextEnd(s) == |s|
  {
    NoChar(s, '<');
  }

  /** A `{{` before the first `<` ends the text. */
  lemma TextStopsAtDelimiter(t: string, u: string, rest: string)
    requires Lacks(t, '<') && Lacks(t, '{') && Lacks(u, '<')
    ensures TextEnd(t + "{{" + u + "<" + rest) == |t|
  {
    var s := t + "{{" + u + "<" + rest;
    var k := |t| + 2 + |u|;
    assert s[..|t|] == t;
    FirstDelimiter(s, |t|);
    forall i | 0 <= i < k
      ensures s[i] != '<'
    {
      if i >= |t| + 2 {
        assert s[i] == u[i - |t| - 2];
      }
    }
    assert s[..k] == t + "{{" + u;
    FirstChar(s, '<', k);
  }

  /** A `<` before the first `{{` makes the rest of the source text, `<` included. */
  lemma TextLtBeforeDelimiter(t: string, u: string, rest: string)
    requires Lacks(t, '<') && Lacks(t, '{') && Lacks(u, '{')
    ensures var s := t + "<" + u + "{{" + rest;
      TextEnd(s) == |s|
  {
    var s := t + "<" + u + "{{" + rest;
    var k := |t| + 1 + |u|;
    assert s[..|t|] == t;
    FirstChar(s, '<', |t|);
    forall i | 0 <= i < k
      ensures s[i] != '{'
    {
      if i > |t| {
        assert s[i] == u[i - |t| - 1];
      }
    }
    assert s[k] == '{' && s[k + 1] == '{';
    FirstDelimiter(s, k);
  }

  /**
   * On a leading `<` the text is empty, so nothing is consumed, unless the
   * source holds `{{`, in which case it is all text.
   */
  lemma TextLeadingLt(s: string)
    requires s != [] && s[0] == '<'
    ensures TextEnd(s) == if Contains(s, "{{") then |s| else 0
  {
    assert s[..0] == [];
    FirstChar(s, '<', 0);
    IndexOfContains(s, "{{");
    var dl := IndexOf(s, "{{");
    if dl > -1 {
      assert OccursAt(s, "{{", dl);
      assert s[dl..dl + 2][0] == s[dl];
    }
  }

  /** `parseText` on text free of `<`, `{` and `&` followed by a `<`: the text, and the source from the `<`. */
  lemma TextNodeBeforeLt(t: string, rest: string)
    requires Lacks(t, '<') && Lacks(t, '{') && Lacks(t, '&') && Lacks(rest, '{')
    ensures TextNode(t + "<" + rest) == Ok((Text(t), "<" + rest))
  {
    var s := t + "<" + rest;
    TextStopsAtLt(t, rest);
    assert s[..|t|] == t;
    assert Drop(s, |t|) == "<" + rest;
    DecodeFacts.DecodeNoAmp(t, false);
  }

  // ---------------------------------------------------------------------------
  // Tags and attributes (parser.js:102-172)

  /** A tag name of letters only. */
  predicate Letters(tag: string) {
    tag != [] && forall i | 0 <= i < |tag| :: IsLetter(tag[i])
  }

  /** What the attribute-name pattern matches: a first character of class TagChar, then class NameChar. */
  predicate NameShaped(name: string) {
    name != [] && In(name[0], TagChar) && forall i | 1 <= i < |name| :: In(name[i], NameChar)
  }

  lemma SkipOneSpace(a: string)
    requires a == [] || !IsSpace(a[0])
    ensures SkipSpaces(" " + a) == a
  {
    assert (" " + a)[1..] == a;
    assert Run(" " + a, Space) == 1;
  }

  lemma SkipNoSpaces(s: string)
    requires s == [] || !IsSpace(s[0])
    ensures SkipSpaces(s) == s
  {
  }

  /** A source at `>`: no spaces to skip and no attributes; the `>` alone is consumed. */
  lemma AtGt(rest: string)
    ensures SkipSpaces(">" + rest) == ">" + rest
    ensures Attributes(">" + rest) == Ok(([], ">" + rest))
    ensures !StartsWith(">" + rest, "/>") && Drop(">" + rest, 1) == rest
  {
    var s := ">" + rest;
    assert s[..1] == ">";
    assert |s| >= 2 ==> s[..2][0] == '>';
    SkipNoSpaces(s);
  }

  /** The tag name ends where a character outside class TagChar follows it. */
  lemma TagNameLength(s: string, p: nat, tag: string, rest: string)
    requires p <= |s| && s == s[..p] + tag + rest && Letters(tag)
    requires rest == [] || !In(rest[0], TagChar)
    ensures p < |s| && IsLetter(s[p]) && TagNameEnd(s, p) == p + |tag|
    ensures s[p..p + |tag|] == tag && Drop(s, p + |tag|) == rest
  {
    assert s[p] == tag[0];
    assert s[p + 1..] == tag[1..] + rest;
    DecodeFacts.RunPrefix(tag[1..], rest, TagChar);
    assert s[p..p + |tag|] == tag;
    assert s[p + |tag|..] == rest;
  }

  /** A tag without attributes: its name, and the source after `>`. */
  lemma TagPlain(pre: string, tag: string, rest: string, closing: bool)
    requires pre == (if closing then "</" else "<") && Letters(tag)
    ensures Tag(pre + tag + ">" + rest, closing) == Ok((Element(tag, [], [], false), rest))
  {
    var s := pre + tag + ">" + rest;
    var p := |pre|;
    assert p < |s| && s[0] == '<' && (!closing || s[1] == '/') && IsLetter(s[p])
      && TagNameEnd(s, p) == p + |tag| && s[p..p + |tag|] == tag && Drop(s, p + |tag|) == ">" + rest by {
      assert s == s[..p] + tag + (">" + rest);
      TagNameLength(s, p, tag, ">" + rest);
    }
    AtGt(rest);
    assert StartsWith(">" + rest, ">") by {
      assert (">" + rest)[..1] == ">";
    }
    TagSteps(s, closing, p, p + |tag|, ">" + rest, Attributes(">" + rest));
  }

  /** `<tag/>`: a self-closing element, and the source after `/>`. */
  lemma TagSelfClosing(tag: string, rest: string)
    requires Letters(tag)
    ensures Tag("<" + tag + "/>" + rest, false) == Ok((Element(tag, [], [], true), rest))
  {
    var s := "<" + tag + "/>" + rest;
    assert s == s[..1] + tag + ("/>" + rest);
    TagNameLength(s, 1, tag, "/>" + rest);
    SkipNoSpaces("/>" + rest);
    assert StartsWith("/>" + rest, "/>");
    assert Drop("/>" + rest, 2) == rest;
  }

  predicate IsQuote(q: char) {
    q == '\'' || q == '"'
  }

  /** A quoted value is the text up to the matching quote; the source continues after it. */
  lemma AttrValueQuoted(q: char, v: string, rest: string)
    requires IsQuote(q) && Lacks(v, q)
    ensures AttrValue([q] + v + [q] + rest) == Ok((v, rest))
  {
    var b := [q] + v + [q] + rest;
    var b1 := v + [q] + rest;
    assert Drop(b, 1) == b1;
    assert b1[..|v|] == v;
    FirstChar(b1, q, |v|);
    assert Drop(b1, |v| + 1) == rest;
  }

  /** Without the matching quote the value is empty and only the quote is consumed. */
  lemma AttrValueUnclosed(q: char, v: string)
    requires IsQuote(q) && Lacks(v, q)
    ensures AttrValue([q] + v) == Ok(("", v))
  {
    assert Drop([q] + v, 1) == v;
    NoChar(v, q);
  }

  /** The name runs up to the first space, `/`, `>` or `=`. */
  lemma NameLength(name: string, rest: string)
    requires NameShaped(name) && rest != [] && !In(rest[0], NameChar)
    ensures NameEnd(name + rest) == |name|
    ensures (name + rest)[..|name|] == name && Drop(name + rest, |name|) == rest
  {
    var s := name + rest;
    assert s[1..] == name[1..] + rest;
    DecodeFacts.RunPrefix(name[1..], rest, NameChar);
    assert s[..|name|] == name;
    assert s[|name|..] == rest;
  }

  /** `parseAttribute`'s steps with the name end, the value's start and the value's result named. */
  lemma AttributeSteps(s: string, n: nat, b: string, v: Result<(string, string)>)
    requires s != [] && In(s[0], TagChar)
    requires n == NameEnd(s) && b == SkipSpaces(Drop(SkipSpaces(Drop(s, n)), 1)) && v == AttrValue(b)
    ensures v.Ok? ==> Attribute(s) == Ok((Attr(s[..n], v.value.0), SkipSpaces(v.value.1)))
    ensures v.Threw? ==> Attribute(s) == Threw
  {
  }

  /** The text of a quoted attribute, `name="value"`. */
  function QuotedAttr(name: string, q: char, v: string): (t: string)
    ensures |t| == |name| + |v| + 3
  {
    name + "=" + [q] + v + [q]
  }

  /** `name="value"`: the attribute, and the source after the spaces that follow. */
  lemma AttributeQuoted(name: string, q: char, v: string, rest: string)
    requires NameShaped(name) && IsQuote(q) && Lacks(v, q)
    ensures Attribute(QuotedAttr(name, q, v) + rest) == Ok((Attr(name, v), SkipSpaces(rest)))
  {
    var b := [q] + v + [q] + rest;
    QuotedShape(name, q, v, rest);
    NameLength(name, "=" + b);
    ValueAfterEquals(b);
    AttrValueQuoted(q, v, rest);
    AttributeFrom(name + ("=" + b), name, b, v, rest);
  }

  lemma QuotedShape(name: string, q: char, v: string, rest: string)
    ensures QuotedAttr(name, q, v) + rest == name + ("=" + ([q] + v + [q] + rest))
  {
  }

  /** `advanceSpaces(); advanceBy(1); advanceSpaces()` right at an `=` followed by a non-space. */
  lemma ValueAfterEquals(b: string)
    requires b != [] && !IsSpace(b[0])
    ensures SkipSpaces(Drop(SkipSpaces("=" + b), 1)) == b
  {
    SkipNoSpaces("=" + b);
    assert Drop("=" + b, 1) == b;
    SkipNoSpaces(b);
  }

  /** An attribute whose name ends where the pattern stops and whose value parses. */
  lemma AttributeFrom(s: string, name: string, b: string, value: string, rest: string)
    requires s != [] && In(s[0], TagChar)
    requires NameEnd(s) == |name| && s[..|name|] == name
    requires SkipSpaces(Drop(SkipSpaces(Drop(s, |name|)), 1)) == b && AttrValue(b) == Ok((value, rest))
    ensures Attribute(s) == Ok((Attr(name, value), SkipSpaces(rest)))
  {
    AttributeSteps(s, |name|, b, AttrValue(b));
  }

  /**
   * A name followed by `>` at the end of the source or before another `>`:
   * `advanceBy(1)` takes the `>` for the `=`, and the value pattern then
   * fails to match.
   */
  lemma AttributeWithoutValue(name: string, rest: string)
    requires NameShaped(name) && (rest == [] || rest[0] == '>')
    ensures Attribute(name + (">" + rest)) == Threw
  {
    NameLength(name, ">" + rest);
    SkipNoSpaces(">" + rest);
    assert Drop(">" + rest, 1) == rest;
    SkipNoSpaces(rest);
    AttributeSteps(name + (">" + rest), |name|, rest, AttrValue(rest));
  }

  /** Every attribute name has the pattern's shape, and the attributes end before `>` or `/>`. */
  lemma {:induction false} AttributesShape(s: string)
    ensures var r := Attributes(s);
      r.Ok? ==>
        && (forall i | 0 <= i < |r.value.0| :: NameShaped(r.value.0[i].name))
        && (StartsWith(r.value.1, ">") || StartsWith(r.value.1, "/>"))
    decreases |s|
  {
    if StartsWith(s, ">") || StartsWith(s, "/>") {
    } else if s == [] || !In(s[0], TagChar) {
    } else {
      match Attribute(s)
      case Ok((attr, c)) =>
        AttributesShape(c);
        AttributeNameShaped(s, attr, c);
        AttributesCons(s, attr, c);
        ShapedCons(attr, Attributes(c));
      case Threw =>
      case Diverged =>
    }
  }

  /** The name `parseAttribute` returns is the pattern's match. */
  lemma AttributeNameShaped(s: string, attr: Attr, c: string)
    requires s != [] && In(s[0], TagChar) && Attribute(s) == Ok((attr, c))
    ensures NameShaped(attr.name)
  {
    var n := NameEnd(s);
    assert attr.name == s[..n];
    forall i | 1 <= i < n
      ensures In(s[..n][i], NameChar)
    {
      assert s[..n][i] == s[1..][i - 1];
    }
  }

  /** Putting a well-shaped name in front keeps every name well shaped. */
  lemma ShapedCons(attr: Attr, r: Result<(seq<Attr>, string)>)
    requires NameShaped(attr.name)
    requires r.Ok? ==> forall i | 0 <= i < |r.value.0| :: NameShaped(r.value.0[i].name)
    ensures var p := Prepend([attr], r);
      p.Ok? ==> p.value.1 == r.value.1 && forall i | 0 <= i < |p.value.0| :: NameShaped(p.value.0[i].name)
  {
  }

  /** `parseTag`'s steps with the name end, the attribute start and the attributes' result named. */
  lemma TagSteps(s: string, closing: bool, p: nat, e: nat, s1: string, attrs: Result<(seq<Attr>, string)>)
    requires p == (if closing then 2 else 1)
    requires p < |s| && s[0] == '<' && (!closing || s[1] == '/') && IsLetter(s[p])
    requires e == TagNameEnd(s, p) && s1 == SkipSpaces(Drop(s, e)) && attrs == Attributes(s1)
    ensures attrs.Ok? ==>
      var sc := StartsWith(attrs.value.1, "/>");
      Tag(s, closing) == Ok((Element(s[p..e], attrs.value.0, [], sc), Drop(attrs.value.1, if sc then 2 else 1)))
    ensures attrs.Threw? ==> Tag(s, closing) == Threw
  {
  }

  /** A source starting with a name character is not at the end of the tag. */
  lemma NotTagEnd(a: string)
    requires a != [] && In(a[0], TagChar)
    ensures !StartsWith(a, ">") && !StartsWith(a, "/>")
  {
    assert a[..1][0] == a[0];
    assert |a| >= 2 ==> a[..2][0] == a[0];
  }

  /** One attribute whose source continues at `>`: the list of that attribute alone. */
  lemma AttributesOne(a: string, attr: Attr, c: string)
    requires a != [] && In(a[0], TagChar) && Attribute(a) == Ok((attr, c))
    requires Attributes(c) == Ok(([], c))
    ensures Attributes(a) == Ok(([attr], c))
  {
    NotTagEnd(a);
    AttributesCons(a, attr, c);
    AppendNil([attr]);
  }

  /** One quoted attribute before `>`. */
  lemma OneAttribute(name: string, q: char, v: string, rest: string)
    requires NameShaped(name) && IsQuote(q) && Lacks(v, q)
    ensures Attributes(QuotedAttr(name, q, v) + (">" + rest)) == Ok(([Attr(name, v)], ">" + rest))
  {
    var a := QuotedAttr(name, q, v) + (">" + rest);
    assert a != [] && In(a[0], TagChar) by {
      assert a[0] == name[0];
    }
    assert Attribute(a) == Ok((Attr(name, v), ">" + rest)) by {
      AttributeQuoted(name, q, v, ">" + rest);
      AtGt(rest);
    }
    AtGt(rest);
    AttributesOne(a, Attr(name, v), ">" + rest);
  }

  /** `<tag name="value">`: one attribute, not self-closing. */
  lemma TagWithAttribute(tag: string, name: string, q: char, v: string, rest: string)
    requires Letters(tag) && NameShaped(name) && IsQuote(q) && Lacks(v, q)
    ensures Tag("<" + tag + " " + QuotedAttr(name, q, v) + ">" + rest, false)
      == Ok((Element(tag, [Attr(name, v)], [], false), rest))
  {
    var x := QuotedAttr(name, q, v);
    var s := "<" + tag + " " + x + ">" + rest;
    var a := x + (">" + rest);
    assert s == s[..1] + tag + (" " + a);
    TagNameLength(s, 1, tag, " " + a);
    assert a[0] == name[0];
    SkipOneSpace(a);
    OneAttribute(name, q, v, rest);
    AtGt(rest);
    TagSteps(s, false, 1, 1 + |tag|, a, Attributes(a));
  }

  /** `<div a>`: a name without a value makes `parseTag` throw. */
  lemma TagBareAttributeThrows(tag: string, name: string)
    requires Letters(tag) && NameShaped(name)
    ensures Tag("<" + tag + " " + name + ">", false) == Threw
  {
    var s := "<" + tag + " " + name + ">";
    var a := name + (">" + []);
    assert s == s[..1] + tag + (" " + a);
    TagNameLength(s, 1, tag, " " + a);
    SkipOneSpace(a);
    AttributeWithoutValue(name, []);
    NotTagEnd(a);
    AttributesThrew(a);
  }

  // ---------------------------------------------------------------------------
  // Comments and interpolations (parser.js:302-335)

  /** The first occurrence of p in x + p + rest is the one after x, unless p starts within x. */
  lemma FirstOccurrence(x: string, p: string, rest: string)
    requires |p| >= 1 && !Contains(x + p[..|p| - 1], p)
    ensures IndexOf(x + p + rest, p) == |x|
  {
    var s := x + p + rest;
    var y := x + p[..|p| - 1];
    assert s[|x|..|x| + |p|] == p;
    forall j | 0 <= j < |x|
      ensures !OccursAt(s, p, j)
    {
      if OccursAt(s, p, j) {
        assert y == s[..|y|];
        assert y[j..j + |p|] == s[j..j + |p|];
        assert OccursAt(y, p, j);
      }
    }
    IndexOfIs(s, p, |x|);
  }

  /** `<!--x-->rest`: the comment x, and the source after `-->`. */
  lemma CommentRoundTrip(x: string, rest: string)
    requires !Contains(x + "--", "-->")
    ensures CommentNode("<!--" + x + "-->" + rest) == Ok((Comment(x), rest))
  {
    var s1 := x + "-->" + rest;
    assert Drop("<!--" + x + "-->" + rest, 4) == s1;
    assert "-->"[..2] == "--";
    FirstOccurrence(x, "-->", rest);
    assert s1[..|x|] == x;
    assert Drop(Drop(s1, |x|), 3) == rest;
  }

  /** Without `-->` the comment runs to the end of the source, less its last character. */
  lemma CommentUnclosed(x: string)
    requires !Contains(x, "-->")
    ensures CommentNode("<!--" + x) == Ok((Comment(if x == [] then [] else x[..|x| - 1]), []))
  {
    assert Drop("<!--" + x, 4) == x;
    IndexOfContains(x, "-->");
  }

  /** `{{x}}rest`: the interpolation of x decoded, and the source after `}}`. */
  lemma InterpolationRoundTrip(x: string, rest: string)
    requires !Contains(x + "}", "}}")
    ensures var r := InterpolationNode("{{" + x + "}}" + rest);
      && (r.Ok? <==> Decode(x, false).Ok?)
      && (r.Ok? ==> r.value == (Interpolation(Decode(x, false).value), rest))
      && (r.Diverged? <==> DecodeFacts.HasHexHead(x))
      && (Lacks(x, '&') ==> r == Ok((Interpolation(x), rest)))
  {
    var s1 := x + "}}" + rest;
    assert Drop("{{" + x + "}}" + rest, 2) == s1;
    assert "}}"[..1] == "}";
    FirstOccurrence(x, "}}", rest);
    assert s1[..|x|] == x;
    assert Drop(Drop(s1, |x|), 2) == rest;
    DecodeFacts.DecodeDivergesIffHex(x, false);
    if Lacks(x, '&') {
      DecodeFacts.DecodeNoAmp(x, false);
    }
  }

  /** Without `}}` the interpolation runs to the end of the source, less its last character. */
  lemma InterpolationUnclosed(x: string)
    requires !Contains(x, "}}") && Lacks(x, '&')
    ensures InterpolationNode("{{" + x) == Ok((Interpolation(if x == [] then [] else x[..|x| - 1]), []))
  {
    assert Drop("{{" + x, 2) == x;
    IndexOfContains(x, "}}");
    var c := if x == [] then [] else x[..|x| - 1];
    assert Lacks(c, '&') by {
      forall i | 0 <= i < |c|
        ensures c[i] != '&'
      {
        assert c[i] == x[i];
      }
    }
    DecodeFacts.DecodeNoAmp(c, false);
  }

  // ---------------------------------------------------------------------------
  // parseChildren: inputs on which it never returns (parser.js:31-63)

  /** Neither the end of the source nor a closing tag is next. */
  lemma NotEnd(s: string, ancestors: seq<string>)
    requires s != [] && s[0] != '<'
    ensures !Ends(s, ancestors)
  {
    forall i | 0 <= i < |ancestors|
      ensures !StartsWith(s, CloseOf(ancestors[i]))
    {
      assert CloseOf(ancestors[i])[0] == '<';
    }
  }

  /** A loop started on `</` in DATA mode never returns: it continues without consuming anything. */
  lemma StrayCloseDiverges(s0: string, cur: string, ancestors: seq<string>)
    requires |s0| >= 2 && s0[0] == '<' && s0[1] == '/' && !Ends(cur, ancestors)
    ensures Children(s0, cur, ancestors, Data) == Diverged
  {
    ChildrenStep(s0, cur, ancestors, Data);
  }

  /** A document that starts with `</` is never parsed. */
  lemma ParseStrayClose(str: string)
    requires |str| >= 2 && str[0] == '<' && str[1] == '/'
    ensures ParseSpec(str) == Diverged
  {
    StrayCloseDiverges(str, str, []);
  }

  /** In RAWTEXT mode no branch applies, so unless the loop ends at once it never returns. */
  lemma RawTextDiverges(s0: string, cur: string, ancestors: seq<string>)
    requires !Ends(cur, ancestors)
    ensures Children(s0, cur, ancestors, RawText) == Diverged
  {
    ChildrenStep(s0, cur, ancestors, RawText);
  }

  /** An element whose tag selects RAWTEXT (`style`, `iframe`, ...) and that has content never returns. */
  lemma RawTextElementDiverges(tag: string, x: string, ancestors: seq<string>)
    requires Letters(tag) && ModeFor(tag) == RawText && x != [] && x[0] != '<'
    ensures ElementNode("<" + tag + ">" + x, ancestors) == Diverged
  {
    TagPlain("<", tag, x, false);
    NotEnd(x, ancestors + [tag]);
    RawTextDiverges(x, x, ancestors + [tag]);
    ElementNodeStart("<" + tag + ">" + x, ancestors);
    ElementBodyChildren(Element(tag, [], [], false), x, ancestors);
  }

  /**
   * A loop started on `<` followed by neither a letter, `!` nor `/`, with no
   * `{{` anywhere, parses empty text without consuming anything.
   */
  lemma LeadingLtDiverges(s: string, ancestors: seq<string>)
    requires |s| >= 2 && s[0] == '<' && !IsLetter(s[1]) && s[1] != '!' && s[1] != '/'
    requires !Contains(s, "{{") && !Ends(s, ancestors)
    ensures Children(s, s, ancestors, Data) == Diverged
  {
    ChildrenStep(s, s, ancestors, Data);
    TextLeadingLt(s);
    assert s[..0] == [] && Drop(s, 0) == s;
    DecodeFacts.DecodeNoAmp([], false);
  }

  /**
   * Text followed by a tag never finishes: the branch is chosen on the source
   * as it was when the loop began, so the `<` goes to `parseText`, which
   * consumes nothing.
   */
  lemma TextThenTagDiverges(t: string, rest: string)
    requires t != [] && Lacks(t, '<') && Lacks(t, '{') && Lacks(t, '&') && Lacks(rest, '{')
    ensures ParseSpec(t + "<" + rest) == Diverged
  {
    var s := t + "<" + rest;
    var lt := "<" + rest;
    assert s[0] == t[0];
    assert !StartsWith(s, "{{") by {
      assert |s| >= 2 ==> s[..2][0] == s[0];
    }
    NotEnd(s, []);
    ChildrenStep(s, s, [], Data);
    TextNodeBeforeLt(t, rest);
    assert lt != s;
    assert Ends(lt, []) == false;
    ChildrenStep(s, lt, [], Data);
    assert Lacks(lt, '{') by {
      forall i | 0 < i < |lt|
        ensures lt[i] != '{'
      {
        assert lt[i] == rest[i - 1];
      }
    }
    TextLeadingLt(lt);
    IndexOfContains(lt, "{{");
    NoDelimiter(lt);
    assert lt[..0] == [] && Drop(lt, 0) == lt;
    DecodeFacts.DecodeNoAmp([], false);
  }

  // ---------------------------------------------------------------------------
  // A complete parse

  /** The source from a closing tag on holds no `{` when the rest holds none. */
  lemma CloseLacksBrace(tag: string, rest: string)
    requires Letters(tag) && Lacks(rest, '{')
    ensures Lacks("/" + tag + ">" + rest, '{')
  {
    var c := "/" + tag + ">" + rest;
    forall i | 0 <= i < |c|
      ensures c[i] != '{'
    {
      if 0 < i <= |tag| {
        assert c[i] == tag[i - 1];
      } else if i > |tag| + 1 {
        assert c[i] == rest[i - |tag| - 2];
      }
    }
  }

  /** The children of an element holding text only: the text, and the source from the end tag. */
  lemma TextChild(tag: string, x: string, rest: string, ancestors: seq<string>)
    requires Letters(tag) && ModeFor(tag) != RawText
    requires x != [] && Lacks(x, '<') && Lacks(x, '{') && Lacks(x, '&') && Lacks(rest, '{')
    ensures var b := x + CloseOf(tag) + rest;
      Children(b, b, ancestors + [tag], ModeFor(tag)) == Ok(([Text(x)], CloseOf(tag) + rest))
  {
    var b := x + CloseOf(tag) + rest;
    var c := CloseOf(tag) + rest;
    var anc := ancestors + [tag];
    var m := ModeFor(tag);
    assert b[0] == x[0];
    assert !StartsWith(b, "{{") by {
      assert |b| >= 2 ==> b[..2][0] == b[0];
    }
    NotEnd(b, anc);
    assert TextNode(b) == Ok((Text(x), c)) by {
      CloseLacksBrace(tag, rest);
      assert b == x + "<" + ("/" + tag + ">" + rest);
      assert c == "<" + ("/" + tag + ">" + rest);
      TextNodeBeforeLt(x, "/" + tag + ">" + rest);
    }
    assert NextNode(b, b, anc, m) == TextNode(b);
    assert Ends(c, anc) by {
      assert StartsWith(c, CloseOf(anc[|anc| - 1])) by {
        assert c[..|CloseOf(tag)|] == CloseOf(tag);
      }
    }
    LastChild(b, b, anc, m, Text(x), c);
  }

  /** `<tag>x</tag>rest` with plain text x: the element with one text child, and the source after the end tag. */
  lemma ElementWithText(tag: string, x: string, rest: string, ancestors: seq<string>)
    requires Letters(tag) && ModeFor(tag) != RawText
    requires x != [] && Lacks(x, '<') && Lacks(x, '{') && Lacks(x, '&') && Lacks(rest, '{')
    ensures ElementNode("<" + tag + ">" + x + CloseOf(tag) + rest, ancestors)
      == Ok((Element(tag, [], [Text(x)], false), rest))
  {
    var b := x + CloseOf(tag) + rest;
    var s := "<" + tag + ">" + x + CloseOf(tag) + rest;
    var c := CloseOf(tag) + rest;
    assert s == "<" + tag + ">" + b;
    TagPlain("<", tag, b, false);
    ElementNodeStart(s, ancestors);
    ElementBodyChildren(Element(tag, [], [], false), b, ancestors);
    TextChild(tag, x, rest, ancestors);
    assert c == "</" + tag + ">" + rest;
    TagPlain("</", tag, rest, true);
    assert StartsWith(c, CloseOf(tag)) by {
      assert c[..|CloseOf(tag)|] == CloseOf(tag);
    }
    assert EndTag(c, tag) == Ok(rest);
  }

  /** `<tag>x</tag>` parses to one element holding one text node. */
  lemma ParseElementWithText(tag: string, x: string)
    requires Letters(tag) && ModeFor(tag) != RawText
    requires x != [] && Lacks(x, '<') && Lacks(x, '{') && Lacks(x, '&')
    ensures ParseSpec("<" + tag + ">" + x + CloseOf(tag)) == Ok(Root([Element(tag, [], [Text(x)], false)]))
  {
    var s := "<" + tag + ">" + x + CloseOf(tag);
    assert s[0] == '<' && s[1] == tag[0];
    LastElement(s, tag, x);
  }

  /** In DATA mode `<` and a letter select `parseElement`. */
  lemma NextElement(s0: string, cur: string, ancestors: seq<string>)
    requires |s0| >= 2 && s0[0] == '<' && IsLetter(s0[1])
    ensures NextNode(s0, cur, ancestors, Data) == ElementNode(cur, ancestors)
  {
  }

  lemma ChildrenAtEnd(s0: string, cur: string, ancestors: seq<string>, mode: Mode)
    requires Ends(cur, ancestors)
    ensures Children(s0, cur, ancestors, mode) == Ok(([], cur))
  {
  }

  /**
   * Two sibling elements: the loop began on `<` and a letter, so every
   * iteration calls `parseElement`.
   */
  lemma ParseTwoElements(tag1: string, x1: string, tag2: string, x2: string)
    requires Letters(tag1) && ModeFor(tag1) != RawText && Letters(tag2) && ModeFor(tag2) != RawText
    requires x1 != [] && Lacks(x1, '<') && Lacks(x1, '{') && Lacks(x1, '&')
    requires x2 != [] && Lacks(x2, '<') && Lacks(x2, '{') && Lacks(x2, '&')
    ensures ParseSpec("<" + tag1 + ">" + x1 + CloseOf(tag1) + ("<" + tag2 + ">" + x2 + CloseOf(tag2)))
      == Ok(Root([Element(tag1, [], [Text(x1)], false), Element(tag2, [], [Text(x2)], false)]))
  {
    var second := "<" + tag2 + ">" + x2 + CloseOf(tag2);
    var s := "<" + tag1 + ">" + x1 + CloseOf(tag1) + second;
    var e1 := Element(tag1, [], [Text(x1)], false);
    var e2 := Element(tag2, [], [Text(x2)], false);
    assert s[0] == '<' && s[1] == tag1[0];
    assert NextNode(s, s, [], Data) == Ok((e1, second)) by {
      ElementLacksBrace(tag2, x2);
      ElementWithText(tag1, x1, second, []);
      NextElement(s, s, []);
    }
    assert |second| < |s|;
    FirstStep(s, s, [], Data, e1, second);
    LastElement(s, tag2, x2);
    assert [e1] + [e2] == [e1, e2];
  }

  lemma ElementLacksBrace(tag: string, x: string)
    requires Letters(tag) && Lacks(x, '{')
    ensures Lacks("<" + tag + ">" + x + CloseOf(tag), '{')
  {
    var s := "<" + tag + ">" + x + CloseOf(tag);
    var c := CloseOf(tag);
    forall i | 0 <= i < |c|
      ensures c[i] != '{'
    {
      if 2 <= i < 2 + |tag| {
        assert c[i] == tag[i - 2];
      }
    }
    forall i | 0 <= i < |s|
      ensures s[i] != '{'
    {
      if 0 < i <= |tag| {
        assert s[i] == tag[i - 1];
      } else if |tag| + 1 < i < |tag| + 2 + |x| {
        assert s[i] == x[i - |tag| - 2];
      } else if i >= |tag| + 2 + |x| {
        assert s[i] == c[i - |tag| - 2 - |x|];
      }
    }
  }

  /** The loop, begun on `<` and a letter, reaching a last element that holds text. */
  lemma LastElement(s0: string, tag: string, x: string)
    requires |s0| >= 2 && s0[0] == '<' && IsLetter(s0[1])
    requires Letters(tag) && ModeFor(tag) != RawText
    requires x != [] && Lacks(x, '<') && Lacks(x, '{') && Lacks(x, '&')
    ensures Children(s0, "<" + tag + ">" + x + CloseOf(tag), [], Data)
      == Ok(([Element(tag, [], [Text(x)], false)], []))
  {
    var cur := "<" + tag + ">" + x + CloseOf(tag);
    var e := Element(tag, [], [Text(x)], false);
    assert ElementNode(cur, []) == Ok((e, [])) by {
      AppendNil(cur);
      ElementWithText(tag, x, [], []);
    }
    NextElement(s0, cur, []);
    LastChild(s0, cur, [], Data, e, []);
  }

  /** The loop's last node: one step, after which the source is at its end. */
  lemma LastChild(s0: string, cur: string, ancestors: seq<string>, mode: Mode, n: Node, next: string)
    requires !Ends(cur, ancestors) && Ends(next, ancestors)
    requires NextNode(s0, cur, ancestors, mode) == Ok((n, next)) && next != cur
    ensures Children(s0, cur, ancestors, mode) == Ok(([n], next))
  {
    ChildrenStep(s0, cur, ancestors, mode);
    ChildrenAtEnd(s0, next, ancestors, mode);
    AppendNil([n]);
  }

  /** Text after a first element makes the loop call `parseElement` on it, which throws. */
  lemma ParseElementThenTextThrows(tag: string, x: string, t: string)
    requires Letters(tag) && ModeFor(tag) != RawText
    requires x != [] && Lacks(x, '<') && Lacks(x, '{') && Lacks(x, '&')
    requires t != [] && t[0] != '<' && Lacks(t, '{')
    ensures ParseSpec("<" + tag + ">" + x + CloseOf(tag) + t) == Threw
  {
    var s := "<" + tag + ">" + x + CloseOf(tag) + t;
    var e := Element(tag, [], [Text(x)], false);
    assert s[0] == '<' && s[1] == tag[0];
    assert NextNode(s, s, [], Data) == Ok((e, t)) by {
      ElementWithText(tag, x, t, []);
      NextElement(s, s, []);
    }
    assert |t| < |s|;
    FirstStep(s, s, [], Data, e, t);
    assert NextNode(s, t, [], Data) == Threw by {
      NextElement(s, t, []);
      ElementNodeStart(t, []);
    }
    StepThrows(s, t, [], Data);
  }

  /** A step that parses a node and consumes something: the node, then the rest of the loop. */
  lemma FirstStep(s0: string, cur: string, ancestors: seq<string>, mode: Mode, n: Node, next: string)
    requires !Ends(cur, ancestors)
    requires NextNode(s0, cur, ancestors, mode) == Ok((n, next)) && next != cur
    ensures Children(s0, cur, ancestors, mode) == Prepend([n], Children(s0, next, ancestors, mode))
  {
    ChildrenStep(s0, cur, ancestors, mode);
  }

  /** A step that throws ends the loop with the exception. */
  lemma StepThrows(s0: string, cur: string, ancestors: seq<string>, mode: Mode)
    requires !Ends(cur, ancestors) && NextNode(s0, cur, ancestors, mode) == Threw
    ensures Children(s0, cur, ancestors, mode) == Threw
  {
    ChildrenStep(s0, cur, ancestors, mode);
  }

  /** The modes `parseElement` selects for some tags. */
  lemma ModeForTags()
    ensures ModeFor("textarea") == RcData && ModeFor("title") == RcData
    ensures ModeFor("style") == RawText && ModeFor("noscript") == RawText
    ensures ModeFor("div") == Data
  {
    assert OccursAt("style", "style", 0);
    assert OccursAt("noscript", "noscript", 0);
    assert "div"[0..3][0] == 'd';
  }
}
