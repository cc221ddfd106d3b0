/**
 * Model of parser.js: a recursive-descent parser for an HTML-like template
 * language. A `context` holds the unread `source` and the text `mode`;
 * `parseChildren` loops until `isEnd`, dispatching on the first characters
 * to comments, elements, interpolations and text, and `decodeHtml` decodes
 * character references in text.
 *
 * Every parse function is stated twice: a specification function from the
 * unread source to the node and the source left over, and a method of
 * `HtmlParser` that advances `source` in place as the JavaScript does.
 * A call either returns, throws (a regular expression that does not match,
 * `parseCDATA`, which is not defined), or never returns (an iteration that
 * consumes nothing repeats forever).
 */
module Parser {
  import opened Seqs

  /** How a call ends: with a value, with an exception, or never. */
  datatype Result<T> = Ok(value: T) | Threw | Diverged

  // ---------------------------------------------------------------------------
  // Strings: the JavaScript string methods and regular-expression classes used

  predicate StartsWith(s: string, p: string) {
    |p| <= |s| && s[..|p|] == p
  }

  predicate OccursAt(s: string, p: string, k: int) {
    0 <= k && k + |p| <= |s| && s[k..k + |p|] == p
  }

  predicate Contains(s: string, p: string) {
    exists k | 0 <= k <= |s| :: OccursAt(s, p, k)
  }

  /** `s.indexOf(p, k)`: the first occurrence at or after k, or -1. */
  function IndexFrom(s: string, p: string, k: nat): (i: int)
    ensures i == -1 || (k <= i && OccursAt(s, p, i))
    ensures forall j | k <= j && (i == -1 || j < i) :: !OccursAt(s, p, j)
    decreases |s| - k
  {
    if k + |p| > |s| then -1
    else if s[k..k + |p|] == p then k
    else IndexFrom(s, p, k + 1)
  }

  function IndexOf(s: string, p: string): (i: int) {
    IndexFrom(s, p, 0)
  }

  /** `s.slice(n)` for n >= 0. */
  function Drop(s: string, n: nat): (r: string) {
    if n <= |s| then s[n..] else []
  }

  /** The end index `s.slice(0, i)` uses for i >= -1: a negative index counts from the end. */
  function SliceEnd(s: string, i: int): (r: nat)
    requires -1 <= i <= |s|
  {
    if i >= 0 then i else if |s| > 0 then |s| - 1 else 0
  }

  /** t is what is left of s after some prefix was consumed. */
  predicate IsSuffix(t: string, s: string)
    decreases |s|
  {
    |t| <= |s| && (t == s || IsSuffix(t, s[1..]))
  }

  lemma {:induction false} DropIsSuffix(s: string, n: nat)
    ensures IsSuffix(Drop(s, n), s)
    decreases |s|
  {
    if n > 0 && s != [] {
      DropIsSuffix(s[1..], n - 1);
      assert Drop(s[1..], n - 1) == Drop(s, n);
    }
  }

  lemma SuffixShorter(t: string, s: string)
    requires IsSuffix(t, s) && t != s
    ensures |t| < |s|
  {
  }

  lemma {:induction false} SuffixTrans(a: string, b: string, c: string)
    requires IsSuffix(a, b) && IsSuffix(b, c)
    ensures IsSuffix(a, c)
    decreases |c|
  {
    if b != c {
      SuffixTrans(a, b, c[1..]);
    }
  }

  /** What is left after dropping m and then n characters. */
  lemma DropDropIsSuffix(s: string, m: nat, n: nat)
    ensures IsSuffix(Drop(Drop(s, m), n), s)
  {
    DropIsSuffix(s, m);
    DropIsSuffix(Drop(s, m), n);
    SuffixTrans(Drop(Drop(s, m), n), Drop(s, m), s);
  }

  predicate IsSpace(c: char) {
    c == '\t' || c == '\r' || c == '\n' || c == '\U{000C}' || c == ' '
  }

  predicate IsLetter(c: char) {
    ('a' <= c <= 'z') || ('A' <= c <= 'Z')
  }

  predicate IsDigit(c: char) {
    '0' <= c <= '9'
  }

  predicate IsAlnum(c: char) {
    IsLetter(c) || IsDigit(c)
  }

  /** The character classes of the regular expressions in parser.js. */
  datatype CharClass =
    | Space      // [\t\r\n\f ]
    | TagChar    // [^\t\r\n\f />]
    | NameChar   // [^\t\r\n\f />=]
    | ValueChar  // [^\t\r\n\f >]
    | Digit      // [0-9]

  predicate In(c: char, k: CharClass) {
    match k
    case Space => IsSpace(c)
    case TagChar => !IsSpace(c) && c != '/' && c != '>'
    case NameChar => !IsSpace(c) && c != '/' && c != '>' && c != '='
    case ValueChar => !IsSpace(c) && c != '>'
    case Digit => IsDigit(c)
  }

  /** The length of the longest prefix of s in class k: what `^[...]*` matches. */
  function Run(s: string, k: CharClass): (n: nat)
    ensures n <= |s|
    ensures forall i | 0 <= i < n :: In(s[i], k)
    ensures n < |s| ==> !In(s[n], k)
  {
    if s == [] || !In(s[0], k) then 0 else 1 + Run(s[1..], k)
  }

  /** What `advanceSpaces` leaves (parser.js:15-20). */
  function SkipSpaces(s: string): (r: string)
    ensures IsSuffix(r, s)
  {
    DropIsSuffix(s, Run(s, Space));
    Drop(s, Run(s, Space))
  }

  // ---------------------------------------------------------------------------
  // Character references (parser.js:197-300)

  /** `namedCharacterRefrences`, in declaration order. */
  const RefTable: seq<(string, string)> :=
    [("gt", ">"), ("gt;", ">"), ("lt", "<"), ("lt;", "<"), ("ltcc;", "\U{2AA6}")]

  function Lookup(t: seq<(string, string)>, name: string): (r: Option<string>)
    decreases |t|
  {
    if t == [] then None
    else if t[0].0 == name then Some(t[0].1)
    else Lookup(t[1..], name)
  }

  /** `maxCRNameLength`: the longest key, computed with `reduce` (parser.js:236-239). */
  function MaxNameLength(t: seq<(string, string)>): (r: nat)
    decreases |t|
  {
    if t == [] then 0
    else if |t[|t| - 1].0| > MaxNameLength(t[..|t| - 1]) then |t[|t| - 1].0|
    else MaxNameLength(t[..|t| - 1])
  }

  lemma MaxNameLengthIsFive()
    ensures MaxNameLength(RefTable) == 5
  {
    var t1 := [("gt", ">")];
    assert t1[..0] == [];
    assert MaxNameLength(t1) == 2;
    var t2 := t1 + [("gt;", ">")];
    assert t2[..1] == t1;
    assert MaxNameLength(t2) == 3;
    var t3 := t2 + [("lt", "<")];
    assert t3[..2] == t2;
    assert MaxNameLength(t3) == 3;
    var t4 := t3 + [("lt;", "<")];
    assert t4[..3] == t3;
    assert MaxNameLength(t4) == 3;
    assert RefTable == t4 + [("ltcc;", "\U{2AA6}")];
    assert RefTable[..4] == t4;
  }

  /** `rawText.substr(1, length)` on text that starts with `&`. */
  function RefName(r: string, len: nat): (res: string)
    requires |r| >= 1
  {
    r[1..if 1 + len <= |r| then 1 + len else |r|]
  }

  /**
   * The loop at parser.js:242-245: try the names after `&` from `len`
   * characters down to 1 and stop at the first that is a key. The name is
   * the last one tried, the value is that of the key, if any.
   */
  function RefSearch(r: string, len: nat): (string, Option<string>)
    requires |r| >= 1 && len >= 1
    decreases len
  {
    var name := RefName(r, len);
    match Lookup(RefTable, name)
    case Some(v) => (name, Some(v))
    case None => if len == 1 then (name, None) else RefSearch(r, len - 1)
  }

  /** Where `/&(?:#x)?/i` matches: the first `&`, or -1. */
  function FirstAmp(s: string): (i: int)
    ensures -1 <= i < |s|
    ensures i >= 0 ==> s[i] == '&'
    ensures forall j | 0 <= j < |s| && (i < 0 || j < i) :: s[j] != '&'
  {
    if s == [] then -1
    else if s[0] == '&' then 0
    else var i := FirstAmp(s[1..]); if i < 0 then -1 else i + 1
  }

  /** `head[0] === "&#x"`: the regular expression `/&(?:#x)?/i` matched the long form. */
  predicate IsHexHead(r: string) {
    |r| >= 3 && r[0] == '&' && r[1] == '#' && (r[2] == 'x' || r[2] == 'X')
  }

  /** `Number.parseInt(ds, 10)` on a run of digits. */
  function DecimalValue(ds: string): (r: nat)
    requires forall i | 0 <= i < |ds| :: IsDigit(ds[i])
    decreases |ds|
  {
    if ds == [] then 0
    else
      assert IsDigit(ds[|ds| - 1]);
      DecimalValue(ds[..|ds| - 1]) * 10 + (ds[|ds| - 1] as int - '0' as int)
  }

  /** The replacements of parser.js:271-287: 0, out-of-range and surrogate code points become U+FFFD. */
  function Clamp(cp: nat): (r: nat)
    ensures 0 < r < 0xD800 || 0xDFFF < r <= 0x10FFFF
  {
    if cp == 0 then 0xFFFD
    else if cp > 0x10FFFF then 0xFFFD
    else if 0xD800 <= cp <= 0xDFFF then 0xFFFD
    else cp
  }

  /**
   * One reference at the head of r (parser.js:231-295), hexadecimal heads
   * excluded: the text appended to `decodedText` and the number of
   * characters `advance` consumes.
   */
  function RefStep(r: string, asAttr: bool): (res: (string, nat))
    requires |r| >= 1 && r[0] == '&' && !IsHexHead(r)
    ensures 1 <= res.1 <= |r|
  {
    // `rawText[1]` is undefined at the end, and `/[0-9a-z]/i.test(undefined)` tests "undefined".
    if |r| < 2 || IsAlnum(r[1]) then
      var (name, value) := RefSearch(r, 5);
      var n := 1 + |name|;
      match value
      case Some(v) =>
        var semi := |name| > 0 && name[|name| - 1] == ';';
        if asAttr && !semi && n < |r| && (r[n] == '=' || IsAlnum(r[n])) then ("&" + name, n)
        else (v, n)
      case None => ("&" + name, n)
    else
      var ds := Run(r[2..], Digit);
      if r[1] == '#' && ds > 0 then
        var semi := 2 + ds < |r| && r[2 + ds] == ';';
        ([Clamp(DecimalValue(r[2..2 + ds])) as char], 2 + ds + if semi then 1 else 0)
      else ("&", 1)
  }

  /** Text the decoder appended before the rest of the loop's result. */
  function After(d: string, r: Result<string>): (a: Result<string>) {
    match r
    case Ok(t) => Ok(d + t)
    case Threw => Threw
    case Diverged => Diverged
  }

  lemma AfterAfter(d: string, e: string, r: Result<string>)
    ensures After(d, After(e, r)) == After(d + e, r)
    ensures After([], r) == r
  {
    if r.Ok? {
      assert d + (e + r.value) == d + e + r.value;
      assert [] + r.value == r.value;
    }
  }

  /** One iteration of the decoder's loop, as `Decode` takes it. */
  lemma DecodeStep(raw: string, asAttr: bool, h: int)
    requires h == FirstAmp(raw)
    ensures h < 0 ==> Decode(raw, asAttr) == Ok(raw)
    ensures h >= 0 && IsHexHead(raw[h..]) ==> Decode(raw, asAttr) == Diverged
    ensures h >= 0 && !IsHexHead(raw[h..]) ==>
      var (out, n) := RefStep(raw[h..], asAttr);
      Decode(raw, asAttr) == After(raw[..h] + out, Decode(raw[h..][n..], asAttr))
  {
  }

  /**
   * `decodeHtml(rawText, asAttr)` as a function. A `&#x` head is handled by
   * neither branch, so once it is at the front the loop makes no progress.
   */
  function Decode(raw: string, asAttr: bool): (r: Result<string>)
    ensures !r.Threw?
    decreases |raw|
  {
    var h := FirstAmp(raw);
    if h < 0 then Ok(raw)
    else
      var r := raw[h..];
      if IsHexHead(r) then Diverged
      else
        var (out, n) := RefStep(r, asAttr);
        After(raw[..h] + out, Decode(r[n..], asAttr))
  }

  // ---------------------------------------------------------------------------
  // The parse functions (parser.js:31-195, 302-335) on the unread source

  datatype Mode = Data | RcData | RawText

  datatype Attr = Attr(name: string, value: string)

  datatype Node =
    | Element(tag: string, props: seq<Attr>, children: seq<Node>, isSelfClosing: bool)
    | Text(content: string)
    | Interpolation(content: string)
    | Comment(content: string)

  datatype Root = Root(children: seq<Node>)

  /** The closing tag `</tag>`. */
  function CloseOf(tag: string): (r: string) {
    "</" + tag + ">"
  }

  /** `isEnd` (parser.js:65-73): the source is used up or closes an open element. */
  predicate Ends(s: string, ancestors: seq<string>) {
    s == [] || exists i | 0 <= i < |ancestors| :: StartsWith(s, CloseOf(ancestors[i]))
  }

  /** The text mode `parseElement` selects for an element's children (parser.js:81-87). */
  function ModeFor(tag: string): (r: Mode) {
    if tag == "textarea" || tag == "title" then RcData
    else if Contains(tag, "style") || Contains(tag, "xmp") || Contains(tag, "iframe")
         || Contains(tag, "noembed") || Contains(tag, "noframes") || Contains(tag, "noscript") then RawText
    else Data
  }

  /** A quoted or unquoted attribute value and the source after it (parser.js:141-160). */
  function AttrValue(b: string): (r: Result<(string, string)>)
    ensures r.Ok? ==> IsSuffix(r.value.1, b)
    ensures !r.Diverged?
  {
    if |b| > 0 && (b[0] == '\'' || b[0] == '"') then
      var b1 := Drop(b, 1);
      var q := IndexOf(b1, [b[0]]);
      DropDropIsSuffix(b, 1, q + 1);
      DropIsSuffix(b, 1);
      if q > -1 then Ok((b1[..q], Drop(b1, q + 1)))
      else Ok(("", b1))
    else if b == [] || !In(b[0], ValueChar) then Threw
    else
      var n := Run(b, ValueChar);
      DropIsSuffix(b, n);
      Ok((b[..n], Drop(b, n)))
  }

  /** The end of the attribute name: one character of class TagChar, then a run of class NameChar (parser.js:134). */
  function NameEnd(s: string): (n: nat)
    requires s != []
    ensures 0 < n <= |s|
  {
    1 + Run(s[1..], NameChar)
  }

  /** One attribute: its name, value and the source after the spaces that follow (parser.js:133-170). */
  function Attribute(s: string): (r: Result<(Attr, string)>)
    requires s != [] && In(s[0], TagChar)
    ensures r.Ok? ==> IsSuffix(r.value.1, s) && |r.value.1| < |s|
    ensures !r.Diverged?
  {
    var n := NameEnd(s);
    var a := SkipSpaces(Drop(s, n));
    var b := SkipSpaces(Drop(a, 1));
    DropIsSuffix(s, n);
    DropIsSuffix(a, 1);
    SuffixTrans(b, Drop(a, 1), a);
    SuffixTrans(b, a, Drop(s, n));
    SuffixTrans(b, Drop(s, n), s);
    match AttrValue(b)
    case Ok((value, c)) =>
      SuffixTrans(c, b, s);
      SuffixTrans(SkipSpaces(c), c, s);
      Ok((Attr(s[..n], value), SkipSpaces(c)))
    case Threw => Threw
    case Diverged => Diverged
  }

  /** `parseAttributes` (parser.js:128-172). */
  function Attributes(s: string): (r: Result<(seq<Attr>, string)>)
    ensures r.Ok? ==> IsSuffix(r.value.1, s)
    ensures !r.Diverged?
    decreases |s|
  {
    if StartsWith(s, ">") || StartsWith(s, "/>") then Ok(([], s))
    else if s == [] || !In(s[0], TagChar) then Threw
    else
      match Attribute(s)
      case Ok((attr, c)) =>
        (match Attributes(c)
         case Ok((ps, rest)) => SuffixTrans(rest, c, s); Ok(([attr] + ps, rest))
         case Threw => Threw
         case Diverged => Diverged)
      case Threw => Threw
      case Diverged => Diverged
  }

  lemma AttributesCons(s: string, attr: Attr, c: string)
    requires !StartsWith(s, ">") && !StartsWith(s, "/>")
    requires s != [] && In(s[0], TagChar) && Attribute(s) == Ok((attr, c))
    ensures Attributes(s) == Prepend([attr], Attributes(c))
  {
  }

  lemma AttributesThrew(s: string)
    requires !StartsWith(s, ">") && !StartsWith(s, "/>")
    requires s == [] || !In(s[0], TagChar) || Attribute(s) == Threw
    ensures Attributes(s) == Threw
  {
  }

  /** The end of the tag name: a letter at p, then a run of class TagChar (parser.js:104-105). */
  function TagNameEnd(s: string, p: nat): (e: nat)
    requires p < |s|
    ensures p < e <= |s|
  {
    p + 1 + Run(s[p + 1..], TagChar)
  }

  /** `parseTag(context, type)` (parser.js:102-126); closing selects the `</` pattern. */
  function Tag(s: string, closing: bool): (r: Result<(Node, string)>)
    ensures r.Ok? ==> IsSuffix(r.value.1, s) && |r.value.1| < |s|
    ensures r.Ok? ==> r.value.0.Element? && r.value.0.children == []
    ensures !r.Diverged?
  {
    var p := if closing then 2 else 1;
    if !(p < |s| && s[0] == '<' && (!closing || s[1] == '/') && IsLetter(s[p])) then Threw
    else
      var e := TagNameEnd(s, p);
      var s1 := SkipSpaces(Drop(s, e));
      DropIsSuffix(s, e);
      SuffixTrans(s1, Drop(s, e), s);
      match Attributes(s1)
      case Ok((props, s2)) =>
        var sc := StartsWith(s2, "/>");
        var s3 := Drop(s2, if sc then 2 else 1);
        DropIsSuffix(s2, if sc then 2 else 1);
        SuffixTrans(s2, s1, s);
        SuffixTrans(s3, s2, s);
        Ok((Element(s[p..e], props, [], sc), s3))
      case Threw => Threw
      case Diverged => Diverged
  }

  /** Where `parseText` stops (parser.js:175-186). */
  function TextEnd(s: string): (e: nat)
    ensures e <= |s|
  {
    var lt := IndexOf(s, "<");
    var dl := IndexOf(s, "{{");
    var e := if lt > -1 && lt > dl then lt else |s|;
    if dl > -1 && dl < lt then dl else e
  }

  /** `parseText` (parser.js:174-195). */
  function TextNode(s: string): (r: Result<(Node, string)>)
    ensures r.Ok? ==> IsSuffix(r.value.1, s)
    ensures !r.Threw?
  {
    var e := TextEnd(s);
    DropIsSuffix(s, e);
    match Decode(s[..e], false)
    case Ok(t) => Ok((Text(t), Drop(s, e)))
    case Threw => Threw
    case Diverged => Diverged
  }

  /** `parseInterpolation` (parser.js:302-321); without `}}` the slice drops the last character. */
  function InterpolationNode(s: string): (r: Result<(Node, string)>)
    ensures r.Ok? ==> IsSuffix(r.value.1, s)
    ensures !r.Threw?
  {
    var s1 := Drop(s, 2);
    var content := s1[..SliceEnd(s1, IndexOf(s1, "}}"))];
    DropDropIsSuffix(s1, |content|, 2);
    DropIsSuffix(s, 2);
    SuffixTrans(Drop(Drop(s1, |content|), 2), s1, s);
    match Decode(content, false)
    case Ok(t) => Ok((Interpolation(t), Drop(Drop(s1, |content|), 2)))
    case Threw => Threw
    case Diverged => Diverged
  }

  /** `parseComment` (parser.js:323-335); without `-->` the slice drops the last character. */
  function CommentNode(s: string): (r: Result<(Node, string)>)
    ensures r.Ok? ==> IsSuffix(r.value.1, s)
    ensures r.Ok?
  {
    var s1 := Drop(s, 4);
    var content := s1[..SliceEnd(s1, IndexOf(s1, "-->"))];
    DropDropIsSuffix(s1, |content|, 3);
    DropIsSuffix(s, 4);
    SuffixTrans(Drop(Drop(s1, |content|), 3), s1, s);
    Ok((Comment(content), Drop(Drop(s1, |content|), 3)))
  }

  /** The end tag `parseElement` consumes if it follows the children (parser.js:93-97). */
  function EndTag(s: string, tag: string): (r: Result<string>)
    ensures r.Ok? ==> IsSuffix(r.value, s)
  {
    if StartsWith(s, CloseOf(tag)) then
      match Tag(s, true)
      case Ok((_, rest)) => Ok(rest)
      case Threw => Threw
      case Diverged => Diverged
    else Ok(s)
  }

  /**
   * `parseElement` (parser.js:75-100): the start tag, then unless it closes
   * itself the children in the tag's mode, then the end tag if it follows.
   */
  function ElementNode(s: string, ancestors: seq<string>): (r: Result<(Node, string)>)
    ensures r.Ok? ==> IsSuffix(r.value.1, s) && |r.value.1| < |s|
    decreases |s|, 0
  {
    match Tag(s, false)
    case Ok((el, s1)) =>
      if el.isSelfClosing then Ok((el, s1))
      else
        var r := ElementBody(el, s1, ancestors);
        if r.Ok? then SuffixTrans(r.value.1, s1, s); r else r
    case Threw => Threw
    case Diverged => Diverged
  }

  /** The children of a start tag el that does not close itself, and its end tag. */
  function ElementBody(el: Node, s: string, ancestors: seq<string>): (r: Result<(Node, string)>)
    requires el.Element?
    ensures r.Ok? ==> IsSuffix(r.value.1, s)
    decreases |s|, 3
  {
    match Children(s, s, ancestors + [el.tag], ModeFor(el.tag))
    case Ok((cs, s2)) =>
      (match EndTag(s2, el.tag)
       case Ok(s3) => SuffixTrans(s3, s2, s); Ok((el.(children := cs), s3))
       case Threw => Threw
       case Diverged => Diverged)
    case Threw => Threw
    case Diverged => Diverged
  }

  lemma ElementNodeStart(s: string, ancestors: seq<string>)
    ensures !Tag(s, false).Ok? ==> ElementNode(s, ancestors) == Threw
    ensures Tag(s, false).Ok? && Tag(s, false).value.0.isSelfClosing ==> ElementNode(s, ancestors) == Tag(s, false)
    ensures Tag(s, false).Ok? && !Tag(s, false).value.0.isSelfClosing ==>
      ElementNode(s, ancestors) == ElementBody(Tag(s, false).value.0, Tag(s, false).value.1, ancestors)
  {
  }

  lemma ElementBodyChildren(el: Node, s: string, ancestors: seq<string>)
    requires el.Element?
    ensures var c := Children(s, s, ancestors + [el.tag], ModeFor(el.tag));
      ElementBody(el, s, ancestors) ==
        match c
        case Ok((cs, s2)) =>
          (match EndTag(s2, el.tag)
           case Ok(s3) => Ok((el.(children := cs), s3))
           case Threw => Threw
           case Diverged => Diverged)
        case Threw => Threw
        case Diverged => Diverged
  {
  }

  /**
   * One iteration of `parseChildren`'s loop (parser.js:36-59). The branch is
   * chosen on s0 and mode, the source and mode captured when the call began
   * (parser.js:33); the parse functions read the current source cur.
   */
  function NextNode(s0: string, cur: string, ancestors: seq<string>, mode: Mode): (r: Result<(Node, string)>)
    ensures r.Ok? ==> IsSuffix(r.value.1, cur)
    decreases |cur|, 1
  {
    if mode == RawText then
      // No branch applies: `undefined` is pushed and nothing is consumed.
      Diverged
    else if mode == Data && |s0| > 0 && s0[0] == '<' then
      if |s0| > 1 && s0[1] == '!' then
        if StartsWith(s0, "<!--") then CommentNode(cur)
        else if StartsWith(s0, "<![CDATA[") then Threw
        else TextNode(cur)
      else if |s0| > 1 && s0[1] == '/' then
        // `continue` without consuming anything.
        Diverged
      else if |s0| == 1 || IsLetter(s0[1]) then
        // At the end `source[1]` is undefined, and `/[a-z]/i` matches "undefined".
        ElementNode(cur, ancestors)
      else TextNode(cur)
    else if StartsWith(s0, "{{") then InterpolationNode(cur)
    else TextNode(cur)
  }

  /** Nodes parsed before the rest of the loop's result. */
  function Prepend<T>(xs: seq<T>, r: Result<(seq<T>, string)>): (p: Result<(seq<T>, string)>)
    ensures p.Ok? == r.Ok? && (p.Ok? ==> p.value == (xs + r.value.0, r.value.1))
  {
    match r
    case Ok((ys, rest)) => Ok((xs + ys, rest))
    case Threw => Threw
    case Diverged => Diverged
  }

  lemma PrependPrepend<T>(xs: seq<T>, ys: seq<T>, r: Result<(seq<T>, string)>)
    ensures Prepend(xs, Prepend(ys, r)) == Prepend(xs + ys, r)
    ensures Prepend([], r) == r
  {
    if r.Ok? {
      assert xs + (ys + r.value.0) == xs + ys + r.value.0;
      assert [] + r.value.0 == r.value.0;
    }
  }

  /**
   * `parseChildren` (parser.js:31-63) from the current source cur. An
   * iteration that consumes nothing leaves every input of the next one
   * unchanged, so the loop repeats it forever.
   */
  function Children(s0: string, cur: string, ancestors: seq<string>, mode: Mode): (r: Result<(seq<Node>, string)>)
    ensures r.Ok? ==> IsSuffix(r.value.1, cur)
    decreases |cur|, 2
  {
    if Ends(cur, ancestors) then Ok(([], cur))
    else
      match NextNode(s0, cur, ancestors, mode)
      case Ok((n, next)) =>
        if next == cur then Diverged
        else
          var r := Prepend([n], Children(s0, next, ancestors, mode));
          if r.Ok? then SuffixTrans(r.value.1, next, cur); r else r
      case Threw => Threw
      case Diverged => Diverged
  }

  lemma ChildrenStep(s0: string, cur: string, ancestors: seq<string>, mode: Mode)
    requires !Ends(cur, ancestors)
    ensures Children(s0, cur, ancestors, mode) ==
      match NextNode(s0, cur, ancestors, mode)
      case Ok((n, next)) => if next == cur then Diverged else Prepend([n], Children(s0, next, ancestors, mode))
      case Threw => Threw
      case Diverged => Diverged
  {
  }

  /** `parse(str)` (parser.js:8-29). */
  function ParseSpec(str: string): (r: Result<Root>) {
    match Children(str, str, [], Data)
    case Ok((ns, _)) => Ok(Root(ns))
    case Threw => Threw
    case Diverged => Diverged
  }

  // ---------------------------------------------------------------------------
  // The decoder's loops

  /** The named-reference loop at parser.js:242-245 on a head whose second character is alphanumeric or missing. */
  method SearchRef(r: string) returns (name: string, value: Option<string>)
    requires |r| >= 1
    ensures (name, value) == RefSearch(r, 5)
  {
    var maxLen := MaxNameLength(RefTable);
    MaxNameLengthIsFive();
    name, value := "", None;
    var length := maxLen;
    while value.None? && length > 0
      invariant 0 <= length <= 5
      invariant value.Some? ==> RefSearch(r, 5) == (name, value)
      invariant value.None? && length > 0 ==> RefSearch(r, 5) == RefSearch(r, length)
      invariant value.None? && length == 0 ==> RefSearch(r, 5) == (name, None)
      decreases length
    {
      name := RefName(r, length);
      value := Lookup(RefTable, name);
      length := length - 1;
    }
  }

  /** One reference at the head of r (parser.js:231-295): the decoded text and how much was consumed. */
  method DecodeRef(r: string, asAttr: bool) returns (out: string, n: nat)
    requires |r| >= 1 && r[0] == '&' && !IsHexHead(r)
    ensures (out, n) == RefStep(r, asAttr)
  {
    if |r| < 2 || IsAlnum(r[1]) {
      var name, value := SearchRef(r);
      n := 1 + |name|;
      if value.Some? {
        if asAttr && !(|name| > 0 && name[|name| - 1] == ';') && n < |r| && (r[n] == '=' || IsAlnum(r[n])) {
          out := "&" + name;
        } else {
          out := value.value;
        }
      } else {
        out := "&" + name;
      }
    } else {
      var ds := Run(r[2..], Digit);
      if r[1] == '#' && ds > 0 {
        var cp := Clamp(DecimalValue(r[2..2 + ds]));
        out := [cp as char];
        n := 2 + ds;
        if 2 + ds < |r| && r[2 + ds] == ';' {
          n := n + 1;
        }
      } else {
        out, n := "&", 1;
      }
    }
  }

  /**
   * One iteration of the loop in `decodeHtml` (parser.js:211-297) on a
   * non-empty rawText: the text it appends and the text left, or whether
   * it is stuck at a `&#x` head.
   */
  method DecodeNext(rawText: string, asAttr: bool) returns (appended: string, rest: string, stuck: bool)
    requires rawText != []
    ensures !stuck ==> |rest| < |rawText|
    ensures Decode(rawText, asAttr) == if stuck then Diverged else After(appended, Decode(rest, asAttr))
  {
    var h := FirstAmp(rawText);
    DecodeStep(rawText, asAttr, h);
    if h < 0 {
      assert Decode([], asAttr) == Ok([]) && rawText + [] == rawText;
      return rawText, [], false;
    }
    if IsHexHead(rawText[h..]) {
      // The head is matched again at index 0 and nothing is consumed: the loop never ends.
      return rawText[..h], rawText[h..], true;
    }
    var out, n := DecodeRef(rawText[h..], asAttr);
    return rawText[..h] + out, rawText[h..][n..], false;
  }

  /** `decodeHtml(rawText, asAttr)` (parser.js:205-300). */
  method DecodeHtml(raw: string, asAttr: bool) returns (r: Result<string>)
    ensures r == Decode(raw, asAttr)
  {
    var rawText, decodedText := raw, "";
    AfterAfter([], [], Decode(raw, asAttr));
    while rawText != []
      invariant Decode(raw, asAttr) == After(decodedText, Decode(rawText, asAttr))
      decreases |rawText|
    {
      var appended, rest, stuck := DecodeNext(rawText, asAttr);
      if stuck {
        return Diverged;
      }
      AfterAfter(decodedText, appended, Decode(rest, asAttr));
      decodedText, rawText := decodedText + appended, rest;
    }
    assert Decode(rawText, asAttr) == Ok([]) && decodedText + [] == decodedText;
    r := Ok(decodedText);
  }

  // ---------------------------------------------------------------------------
  // The parser's context

  /** Attaches the source left over to a method's result, to compare it with a specification function. */
  function Attach<T>(r: Result<T>, rest: string): (res: Result<(T, string)>) {
    match r
    case Ok(v) => Ok((v, rest))
    case Threw => Threw
    case Diverged => Diverged
  }

  /**
   * The parser's `context` (parser.js:10-21) together with the stack of
   * open elements that `parseChildren` and `parseElement` pass around; an
   * open element is represented by its tag, all that `isEnd` reads of it.
   */
  class HtmlParser {
    var source: string
    var mode: Mode
    var ancestors: seq<string>

    constructor (str: string)
      ensures source == str && mode == Data && ancestors == []
    {
      source, mode, ancestors := str, Data, [];
    }

    /** `advanceBy` (parser.js:12-14). */
    method AdvanceBy(n: nat)
      modifies this`source
      ensures source == Drop(old(source), n)
    {
      source := Drop(source, n);
    }

    /** `advanceSpaces` (parser.js:15-20). */
    method AdvanceSpaces()
      modifies this`source
      ensures source == SkipSpaces(old(source))
    {
      var n := Run(source, Space);
      source := source[n..];
    }

    /** `isEnd` (parser.js:65-73), searching the open elements from the innermost. */
    method IsEnd() returns (b: bool)
      ensures b == Ends(source, ancestors)
    {
      if source == [] {
        return true;
      }
      var i := |ancestors|;
      while i > 0
        invariant 0 <= i <= |ancestors|
        invariant forall j | i <= j < |ancestors| :: !StartsWith(source, CloseOf(ancestors[j]))
        decreases i
      {
        i := i - 1;
        if StartsWith(source, CloseOf(ancestors[i])) {
          return true;
        }
      }
      return false;
    }

    /** `parseComment` (parser.js:323-335). */
    method ParseComment() returns (r: Result<Node>)
      modifies this`source
      ensures Attach(r, source) == CommentNode(old(source))
    {
      AdvanceBy(4);
      var closeIndex := IndexOf(source, "-->");
      var content := source[..SliceEnd(source, closeIndex)];
      AdvanceBy(|content|);
      AdvanceBy(3);
      r := Ok(Comment(content));
    }

    /** `parseInterpolation` (parser.js:302-321). */
    method ParseInterpolation() returns (r: Result<Node>)
      modifies this`source
      ensures Attach(r, source) == InterpolationNode(old(source))
    {
      AdvanceBy(2);
      var closeIndex := IndexOf(source, "}}");
      var content := source[..SliceEnd(source, closeIndex)];
      AdvanceBy(|content|);
      AdvanceBy(2);
      var d := DecodeHtml(content, false);
      if !d.Ok? {
        return Diverged;
      }
      r := Ok(Interpolation(d.value));
    }

    /** `parseText` (parser.js:174-195). */
    method ParseText() returns (r: Result<Node>)
      modifies this`source
      ensures Attach(r, source) == TextNode(old(source))
    {
      var endIndex := |source|;
      var ltIndex := IndexOf(source, "<");
      var delimiterIndex := IndexOf(source, "{{");
      if ltIndex > -1 && ltIndex > delimiterIndex {
        endIndex := ltIndex;
      }
      if delimiterIndex > -1 && delimiterIndex < ltIndex {
        endIndex := delimiterIndex;
      }
      var content := source[..endIndex];
      AdvanceBy(|content|);
      var d := DecodeHtml(content, false);
      if !d.Ok? {
        return Diverged;
      }
      r := Ok(Text(d.value));
    }

    /** `parseAttributes` (parser.js:128-172). */
    method ParseAttributes() returns (r: Result<seq<Attr>>)
      modifies this`source
      ensures Attach(r, source) == Attributes(old(source))
    {
      var props: seq<Attr> := [];
      PrependPrepend(props, props, Attributes(source));
      while !StartsWith(source, ">") && !StartsWith(source, "/>")
        invariant Attributes(old(source)) == Prepend(props, Attributes(source))
        decreases |source|
      {
        if source == [] || !In(source[0], TagChar) {
          // The name pattern does not match and `match[0]` throws.
          AttributesThrew(source);
          return Threw;
        }
        ghost var before := source;
        var a := ParseAttribute();
        if !a.Ok? {
          AttributesThrew(before);
          return Threw;
        }
        AttributesCons(before, a.value, source);
        PrependPrepend(props, [a.value], Attributes(source));
        props := props + [a.value];
      }
      assert Attributes(source) == Ok(([], source)) && props + [] == props;
      r := Ok(props);
    }

    /** The body of `parseAttributes`'s loop (parser.js:133-170): one name and its value. */
    method ParseAttribute() returns (r: Result<Attr>)
      requires source != [] && In(source[0], TagChar)
      modifies this`source
      ensures Attach(r, source) == Attribute(old(source))
    {
      ghost var s := source;
      var n := NameEnd(source);
      var name := source[..n];
      AdvanceBy(n);
      AdvanceSpaces();
      AdvanceBy(1);
      AdvanceSpaces();
      ghost var b := source;
      assert b == SkipSpaces(Drop(SkipSpaces(s[n..]), 1));
      var value := ParseAttrValue();
      if !value.Ok? {
        assert AttrValue(b) == Threw;
        return Threw;
      }
      assert AttrValue(b) == Ok((value.value, source));
      AdvanceSpaces();
      r := Ok(Attr(name, value.value));
    }

    /** The value after `=` (parser.js:141-160). */
    method ParseAttrValue() returns (r: Result<string>)
      modifies this`source
      ensures Attach(r, source) == AttrValue(old(source))
    {
      var value := "";
      var isQuoted := source != [] && (source[0] == '\'' || source[0] == '"');
      if isQuoted {
        var quote := source[0];
        AdvanceBy(1);
        var endQuoteIndex := IndexOf(source, [quote]);
        if endQuoteIndex > -1 {
          value := source[..endQuoteIndex];
          AdvanceBy(|value|);
          AdvanceBy(1);
        }
      } else {
        if source == [] || !In(source[0], ValueChar) {
          // `/^[^\t\r\n\f >]+/` does not match and `match[0]` throws.
          return Threw;
        }
        value := source[..Run(source, ValueChar)];
        AdvanceBy(|value|);
      }
      r := Ok(value);
    }

    /** `parseTag(context, type)` (parser.js:102-126). */
    method ParseTag(closing: bool) returns (r: Result<Node>)
      modifies this`source
      ensures Attach(r, source) == Tag(old(source), closing)
    {
      var p := if closing then 2 else 1;
      if !(p < |source| && source[0] == '<' && (!closing || source[1] == '/') && IsLetter(source[p])) {
        return Threw;
      }
      ghost var s := source;
      var e := TagNameEnd(source, p);
      var tag := source[p..e];
      AdvanceBy(e);
      AdvanceSpaces();
      ghost var s1 := source;
      assert s1 == SkipSpaces(s[e..]);
      var props := ParseAttributes();
      if !props.Ok? {
        assert Attributes(s1) == Threw;
        return Threw;
      }
      assert Attributes(s1) == Ok((props.value, source));
      var isSelfClosing := StartsWith(source, "/>");
      AdvanceBy(if isSelfClosing then 2 else 1);
      r := Ok(Element(tag, props.value, [], isSelfClosing));
    }

    /** `parseElement` (parser.js:75-100). */
    method ParseElement() returns (r: Result<Node>)
      modifies this
      ensures Attach(r, source) == ElementNode(old(source), old(ancestors))
      ensures r.Ok? ==> ancestors == old(ancestors)
      decreases |source|, 0
    {
      ElementNodeStart(source, ancestors);
      var start := ParseTag(false);
      if !start.Ok? {
        return Threw;
      }
      if start.value.isSelfClosing {
        return start;
      }
      r := ParseElementBody(start.value);
    }

    /** The children and end tag of an element whose start tag did not close it (parser.js:81-99). */
    method ParseElementBody(element: Node) returns (r: Result<Node>)
      requires element.Element?
      modifies this
      ensures Attach(r, source) == ElementBody(element, old(source), old(ancestors))
      ensures r.Ok? ==> ancestors == old(ancestors)
      decreases |source|, 3
    {
      ElementBodyChildren(element, source, ancestors);
      mode := ModeFor(element.tag);
      ancestors := ancestors + [element.tag];
      var children := ParseChildren();
      if !children.Ok? {
        return if children.Threw? then Threw else Diverged;
      }
      ancestors := ancestors[..|ancestors| - 1];
      if StartsWith(source, CloseOf(element.tag)) {
        var end := ParseTag(true);
        if !end.Ok? {
          return Threw;
        }
      }
      // Otherwise the missing end tag is only reported on the console.
      r := Ok(element.(children := children.value));
    }

    /** The body of `parseChildren`'s loop (parser.js:36-59): s0 and m are the source and mode captured on entry. */
    method ParseNext(s0: string, m: Mode) returns (r: Result<Node>)
      modifies this
      ensures Attach(r, source) == NextNode(s0, old(source), old(ancestors), m)
      ensures r.Ok? ==> ancestors == old(ancestors)
      decreases |source|, 1
    {
      if m == RawText {
        // Neither branch applies: `undefined` is pushed and nothing is consumed.
        return Diverged;
      }
      if m == Data && |s0| > 0 && s0[0] == '<' {
        if |s0| > 1 && s0[1] == '!' {
          if StartsWith(s0, "<!--") {
            r := ParseComment();
            return;
          } else if StartsWith(s0, "<![CDATA[") {
            // `parseCDATA` is not defined.
            return Threw;
          }
        } else if |s0| > 1 && s0[1] == '/' {
          // `continue` without consuming anything.
          return Diverged;
        } else if |s0| == 1 || IsLetter(s0[1]) {
          r := ParseElement();
          return;
        }
      } else if StartsWith(s0, "{{") {
        r := ParseInterpolation();
        return;
      }
      r := ParseText();
    }

    /**
     * `parseChildren` (parser.js:31-63). The JavaScript loop has no exit
     * when an iteration consumes nothing; the method returns `Diverged` there.
     */
    method ParseChildren() returns (r: Result<seq<Node>>)
      modifies this
      ensures Attach(r, source) == Children(old(source), old(source), old(ancestors), old(mode))
      ensures r.Ok? ==> ancestors == old(ancestors)
      decreases |source|, 2
    {
      var m, s0 := mode, source;
      var nodes: seq<Node> := [];
      PrependPrepend(nodes, nodes, Children(s0, s0, ancestors, m));
      var end := IsEnd();
      while !end
        invariant ancestors == old(ancestors)
        invariant end == Ends(source, ancestors)
        invariant Children(s0, s0, ancestors, m) == Prepend(nodes, Children(s0, source, ancestors, m))
        decreases |source|
      {
        ChildrenStep(s0, source, ancestors, m);
        var before := source;
        var node := ParseNext(s0, m);
        if !node.Ok? {
          return if node.Threw? then Threw else Diverged;
        }
        if source == before {
          // Nothing was consumed: the next iteration starts from the same state, forever.
          return Diverged;
        }
        SuffixShorter(source, before);
        PrependPrepend(nodes, [node.value], Children(s0, source, ancestors, m));
        nodes := nodes + [node.value];
        end := IsEnd();
      }
      assert Children(s0, source, ancestors, m) == Ok(([], source)) && nodes + [] == nodes;
      r := Ok(nodes);
    }
  }

  /** `parse(str)` (parser.js:8-29). */
  method Parse(str: string) returns (r: Result<Root>)
    ensures r == ParseSpec(str)
  {
    var context := new HtmlParser(str);
    var children := context.ParseChildren();
    r := match children
      case Ok(ns) => Ok(Root(ns))
      case Threw => Threw
      case Diverged => Diverged;
  }
}
