# vue3-core-parts in Dafny

A model of four small JavaScript files that re-implement parts of the Vue 3
core, with proofs about them:

- **reactive.js**: the reactivity engine. It has the dependency store
  `bucket` (target → key → Set of effects) and `track` and `trigger`
  behind a proxy. Effects run through a LIFO `effectStack` and clean up
  their subscriptions before every run. `computed` values carry a dirty
  flag, and `flushJob` drains a deduplicating job queue. The module is
  `Reactive`, and its module-level state is the class `Reactive.Runtime`.
- **compiler.js**: the toy template compiler. `tokenize` is a six-state
  machine over characters and `parse` builds a tree on a stack. The
  transform walks the tree depth first with enter and exit hooks and
  attaches JavaScript AST nodes. The generator emits source text with an
  indentation counter. The module is `Compiler`, with the traversal state
  `Compiler.Transformer` and the generator context `Compiler.Codegen`.
- **parser.js**: the HTML-like recursive-descent parser. It handles
  elements, attributes, text, comments and `{{ }}` interpolations, selects
  a text mode per element, and has `decodeHtml` for character references.
  The module is `Parser`, with the parsing context `Parser.HtmlParser`.
  Its properties are in `DecodeFacts` and `ParseFacts`.
- **renderer.js:1-104**: the diffing renderer (`render`, `patch`,
  `patchElement`, `patchChildren`, `mountElement`, `unmount`) over injected
  host callbacks. The module is `Renderer`, and the renderer with its host
  log is `Renderer.HostRenderer`.

Each imperative routine is a method. Where it matters, the method is proved
equal to a specification function of its inputs and the old state, and the
properties are proved as lemmas about those functions.

Three outcome types recur:

- **Parser.** A call can end with a value (`Ok`), with a JavaScript
  exception (`Threw`), or never (`Diverged`). It never ends when an
  iteration of a loop consumes nothing, so the next iteration repeats it.
- **Tokenizer.** Where the loop never ends, the tokenizer returns `None`.
- **Renderer.** Host calls are appended to a log of `HostOp`s, and
  `createElement` hands out element numbers in order.

The `*_demo.dfy` modules restate the files' own top-level demos and a few
scenarios as concrete facts. The module `Seqs` holds the `Option` type and
the small sequence facts that every part shares.

## Model

| member | source | states |
|---|---|---|
| Reactive.InsertFacts | reactive.js:29 | `Set.add` keeps insertion order: the element is present afterwards, the old order is a prefix, no duplicate arises, and adding a member changes nothing |
| Reactive.RemoveFacts | reactive.js:95 | `Set.delete` removes exactly that effect, keeps the Set duplicate-free, and is a no-op for a non-member |
| Reactive.AddSubFacts | reactive.js:20-29 | after the add, an effect is subscribed to (t, k) iff it was before or it is the added effect on (t, k); no Set gains a duplicate |
| Reactive.DropSubFacts | reactive.js:94-95 | deleting e from one Set removes exactly that one membership |
| Reactive.DropAllMembership | reactive.js:92-97 | cleanup's loop removes e from exactly the Sets listed in its deps and leaves every other membership alone |
| Reactive.AddAllMembership | reactive.js:20-30 | tracking a sequence of reads subscribes e to exactly those pairs in addition to the old memberships |
| Reactive.AddSubIdempotent | reactive.js:29 | tracking the same pair twice leaves the store as after once |
| Reactive.TrackKeepsOk | reactive.js:20-30 | `track` records in the effect's `deps` every Set it adds the effect to, so the store stays consistent with `deps` |
| Reactive.CleanupKeepsOk | reactive.js:92-98 | after cleanup the effect is in no Set, and the store is consistent with its emptied `deps` |
| Reactive.ReTrackKeepsOk | reactive.js:73-81 | re-tracking a run's reads keeps the store consistent with the extended `deps` |
| Reactive.ResubscribeExact | reactive.js:73-81 | after cleanup and a run, the effect is subscribed to exactly the pairs it read, and every other effect's subscriptions are unchanged |
| Reactive.RerunNoDup | reactive.js:73-81 | cleanup followed by re-tracking never puts an effect twice into a Set |
| Reactive.ToRunFacts | reactive.js:33-45 | `trigger`'s snapshot holds exactly the subscribers of (t, k) other than the active effect, each once, and is empty for an untracked target or key |
| Reactive.ReactAllScheduled | reactive.js:46-49 | when every notified effect has a scheduler, notification leaves the store and `deps` alone and only marks computeds dirty and queues jobs |
| Reactive.ReactAllSubscriptions | reactive.js:46-52 | after notification, each effect that re-ran is subscribed to exactly the pairs it read, effects not notified keep their subscriptions, and the store stays consistent with `deps` |
| Reactive.MarkAllFacts | reactive.js:105-107 | the computed scheduler only sets `isDirty` on the computeds it was called for and never changes a cached value |
| Reactive.QueueAllFacts | reactive.js:55-67 | queueing schedulers only append to `jobQueue`: the old queue is a prefix, an effect ends up in it iff it was there or was scheduled with the queue, and it stays duplicate-free |
| Reactive.Write | reactive.js:11 | after `target[key] = value` the key reads value and every other key reads as before |
| Reactive.Runtime.constructor | reactive.js:55-70 | the store, the effect registry, the stack, the job queue and the flushing flag start empty, and the state is consistent |
| Reactive.Runtime.Track | reactive.js:17-31 | with no active effect nothing changes; otherwise the active effect is subscribed to (t, k) and (t, k) is appended to its `deps`, and consistency is kept |
| Reactive.Runtime.GetProp | reactive.js:6-9 | the get trap returns the stored value and tracks (t, k) |
| Reactive.Runtime.Cleanup | reactive.js:92-98 | the effect is removed from every Set in its `deps`, and its `deps` become empty |
| Reactive.Runtime.FlushJob | reactive.js:58-61 | afterwards a flush is pending (`isFlushing` holds), whether or not one was pending before |
| Reactive.Runtime.Run | reactive.js:73-81 | a run of a read-only body returns its value over the current data and leaves the effect subscribed to exactly the pairs read; stack, active effect and registry are restored; without fuel it stops and flags exhaustion |
| Reactive.Runtime.Enter | reactive.js:75-76 | the effect is pushed and becomes the active effect |
| Reactive.Runtime.Leave | reactive.js:78-79 | the stack is popped and the active effect is its new top, or none |
| Reactive.Runtime.EvalPlain | reactive.js:77 | evaluating a read-only body returns its value and tracks each read in order |
| Reactive.Runtime.EvalPlainAdd | reactive.js:123 | `a + b` returns the sum and tracks the reads of a, then of b |
| Reactive.Runtime.EvalPlainIf | reactive.js:77 | a conditional body tracks the condition and only the branch taken |
| Reactive.Runtime.Eval | reactive.js:77 | evaluating a body keeps the registry, the stack and the active effect, and only appends to the job queue; for a read-only body the result, the data and the tracked reads are exact |
| Reactive.Runtime.Notify | reactive.js:46-52 | an effect with a scheduler is handed to it (marking a computed dirty, or queueing the job and requesting a flush) instead of running; an effect without one re-runs over the current data, so it ends up subscribed to exactly what it reads now, with `deps` rebuilt to match (`React`) |
| Reactive.Runtime.Trigger | reactive.js:33-53 | the snapshot is duplicate-free and holds exactly the subscribers of (t, k) other than the active effect; it acts once on each of them, in Set order, and effects that run cannot change which ones it acts on; when the effects it runs only read, the new state is the notifications applied in that order (`ReactAll`) |
| Reactive.Runtime.SetProp | reactive.js:10-14 | the set trap writes the value, then triggers (t, k) with the same guarantees as `Trigger` |
| Reactive.Runtime.ComputedValue | reactive.js:111-117 | a clean computed returns its cached value and changes nothing; a dirty one runs its getter, caches the result, clears the flag and subscribes its own effect to the getter's reads |
| Reactive.Runtime.Flush | reactive.js:62-66 | the pending flush runs every job of `jobQueue` in order, never removes one, and clears `isFlushing`; with no flush pending nothing runs |
| Reactive.Runtime.MakeEffect | reactive.js:72-90 | registers a new effect; a lazy one is not run and has no subscriptions; otherwise it runs once, and for a read-only body with fuel left it is subscribed to exactly the reads of its body |
| Reactive.Runtime.MakeComputed | reactive.js:100-121 | registers a lazy effect with the dirty-marking scheduler and a computed that starts dirty, without running the getter |
| ReactiveDemo.ComputedSum | reactive.js:123-126 | `sum.value` is 3, and 4 after `obj.foo++` |
| ReactiveDemo.EffectReruns | reactive.js:46-52 | writing `ok := 0` re-runs an effect `ok ? text : 0` at once: the reaction is `Ran`, its `deps` become just `ok`, and it is no longer in the Set of `text` |
| ReactiveDemo.QueuedOnce | reactive.js:55-67 | two writes before the flush queue the job once, and the flush runs it once |
| ReactiveDemo.StaleBranchDropped | reactive.js:73-81 | after a conditional effect switches branch, a write to the key of the abandoned branch no longer notifies it |
| Compiler.Step | compiler.js:21-86 | an iteration that does not consume the character (state `tagEnd` on a non-letter) changes nothing, so the loop would repeat it forever |
| Compiler.Tokenize | compiler.js:14-91 | the loop returns the tokens of the lexer function over the whole string, and `None` exactly where the source never terminates |
| Compiler.StepOk | compiler.js:21-86 | each iteration keeps the buffered characters ASCII letters and every token's name or content a non-empty string of letters |
| Compiler.LexOk | compiler.js:20-88 | the same invariant over the whole loop |
| Compiler.TokensWellFormed | compiler.js:14-91 | every token `tokenize` returns carries a non-empty string of ASCII letters |
| Compiler.NoAngleNoTokens | compiler.js:61-73 | text with no `<` after it produces no token and terminates |
| Compiler.TextOnly | compiler.js:61-73 | a string without `<` tokenizes to no tokens |
| Compiler.StrayClose | compiler.js:54-60 | `</` followed by a non-letter makes `tokenize` loop forever |
| Compiler.LexAppend | compiler.js:20-88 | lexing a + b is lexing a and then b from the state a left |
| Compiler.LexLetters | compiler.js:41-86 | inside a name or text, letters are buffered and nothing is emitted |
| Compiler.LexOpenTag | compiler.js:23-53 | `<name>` emits one `tag` token with that name |
| Compiler.LexCloseTag | compiler.js:54-86 | `</name>` emits one `tagEnd` token with that name |
| Compiler.LexTextClose | compiler.js:61-86 | `text</name>` emits a `text` token, then a `tagEnd` token |
| Compiler.AddChild | compiler.js:111 | the push adds the node as the last child of the stack top and changes no other frame |
| Compiler.Parse | compiler.js:93-133 | the loop returns the tree of the token-by-token builder, and `None` where the source throws (a token after the root was popped) |
| Compiler.FeedSerialize | compiler.js:101-130 | feeding a node's tokens adds that node under the current stack top |
| Compiler.FeedSerializeAll | compiler.js:101-130 | feeding the tokens of several nodes adds them, in order, under the stack top |
| Compiler.ParseSerialized | compiler.js:93-133 | `parse` inverts serialization: the tokens of any well-nested forest parse back to that forest |
| Compiler.EndTagUnchecked | compiler.js:124-127 | a `tagEnd` token pops the stack top without comparing names: for any names a and b, `<a></b>` parses to the single empty element a |
| Compiler.Transformer.constructor | compiler.js:227-245 | `transform` starts the traversal with no exit hook called |
| Compiler.Transformer.ExitNode | compiler.js:200-217 | `transformElement`'s exit builds `h(tag, child)` for one child and `h(tag, [children])` otherwise; other exits leave the node's `jsNode` alone |
| Compiler.Transformer.TraverseNode | compiler.js:151-177 | the attached `jsNode` is the node's JavaScript AST, and the exit hooks run after the children's, in reverse order of registration |
| Compiler.Transformer.TraverseRoot | compiler.js:179-198 | the root gets a `render` declaration returning its first child's `jsNode`, and none when it has no child |
| Compiler.ExitsAfterChildren | compiler.js:173-176 | in an element's hook trace, each child's hooks come before the element's own two, which are last and reversed |
| Compiler.Repeat | compiler.js:284 | `"  ".repeat(n)` has n times the length |
| Compiler.JoinLength | compiler.js:360-369 | a list of n nodes carries n − 1 separators |
| Compiler.Codegen.constructor | compiler.js:277-294 | the code is empty and the indent 0 |
| Compiler.Codegen.Push | compiler.js:279-281 | appends exactly the given text |
| Compiler.Codegen.NewlineHere | compiler.js:283-285 | appends a newline and two spaces per indent level |
| Compiler.Codegen.Indent | compiler.js:286-289 | raises the indent by one, then starts a line at the new level |
| Compiler.Codegen.DeIndent | compiler.js:290-293 | lowers the indent by one, then starts a line at the new level |
| Compiler.Codegen.GenNode | compiler.js:301-319 | appends the text of the node and leaves the indent as it was |
| Compiler.Codegen.GenFunctionDecl | compiler.js:321-332 | appends the declaration and brings the indent back to its value before |
| Compiler.Codegen.GenHeader | compiler.js:323-327 | appends `function id (params) {` |
| Compiler.Codegen.GenBlock | compiler.js:328-331 | appends the indented body and the closing brace, with the indent restored |
| Compiler.Codegen.GenBody | compiler.js:329 | appends the text of each body statement in order |
| Compiler.Codegen.GenReturnStatement | compiler.js:334-338 | appends `return ` and the returned expression |
| Compiler.Codegen.GenCallExpression | compiler.js:340-346 | appends callee, `(`, the argument list and `)` |
| Compiler.Codegen.GenStringLiteral | compiler.js:348-351 | appends the value between single quotes without escaping |
| Compiler.Codegen.GenArrayExpression | compiler.js:353-358 | appends the element list between brackets |
| Compiler.Codegen.GenNodeList | compiler.js:360-369 | appends the nodes joined by `", "` |
| Compiler.Generate | compiler.js:276-299 | returns the text of the node, generated from indent 0 |
| Compiler.Compile | compiler.js:371-376 | parse, transform and generate compose: the result is the text of the root's `render` declaration, or none where the source throws |
| CompilerDemo.TokenizeTwoChildren | compiler.js:14-91 | `<a><b>x</b><b>y</b></a>` yields the eight expected tokens for any letter-only names and texts |
| CompilerDemo.TokenizeTemplate | compiler.js:378 | the demo template's tokens |
| CompilerDemo.ParseTemplate | compiler.js:93-133 | the demo tokens parse to `div` holding two `p` elements with texts `Vue` and `Template` |
| CompilerDemo.JsOfTemplate | compiler.js:200-225 | the transform gives `h('div', [h('p', 'Vue'), h('p', 'Template')])` |
| CompilerDemo.EmitTemplate | compiler.js:276-332 | the generated code is the `render` function shown at compiler.js:382-384 |
| CompilerDemo.CompileTemplate | compiler.js:378-384 | `compile(tokenize(template))` is exactly that `render` function |
| CompilerDemo.RunDemo | compiler.js:378-380 | the demo run returns that code |
| Parser.IndexFrom | parser.js:177-178 | `indexOf` gives the first occurrence at or after the start, or −1 when there is none |
| Parser.Run | parser.js:134 | a `^[class]*` match is the longest prefix of characters in the class |
| Parser.SkipSpaces | parser.js:15-20 | `advanceSpaces` leaves a suffix of the source |
| Parser.MaxNameLengthIsFive | parser.js:235-239 | the longest name in the reference table has 5 characters |
| Parser.FirstAmp | parser.js:219 | the search for `&` finds the first one, or none |
| Parser.Clamp | parser.js:270-287 | a decoded code point is a Unicode scalar value (never 0, a surrogate or above U+10FFFF) |
| Parser.RefStep | parser.js:231-295 | decoding one `&` reference consumes at least the `&` and no more than the text |
| Parser.Decode | parser.js:205-300 | `decodeHtml` never throws |
| Parser.AttrValue | parser.js:141-160 | the attribute value leaves a suffix of the source and never loops |
| Parser.NameEnd | parser.js:134-135 | an attribute name is non-empty |
| Parser.Attribute | parser.js:134-168 | one attribute consumes at least one character |
| Parser.Attributes | parser.js:128-172 | the attribute loop leaves a suffix of the source and always terminates |
| Parser.TagNameEnd | parser.js:105-108 | the tag name is non-empty |
| Parser.Tag | parser.js:102-126 | a parsed tag is an element without children and consumes at least one character, and it never loops |
| Parser.TextEnd | parser.js:175-186 | the text end lies within the source |
| Parser.TextNode | parser.js:174-195 | `parseText` leaves a suffix and never throws |
| Parser.InterpolationNode | parser.js:302-321 | `parseInterpolation` leaves a suffix and never throws |
| Parser.CommentNode | parser.js:323-335 | `parseComment` always returns and leaves a suffix |
| Parser.EndTag | parser.js:93-97 | the closing-tag step leaves a suffix |
| Parser.ElementNode | parser.js:75-100 | a parsed element consumes at least one character |
| Parser.ElementBody | parser.js:81-99 | the element's children and closing tag leave a suffix |
| Parser.NextNode | parser.js:36-59 | one iteration leaves a suffix of the current source |
| Parser.Children | parser.js:31-63 | `parseChildren` leaves a suffix of the source |
| Parser.SearchRef | parser.js:242-245 | the search loop returns the table lookup from length 5 down |
| Parser.DecodeRef | parser.js:231-295 | the branch on one reference computes the same output and length as the decoding function |
| Parser.DecodeNext | parser.js:217-296 | one loop iteration shortens the raw text, or is stuck exactly where decoding never ends |
| Parser.DecodeHtml | parser.js:205-300 | the loop returns the decoding of the whole text |
| Parser.HtmlParser.constructor | parser.js:9-21 | the context holds the whole string in mode DATA, with no open element |
| Parser.HtmlParser.AdvanceBy | parser.js:12-14 | drops n characters |
| Parser.HtmlParser.AdvanceSpaces | parser.js:15-20 | drops the leading whitespace |
| Parser.HtmlParser.IsEnd | parser.js:65-73 | true iff the source is empty or starts with `</tag>` of an open element |
| Parser.HtmlParser.ParseComment | parser.js:323-335 | node and remaining source agree with the comment function |
| Parser.HtmlParser.ParseInterpolation | parser.js:302-321 | node and remaining source agree with the interpolation function |
| Parser.HtmlParser.ParseText | parser.js:174-195 | node and remaining source agree with the text function |
| Parser.HtmlParser.ParseAttributes | parser.js:128-172 | attributes and remaining source agree with the attribute-list function |
| Parser.HtmlParser.ParseAttribute | parser.js:134-168 | one attribute and the remaining source agree with the attribute function |
| Parser.HtmlParser.ParseAttrValue | parser.js:141-160 | value and remaining source agree with the value function |
| Parser.HtmlParser.ParseTag | parser.js:102-126 | tag and remaining source agree with the tag function |
| Parser.HtmlParser.ParseElement | parser.js:75-100 | element and remaining source agree with the element function; the open-element stack is restored |
| Parser.HtmlParser.ParseElementBody | parser.js:81-99 | children, closing tag and remaining source agree with the body function; the stack is restored |
| Parser.HtmlParser.ParseNext | parser.js:36-59 | one dispatch agrees with the next-node function |
| Parser.HtmlParser.ParseChildren | parser.js:31-63 | the loop agrees with the children function, including where it never ends |
| Parser.Parse | parser.js:8-29 | `parse` returns the root of the children parsed from the whole string in mode DATA |
| DecodeFacts.DecodeNoAmp | parser.js:219-226 | text without `&` decodes to itself |
| DecodeFacts.LookupKeys | parser.js:197-203 | the table knows exactly `gt`, `gt;`, `lt`, `lt;` and `ltcc;` |
| DecodeFacts.RefSearchLongest | parser.js:242-245 | the search finds the longest table name (at most 5 characters) after `&`, and when none matches it reports one character |
| DecodeFacts.RefStepNoAmp | parser.js:242-263 | a reference never swallows a later `&` |
| DecodeFacts.RefStepUnknown | parser.js:260-263 | an unknown name emits `&` and one following character verbatim |
| DecodeFacts.RefStepInAttribute | parser.js:247-259 | in an attribute, a semicolon-less reference followed by `=` or an alphanumeric stays undecoded; in text it is decoded |
| DecodeFacts.RefStepDecimal | parser.js:264-290 | `&#N` (with an optional `;`) yields the clamped code point of N and consumes digits and semicolon |
| DecodeFacts.RefStepNoDigits | parser.js:291-294 | `&#` without digits emits `&` and advances by one |
| DecodeFacts.ClampReplaces | parser.js:270-276 | the code point becomes U+FFFD iff it is 0, above U+10FFFF or a surrogate (or U+FFFD itself); otherwise it is kept |
| DecodeFacts.DecodeDivergesIffHex | parser.js:219-265 | `decodeHtml` never ends iff the text contains `&#x`, and otherwise returns |
| DecodeFacts.DecodeLt | parser.js:242-259 | `&lt;` decodes to `<` |
| DecodeFacts.DecodeGt | parser.js:242-259 | `&gt` decodes to `>` |
| DecodeFacts.DecodeLtcc | parser.js:242-259 | `&ltcc;` decodes to U+2AA6, the longest match winning over `&lt` |
| ParseFacts.TextStopsAtLt | parser.js:177-182 | text runs up to the first `<` |
| ParseFacts.TextWithoutLt | parser.js:175-186 | without `<` the text takes the whole source, even past `{{` |
| ParseFacts.TextStopsAtDelimiter | parser.js:184-186 | text stops at a `{{` that comes before the first `<` |
| ParseFacts.TextLtBeforeDelimiter | parser.js:180-186 | when `<` precedes `{{`, the text takes the whole source |
| ParseFacts.TextLeadingLt | parser.js:180-186 | at a leading `<`, text consumes nothing unless a `{{` follows somewhere |
| ParseFacts.TextNodeBeforeLt | parser.js:174-195 | plain text before `<` becomes a Text node and the source resumes at `<` |
| ParseFacts.TagPlain | parser.js:102-126 | `<tag>` and `</tag>` parse to the element with no attributes, consuming exactly the tag |
| ParseFacts.TagSelfClosing | parser.js:116-117 | `<tag/>` is self-closing and advances past `/>` |
| ParseFacts.AttrValueQuoted | parser.js:143-152 | a quoted value is the text up to the matching quote, and the source continues after it |
| ParseFacts.AttrValueUnclosed | parser.js:153-155 | with no closing quote the value is empty and only the opening quote is consumed |
| ParseFacts.AttributeQuoted | parser.js:134-168 | `name="v"` parses to that attribute |
| ParseFacts.AttributeWithoutValue | parser.js:157-158 | a name with no value before `>` throws |
| ParseFacts.AttributesShape | parser.js:128-172 | every name is non-empty and free of whitespace, `/`, `>` and `=` after its first character, and the loop stops at `>` or `/>` |
| ParseFacts.AttributeNameShaped | parser.js:134-135 | each attribute's name has that shape |
| ParseFacts.OneAttribute | parser.js:128-172 | one quoted attribute before `>` gives a list of one |
| ParseFacts.TagWithAttribute | parser.js:102-126 | `<tag name="v">` parses to the element with that attribute |
| ParseFacts.TagBareAttributeThrows | parser.js:157-158 | `<tag name>` throws |
| ParseFacts.CommentRoundTrip | parser.js:323-335 | `<!--X-->rest` gives Comment X with `rest` left |
| ParseFacts.CommentUnclosed | parser.js:326-329 | an unclosed comment keeps all but its last character and consumes the source |
| ParseFacts.InterpolationRoundTrip | parser.js:302-321 | `{{X}}rest` gives Interpolation `decodeHtml(X)` with `rest` left, and loops exactly when X contains `&#x` |
| ParseFacts.InterpolationUnclosed | parser.js:305-312 | an unclosed interpolation keeps all but its last character |
| ParseFacts.NotEnd | parser.js:65-73 | a non-empty source not starting with `<` is never an end |
| ParseFacts.StrayCloseDiverges | parser.js:45-47 | a stray `</` never ends the children loop |
| ParseFacts.ParseStrayClose | parser.js:45-47 | `parse` of a string starting with `</` never ends |
| ParseFacts.RawTextDiverges | parser.js:37-59 | in RAWTEXT mode the loop never ends unless it is already at its end |
| ParseFacts.RawTextElementDiverges | parser.js:83-90 | an element such as `<style>` followed by content never ends |
| ParseFacts.LeadingLtDiverges | parser.js:174-189 | `<` followed by neither a letter, `!` nor `/`, with no `{{`, never ends |
| ParseFacts.TextThenTagDiverges | parser.js:33-57 | text followed by a tag never ends, because the loop still dispatches on the source it saw first |
| ParseFacts.TextChild | parser.js:31-63 | an element's body of plain text is one Text child, stopping at the closing tag |
| ParseFacts.ElementWithText | parser.js:75-100 | `<tag>x</tag>` parses to the element with Text x |
| ParseFacts.ParseElementWithText | parser.js:8-29 | `parse("<tag>x</tag>")` is a root with that element |
| ParseFacts.NextElement | parser.js:37-49 | when the first source starts with `<` and a letter, every iteration parses an element |
| ParseFacts.ChildrenAtEnd | parser.js:35 | at an end the loop returns no node |
| ParseFacts.ParseTwoElements | parser.js:31-63 | two sibling elements with text parse to two children |
| ParseFacts.ParseElementThenTextThrows | parser.js:33-49 | an element followed by text throws, because the text is sent to `parseElement` |
| ParseFacts.ModeForTags | parser.js:81-87 | textarea and title select RCDATA, style and noscript RAWTEXT, div DATA |
| Renderer.Mount | renderer.js:80-97 | mounting uses fresh element numbers |
| Renderer.MountAll | renderer.js:92-94 | every child is mounted, one result per child |
| Renderer.Removals | renderer.js:65-66 | unmounting children makes one host call per child |
| Renderer.InitialPropsShape | renderer.js:83-87 | mounting patches every prop once, in order, with prev null |
| Renderer.MountFacts | renderer.js:80-97 | the first call creates the element and the last inserts it into the container; the vnode and its subtree get fresh elements, numbered in creation order |
| Renderer.MountAllFacts | renderer.js:92-94 | mounting children mounts every one and creates elements in order |
| Renderer.RemovalsShape | renderer.js:99-101 | unmounting removes only each child's own element and does not recurse |
| Renderer.PropOpsOnElement | renderer.js:37-51 | every prop patch targets the reused element |
| Renderer.ChangedPropsIn | renderer.js:41-45 | a patch with the new value happens exactly for new keys whose value differs from `oldProps[key]`, which is the old own value, else the inherited `Object.prototype` member, else undefined; that value is passed as prev |
| Renderer.RemovedPropsIn | renderer.js:47-51 | a patch to null happens exactly for old keys that are not `in` the new props: neither an own key nor an `Object.prototype` member |
| Renderer.PropOpsExact | renderer.js:41-51 | the exact set of prop patches an (old, new) pair produces, with `oldProps[key]` and `key in newProps` seeing inherited `Object.prototype` members |
| Renderer.InheritedKeys | renderer.js:41-51 | a key naming an `Object.prototype` member is never patched to null, and when the old props lack it a new value is patched from the inherited member exactly when it differs from it |
| Renderer.PropOpsSame | renderer.js:41-51 | unchanged props produce no patch |
| Renderer.PatchChildrenFacts | renderer.js:56-78 | the new children describe the requested ones and are all mounted, with elements created in order |
| Renderer.PatchFacts | renderer.js:24-34 | no old node means mount; a different type means remove the old element, then mount; the same type reuses the old element |
| Renderer.RerenderText | renderer.js:56-62 | re-rendering a text element with the same description only sets its text |
| Renderer.HostRenderer.constructor | renderer.js:1-10 | no host call yet, and no container has a vnode |
| Renderer.HostRenderer.Unmount | renderer.js:99-101 | one `removeElement` of the vnode's element |
| Renderer.HostRenderer.UnmountAll | renderer.js:59-60 | one removal per child, in order |
| Renderer.HostRenderer.MountElement | renderer.js:80-97 | the calls made and the mounted vnode are those of the mount function |
| Renderer.HostRenderer.MountProps | renderer.js:83-87 | patches every prop with prev null |
| Renderer.HostRenderer.MountChildren | renderer.js:92-94 | mounts each child into the element in turn |
| Renderer.HostRenderer.PatchChildren | renderer.js:56-78 | the calls made agree with the children-patch function |
| Renderer.HostRenderer.PatchProps | renderer.js:41-51 | the calls made are the prop patches of the (old, new) pair, inherited members included |
| Renderer.HostRenderer.PatchElement | renderer.js:36-54 | props, then children, on the reused element |
| Renderer.HostRenderer.Patch | renderer.js:24-34 | the calls made agree with the patch function |
| Renderer.HostRenderer.Render | renderer.js:12-22 | with a vnode, patches the container's previous vnode to it and stores the result; with null, removes the previous vnode's element and forgets it |
| RendererDemo.MountFirst | renderer.js:80-97 | the first render of `<div id="a">hi</div>` creates, sets `id`, sets the text and inserts, in that order |
| RendererDemo.PropsSecond | renderer.js:41-51 | moving to `class="b"` patches `class` in and `id` to null |
| RendererDemo.PrototypeKeys | renderer.js:41-51 | dropping an own `toString` makes no call, and a new `constructor` is patched from the inherited `Object` |
| RendererDemo.ChildrenSecond | renderer.js:63-69 | text children replaced by an array clear the text, then mount the child |
| RendererDemo.PatchSecond | renderer.js:36-54 | the whole patch is props first, then children |
| RendererDemo.Scenario | renderer.js:12-22 | mount, patch and `render(null)` produce exactly the listed host calls and leave the container empty |

## Left out

- The `Proxy` of reactive.js:5-15 is two explicit methods, `GetProp` and `SetProp`.
- `WeakMap` weak references and garbage collection are not modelled; the store is an ordinary map.
- The promise microtask of `flushJob` (reactive.js:62-66) is an explicit `Flush` step that the caller makes; there is no concurrency.
- Exceptions thrown by effect bodies are not modelled. There is no try/finally at reactive.js:77-79, so a throw would leave the stack pushed.
- Effect bodies are terms of a small expression language (reads, sums, conditionals, writes, computed reads) instead of arbitrary closures.
- Re-entrant triggering is bounded by a fuel parameter that caps the nesting depth. Running out sets a flag marking a chain of nested runs deeper than the fuel; the source finishes such a chain when it is finite, and overflows its stack when it is unbounded.
- A computed's cached value starts at 0, not `undefined`; it is never read before the first evaluation.
- `effect` called without an options object throws on `options.lazy`; the model always has options.
- Reactive.Runtime.MakeEffect: requires a scheduler other than the dirty-marking one, which only `computed` installs on its own effect. The run's subscriptions are stated only for read-only bodies with fuel left, as under `Run`.
- Reactive.Runtime.Run: the result and the exact subscriptions are stated for read-only bodies; for bodies that write or read computeds, only the consistency of the store, the restored stack and the kept registry are stated.
- Reactive.Runtime.Eval: the value and the reads are stated only for read-only bodies, as for `Run`.
- Reactive.Runtime.Notify: the new state is stated when the effect has a scheduler, or when it runs directly with fuel left and its body only reads; a body that writes or reads a computed is covered only by the kept invariants.
- Reactive.Runtime.Trigger: the full new state is stated when every effect it runs directly only reads (and fuel is left, if any runs); otherwise only the reactions list, the snapshot and the kept invariants are stated.
- Reactive.Runtime.SetProp: the same restriction as `Trigger`.
- Property values are integers only; strings, objects and other JavaScript values are not modelled.
- A key that was never written reads as 0 where JavaScript gives `undefined`.
- A conditional body takes its first branch when the condition is nonzero; JavaScript truthiness over other values is not modelled, since values are integers.
- A scheduler is one of three kinds. reactive.js calls whatever function the caller passes as `options.scheduler`; `computed` installs the dirty-marking one, and the queueing kind stands for a caller's scheduler that adds the effect to `jobQueue` and calls `flushJob`, which reactive.js defines but never installs itself.
- Reactive.Runtime.ComputedValue: the dirty case is stated for read-only getters with fuel left.
- Reactive.Runtime.Flush: states which jobs run and the final flags, not the state each job leaves.
- Console output is not modelled: `dump` (compiler.js:135-149), the `console.log`/`console.dir`/`console.error` calls and the logging at parser.js:218.
- The top-level demo calls of reactive.js and compiler.js are stated as facts in the demo modules. The parser demo at parser.js:337-342 is not restated; `ParseFacts` states smaller complete parses instead.
- `parseCDATA` (parser.js:43) is called but never defined; the model treats that call as a thrown exception.
- Strings are sequences of code points, with no UTF-16 surrogate pairs. Regular expressions are the character classes they test.
- `parseText`'s end index follows the code as written: when `<` comes before `{{`, or there is no `<`, the text runs to the end of the source.
- Attribute names follow the regular expression at parser.js:134, so a name may start with `=`.
- compiler.js `parse` empties the caller's array with `tokens.shift()`; the model reads the tokens as a value.
- compiler.js nodes are shared objects that receive `jsNode` in place. The model returns each node's AST as a value, which leaves aliasing out.
- The `replaceNode` and `removeNode` helpers of the transform context (compiler.js:232-241) are never called by the three transforms and are not modelled.
- The DOM host (renderer.js:106-170), including `shouldSetAsProps`, is replaced by the log of host calls.
- The `VueReactivity` demo of renderer.js:172-198 uses an external library and is not modelled.
- `createText` and `setText` are destructured but never called within renderer.js:1-104.
- Props are a sequence of own keys in `for...in` order, each once; the model takes that order as given and does not derive it (integer-like keys first in ascending order, then the others in insertion order). Props objects are plain objects: `oldProps[key]` and `key in newProps` see the members of `Object.prototype` (`constructor`, `toString`, `valueOf`, `hasOwnProperty`, `__proto__` and the rest), which the model lists by name and reads as `Inherited` values. Enumerable inherited keys, which `for...in` would visit, and props objects with another prototype are not modelled.
- `null` and `undefined` prop values are both modelled as absence.
- A vnode without `props` is modelled with empty props. `patchElement` would throw on such vnodes: at `oldProps[key]` when only the old vnode lacks props and the new one has some, and at `key in newProps` when only the new vnode lacks props and the old one has some.
- Vnodes are values, so two vnodes sharing one object are not modelled.
- Prop values are strings, integers, booleans and handler identities; other JavaScript values are not modelled.
