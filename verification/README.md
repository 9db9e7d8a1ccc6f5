# YAML pipeline, directive watchers and directive messages

A Dafny model of three parts of the repository, with proofs of what they promise.

**The YAML pipeline (`yaml/`).** JSON documents are printed as YAML and read back. Five stages
are modelled from the bytes up: the emitter with its event queue, state and indentation stacks and
128-byte output buffer; the reader that refills its buffers and transcodes UTF-8 and UTF-16; the
scanner with simple keys, indentation stack and a token queue that is also filled in the middle;
the 24-state parser; and the JSON glue on both sides. The main results are

* `RoundTrip.PrintedIsReadBack`: whatever JSON document is printed, at any width and indentation,
  reading the bytes gives that document, through all five stages. The parts it is built from hold
  on their own: `DoubleQuotedReadBack`, `SingleQuotedReadBack` and `PlainReadBack` for the three
  scalar styles, `ScanDocument.TreeRead` for block layout against the indentation stack,
  `GrammarStream.StreamParsed`, `Documents.ReadIsDenotation` and `EmitterRun.DocumentEmitted`.
* `PrintedExactly.DocumentPrinted`: what is printed, character by character, for every document and
  setting, against a form told by lines, columns and words; `PrintedPlaces.EverythingStands` says in
  which column every item and entry stands, `FlatScalars.FlatWritten` how any scalar is spelled.
* For text that nobody printed: `BlockRead.BlockIsRead` (mappings and lists in any indentation, with
  blank lines, folded scalars and flow collections in them), `FlowRead.FlowReadBack` and
  `FlowTrees.FlowTreeRead` (flow collections with anchors, aliases, tags and directives) and
  `JsonRead.JsonIsRead` (every JSON text) go through all stages as well; `GrammarStream.StreamParsed`
  shows that the parser implements the grammar its source gives, and `GrammarValue` where it does not.
  `Folding`, `Spelling` and `NameSpelling` cover scalars and names however they are written, and
  `BlockRefused` and `ScalarRefused` what is refused.
* For any input at all: `Reader.ReadAll` with `Decoding.DecodedJust` and `Delivery.SteadyExactly`
  (which bytes are read as which text, and which inputs are delivered alike however the handler splits
  them); `DemandSafety.DeliveredSafely`, `DemandExact.OnDemandExactly` and `KeyLost.DemandMatters`
  (asking the scanner for tokens one by one never goes out of bounds or on for ever, when it changes
  the tokens, and where it does); `OnDemand.AnyScheduleBalances` and `DemandSafety.DeliveredBalances`
  (indentation and block tokens balance, whatever is handed over when);
  `ParserSafety.AnyTokensParseSafely` (no empty stack is popped, events are well bracketed, at most
  three events for a token) and `Documents.NothingUnexpected`.
* `YamlReading.ReadYaml` and `JsonPrinter.JsonToYaml` are the programs themselves, loops over
  objects and buffers, proved equal to the functions those theorems are about;
  `YamlReading.PrintAndRead` runs one after the other.

**The directive watchers (`bus/`).** Each is a state machine whose steps are the lock regions;
`CollectWatch.EveryWatcherHolds` with `CollectNews.ErrorsReported`,
`TransformEffect.ReleasedExactlyOnce` with `EffectTimes.NotReleasedEarly`, and
`SelectWatch.EveryRunHolds` state their properties over all interleavings, or all runs of
callbacks, from the start of a watcher, against the history of what was added, removed, reported
and rejected.

**The directive messages (`directive/directive.pb.go`).** Sizes, the marshaler that fills its
buffer from the back, and the merging unmarshaler: `StateRoundTrip`, `ReadWriteRead`,
`ConcatenationIsMerge` and `EqualIsSameBytes`, unknown fields included; and against messages as lists
of records of every wire type, `WireRecords.ItemRead` and `MessageRecords.StateRecords`.

How the files hang together: text is a `string` of Unicode scalar values in the functions that
specify a stage, and UTF-8 bytes in the methods that do its work; `ByteText` and `Decoding` connect
the two. Functions describe what a stage does (`ScalarWriters`, `ScalarScan`, `NameScan`, `Layout`,
`Emitter`, `Scanner`, `DemandScan`, `Parser`, `Composer`); classes do it in place (`EmitterOutput`, `YamlEmitter`,
`ScannerInput`, `NameScanner`, `YamlScanner`, `TokenQueue`, `EventParser`, `EventReader`, `Reader`), each method
with an `ensures` that ties its new state to the function; lemmas prove what the functions promise.

What the code does differently from what one might expect, and the model follows the code:

* `is_bom` ignores the position it is given (`yaml/yamlprivateh.go:103-105`), so every character of
  a string that begins with U+FEFF is written as an escape. The round trip covers such strings.
* Characters outside the Basic Multilingual Plane count as unprintable
  (`yaml/yamlprivateh.go:85-95`) and are escaped.
* A document that is a single plain scalar leaves the stream open, and `...` is written at its end
  (`yaml/emitterc.go:1661-1663`, `yaml/emitterc.go:462-470`).
* A `%YAML` directive of any version but 1.1 is refused (`yaml/parserc.go:1192-1197`,
  `GrammarStream.DirectiveRefused`).
* The grammar in the parser's source (`yaml/parserc.go:29-65`) lets a block mapping have a value
  without KEY, and a flow sequence a KEY without a node. The parser takes the first for an error, and
  after the second drops the token behind (`yaml/parserc.go:816-862`, `yaml/parserc.go:995-1010`):
  `GrammarValue.ValueAlone` and `GrammarValue.KeyAlone`. Everything else of the grammar is parsed as it
  says.
* When input is not well formed, the reader gives up what it decodes together with the error, so
  how many of the characters in front of the error are delivered depends on the pieces; the error
  does not. For the bytes 61 62 63 64 01 one read delivers nothing and single bytes deliver `abcd`
  (`Delivery.PiecesMatter`). The pieces make no difference if and only if there is no error but a
  cut end, or no character in front of it, or the first three bytes, which are always read
  together, show it (`Delivery.SteadyExactly`).
* The scanner hands a token over when two more wait and the index of simple keys,
  `simple_keys_by_tok`, has no valid key for it. Closing a flow collection deletes the entry of the
  number that its slot had last (`yaml/scannerc.go:979-987`), and if no key was saved inside, that
  is the number of the collection's own bracket (`yaml/scannerc.go:959-966`). So in `{?}: x` the
  bracket is handed over although the mapping is a key, and KEY comes too late, behind it
  (`KeyLost.DemandMatters`). The tokens are those of a scan that hands nothing over if and only if
  each key still waits when its `:` comes, and no key that must be one is found too far back
  (`DemandExact.OnDemandExactly`); it is enough that the index has the key then, or that it is one
  of the last two tokens (`DemandKept.IndexedIsKept`).
* Unknown fields are compared and copied as bytes, whatever they hold: a message whose unknown bytes
  are a field that the message knows is written as the same bytes as a different message
  (`DirectiveMessages.OddUnknownBytes`). The unmarshaler never makes such a message
  (`DirectiveMessages.ReadWriteRead`).

Names of standards: YAML 1.2 (sections 5.7, 6.1, 6.5, 6.8, 6.9, 7.3.1, 7.3.2, 7.3.3, 7.4 and 8.2),
RFC 3629 (sections 3 and 4), RFC 2781 (sections 2.2 and 3.2), RFC 8259, and the Protocol Buffers
Encoding specification ("Base 128 Varints", "Message Structure", "Groups", "Last One Wins").

Parameters and assumptions, all explicit in the types: `Numbers` holds the Go library's number
parsers and `Library` its number printer, with no law assumed of them; `ValidConfig` is what the
emitter makes of its settings when a stream starts; a `Tree` is what the JSON decoder returns
(numbers in JSON's grammar: `ValidTree`; at most 10000 levels: `Depth`), with the members of an
object in the order in which they are printed.

## Model

| member | source | states |
|---|---|---|
| RoundTrip.PrintedIsReadBack | yaml/yaml.go:29-119 | For every JSON document whose numbers pass the check, at every width and indentation: printing succeeds, and the printed bytes, decoded, scanned, parsed and composed, give the document's own value; no string turns into null, a boolean or a number, and nesting is kept. |
| YamlReading.PrintAndRead | yaml/yaml.go:29-119 | The imperative printer followed by the imperative reader returns the document's value just when every number passes the check, and otherwise nothing is printed. |
| YamlReading.ReadYaml | yaml/yaml.go:29-71 | Reader, scanner, parser and event reader over their buffers and queues compute the function of the bytes that the round trip, `BlockIsRead`, `FlowReadBack` and `JsonIsRead` are about: the value of the first document, from the tokens that the scanner hands over on demand, or the failure. |
| JsonPrinter.JsonToYaml | yaml/yaml.go:74-119 | Printing succeeds if and only if every number is accepted; then the output holds exactly the UTF-8 form of the document's printed form, which is told by lines, columns and words, and nothing is left in a buffer or queue. |
| RoundTrip.StringReadBack | yaml/yaml.go:612-624 | Any string, in the style chosen for it or in quotes, is resolved back to itself as a string. |
| RoundTrip.NumberReadBack | yaml/yaml.go:328-348 | An accepted JSON number, printed plainly, resolves to the integer or finite float the library reads it as, never to a string, boolean or null. |
| RoundTrip.WordsReadBack | yaml/yaml.go:328-375 | The plain words null, true and false resolve to null and the two booleans. |
| RoundTrip.NotAWord | yaml/yaml.go:360-422 | No JSON number is taken for null, a boolean or a non-finite float. |
| RoundTrip.LeafReadBack | yaml/yaml.go:509-554 | The scalar printed for a leaf, in the style finally selected, has the leaf's value. |
| RoundTrip.KeyReadBack | yaml/yaml.go:456-478 | A member's name comes back as the same key, with anchors untouched. |
| RoundTrip.TreeReadBack | yaml/yaml.go:199-286 | What the printed events of a tree denote is the tree's value, at every depth. |
| RoundTrip.DocumentParsed | yaml/parserc.go:29-65 | The tokens of a printed document parse without error to exactly the document's events: they are a derivation of the grammar. |
| RoundTrip.DocumentDenotes | yaml/yaml.go:29-71 | Reading those events gives the document's value. |
| RoundTrip.PrintedIsDecoded | yaml/readerc.go:113-434 | A printed document passes the reader unchanged: no byte order mark is seen in it and no character is refused. |
| Resolve.PlainStringIsItself | yaml/yaml.go:612-624 | A string is given plain style if and only if resolving it as a plain scalar yields that very string. |
| ResolveLaws.BooleanWords | yaml/yaml.go:366-375 | The plain words for booleans are y, yes, true and on, n, no, false and off, as they are, with a capital letter or in capitals, and no others. |
| ResolveLaws.NullWord | yaml/yaml.go:360-364 | Null is nothing, a tilde or its word in any mixture of cases. |
| ResolveLaws.UnderscoresDropped | yaml/yaml.go:410-415 | Exactly the underscores of a number go, wherever they are. |
| ResolveLaws.TagsAgree | yaml/yaml.go:288-326 | A tag that says what a plain scalar is anyway changes nothing, and the string tag makes any text a string. |
| ResolveLaws.LongTags | yaml/yaml.go:350-358 | A tag may be written long or short. |
| ResolveLaws.PlainRefused | yaml/yaml.go:328-348 | Plain text is refused if and only if it is a float that is not finite. |
| ResolveLaws.NumberKey | yaml/yaml.go:456-478 | An integer as a key is its decimal digits, behind a sign if it needs one, with no zeros in front. |
| ResolveLaws.KeysApart | yaml/yaml.go:456-478 | Different integers have different keys, and none has that of null or a boolean. |
| DoubleRoundTrip.DoubleQuotedReadBack | yaml/emitterc.go:1727-1846 | For every value and every width: scanning what the double-quoted writer wrote yields the value, and the scan stops at the end of what was written. |
| DoubleRoundTrip.EscapeRead | yaml/emitterc.go:1757-1817 | Each escape the writer uses, named or hexadecimal with two, four or eight digits, is read as the character it was written for. |
| DoubleRoundTrip.HexBack | yaml/emitterc.go:1795-1813 | The hexadecimal digits written for a number are read as that number. |
| Escapes.EscapeIsUnit | yaml/emitterc.go:1757-1817 | What is written for a character is one of its escapes by YAML 1.2, section 5.7, with digits in upper case. |
| Escapes.EscapeIsShortest | yaml/emitterc.go:1757-1817 | No escape of the character is shorter. |
| Spelling.QuotedIsRead | yaml/scannerc.go:2435-2688 | A quoted scalar on one line, each of its characters spelled in whatever way its quotes allow (raw, doubled, named, or with two, four or eight digits of any case), is scanned to these characters and the scan stops behind the quote. |
| Spelling.PlainIsRead | yaml/scannerc.go:2691-2832 | In a flow collection a plain scalar is scanned to its text, up to the comma, bracket, brace, question mark, or colon with a blank behind it, past blanks and line breaks. |
| Folding.LinesAreRead | yaml/scannerc.go:2435-2688 | A quoted scalar over any number of lines is scanned to its lines folded together: one break is a space, of several the first goes, blanks around them go, LS and PS stay, and an escaped break goes too; however the breaks are written. |
| Folding.PlainLinesAreRead | yaml/scannerc.go:2691-2832 | The same for plain scalars in flow collections. |
| ScalarRefused.EscapeRefused | yaml/scannerc.go:2490-2600 | An escape of any other letter, with too few hexadecimal digits, or with digits that stand for no character is an error at the escape, whatever is in front of it. |
| ScalarRefused.Unclosed | yaml/scannerc.go:2435-2688 | A quoted scalar without a closing quote is an error at the end of the text. |
| ScalarRefused.IndicatorInside | yaml/scannerc.go:2448-2459 | So is a line of it that is a document indicator. |
| BlockScalars.LeafRead | yaml/scannerc.go:1497-1532 | A scalar in a block, plain or quoted, over one line or more, with the blank lines behind it, is fetched as one token with its folded text. |
| DoubleRoundTrip.DoubleFold | yaml/emitterc.go:1818-1832 | From a space folded into a line break on, with a backslash before a second space, the scan takes one space and the rest of the value. |
| SingleRoundTrip.SingleQuotedReadBack | yaml/emitterc.go:1668-1725 | Whenever the analysis allows single quotes: scanning what the single-quoted writer wrote yields the value at any width, with doubled quotes, doubled first LF, LS and PS, and folded spaces undone. |
| SingleRoundTrip.SingleBreaks | yaml/emitterc.go:1689-1699 | From inside a run of line breaks, its first LF doubled, the scan takes the run and the rest of the value as they were. |
| SingleRoundTrip.DoubledRead | yaml/scannerc.go:2470-2477 | A doubled quote is read as one quote and does not end the scalar. |
| PlainRoundTrip.PlainReadBack | yaml/emitterc.go:1609-1666 | Whenever the analysis allows plain style in a block: the plain scan of what was written, followed by a colon and a blank, the end, or a line break and a smaller column, yields the value and stops there. |
| PlainRoundTrip.CharIsTaken | yaml/emitterc.go:1297-1328 | No character of a value that may stand plainly is an indicator that would end the scan. |
| PlainRoundTrip.FoldIsRead | yaml/emitterc.go:1619-1630 | From a folded space of a plain scalar on, the scan takes one space and the rest of the value. |
| FlowSteps.FoldRead | yaml/emitterc.go:1490-1515 | The line break and the indentation written for a fold are read as the first break of a run, with every blank of the indentation skipped. |
| ScalarAnalysis.AnalyzeScalar | yaml/emitterc.go:1255-1406 | The loop over bytes with its flags finds exactly the allowed styles that the quantified conditions on characters describe. |
| ScalarAnalysis.AnalysisFromFlags | yaml/emitterc.go:1369-1405 | The flags of a whole value determine the allowed styles. |
| ScalarAnalysis.Turn | yaml/emitterc.go:1293-1367 | One turn of the loop carries the meaning of every flag from the characters before to those up to here. |
| KeyWidth.SimpleKeyWidth | yaml/emitterc.go:970-1001 | A key short enough to be written as a simple key takes one line and at most 515 characters in any style, so that the scanner's limit of 1024 never turns it away. |
| KeyWidth.ScalarWidth | yaml/emitterc.go:1097-1115 | A value without line breaks takes no more characters than 3 and four times its bytes, on one line. |
| Pens.IndentGrows | yaml/emitterc.go:229-248 | In a list two columns further in; outside of one the only multiple of the indentation that is further in, and at most by one indentation; from outside everything the first column in a block, one indentation in a flow. |
| PrintedExactly.DocumentPrinted | yaml/emitterc.go:251-1846 | For every tree, width and indentation, the emitter's text is character by character the printed form: brackets, dashes, keys and question marks, line breaks and blanks, and scalars of words filled into lines. |
| PrintedPlaces.EverythingStands | yaml/emitterc.go:229-248 | For every tree and every path into it: the item or entry that the path leads to stands in the column of its nesting, at the beginning of a line unless it is the first in what may begin on another's. |
| PrintedPlaces.NestedColumns | yaml/emitterc.go:229-248 | Through mappings alone that column is the depth times the indentation, through lists alone two for each. |
| PrintedWords.WordyWritten | yaml/emitterc.go:1609-1846 | Text of words with single spaces between them is written in any of the styles as its words, quotes doubled or escaped, filled into lines that are broken at the first space past the width. |
| PrintedWords.PlainIsWordwise | yaml/emitterc.go:1255-1406 | Such text may stand plainly in a block if and only if its first word begins so, no word ends in a colon and no later word begins with a number sign, and it is no document indicator. |
| FlatScalars.FlatWritten | yaml/emitterc.go:1609-1846 | Any other value that fits on its line, or must stay on one as keys do, is written on it character by character: printable ones as they are, quotes doubled, all others by their escapes, and all of them if the value begins with U+FEFF. |
| LayoutTokens.TreeNode | yaml/emitterc.go:855-876 | Every node that is printed only adds to the text, and leaves the emitter neither in a line's indentation nor behind a space. |
| LayoutTokens.BlankBeforeNode | yaml/emitterc.go:1517-1530 | A node behind an indicator begins with a blank or a line break, whatever the node is. |
| ScanSteps.ScalarRead | yaml/emitterc.go:1004-1050 | A scalar written in the style selected for it is fetched as one token with the value and that style, and the scanner stops where the emitter stopped. |
| ScanSteps.QuotedRead | yaml/scannerc.go:1497-1513 | A quoted scalar as written is fetched as one token, and a simple key is saved for it if one may start there. |
| ScanSteps.PlainRead | yaml/scannerc.go:1516-1532 | A plain scalar as written is fetched as one token; its first characters are never taken for another token. |
| ScanSteps.DashRead | yaml/scannerc.go:1289-1328 | A dash where the emitter put it opens the sequence's level if that is new, closes none, and gives one entry. |
| ScanSteps.QuestionRead | yaml/scannerc.go:1331-1367 | A question mark where the emitter put it opens the mapping's level if that is new, and gives a key. |
| ScanSteps.SimpleColonRead | yaml/scannerc.go:1370-1437 | The colon of a simple key puts the key, and the start of the mapping if its level is new, in front of the token already queued. |
| ScanSteps.ComplexColonRead | yaml/scannerc.go:1370-1437 | The colon of a complex key, on its own line, gives a value in the open mapping. |
| ScanSteps.EmptyRead | yaml/scannerc.go:1200-1261 | An empty list or object in brackets is fetched as its two tokens and leaves the block as it was. |
| ScanSteps.ClosesFirst | yaml/scannerc.go:1029-1080 | Closing the deeper blocks in front of a token can be told apart from fetching it. |
| ScanSteps.KeyIsSaved | yaml/scannerc.go:911-936 | Where a simple key may start, it is kept with the number and position of the token that comes next. |
| ScanDocument.TreeRead | yaml/scannerc.go:995-1080 | For every tree in every place: what the emitter wrote for it is fetched as its tokens, starts and ends nesting as the tree does, also for sequences and mappings that begin on the dash's line; only block ends that a smaller column brings may still be due. |
| ScanDocument.ItemsRead | yaml/scannerc.go:1289-1328 | The items of a block sequence are fetched in order at one level of indentation. |
| ScanDocument.EntriesRead | yaml/scannerc.go:1370-1437 | The entries of a block mapping are fetched in order at one level, simple and complex keys alike. |
| ScanDocument.KeyRead | yaml/emitterc.go:765-848 | A key and its colon are fetched as key, scalar and value, whether the emitter wrote it simply or with a question mark. |
| ScanDocument.NextLine | yaml/emitterc.go:1490-1515 | The line the emitter begins for the next entry puts the scanner in the entry's column. |
| ScanStream.DocumentRead | yaml/scannerc.go:687-881 | Scanning a printed document fetches its tokens between those of the stream, for every tree of at most 10000 levels. |
| FlowText.StreamFetched | yaml/scannerc.go:687-881 | A text of flow collections, made of brackets, indicators, scalars in any style, keys, anchors, aliases and tags with blanks and line breaks between them, behind directives and a document start or not, is fetched as the tokens it spells, KEY in front of each key. |
| BlockScan.BlockFetched | yaml/scannerc.go:687-881 | The text of a tree of block collections in any layout that keeps the columns in order (blank lines, lists level with their key, collections behind a dash, flow collections and folded scalars inside) is fetched as the tree's tokens, block ends where the columns fall back. |
| BlockScan.NodeRead | yaml/scannerc.go:995-1080 | Any such node, wherever it stands, is fetched as its tokens; only block ends that a smaller column brings may still be due. |
| BlockTree.KeyFetched | yaml/scannerc.go:1370-1437 | A key on one line of at most 1024 characters gives KEY in front of its scalar, and the start of a mapping if its column is new. |
| BlockRefused.LongKey | yaml/scannerc.go:883-908 | A longer one is refused at its colon. |
| BlockRefused.ListBehindKey | yaml/scannerc.go:1289-1328 | A list on the line of its key is refused at its dash. |
| BlockRefused.KeyBehindKey | yaml/scannerc.go:1370-1437 | A mapping on the line of a key is refused at its colon. |
| BlockRefused.TabRefused | yaml/scannerc.go:2781-2790 | A further line of a plain scalar that is indented by a tab, where it is further out than the scalar may stand, is refused. |
| BlockRefused.NoTokenBegins | yaml/scannerc.go:687-881 | No token begins with an at sign or a backquote, or outside the first column with a percent sign. |
| DemandKept.TextDelivered | yaml/scannerc.go:657-684 | Text whose keys stand right in front of their colons is handed over on demand as the tokens that fetching it gives. |
| FlowRead.FlowReadBack | yaml/yaml.go:29-71 | What such a text of flow collections spells by the grammar is read, through all stages, as what the derivation denotes. |
| FlowTrees.FlowTreeRead | yaml/yaml.go:29-71 | A nest of flow sequences and mappings written down from the data, with anchors and aliases, is read as what it says. |
| BlockRead.BlockIsRead | yaml/yaml.go:29-71 | A block document in any layout, from its bytes to its value, is read as what its tree says, whatever the layout. |
| JsonRead.JsonIsRead | yaml/yaml.go:29-71 | The JSON text of a list or an object is read as its own value: strings with JSON's escapes, numbers, words and nesting (RFC 8259). |
| ScanStream.TreeOpen | yaml/emitterc.go:1657-1663 | The stream is left open if and only if the document is a single plain scalar. |
| ScanStream.StreamEndRead | yaml/scannerc.go:1111-1139 | At the end of the text all open blocks are closed before STREAM-END. |
| ScanStream.DocumentEndRead | yaml/scannerc.go:1166-1197 | The three dots of an open end close all blocks and give DOCUMENT-END. |
| ScanToEnd.FetchAdvances | yaml/scannerc.go:687-881 | On any text, comments and block scalars being errors: each fetch moves the scanner past some character, or gives STREAM-END at the end of the text with all blocks closed. |
| ScanToEnd.PlainTakesFirst | yaml/scannerc.go:838-872 | What is dispatched as a plain scalar takes at least one character. |
| ScanToEnd.FlowTopForward | yaml/scannerc.go:2435-2688 | A quoted scalar that is read ends behind where it began. |
| ScanToEnd.EndForEver | yaml/scannerc.go:1111-1139 | Behind STREAM-END, further fetches give only more of it. |
| ScanToEnd.StopsAtEnd | yaml/scannerc.go:602-628 | If any number of fetches leads to a lone STREAM-END, scanning to the end stops there and gives those tokens. |
| ScanToEnd.WholeTextBalances | yaml/scannerc.go:995-1139 | Any text without comments and block scalars that is scanned to its end outside a flow collection, with nothing handed over on the way, has as many block ends as starts, and an empty indentation stack. |
| ScanToEnd.DocumentReadToEnd | yaml/scannerc.go:602-628 | Scanning a printed document to its end gives exactly its tokens. |
| OnDemand.DocumentReadOnDemand | yaml/scannerc.go:657-684 | Whenever the parser takes tokens, as long as two more stay queued, the tokens of a printed document are the same: none is put in front of one already taken. |
| OnDemand.TextReadOnDemand | yaml/scannerc.go:602-684 | For every schedule of handing tokens over that takes none which may still be a simple key, on any text without comments and block scalars: they are the tokens fetched without handing any over, with the same errors. The source's own schedule need not be one; see `DemandExact.OnDemandExactly`. |
| OnDemand.AnyScheduleBalances | yaml/scannerc.go:602-684 | On any text without comments and block scalars, however many tokens have been handed over before each fetch, lost keys included: the indentation stack rises strictly from -1, no prefix of the tokens ends more blocks than it starts, the difference is the depth of the stack, and at the end of the text outside flow collections it is nothing. |
| DemandScan.DispatchDid | yaml/scannerc.go:883-987 | What each kind of fetch does to keys and tokens: it gives up the key of its level, saves one, opens or closes a level, or uses the key, putting its tokens in front of it or, if it has gone, at the end. |
| DemandSafety.DeliveredSafely | yaml/scannerc.go:602-684 | On any text without comments and block scalars, asking for tokens until STREAM-END: no look into `simple_keys_by_tok` leads out of the slots, the scanner does not go on for ever at the end, and it hands over all tokens or fails. |
| DemandSafety.FetchGood | yaml/scannerc.go:657-684 | A fetch made when the source makes one keeps the index: an entry of a token not yet handed over leads to the slot of its key, or to the outermost one. |
| DemandSafety.HandGood | yaml/scannerc.go:664-675 | Handing the head over keeps it, a key too far back being given up. |
| DemandSafety.DeliveredBalances | yaml/scannerc.go:602-684 | What the parser gets of any such text never ends more blocks than it starts, and at the end outside flow collections all are ended, keys lost or not. |
| DemandExact.OnDemandExactly | yaml/scannerc.go:602-684 | On any text without comments and block scalars: the tokens handed over on demand are those of the scan that hands nothing over, if and only if each key is still in the queue when its `:` comes and no required key is found too far back at the head; a scan that fails fails here too, with the same error unless a key is lost. |
| DemandExact.LockStep | yaml/scannerc.go:687-881 | One fetch with and one without tokens handed over go to the same place in the text, with the same stacks and errors; the tokens stay the same, or differ from the lost key on and for good. |
| DemandKept.IndexedIsKept | yaml/scannerc.go:664-675 | Nothing is lost in a scan that comes to each `:` behind a key while the index has the key or the key is one of the last two tokens, and never finds a required key too far back. |
| DemandKept.DocumentDelivered | yaml/scannerc.go:602-684 | A printed document is handed over on demand as exactly its tokens. |
| KeyLost.DemandMatters | yaml/scannerc.go:959-987 | For `{?}: x` the scan that hands nothing over puts BLOCK-MAPPING-START and KEY in front of the flow mapping; the tokens handed over on demand have them behind it. |
| KeyLost.ClosingTakesEntry | yaml/scannerc.go:979-987 | Closing a flow collection leaves the entry of the key around it if and only if the closed slot had another number last, that is, a key of its own. |
| OnDemand.NextHanded | yaml/scannerc.go:687-881 | A fetch does the same, whatever tokens in front of a pending key were handed over. |
| OnDemand.FetchKept | yaml/scannerc.go:911-936 | No fetch saves a key in front of the tokens handed over. |
| OnDemand.FetchHanded | yaml/scannerc.go:687-881 | A fetch does the same whatever number of tokens has been handed over, as long as two stay queued. |
| OnDemand.ValueHanded | yaml/scannerc.go:1370-1437 | The key put in front of a queued token lands in the same place, however many tokens were taken. |
| ScanInvariant.AnyTextKeepsBalance | yaml/scannerc.go:995-1080 | On any text, comments and block scalars being errors, after any number of fetches with nothing handed over: the indentation stack rises strictly from -1, no prefix of the tokens ends more blocks than it starts, and the difference is the depth of the stack. |
| ScanInvariant.FetchKeeps | yaml/scannerc.go:687-881 | One fetch of any kind but a comment or a block scalar keeps that invariant, and the simple keys one for each open flow collection and one for the block. |
| ScanInvariant.UnrollKeepsAll | yaml/scannerc.go:1029-1080 | Closing blocks keeps it, and afterwards the indentation is not beyond the column. |
| ScanInvariant.RollKeeps | yaml/scannerc.go:995-1024 | Opening a block keeps it, wherever in the queue the start token goes. |
| ScanInvariant.InsertKeeps | yaml/yaml.go:143-157 | A token that ends no block may be put anywhere without unbalancing the list. |
| ScanInvariant.ValueKeeps | yaml/scannerc.go:1370-1437 | A colon keeps it although it puts up to two tokens in the middle of the queue. |
| ScanInvariant.NameKeeps | yaml/scannerc.go:1440-1475 | An anchor, an alias or a tag keeps it, and what may be a key in front of them is saved for the level. |
| ScanInvariant.DirectiveKeeps | yaml/scannerc.go:1142-1163 | A directive closes all blocks and keeps it. |
| ScanInvariant.StreamEndKeeps | yaml/scannerc.go:1111-1139 | At the end, outside flow collections, every block that was started has been ended. |
| TokenQueue.TokenQueue.Insert | yaml/yaml.go:143-157 | Head compaction, growth and shifting in the array together are insertion into the sequence of waiting tokens. |
| TokenQueue.TokenQueue.Compact | yaml/yaml.go:144-150 | Moving the tokens to the front changes none of them, and makes room. |
| TokenQueue.TokenQueue.MoveBack | yaml/yaml.go:155-156 | The shift puts the appended token in its place and moves each later one on by one. |
| TokenQueue.TokenQueue.Append | yaml/yaml.go:151-154 | A token goes behind all waiting ones, also when the array must grow. |
| TokenQueue.TokenQueue.Skip | yaml/scannerc.go:616-620 | The token at the head leaves the queue. |
| TokenQueue.QueueIsTail | yaml/yaml.go:143-157 | The queue is always the part of all tokens not yet taken; those taken never change. |
| ByteText.ClassesAt | yaml/yamlprivateh.go:80-198 | Wherever a character begins in UTF-8 text, each test on bytes answers as the class of that character, and the width leads to the next character. |
| ScannerInput.HexAgrees | yaml/yamlprivateh.go:63-77 | A hexadecimal digit is recognised in bytes just when it is one, with the same value. |
| TextOfBytes.TextBack | yaml/scannerc.go:2676-2687 | The text that encoded characters stand for is those characters, whatever bytes come behind. |
| TextOfBytes.WholeJoin | yaml/scannerc.go:2144-2187 | Octets put together escape by escape stand for the text of their parts, also where some of them are no character. |
| ScannerInput.Input.Skip | yaml/scannerc.go:513-521 | One character is passed, of however many bytes, and index and column count characters. |
| ScannerInput.Input.SkipLine | yaml/scannerc.go:523-539 | One line break is passed, CR LF as one, and the mark stands at the next line's start. |
| ScannerInput.Input.Read | yaml/scannerc.go:542-565 | One character is copied, all its bytes and no other. |
| ScannerInput.Input.ReadLine | yaml/scannerc.go:568-599 | One line break is copied, as LF unless it is LS or PS (YAML 1.2, section 6.5). |
| ScannerInput.Input.AtDocumentIndicator | yaml/scannerc.go:2447-2459 | Tests for the two document indicators at the start of a line. |
| ScannerInput.Input.ReadEscape | yaml/scannerc.go:2495-2598 | An escape gives the character it stands for in UTF-8, or the error it is: unknown, a missing digit, or no Unicode scalar value. |
| ScannerInput.Input.ReadHex | yaml/scannerc.go:2563-2598 | Exactly the run of hexadecimal digits asked for is read, with its value, or none of it. |
| ScannerInput.Input.ScanFlowScalar | yaml/scannerc.go:2435-2688 | The nested loops over bytes compute the quoted scan of the text: same value, same end, same error. |
| ScannerInput.Input.ReadFlowChars | yaml/scannerc.go:2468-2606 | A run of characters, escapes and doubled quotes up to a blank, a break or the closing quote. |
| ScannerInput.Input.ReadFlowBlanks | yaml/scannerc.go:2623-2671 | Blanks and breaks between runs are joined or folded as the text's scan joins them. |
| ScannerInput.Input.ScanPlainScalar | yaml/scannerc.go:2691-2832 | The loops over bytes compute the plain scan of the text: same value, same end, same error, and whether a line break ended it. |
| ScannerInput.Input.ReadPlainChars | yaml/scannerc.go:2722-2765 | A run of characters up to a blank, a break, the end or an indicator that ends the scalar. |
| ScannerInput.Input.ReadPlainBlanks | yaml/scannerc.go:2772-2816 | Blanks and breaks of a plain scalar; a tab in the indentation is the error. |
| ScannerInput.JoinBytes | yaml/scannerc.go:2651-2669 | Joining bytes is joining the characters they encode. |
| NameScanner.ScanAnchor | yaml/scannerc.go:1898-1953 | The name of an anchor or alias runs over letters, digits, _ and -; it must not be empty, and one of the characters listed must follow. |
| NameScanner.ScanTag | yaml/scannerc.go:1956-2039 | A tag is verbatim, has a handle, or is the lone !; handle and suffix, the place where it ends and every error are those of the text. |
| NameScanner.ScanTagHandle | yaml/scannerc.go:2041-2084 | A handle between two ! signs; in a directive the second may be missing only for the primary one. |
| NameScanner.ScanTagUri | yaml/scannerc.go:2086-2142 | The run of URI characters behind the head given, with escapes undone, or the error that there is none. |
| NameScanner.ReadUriEscapes | yaml/scannerc.go:2144-2187 | A row of % escapes gives one UTF-8 character by its leading octet, or the error: no digits, a wrong leading or a wrong trailing octet. |
| NameScanner.ScanDirective | yaml/scannerc.go:1622-1717 | A directive gives its token, and the scanner stands behind its line break; an unknown name, or text behind the value, is the error. |
| NameScanner.ScanDirectiveName | yaml/scannerc.go:1727-1755 | The name is not empty and a blank or a break follows. |
| NameScanner.ScanVersionDirective | yaml/scannerc.go:1763-1797 | Two numbers with a dot between them. |
| NameScanner.ScanVersionNumber | yaml/scannerc.go:1804-1833 | One or two decimal digits and their value; three are too many. |
| NameScanner.ScanTagDirective | yaml/scannerc.go:1840-1896 | A handle, blanks and a prefix with a blank or a break behind it. |
| NameSpelling.AnchorIsRead | yaml/scannerc.go:1898-1953 | An anchor or alias is the longest name behind its indicator if something that may follow it comes then, and otherwise an error. |
| NameSpelling.TagIsRead | yaml/scannerc.go:1956-2038 | Every form of tag is read as its handle and suffix, characters given by the octets of their UTF-8 form included; and it is an error if no blank, line break or end follows. |
| NameSpelling.OctetsRefused | yaml/scannerc.go:2144-2187 | Octets that begin no character, or do not go on with one, are errors. |
| NameSpelling.DirectiveIsRead | yaml/scannerc.go:1622-1724 | A directive with a version or with a handle and a prefix, blanks and a comment behind it, is read as its token, up to the next line. |
| NameSpelling.OthersRefused | yaml/scannerc.go:1622-1724 | Directives of other names, or of none, are errors. |
| NameSpelling.NumberRefused | yaml/scannerc.go:1804-1838 | Version numbers have one or two digits. |
| YamlScanner.YamlScanner.FetchNext | yaml/scannerc.go:687-881 | One fetch over bytes, stacks and the array queue does what the function on the text does, with the same errors, comments and block scalars among them, and keeps the scanner's invariant on any input. |
| YamlScanner.ScanText | yaml/scannerc.go:602-684 | Asking for tokens up to STREAM-END, the queue compacted on the way, terminates on any text and gives the tokens and the error of `DemandScan.ScanAll`, for which comments and block scalars are errors. |
| YamlScanner.YamlScanner.Dispatch | yaml/scannerc.go:716-880 | The token begun by the bytes here is the one begun by the characters here; for a comment or a block scalar it is an error. |
| YamlScanner.YamlScanner.InsertToken | yaml/yaml.go:143-157 | In all tokens ever queued, the new one stands where the position asks, or last. |
| YamlScanner.YamlScanner.TakeToken | yaml/scannerc.go:616-620 | The oldest waiting token is handed over and counted; the list of all tokens stays. |
| YamlScanner.YamlScanner.Scan | yaml/scannerc.go:602-628 | The next token is handed over and counted, or the error reported, as the machine does; behind STREAM-END nothing is. |
| YamlScanner.YamlScanner.FetchMoreTokens | yaml/scannerc.go:657-684 | Tokens are fetched until three wait and the head is no valid key; a required key too far back is the error; extra STREAM-END tokens at the end change nothing that is handed over. |
| YamlScanner.YamlScanner.HeadIsKey | yaml/scannerc.go:664-675 | The index is asked for the head and leads to a slot; a key there that is too far back is given up, or is the error if required. |
| YamlScanner.YamlScanner.DispatchContent | yaml/scannerc.go:805-880 | Behind the indicators: a name, a quoted scalar or a plain one. |
| YamlScanner.YamlScanner.SaveKey | yaml/scannerc.go:911-936 | A possible key is kept for the innermost level and entered in the index under its token; an older required one there is an error. |
| YamlScanner.YamlScanner.RemoveKey | yaml/scannerc.go:939-953 | A possible key is given up, with its entry in the index; a required one is an error. |
| YamlScanner.YamlScanner.CheckKey | yaml/scannerc.go:883-907 | The key of a slot may still be one exactly when it is on this line and at most 1024 characters back; one that is too old is given up, its entry left in the index, or is the error if it was required. |
| YamlScanner.YamlScanner.RollIndent | yaml/scannerc.go:995-1024 | A column beyond the indentation opens a block and puts its start where it belongs; too deep a nesting is the error. |
| YamlScanner.YamlScanner.UnrollIndent | yaml/scannerc.go:1029-1080 | Each level beyond the column is closed with one block end, and the stack never runs empty. |
| YamlScanner.YamlScanner.DecreaseFlowLevel | yaml/scannerc.go:979-987 | The innermost flow collection and its slot go together, with the entry of the number the slot had last, whoever's it is. |
| YamlScanner.YamlScanner.ScanToNextToken | yaml/scannerc.go:1535-1612 | In text without U+FEFF, up to a comment: blanks and breaks are passed; tabs only where they are allowed; a new line in a block permits a simple key. |
| YamlScanner.YamlScanner.FetchStreamStart | yaml/scannerc.go:1083-1108 | The scanner is set up once, with STREAM-START. |
| YamlScanner.YamlScanner.FetchStreamEnd | yaml/scannerc.go:1111-1139 | All blocks are closed, then STREAM-END; a key still required is the error. |
| YamlScanner.YamlScanner.FetchDocumentIndicator | yaml/scannerc.go:1166-1197 | All blocks are closed, then the indicator's token; three characters are passed. |
| YamlScanner.YamlScanner.FetchFlowStart | yaml/scannerc.go:1200-1229 | The bracket may start a key, and opens a flow level with a slot of its own, numbered like the bracket; more than 10000 levels are the error. |
| YamlScanner.YamlScanner.FetchFlowEnd | yaml/scannerc.go:1232-1261 | The bracket closes a flow level, if there is one, and takes an entry out of the index. |
| YamlScanner.YamlScanner.FetchFlowEntry | yaml/scannerc.go:1264-1286 | A comma ends a possible key and permits the next. |
| YamlScanner.YamlScanner.FetchBlockEntry | yaml/scannerc.go:1289-1328 | A dash opens a sequence if its column is new; it is an error where no entry may stand. |
| YamlScanner.YamlScanner.FetchKey | yaml/scannerc.go:1331-1367 | A question mark opens a mapping if its column is new; it is an error where no key may stand. |
| YamlScanner.YamlScanner.FetchValue | yaml/scannerc.go:1370-1437 | A colon after a simple key inserts the key before it; otherwise it belongs to a complex key, or is the error. |
| YamlScanner.YamlScanner.FetchSimpleValue | yaml/scannerc.go:1375-1402 | The key and then the mapping's start go in front of the saved token, by its number. |
| YamlScanner.YamlScanner.FetchComplexValue | yaml/scannerc.go:1404-1424 | The value of a complex key may open a mapping in its own column. |
| YamlScanner.YamlScanner.FetchFlowScalar | yaml/scannerc.go:1497-1513 | A quoted scalar becomes a token with the scanned text and its style. |
| YamlScanner.YamlScanner.FetchPlainScalar | yaml/scannerc.go:1516-1532 | A plain scalar becomes a token; a key may follow if a line break ended it. |
| YamlScanner.YamlScanner.FetchAnchor | yaml/scannerc.go:1440-1456 | An anchor or alias becomes a token with its name; it may start a key, and no key may start behind it. |
| YamlScanner.YamlScanner.FetchTag | yaml/scannerc.go:1459-1475 | A tag becomes a token with handle and suffix; it may start a key, and no key may start behind it. |
| YamlScanner.YamlScanner.FetchDirective | yaml/scannerc.go:1142-1163 | All blocks are closed, then the directive's token; a key still required is the error. |
| YamlScanner.YamlScanner.MayStartPlain | yaml/scannerc.go:854-872 | The test on bytes for the start of a plain scalar is the one on characters. |
| ParserSafety.AnyTokensParseSafely | yaml/parserc.go:150-226 | For any token list: no pop hits an empty stack of states or marks; at most three events for a token; the events are well bracketed with keys and values alternating; after an error-free run the stream is closed and the stacks are empty. |
| ParserSafety.StepSound | yaml/parserc.go:150-226 | Every step from a state whose stack lists the open collections gives an event allowed there, leaves such a state, and lowers the measure. |
| ParserSafety.RunSound | yaml/parserc.go:119-130 | The same from any good state, for the whole rest of the run. |
| ParserSafety.NodeSound | yaml/parserc.go:455-681 | A node with any properties, in a block or not, is bracketed properly and lowers the measure even where no token is taken. |
| ParserSafety.ContentSound | yaml/parserc.go:548-680 | Whatever content follows the properties of a node, or none. |
| ParserSafety.ReturnSound | yaml/parserc.go:464-481 | Popping the state pushed last leads back into the innermost open collection. |
| ParserSafety.DocumentStartSound | yaml/parserc.go:255-355 | A document is opened once, implicitly or explicitly, or the stream is closed. |
| ParserSafety.DocumentContentSound | yaml/parserc.go:361-378 | A document without content gets an empty scalar. |
| ParserSafety.DocumentEndSound | yaml/parserc.go:385-416 | The end of a document leaves both stacks empty. |
| ParserSafety.BlockSequenceEntrySound | yaml/parserc.go:687-739 | An entry keeps the sequence open, and its end closes just that sequence and its mark. |
| ParserSafety.IndentlessSequenceEntrySound | yaml/parserc.go:744-778 | A sequence without indentation ends without taking a token, inside a mapping only. |
| ParserSafety.BlockMappingKeySound | yaml/parserc.go:816-879 | A key, given or empty, makes a value due; the mapping's end closes it. |
| ParserSafety.BlockMappingValueSound | yaml/parserc.go:891-914 | A value, given or empty, makes a key due. |
| ParserSafety.FlowSequenceEntrySound | yaml/parserc.go:928-988 | An entry, a pair or the end of a flow sequence. |
| ParserSafety.FlowSequenceEntryMappingKeySound | yaml/parserc.go:995-1010 | The key of a pair, or an empty one behind a token that is taken unseen. |
| ParserSafety.FlowSequenceEntryMappingValueSound | yaml/parserc.go:1016-1034 | The value of a pair, or an empty one. |
| ParserSafety.FlowSequenceEntryMappingEndSound | yaml/parserc.go:1040-1052 | The end of a pair takes no token and returns to the sequence. |
| ParserSafety.FlowMappingKeySound | yaml/parserc.go:1066-1127 | A key, given or empty, or the end of a flow mapping. |
| ParserSafety.FlowMappingValueSound | yaml/parserc.go:1133-1155 | A value of a flow mapping, given or empty. |
| EventParser.EventParser.NextEvent | yaml/parserc.go:119-226 | The state functions that assign the parser's fields do one step of the machine; none can panic, the event is allowed, and the measure falls. |
| EventParser.AllEvents | yaml/yaml.go:159-165 | All events of any token list are drawn in at most three for a token, well bracketed, up to the end or the first error. |
| EventParser.EventParser.DoNode | yaml/parserc.go:455-681 | Properties, then content, or an alias, as the machine's step has it. |
| EventParser.EventParser.DoProperties | yaml/parserc.go:478-547 | An anchor and a tag in either order, the tag's handle resolved by the directives or refused. |
| EventParser.EventParser.DoContent | yaml/parserc.go:548-680 | The content of a node in place. |
| EventParser.EventParser.DoDirectives | yaml/parserc.go:1176-1235 | Directives are read up to the first other token; a second version, a wrong version or a repeated handle is refused; the default handles are added. |
| EventParser.EventParser.DoStreamStart | yaml/parserc.go:231-248 | The stream begins with its token or fails. |
| EventParser.EventParser.DoDocumentStart | yaml/parserc.go:255-355 | Document ends are passed, then a document begins, implicitly or with its token, or the stream ends. |
| EventParser.EventParser.DoDocumentContent | yaml/parserc.go:361-378 | The content, or an empty scalar if there is none. |
| EventParser.EventParser.DoDocumentEnd | yaml/parserc.go:385-416 | An explicit end takes its token; the tag directives are forgotten. |
| EventParser.EventParser.DoBlockSequenceEntry | yaml/parserc.go:687-739 | An entry, an empty entry, the end, or an error that drops the mark. |
| EventParser.EventParser.DoIndentlessSequenceEntry | yaml/parserc.go:744-778 | An entry, an empty entry, or the end without a token. |
| EventParser.EventParser.DoBlockMappingKey | yaml/parserc.go:816-879 | A key, an empty key, the end, or an error that drops the mark. |
| EventParser.EventParser.DoBlockMappingValue | yaml/parserc.go:891-914 | A value or an empty one. |
| EventParser.EventParser.DoFlowSequenceEntry | yaml/parserc.go:928-988 | Commas between entries, a pair, a node, or the end. |
| EventParser.EventParser.DoFlowSequenceEntryMappingKey | yaml/parserc.go:995-1010 | The key of a pair, or the unseen token and an empty key. |
| EventParser.EventParser.DoFlowSequenceEntryMappingValue | yaml/parserc.go:1016-1034 | The value of a pair, or an empty one. |
| EventParser.EventParser.DoFlowSequenceEntryMappingEnd | yaml/parserc.go:1040-1052 | The end of a pair. |
| EventParser.EventParser.DoFlowMappingKey | yaml/parserc.go:1066-1127 | Commas between entries, a key, a lone node, or the end. |
| EventParser.EventParser.DoFlowMappingValue | yaml/parserc.go:1133-1155 | A value or an empty one. |
| TreeParse.TreeDerived | yaml/parserc.go:29-65 | The tokens of any JSON tree are those of a legal derivation of the grammar, and the node it stands for is the tree's. |
| ParserRuns.ParsesAll | yaml/yaml.go:159-165 | Steps of the parser that lead to its end are all the events there are. |
| ParserRuns.ParsesToError | yaml/yaml.go:159-165 | Steps that lead to an error are all the events there are in front of it. |
| GrammarParse.NodeParsed | yaml/parserc.go:455-681 | Wherever a node may stand, the tokens of a legal derivation, with properties in either order, aliases, block, indentless and flow collections, are parsed to the node's events and no more, and state and stacks are restored. |
| GrammarStream.StreamParsed | yaml/parserc.go:29-65 | The parser implements its documented grammar: the tokens of every derivation, documents with and without directives, give exactly the events of the nodes they stand for, tags resolved by their handles' prefixes, and no error. |
| GrammarStream.DirectivesRead | yaml/parserc.go:1176-1224 | Directives in front of a document become its prefixes, the two default ones added unless declared. |
| GrammarStream.DirectiveRefused | yaml/parserc.go:1176-1224 | A second version, a handle declared twice and every version but 1.1 are errors, whatever is declared in front of them. |
| GrammarValue.StreamRead | yaml/yaml.go:29-71 | The tokens of a stream are read as what the first document's node denotes, or as null if there is none. |
| GrammarValue.ValueAlone | yaml/parserc.go:816-862 | A value without KEY in a block mapping, which the grammar allows, ends every parse with an error after the mapping's start. |
| GrammarValue.KeyAlone | yaml/parserc.go:995-1010 | A KEY without a node in a flow sequence, which the grammar allows, makes the parser drop a token, so that the value behind it is an error. |
| Composer.ValueOfNode | yaml/yaml.go:199-286 | Reading the events of any tree of nodes gives what the tree denotes, anchors and aliases included, and takes just those events. |
| Composer.PairsOfNode | yaml/yaml.go:257-286 | Reading a mapping's events gives the denotation of its pairs, a later pair overriding an earlier one of the same key. |
| Composer.ItemsOfNode | yaml/yaml.go:239-255 | Reading a sequence's events gives the denotations of its items in order. |
| ComposeLaws.AliasIsLast | yaml/yaml.go:199-237 | An alias in a list has the value of the last item in front of it that gives its anchor. |
| ComposeLaws.AliasUnknown | yaml/yaml.go:199-206 | An alias to an anchor that nothing in front of it gives is an error. |
| ComposeLaws.OnlyItsNames | yaml/yaml.go:199-237 | Reading a node gives the anchors written in it, and leaves all others as they were. |
| ComposeLaws.LastMembers | yaml/yaml.go:257-286 | The members of an object are those given, the last one for each key. |
| ComposeLaws.WordKeys | yaml/yaml.go:456-478 | The key that null or a boolean makes is its word in JSON. |
| Documents.NothingUnexpected | yaml/yaml.go:199-286 | Whatever the tokens, and wherever the parser stops, the reader never meets an event it does not expect. |
| Documents.ReadIsDenotation | yaml/yaml.go:29-71 | The events of an error-free stream are a tree between brackets, or no document, and the reader's result is what that tree denotes. |
| Documents.ValueProper | yaml/yaml.go:199-237 | Reading one value from well-bracketed events never fails for an event's kind, and ends where the value's bracket closes. |
| Documents.MappingProper | yaml/yaml.go:257-286 | The same for the pairs of a mapping. |
| Documents.SequenceProper | yaml/yaml.go:239-255 | The same for the items of a sequence. |
| EventReader.ReadTokens | yaml/yaml.go:29-71 | Parser and reader as they run give the functional meaning of any token list, and never report an unexpected event. |
| EventReader.EventReader.ReadValue | yaml/yaml.go:199-237 | A value is read, its anchor remembered, and events taken, as the function says; a failure is the same failure. |
| EventReader.EventReader.ReadSequence | yaml/yaml.go:239-255 | The loop over items. |
| EventReader.EventReader.ReadMapping | yaml/yaml.go:257-286 | The loop over keys and values. |
| PrintedText.DocumentClean | yaml/emitterc.go:1734-1817 | Every character of a printed document is one a YAML stream may hold, because all others are escaped. |
| EmitterRun.DocumentEmitted | yaml/yaml.go:90-118 | Every event of every JSON document handed to the emitter is dispatched in the end; no event stays queued, all stacks are empty again, and the text is the document's layout. |
| EmitterRun.QueueIsInvisible | yaml/emitterc.go:146-203 | For any events: waiting for one, two or three of them before dispatching comes to the same as dispatching with the whole stream in sight. |
| EmitterRun.DispatchStable | yaml/emitterc.go:169-203 | What is dispatched never asks for an event that is not yet in the queue. |
| EmitterRun.DrainPlays | yaml/emitterc.go:146-160 | Dispatching all that is ready stops with a queue that needs more events. |
| EmitterRun.NothingHeldBack | yaml/emitterc.go:169-203 | At the end of a document's stream the emitter waits for nothing. |
| EmitterRun.TreeEmitted | yaml/emitterc.go:855-876 | Once the events of any node are dispatched, states, indentation stack, indentation and flow level are back to what they were, and the text has grown by the node's layout. |
| EmitterRun.ItemsEmitted | yaml/emitterc.go:729-762 | The items of a block sequence and its end, at any depth. |
| EmitterRun.EntriesEmitted | yaml/emitterc.go:765-848 | The entries of a block mapping and its end, with simple and complex keys. |
| EmitterRun.ScalarEmitted | yaml/emitterc.go:889-910 | A scalar event writes the scalar in the selected style and returns to the state before. |
| EmitterRun.KeyEmitted | yaml/emitterc.go:765-800 | Whether a key is written simply is decided by its length and line breaks alone. |
| EmitterOutput.Output.Flush | yaml/writerc.go:33-48 | The buffer goes out; everything written so far is in the output, in UTF-8. |
| EmitterOutput.Output.Put | yaml/emitterc.go:39-47 | One ASCII character, flushed first if no more than five bytes are free, never past the buffer's end. |
| EmitterOutput.Output.PutBreak | yaml/emitterc.go:50-76 | A line break moves to column 0 of the next line. |
| EmitterOutput.Output.Write | yaml/emitterc.go:79-104 | One character of up to four bytes is copied and counts as one column. |
| EmitterOutput.Output.WriteAll | yaml/emitterc.go:107-114 | A text is copied character by character. |
| EmitterOutput.Output.WriteBreak | yaml/emitterc.go:117-136 | A break of a value is copied, LF as a line break of the output. |
| EmitterOutput.Output.WriteIndent | yaml/emitterc.go:1490-1515 | A new line is begun unless the current one is still in its indentation, and the column is reached. |
| EmitterOutput.Output.WriteIndicator | yaml/emitterc.go:1517-1530 | An indicator, with a space in front where one is needed. |
| EmitterOutput.Output.WritePlain | yaml/emitterc.go:1609-1666 | The plain writer over bytes and buffer writes the text of the plain writer on characters. |
| EmitterOutput.Output.WriteSingleQuoted | yaml/emitterc.go:1668-1725 | The single-quoted writer likewise. |
| EmitterOutput.Output.WriteDoubleQuoted | yaml/emitterc.go:1727-1846 | The double-quoted writer likewise, each character decoded from its bytes and escaped. |
| EmitterOutput.Output.DecodeAt | yaml/emitterc.go:1737-1756 | The bytes of a character give its code point. |
| EmitterOutput.Output.WriteHexEscape | yaml/emitterc.go:1794-1813 | Two, four or eight digits, by the size of the code point. |
| YamlEmitter.YamlEmitter.Emit | yaml/emitterc.go:146-160 | An event handed to the object with its buffer queues and dispatches as the machine does; when the stream has ended, the buffer is empty. |
| YamlEmitter.YamlEmitter.NeedMoreEvents | yaml/emitterc.go:169-203 | The count of events and of brackets decides whether to wait, exactly as the machine's lookahead asks. |
| YamlEmitter.YamlEmitter.StateMachine | yaml/emitterc.go:251-315 | One dispatched event changes state, stacks and output as the machine does. |
| YamlEmitter.YamlEmitter.IncreaseIndent | yaml/emitterc.go:229-248 | The indentation is pushed and moved on by the rules for sequences in sequences. |
| YamlEmitter.YamlEmitter.CheckSimpleKey | yaml/emitterc.go:970-1001 | A key is simple if it is on one line and at most 128 bytes, or an empty collection. |
| YamlEmitter.YamlEmitter.SelectScalarStyle | yaml/emitterc.go:1004-1050 | The style asked for, or the next safer one that the analysis and the place allow. |
| YamlEmitter.YamlEmitter.ProcessScalar | yaml/emitterc.go:1097-1115 | The scalar is written by its style's writer. |
| YamlEmitter.YamlEmitter.EmitScalar | yaml/emitterc.go:889-910 | Style, indentation and writer together, with the state restored. |
| YamlEmitter.YamlEmitter.EmitNode | yaml/emitterc.go:855-876 | A node by its event's kind; another event is the error. |
| YamlEmitter.YamlEmitter.EmitStreamStart | yaml/emitterc.go:318-356 | The stream starts with its event or fails. |
| YamlEmitter.YamlEmitter.EmitDocumentStart | yaml/emitterc.go:359-479 | An implicit document begins without a marker; the stream's end writes the open end. |
| YamlEmitter.YamlEmitter.EmitDocumentEnd | yaml/emitterc.go:501-529 | A document ends on a fresh line and is flushed. |
| YamlEmitter.YamlEmitter.EmitFlowSequenceItem | yaml/emitterc.go:532-612 | Brackets, commas and folds of a flow sequence. |
| YamlEmitter.YamlEmitter.EmitFlowMappingKey | yaml/emitterc.go:615-688 | Braces, commas and keys of a flow mapping. |
| YamlEmitter.YamlEmitter.EmitFlowMappingValue | yaml/emitterc.go:691-726 | Values of a flow mapping. |
| YamlEmitter.YamlEmitter.EmitBlockSequenceItem | yaml/emitterc.go:729-762 | Items of a block sequence, and its end. |
| YamlEmitter.YamlEmitter.EmitBlockMappingKey | yaml/emitterc.go:765-800 | Keys of a block mapping, and its end. |
| YamlEmitter.YamlEmitter.EmitBlockMappingValue | yaml/emitterc.go:803-848 | Values of a block mapping. |
| YamlEmitter.YamlEmitter.AnalyzeEvent | yaml/emitterc.go:1409-1475 | The scalar at the head of the queue is analysed before it is dispatched. |
| JsonPrinter.EmitValue | yaml/yaml.go:509-537 | A value is emitted if and only if all its numbers are accepted; then the emitter stands where the value's events leave it. |
| JsonPrinter.EmitSequence | yaml/yaml.go:556-572 | The items of a list in order. |
| JsonPrinter.EmitMapping | yaml/yaml.go:574-600 | The entries of an object in order, each key a string scalar. |
| Decoding.StreamsDecoded | yaml/readerc.go:38-75 | Text in UTF-8 or in either byte order of UTF-16, behind the encoding of U+FEFF itself, decodes to the same characters without the mark; UTF-8 text without one does too (RFC 3629, section 3; RFC 2781, sections 2.2 and 3.2). |
| Decoding.DecodedJust | yaml/readerc.go:38-434 | Bytes are read as a text without an error if and only if they are that text so encoded and all of it is allowed: nothing else is read as it. |
| Decoding.ControlsRefused | yaml/readerc.go:364-385 | Text behind a mark is read as itself if and only if it has no control characters but TAB, LF, CR and NEL, and none of the two non-characters. |
| Decoding.MarkDetected | yaml/readerc.go:47-75 | The encoding of U+FEFF, in front of anything, tells which of the three encodings it is. |
| Decoding.AcceptedIsEncoded | yaml/readerc.go:113-434 | Input accepted to its end is byte for byte the encoding of the characters delivered, all of them allowed ones. |
| Decoding.Utf8Identity | yaml/readerc.go:181-274 | An accepted UTF-8 character is the only right form of its code point: no overlong form and no surrogate passes (RFC 3629, section 4). |
| Decoding.Utf8Accepted | yaml/readerc.go:181-274 | Every allowed character in UTF-8 is accepted, whatever follows it. |
| Decoding.Utf16Identity | yaml/readerc.go:276-358 | An accepted UTF-16 character, single or a surrogate pair, is the encoding of its code point. |
| Decoding.Utf16Accepted | yaml/readerc.go:276-358 | Every allowed character in UTF-16 is accepted in either byte order. |
| Decoding.TextDecoded | yaml/readerc.go:113-434 | Allowed text in any of the encodings decodes to itself, whole. |
| Decoding.MoreBytes | yaml/readerc.go:218-226 | A character, or an error, once seen is not changed by bytes that come later. |
| Reader.ReadAll | yaml/readerc.go:113-434 | For every way the handler splits the input: the characters delivered are `Delivered` of those pieces, a prefix of what decoding the input at once gives, all of it if there is no error; the error is the same, and no more than 512 of the characters in front of it are lost. In particular allowed text behind its byte order mark, in any of the encodings, comes out as itself. |
| Delivery.SteadyExactly | yaml/readerc.go:113-434 | For every input: all ways to split it deliver the same characters if and only if it shows no error but a cut end, or no character in front of its error, or its error within the first three bytes. |
| Delivery.SteadyDelivers | yaml/readerc.go:113-434 | What is delivered in those cases: all characters, or none before an error that the first three bytes show. |
| Delivery.SplitsDiffer | yaml/readerc.go:172-413 | For every other input, byte by byte delivers all characters before the error, and reading the last of them together with the error delivers fewer. |
| Delivery.PiecesMatter | yaml/readerc.go:172-413 | The bytes 61 62 63 64 01 in one piece deliver nothing, in five they deliver abcd. |
| Delivery.RoundsArePrefix | yaml/readerc.go:159-422 | From any state of the raw buffer on, what is delivered is a prefix of the characters that can be decoded. |
| Reader.Reader.UpdateBuffer | yaml/readerc.go:113-434 | A refill makes the characters asked for ready, or the end, without changing what is still to be delivered and without overrunning a buffer; it may ask for 192 characters of any width, or for one more than are there if these take at most 767 bytes. |
| Reader.Reader.BlanksFit | yaml/scannerc.go:2842-2844 | The scanner of line comments, which looks ahead one blank at a time, keeps to that. |
| Reader.Reader.DecodeRound | yaml/readerc.go:172-413 | Decoding the raw buffer once moves on all whole characters in it, or finds the error and delivers none of them. |
| Reader.Reader.EndOfInput | yaml/readerc.go:414-434 | Behind the last character come NULs, as many as were asked for. |
| Reader.Reader.UpdateRawBuffer | yaml/readerc.go:78-107 | A read of any size loses and repeats no byte, and makes progress until the end. |
| Reader.Reader.DetermineEncoding | yaml/readerc.go:47-75 | Three bytes, or all there are, decide the encoding, in however many reads they come. |
| Reader.Reader.DecodeRaw | yaml/readerc.go:172-413 | All characters that the raw buffer holds whole are moved on; one that is cut off waits for more. |
| Reader.Reader.DecodeNextUtf8 | yaml/readerc.go:199-274 | One UTF-8 character, or its error, from the buffer's bytes. |
| Reader.Reader.DecodeNextUtf16 | yaml/readerc.go:276-358 | One UTF-16 character, or its error, in either byte order. |
| Reader.Reader.PutCharacter | yaml/readerc.go:387-411 | The character's UTF-8 form is appended to the buffer. |
| Reader.Reader.Compact | yaml/readerc.go:144-156 | Moving the unread bytes to the front changes none of them. |
| Reader.Reader.Refill | yaml/readerc.go:159-422 | Reads and decodes in turn until enough characters are there. |
| Reader.Reader.ReadHandler | yaml/yaml.go:134-141 | The handler may give any piece of what is left, or the end. |
| CollectWatch.EveryRunHolds | bus/multi.go:296-468 | Over all interleavings of handlers and goroutine: with something emitted and nothing pending, the last snapshot is the current errors and the live values (no values when there are errors); a pending emit finds the goroutine awake or its channel signalled; with waitIdle nothing is emitted before an idle report or a change of the errors. |
| CollectWatch.EveryWatcherHolds | bus/multi.go:296-468 | The same for every run from the start of a watcher, before anything is collected. |
| CollectNews.ErrorsReported | bus/multi.go:325-418 | After every run the errors are those that the last idle report gave, or, if it gave none, the first failure of a filter or disposal behind it; and the directive counts as idle if that report said so. |
| CollectNews.NothingWithoutNews | bus/multi.go:325-462 | Over every run the callback is not called more often than the values or the errors change or a directive is first found idle. |
| CollectWatch.StepHolds | bus/multi.go:325-462 | Each single lock region keeps that invariant. |
| CollectWatch.PendingIsDelivered | bus/multi.go:421-462 | A pending emit reaches the callback, with the current state, in the goroutine's next two steps. |
| CollectWatch.StepCollects | bus/multi.go:352-379 | The two parallel slices hold exactly the live values, each under its own ID, also after removal by swapping with the last. |
| CollectWatch.CompareErrors | bus/multi.go:13-27 | Two error lists are found equal if and only if they agree slot by slot, empty slots included. |
| CollectWatch.Watch.OnValue | bus/multi.go:328-357 | A new value is collected, and an emit scheduled if the first need not be waited for. |
| CollectWatch.Watch.OnRemoved | bus/multi.go:358-379 | The loop that finds and swaps out the value does the machine's removal. |
| CollectWatch.Watch.OnError | bus/multi.go:336-346 | Only the first error is kept. |
| CollectWatch.Watch.OnIdle | bus/multi.go:398-418 | A changed error list is emitted; otherwise the first idle report is. |
| CollectWatch.Watch.Collect | bus/multi.go:424-444 | What is handed to the callback is the snapshot the machine records. |
| SelectWatch.Selection.OnValue | bus/watch.go:30-46 | The callback does the machine's step: every value is kept; a first one is offered, and forgotten if rejected. |
| SelectWatch.Selection.OnRemoved | bus/watch.go:47-71 | The callback does the machine's step, whatever the values left are offered in and whatever is rejected. |
| SelectWatch.Selection.SelectNext | bus/watch.go:58-67 | Values left are offered in any order until one is accepted; all rejected ones are forgotten. |
| SelectWatch.Selection.OnDispose | bus/watch.go:72-79 | nil is reported if a value was selected, and no other time. |
| SelectWatch.EveryRunHolds | bus/watch.go:16-80 | After every run of additions, removals, acceptances and rejections: the values kept are exactly those added and since neither removed nor rejected; a value is selected just when there is one, it is one of them, and it is the one the callback accepted last. |
| SelectWatch.StepHolds | bus/watch.go:30-71 | Each step keeps that, whatever order the values are offered in. |
| SelectWatch.ClearedJustThen | bus/watch.go:47-71 | A step reports nil exactly when the selection drops from some value to none, and then no value is left; it takes back no earlier call. |
| SelectWatch.SelectionStays | bus/watch.go:30-71 | A selected value stays selected until its own removal, whatever is added and removed meanwhile. |
| SelectWatch.StepKeeps | bus/watch.go:30-71 | Each step keeps the values in line with the history of what was added, removed and rejected. |
| SelectWatch.RejectedChangeNothing | bus/watch.go:58-67 | Rejected offers do not change what the callback believes to be selected. |
| TransformEffect.ReleasedExactlyOnce | bus/watch.go:349-418 | For every interleaving of transform routines, their repeated starts and removals, cancelled or not at each check: no release function runs twice, and it has run exactly once when its value is removed and its routine has ended. |
| EffectTimes.NotReleasedEarly | bus/watch.go:353-418 | For every interleaving: a release function is called only when its value has been removed or its routine found the context cancelled; until then it is kept for the removal once the routine has succeeded. |
| EffectTimes.EffectAfterCheck | bus/watch.go:353-366 | For every interleaving: an effect runs only right behind a transform of its value that returned a result and a check that found the context alive. |
| TransformEffect.StepHolds | bus/watch.go:353-418 | Each step keeps every release function in just one place: the routine's hand, the map, the removal's hand, or called. |
| TransformEffect.EveryRunHolds | bus/watch.go:353-418 | So does every run. |
| TransformEffect.Table.StoreRelease | bus/watch.go:374-381 | Under the lock, a routine keeps its release function in the map unless its value is gone; then it must call it. |
| TransformEffect.Table.TakeRelease | bus/watch.go:406-417 | Under the lock, a removal takes the release function out, so that no other removal can call it. |
| Wire.VarintRoundTrip | directive/directive.pb.go:428-460 | Every length that Go's int can hold is read back from its varint, and just the varint's bytes are taken. |
| Wire.VarintSize | directive/directive.pb.go:554-572 | A number below a power of 128 takes no more bytes than the exponent. |
| Wire.RecordRead | directive/directive.pb.go:692-781 | A known field written in front of anything is read as that field with its payload, and the rest is what followed. |
| Wire.ReadRecord | directive/directive.pb.go:692-781 | Whatever the bytes, a record that is read lies inside them and is not empty. |
| Wire.SkipAgrees | directive/directive.pb.go:760-773 | Which bytes are passed depends on these bytes alone; which they are is `WireRecords.RecordSkipped`. |
| Wire.FieldSkipped | directive/directive.pb.go:760-773 | A length-delimited field of any number is passed whole. |
| WireRecords.RecordSkipped | directive/directive.pb.go:760-773 | A record of any wire type (a varint, eight bytes, a length with its bytes, a group of records up to its end tag, four bytes), nested as deep as it is, is passed whole, whatever follows. |
| WireRecords.ItemRead | directive/directive.pb.go:692-781 | The record at the front of any bytes: one that the message does not know is kept as exactly its bytes, a known one is read with its payload, and one of a wrong wire type is an error. |
| WireRecords.TagRefused | directive/directive.pb.go:692-724 | The end of a group, field 0 and the two unused wire types are errors. |
| MessageRecords.ValueRead | directive/directive.pb.go:854-939 | A debug value is read as its records say, told by field numbers: the last key, the values in order, all others kept as they are; the first record of a wrong type is the error. |
| MessageRecords.InfoRecords | directive/directive.pb.go:692-781 | The same for an info, with its debug values read in turn. |
| MessageRecords.StateRecords | directive/directive.pb.go:783-852 | The same for a state, with an info that comes again merged into the one there is. |
| MessageRecords.ValueWritten | directive/directive.pb.go:428-553 | A debug value is written as its fields by number, empty strings left out, with the unknown ones behind them. |
| MessageRecords.InfoWritten | directive/directive.pb.go:428-553 | The same for an info. |
| MessageRecords.StateWritten | directive/directive.pb.go:428-553 | The same for a state. |
| Wire.UnknownAgrees | directive/directive.pb.go:760-773 | An unknown record is the same record whatever follows it. |
| Wire.FieldShortest | directive/directive.pb.go:692-781 | A field is written in no more bytes than it was read from. |
| DirectiveMessages.StateRoundTrip | directive/directive.pb.go:190-200 | Unmarshaling what is marshaled gives an equal message, for every message of less than 2^63 - 16 bytes whose unknown bytes are unknown fields. |
| DirectiveMessages.ReadWriteRead | directive/directive.pb.go:783-852 | For any bytes that unmarshal: marshaling the result and unmarshaling again gives an equal message, unknown fields included, from no more bytes. |
| DirectiveMessages.StateIsProper | directive/directive.pb.go:783-852 | Whatever is unmarshaled, what it keeps as unknown are unknown fields, at every level, and marshaling it takes no more bytes than were read. |
| DirectiveMessages.OddUnknownBytes | directive/directive.pb.go:153-200 | Where the unknown bytes are a known field, two messages that are not equal are marshaled to the same bytes. |
| DirectiveMessages.ConcatenationIsMerge | directive/directive.pb.go:783-852 | Unmarshaling two encodings in a row into any message gives the later non-empty name and keys, the lists and the unknown fields one after the other, and the infos merged likewise. |
| DirectiveMessages.InfoMerged | directive/directive.pb.go:692-781 | The same for one info: name and list of debug values. |
| DirectiveMessages.ValueMerged | directive/directive.pb.go:854-939 | The same for one debug value: key and list of strings. |
| DirectiveMessages.EqualIsSameBytes | directive/directive.pb.go:153-229 | Two messages whose unknown bytes are unknown fields are equal if and only if they are marshaled to the same bytes. |
| DirectiveMessages.EqualInfoIsPresence | directive/directive.pb.go:153-180 | Equality takes a nil element of a list for an empty one, and nothing else together. |
| DirectiveMessages.PresenceInBytes | directive/directive.pb.go:428-460 | A nil element is marshaled as an empty one. |
| Marshaling.Marshal | directive/directive.pb.go:462-473 | The size is exact: filling from the back ends at index 0 at every nesting level. |
| Marshaling.MarshalState | directive/directive.pb.go:480-503 | The back of the buffer is filled with exactly the message; what lies in front stays as it was. |
| Marshaling.MarshalInfo | directive/directive.pb.go:428-460 | The same for an info with its nested values. |
| Marshaling.MarshalValue | directive/directive.pb.go:523-552 | The same for a debug value; nil takes no bytes. |
| Marshaling.EncodeVarint | directive/directive.pb.go:428-460 | The varint is put in front of the given end, in just as many bytes as its size says. |
| Marshaling.SizeState | directive/directive.pb.go:574-586 | The size computed in advance is that of the encoding. |
| Marshaling.SizeInfo | directive/directive.pb.go:554-572 | The loop over nested values adds up to the encoding's size. |
| Marshaling.SizeValue | directive/directive.pb.go:588-606 | The loop over strings adds up to the encoding's size. |
| Marshaling.UnmarshalStateInto | directive/directive.pb.go:783-852 | The loop over records merges all of them into the message, or fails as the function does. |
| Marshaling.UnmarshalInfoInto | directive/directive.pb.go:692-781 | The same for an info. |
| Marshaling.UnmarshalValueInto | directive/directive.pb.go:854-939 | The same for a debug value. |
| Marshaling.RoundTrip | directive/directive.pb.go:410-606 | Marshaling into a buffer and unmarshaling from it, as they run, give an equal message. |

## Left out

- Comments (`yaml_parser_scan_comments`, `yaml_parser_unfold_comments`, the comment fields of tokens and events): a comment in scanned text is an error of the model, and `foot_indent` stays at -1.
- Literal and folded block scalars, in the emitter and the scanner: `JSONToYAML` never picks them, and in scanned text they are an error of the model.
- Tags, anchors, aliases and directives in the emitter: `JSONToYAML` gives none.
- Octets written as URI escapes in a tag that are no character together (overlong forms, surrogates): the source keeps them as they are, the model's token holds U+FFFD for them; both accept them.
- ScanToNextToken: leaves out what U+FEFF does in scanned text. `is_bom` looks at the first octets of the scanner's buffer whatever position it is given, and the reader moves what is not yet read to the front of that buffer; so while U+FEFF stands at the front, wherever in the text it comes from, the scanner passes one character, any, at the start of each line, and the model passes none. The byte order mark at the beginning of the input is the reader's and is modelled.
- The emitter's canonical mode, explicit documents, tag and version directives, and line breaks other than LF: `newEmitter` sets none of them.
- JSON decoding and encoding (`encoding/json`) and number parsing and printing (`strconv`): the first stand before and behind the model, the others are its parameters; that the library reads a JSON integer in base 10 and in base 0 to the same number is taken for granted, and floats are `real` values.
- The short cut of `YAMLToJSON` for input of blanks only, which returns null without reading it.
- ReadYaml: fails on an error of the input's encoding anywhere, also behind the first document, where the source has not read yet; and on a comment or a block scalar that the scanner meets before it has handed over what the first document needs. The scanner, the parser and the reader of events run one after the other, on what the scanner hands over on demand; an error or a token behind the first document makes no difference.
- TextReadOnDemand: speaks of schedules that keep every key waiting, as the source's own schedule does not always.
- The scanner's calls of `update_buffer`: its input is the decoded text with NULs behind it, and the reader is modelled on its own.
- Errors of the read and write handlers, which `yamlInputReadHandler` and `yamlOutputWriteHandler` never return.
- Marks of tokens and events, and the text of error messages: an error is known by its kind, except that a directive's error is known by its text.
- The parser's `marks` stack is a count, since nothing reads what is on it.
- Messages are values, not objects: that the unmarshaler writes into the message it is given, and which slices share memory, is not modelled; an empty and a missing byte string are the same.
- StateRoundTrip: asks for encodings of less than 2^63 - 16 bytes, as no Go slice is longer, and for unknown bytes that are unknown fields, as the unmarshaler leaves them.
- FlowTreeRead: asks, as `FlowReadBack`, `BlockIsRead` and `JsonIsRead` do, for keys on one line and of at most 1024 characters as they are written, and for at most 10000 collections inside one another; a longer key is refused (`LongKey`). Scalars in these flow collections stand on one line each, although `LinesAreRead` and `PlainLinesAreRead` hold there.
- BlockIsRead: leaves out anchors, aliases and tags on the block nodes themselves, keys with a question mark, and tabs between tokens. Anchors, aliases and tags are covered inside flow collections (`FlowReadBack`), keys with a question mark as they are printed (`PrintedIsReadBack`).
- That nothing but the derivations of the grammar is parsed without an error: `StreamParsed` goes from the grammar to the events, and for other tokens there are `AnyTokensParseSafely` and the two deviations.
- DocumentPrinted: takes the text of a scalar that is not made of words with single spaces between them from the writers. On one line it is `FlatWritten`, which escapes there are is `EscapeIsUnit` and `EscapeIsShortest`; where such a scalar is folded over lines only reading it back is proved (`DoubleQuotedReadBack`, `SingleQuotedReadBack`).
- EqualIsSameBytes: asks for the same; without the second condition it is false (`OddUnknownBytes`).
- The `Skip` of the messages' runtime library is not part of the repository; the model's follows the Protocol Buffers Encoding specification (varints of at most ten bytes, nested groups).
- JSON and text forms of the messages, clones and getters.
- That a value passed to the watchers has the right type, and the calls of a filter that end in false: such values leave no trace.
- `OnValue`, `OnRemoved` in `SelectWatch` are called one at a time and not after disposal, as the bus calls them; value IDs are never 0 and never used twice.
- The delays after which `keyed` restarts a failed transform routine or cancels the context of a removed one: both may happen at any time.
- The other watchers of `bus/watch.go`, `bus/multi.go` outside `ExecCollectValuesWatchWithFilter`, the command line, RPC, plugin loading, logging and generated code in other languages.
