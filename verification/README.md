# Models of the YAML library, the asynchronous resolver and the small text formats

This project models, in Dafny, the parts of the repository that are hardest to get right by reading, and
proves what they promise. Each file is one module; a class of the repository that changes its fields in place
is a class here, and beside it stands a function on values that says what each method does, about which the
theorems are proved.

| part | modules |
|---|---|
| node graphs to events and back (`YAML::Clone`) | `Events`, `NodeBuilding`, `TreeBuilding`, `NodeEventing`, `RefCounts`, `Cloning` |
| the document parser | `Tokens`, `Parsing`, `ParsingLemmas`, `TokenPrinting`, `TokenSpelling`, `SingleDocParsing`, `ParsingAhead`, `Loading`, `TextLoading` |
| the scanner | `ScannerState`, `ScannerSteps`, `ScannerInvariant`, `ScannerSound`, `ScannerTally`, `ScannerRuns`, `TokenText`, `ScannerBranches`, `ScannerText`, `Streaming`, `Exp`, `Scanning` |
| what the scanner makes of a text | `PlainTokens`, `TokenShapes`, `TextSteps`, `TextPrinting`, `AtomScanning`, `InlineScanning`, `BlockScanning`, `TreeScanning`, `PrintedLoading` |
| scalars of a text | `ScalarReading`, `ScalarScanning`, `ScalarLines`, `PlainFolding`, `FlowFolding`, `LiteralScalars`, `FoldedScalars` |
| UTF-8 and quoted scalars | `Utf8`, `Escaping`, `QuotedScalars`, `QuotedRoundTrip` |
| input in five encodings | `Transcoding` |
| base64 | `Base64` |
| the emitter's groups and settings, and `YAML::Dump` | `Emitting`, `EmitterRuns`, `EventEmitting`, `EmittedMarks`, `Dumping` |
| the resolver and its counted pointers | `AsyncResolving`, `ScopedRefptrs` |
| statistics of one track | `WalkStats` |
| INI files | `ConfigText`, `ConfigFiles`, `ConfigRoundTrip`, `ConfigExact`, `ConfigEquivalence`, `ConfigComments`, `ConfigIO` |

**Graphs.** A memory is a sequence of nodes and a node is a position in it, so graphs may share and cycle.
`Span` walks a graph with a visited set and yields a tree; `Flatten` turns a tree into events. The class
`NodeEvents`, which has no visited set but reference counts, is proved to report exactly the events of `Span`;
`NodeBuilder`, a stack machine with a stack of pending keys, is proved to compute `Build`, the graph a tree
means; and the composition is a bijection onto the reachable nodes that keeps kinds, tags, styles, scalars,
child order and sharing (`Cloning.Clone`).

**Parser.** The parser as a function on token sequences yields one tree or throws, whatever the tokens.
Every tree is well nested, has whole pairs in its maps and numbers its anchors 1, 2, 3, ...; the collection stack
is as it was. The class refines the function, loops included. In the other direction `TokenSpelling` says what the
tokens of a document mean, by how each node is spelled (tags by handle, null strings, nodes left out, compact pairs),
without naming the parser; the parser reads every spelling as its meaning, and throws exactly where there is none.

**Scanner.** The state holds every token ever queued, so that a late validation of a token is an update at a
position. A run is any sequence of the scanner's actions with any marks. In every run the block tokens nest,
although starts are confirmed or dropped after later tokens were queued, unless one action is taken: a marker inside
a flow while an undecided block start waits for the key in front of that flow (`ForgetsStart`). After that action the
start stays undecided for ever and the tokens are never balanced again, by a count that every run keeps; so a run
ends with every block closed exactly if it never took that action and did not end in a flow inside a block
(`ClosedExactly`). The key and indent properties hold in every run. The class `Scanner` works on characters; its
methods are proved to be such runs, to end on every text, and to hand out exactly the tokens that a function of the
text yields, however the calls that look at the queue and those that take from it are mixed (`ScannerText`).

**From a text to its meaning.** What that function yields is said by characters alone. `TextPrinting` writes trees as
text: scalars plain or quoted, aliases, tags and anchors, flow collections with single pairs and keys alone, block
collections in any indentation, dashes in the column of their key, keys behind question marks, nodes left out.
Scanning the text of any such tree gives exactly the tree's tokens (`TreeScanning.PrintedIsScanned`), a pair of words
exactly its six tokens if and only if the key has no more than 1024 characters (`TreeScanning.PairIsScanned`), and
loading it builds the graph of its meaning (`PrintedLoading.PrintedLoads`). Beside that, wherever a token begins, in
whatever state, `PlainTokens` and `TokenShapes` say which one it is, by the characters up to its end.

**Scalars.** `ReadScalar` says what the loop behind plain, quoted and block scalars reads, for all parameters. What it
means is proved without it: a plain scalar over any lines is what a function of its characters says (`PlainFolding`); any
layout of a quoted scalar, with escapes and escaped breaks, is read as the lines it stands for (`FlowFolding`); literal
and folded block scalars are their lines, the indentation given or detected (`LiteralScalars`, `FoldedScalars`).

**Emitter.** The punctuation is proved to match for every run of calls, and which runs leave the emitter good is a
function of the calls alone (`EmitterRuns`). `EventEmitting` drives it by the events of a graph, and `EmittedMarks` says
which brackets, commas, dashes, question marks and colons are written for a tree, from its shape and the styles of its
collections: `Dump` of any finite graph, cyclic or shared, fails no assertion, is good exactly if each tag can be
written, and then writes exactly the marks of the tree the graph is reported as.

**Round trips.** Quoted scalars, UTF-8, base64 and INI files are each proved against a definition of the written form
that does not mention the other half: well-formed UTF-8 by the table in section 4 of RFC 3629, the
value of a quoted line by its characters and escapes.

**Resolver.** The owning sequence, the detached worker threads, the posted tasks and the destructor take steps in any
order. A touch of a deleted resolver or a freed `State` sets a fault flag, which no interleaving sets. The state holds
the history of signals: each is one worker's result, in the order posted, and while Destroy was not called every run that
comes to rest has signalled once for every Start, which the steps that are no calls lead to.

Where the code does not do what is asked of it in general, the exact condition is proved:

- `ScannerRuns.ClosedExactly`, `ScannerRuns.ForgottenForEver`: block tokens are balanced at the end exactly if no
  marker made the scanner forget a block start and the text did not end in a flow inside a block.
- `TreeScanning.PairIsScanned`, `TreeScanning.LongKeyThrows`: a simple key is one exactly up to 1024 characters.
- `TokenShapes.AnchorToken`: a name ends at white space or a flow indicator, and is refused exactly if it is empty or an
  opening one follows; `TokenShapes.TagToken`: what is a tag, exactly; a single mark at the end of the text is taken for
  the secondary handle.
- `TokenSpelling.NothingAtEnd`: a node that is left out at the very end of the tokens is null whatever its tag;
  `TextPrinting.BlockPairNode`: a question mark with nothing behind it takes the colon of its pair into the key.
- `FoldedScalars.EndIsWhole`: of the line feeds at its end, a folded scalar that keeps them loses one, exactly if an empty
  line follows its last line and that is not indented more.
- `Escaping.LetterReads`: each letter behind a backslash stands for the UTF-8 of its code point, but for N and _, which
  give a single byte.
- `Emitting.SetTwice`: a flow format set twice in one scope is not undone at its end, exactly if the first change
  changed it.
- `FlowFolding.FoldedScalar`: line feeds at the end of a quoted scalar are kept exactly if there is at most one and
  something stands in front of it, or they end within two characters of the last escape.
- `Dumping.EmitNode`, `Dumping.SecondRootIsRefused`: in an emitter that holds a document, a node whose root has
  a tag or an anchor is an error: the property leaves the stream in mid line, where a document begins by itself. In
  general a call is refused exactly as `EmitterRuns.Next` says.
- `WalkStats.StatsWalk.WalkFrom`, `WalkStats.FilterStats`: a walk fails exactly if an entry it has to go on from has a
  property named ...Ids that is no list.
- `QuotedScalars.EscapeSequenceReads`: a pair of JSON escapes is never read back; every other escape sequence is.
- `Base64.WhiteSpaceIsIgnored`: white space changes the result exactly if it splits a pair of pads.
- `Transcoding.MarkIsDetected`, `Transcoding.ReadText`: little-endian UTF-16 that begins with U+0000 is taken for
  UTF-32, and then read as another text; nothing else is mistaken.
- `Transcoding.UnmarkedIsDetected`, `Transcoding.ReadUnmarked`: without a mark, a text that begins with an ASCII character
  is detected exactly if it is not UTF-8 or little-endian UTF-16 with U+0000 as its second character.
- `QuotedRoundTrip.WriteDecodeAndScan`: a quoted scalar at the very beginning of an input arrives exactly if it is not
  a string in single quotes that begins with U+0000, which looks like UTF-16.
- `QuotedRoundTrip.WriteAndScanSingle`: what the single-quoted writer accepts is read back exactly if it holds no
  carriage return.
- `ConfigEquivalence.SavedExact`: a configuration is read back from its text exactly if `ConfigSurvives`: every entry
  survives (`ConfigExact.EntryReadsBack`; a value that holds both a backtick and a double quote does, one that holds
  only a backtick does not), every name is trimmed and without line feeds, and DEFAULT, if there is one, comes first,
  holds a key, and does not begin with a key whose U+FEFF the reader would drop.
- `ConfigComments.CommentsExact`: its comments are read back with it exactly if every line of each is a comment line to
  the reader and each stands in front of a header or a key; a comment of DEFAULT never does, and a comment in front of
  the first key saves its U+FEFF.

A thrown exception is a failure result, written `Thrown`, `Threw`, `Failed` or a false `ok`. An `assert` of the
C++ is `AssertionFailed` in `NodeBuilding`, and a precondition or a Dafny assertion elsewhere. Dafny needs no
configuration beyond `dfyconfig.toml`.

## Model

| member | source | states |
|---|---|---|
| NodeBuilding.NodeBuilder.constructor | resourse/yaml-cpp-0.8.0/src/nodebuilder.cpp:12-20 | a fresh builder: empty stacks, no anchors but the null one, depth 0 |
| NodeBuilding.NodeBuilder.OnNull | resourse/yaml-cpp-0.8.0/src/nodebuilder.cpp:35-39 | the handler takes the fields to the state `Handle` gives, and no pointer leaves the memory |
| NodeBuilding.NodeBuilder.OnAlias | resourse/yaml-cpp-0.8.0/src/nodebuilder.cpp:41-45 | attaches the node registered under the anchor to the open collection; nothing is created |
| NodeBuilding.NodeBuilder.OnScalar | resourse/yaml-cpp-0.8.0/src/nodebuilder.cpp:47-53 | a scalar node with tag and value is created, anchored and attached, as `Handle` says |
| NodeBuilding.NodeBuilder.OnSequenceStart | resourse/yaml-cpp-0.8.0/src/nodebuilder.cpp:55-61 | a sequence node is created and opened; it is attached only at its end |
| NodeBuilding.NodeBuilder.OnSequenceEnd | resourse/yaml-cpp-0.8.0/src/nodebuilder.cpp:63 | closes and attaches the open sequence |
| NodeBuilding.NodeBuilder.OnMapStart | resourse/yaml-cpp-0.8.0/src/nodebuilder.cpp:65-72 | a map node is created and opened, and the depth of maps grows |
| NodeBuilding.NodeBuilder.OnMapEnd | resourse/yaml-cpp-0.8.0/src/nodebuilder.cpp:74-78 | closes and attaches the open map, one level up |
| NodeBuilding.NodeBuilder.PushNew | resourse/yaml-cpp-0.8.0/src/nodebuilder.cpp:80-86 | creates an empty node, registers its anchor in order and pushes it |
| NodeBuilding.NodeBuilder.PushNode | resourse/yaml-cpp-0.8.0/src/nodebuilder.cpp:88-96 | pushes a node, and a pending key exactly if the open collection is a map that has none |
| NodeBuilding.NodeBuilder.PopNode | resourse/yaml-cpp-0.8.0/src/nodebuilder.cpp:98-126 | appends the popped node to the sequence, completes the pending key, or inserts the pair; the last node becomes the root |
| NodeBuilding.NodeBuilder.Receive | resourse/yaml-cpp-0.8.0/src/nodebuilder.cpp:31-78 | each event goes to its handler |
| NodeBuilding.NodeBuilder.ReceiveAll | resourse/yaml-cpp-0.8.0/src/nodebuilder.cpp:31-126 | a run of handler calls is the fold of `Handle` over the events |
| TreeBuilding.AttachStaysReady | resourse/yaml-cpp-0.8.0/src/nodebuilder.cpp:88-126 | from a state between two children, attaching a node trips no assert and leads to such a state again, with the same collection open |
| TreeBuilding.AttachAllToMap | resourse/yaml-cpp-0.8.0/src/nodebuilder.cpp:88-126 | nodes attached one after another to an open map become its key-value pairs in order, whatever keys are pending outside |
| TreeBuilding.AttachAllToSequence | resourse/yaml-cpp-0.8.0/src/nodebuilder.cpp:88-126 | nodes attached to an open sequence become its items in order |
| TreeBuilding.BuilderRefinesBuildAll | resourse/yaml-cpp-0.8.0/src/nodebuilder.cpp:31-133 | the events of several children attach their nodes to the open collection, in order |
| TreeBuilding.BuilderRefinesBuild | resourse/yaml-cpp-0.8.0/src/nodebuilder.cpp:31-133 | replaying the events of any numbered tree with whole pairs creates exactly the nodes the tree means and attaches its node, without a failed assert |
| NodeEventing.AliasManager.RegisterReference | resourse/yaml-cpp-0.8.0/src/nodeevents.cpp:10-12 | uses up an anchor; a node registered before keeps its first one |
| NodeEventing.NodeEvents.constructor | resourse/yaml-cpp-0.8.0/src/nodeevents.cpp:22-26 | the counts are those of a set-up from the root, empty without one |
| NodeEventing.NodeEvents.Setup | resourse/yaml-cpp-0.8.0/src/nodeevents.cpp:28-43 | ends on cyclic graphs; every call counts one visit and only the first goes on to the children |
| NodeEventing.NodeEvents.Emit | resourse/yaml-cpp-0.8.0/src/nodeevents.cpp:45-52 | document start, the events of the walk with a visited set, document end |
| NodeEventing.NodeEvents.EmitNode | resourse/yaml-cpp-0.8.0/src/nodeevents.cpp:54-92 | ends on cyclic graphs; without a visited set it reports what the walk with one reports, and its anchors are that walk's |
| NodeEventing.NodeEvents.SetupElements | resourse/yaml-cpp-0.8.0/src/nodeevents.cpp:34-36 | the loop over a sequence counts its items in order |
| NodeEventing.NodeEvents.SetupPairs | resourse/yaml-cpp-0.8.0/src/nodeevents.cpp:37-42 | the loop over a map counts keys and values in turn |
| NodeEventing.NodeEvents.EmitContents | resourse/yaml-cpp-0.8.0/src/nodeevents.cpp:68-91 | the events of a node met for the first time, with its children walked in order |
| NodeEventing.NodeEvents.EmitElements | resourse/yaml-cpp-0.8.0/src/nodeevents.cpp:77-82 | the loop over a sequence reports what the walk over its items reports |
| NodeEventing.NodeEvents.EmitPairs | resourse/yaml-cpp-0.8.0/src/nodeevents.cpp:83-90 | the loop over a map reports what the walk over its keys and values reports |
| NodeEventing.VisitIsCounted | resourse/yaml-cpp-0.8.0/src/nodeevents.cpp:54-97 | a node met again is aliased and already has an anchor, because all visits were counted beforehand |
| RefCounts.RefCountsAreEdges | resourse/yaml-cpp-0.8.0/src/nodeevents.cpp:28-43 | exactly the reachable nodes have a count, and it is the number of edges from reachable nodes, plus one for the root |
| RefCounts.SetupCountsEdges | resourse/yaml-cpp-0.8.0/src/nodeevents.cpp:28-43 | a set-up from any node adds one for the call and one for every edge out of a node first met in it |
| RefCounts.SetupMeets | resourse/yaml-cpp-0.8.0/src/nodeevents.cpp:28-43 | what a set-up meets is reachable, and so are all children of it met |
| RefCounts.SpanAliases | resourse/yaml-cpp-0.8.0/src/nodeevents.cpp:54-92 | at every point of the walk the visits of a shared node are its one description and the aliases to its anchor |
| RefCounts.SharedNodesAreAliased | resourse/yaml-cpp-0.8.0/src/nodeevents.cpp:54-97 | a reachable node gets an anchor exactly if its count exceeds one, and then every visit but the first is an alias to it |
| Cloning.SpanRebuilds | resourse/yaml-cpp-0.8.0/src/nodeevents.cpp:54-92 | at every point of the walk the tree is numbered and paired, and its meaning copies the nodes visited, in order of first visit |
| Cloning.SpanAllRebuilds | resourse/yaml-cpp-0.8.0/src/nodeevents.cpp:77-90 | the same for the children of a collection, their shares of the copy side by side |
| Cloning.FirstVisitRebuilds | resourse/yaml-cpp-0.8.0/src/nodeevents.cpp:64-91 | a first visit: the new node is numbered, announced and filled with the copies of its children |
| Cloning.RevisitRebuilds | resourse/yaml-cpp-0.8.0/src/nodeevents.cpp:57-62 | a later visit creates nothing and means the node copied before |
| Cloning.DocumentBuilds | resourse/yaml-cpp-0.8.0/src/nodebuilder.cpp:12-133 | the events of a whole document leave a fresh builder with the tree's graph, its root, and every stack empty |
| Cloning.SpanIsIsomorphic | resourse/yaml-cpp-0.8.0/src/node.cpp:6-11 | the graph the emitted events mean is isomorphic to the reachable part of the original |
| Cloning.Clone | resourse/yaml-cpp-0.8.0/src/node.cpp:6-11 | for every finite graph, cyclic or shared, no assert fails and the copy is isomorphic: kinds, tags, styles, scalars, child order, sharing |
| ParsingLemmas.NodeIsWellNested | resourse/yaml-cpp-0.8.0/src/singledocparser.cpp:50-149 | for every token sequence a parsed node is one tree with whole pairs, anchors numbered on from the current one, stack and depth as before |
| ParsingLemmas.ContentIsWellNested | resourse/yaml-cpp-0.8.0/src/singledocparser.cpp:84-149 | the same for what follows tags and anchors, nothing included |
| ParsingLemmas.PropertiesAnnounce | resourse/yaml-cpp-0.8.0/src/singledocparser.cpp:374-422 | tags and anchors in any order: at most one new anchor, and it has the next number |
| ParsingLemmas.BlockEntriesAreWellNested | resourse/yaml-cpp-0.8.0/src/singledocparser.cpp:165-196 | the entries of a block sequence are well nested, missing ones included, and its entry leaves the collection stack |
| ParsingLemmas.FlowEntriesAreWellNested | resourse/yaml-cpp-0.8.0/src/singledocparser.cpp:198-229 | likewise for a flow sequence |
| ParsingLemmas.BlockPairsAreWellNested | resourse/yaml-cpp-0.8.0/src/singledocparser.cpp:251-288 | a block map has an even number of child nodes, nulls standing in for missing keys and values |
| ParsingLemmas.FlowPairsAreWellNested | resourse/yaml-cpp-0.8.0/src/singledocparser.cpp:290-337 | likewise for a flow map |
| ParsingLemmas.CompactMapIsWellNested | resourse/yaml-cpp-0.8.0/src/singledocparser.cpp:339-357 | a pair inside a flow sequence is exactly two nodes |
| ParsingLemmas.CompactMapWithNoKeyIsWellNested | resourse/yaml-cpp-0.8.0/src/singledocparser.cpp:359-372 | a value without a key is a null and that value |
| TokenPrinting.ReadsBack | resourse/yaml-cpp-0.8.0/src/singledocparser.cpp:50-149 | the parser reads every printable tree back from its own tokens, whatever follows them, aliases and anchors by name |
| TokenPrinting.AnchorIsRead | resourse/yaml-cpp-0.8.0/src/singledocparser.cpp:374-422 | a printed anchor is read as the next number and known by its name afterwards |
| TokenPrinting.BlockItemsReadBack | resourse/yaml-cpp-0.8.0/src/singledocparser.cpp:165-196 | the entries of a block sequence are read back, and its entry is off the stack |
| TokenPrinting.FlowItemsReadBack | resourse/yaml-cpp-0.8.0/src/singledocparser.cpp:198-229 | the entries of a flow sequence are read back |
| TokenPrinting.BlockPairTokensReadBack | resourse/yaml-cpp-0.8.0/src/singledocparser.cpp:251-288 | the pairs of a block map are read back |
| TokenPrinting.FlowPairTokensReadBack | resourse/yaml-cpp-0.8.0/src/singledocparser.cpp:290-337 | the pairs of a flow map are read back |
| TokenSpelling.NodeReads | resourse/yaml-cpp-0.8.0/src/singledocparser.cpp:50-149 | a node is read as what its spelling means, and throws exactly where that means nothing: properties in either order, tags by handle, null strings, aliases, nodes left out, compact pairs, the depth limit |
| TokenSpelling.ScalarAlone | resourse/yaml-cpp-0.8.0/src/singledocparser.cpp:92-103 | one scalar token without properties: a plain one is null if and only if it is one of the five null strings, else tagged ?; any other is tagged ! |
| TokenSpelling.TagIsTranslated | resourse/yaml-cpp-0.8.0/src/tag.cpp:32-49 | a tag stands for its own text behind the prefix declared for its handle, or behind the handle itself, or the prefix of YAML for the secondary one |
| TokenSpelling.PropsRead | resourse/yaml-cpp-0.8.0/src/singledocparser.cpp:374-422 | a tag and an anchor in either order give the tag translated and the next number |
| TokenSpelling.ContentReads | resourse/yaml-cpp-0.8.0/src/singledocparser.cpp:84-149 | the same for what follows the properties |
| TokenSpelling.NothingAtEnd | resourse/yaml-cpp-0.8.0/src/singledocparser.cpp:50-58 | where the tokens end a node is null, whatever its tag |
| TokenSpelling.NoKeyReads | resourse/yaml-cpp-0.8.0/src/singledocparser.cpp:63-69 | a value without a key is a map of one pair with a null key |
| TokenSpelling.AliasReads | resourse/yaml-cpp-0.8.0/src/singledocparser.cpp:71-76 | an alias is the node of the name announced last, or throws |
| TokenSpelling.BlockEntriesRead | resourse/yaml-cpp-0.8.0/src/singledocparser.cpp:165-196 | the entries of a block sequence, empty ones included |
| TokenSpelling.FlowEntriesRead | resourse/yaml-cpp-0.8.0/src/singledocparser.cpp:198-229 | the entries of a flow sequence |
| TokenSpelling.BlockPairsRead | resourse/yaml-cpp-0.8.0/src/singledocparser.cpp:251-288 | the pairs of a block map, with keys or values left out |
| TokenSpelling.FlowPairsRead | resourse/yaml-cpp-0.8.0/src/singledocparser.cpp:290-337 | the pairs of a flow map, with keys or values left out |
| TokenSpelling.CompactReads | resourse/yaml-cpp-0.8.0/src/singledocparser.cpp:339-357 | a pair inside a flow sequence |
| SingleDocParsing.SingleDocParser.HandleDocument | resourse/yaml-cpp-0.8.0/src/singledocparser.cpp:30-48 | ends on every token sequence; throws, or delivers document start, one well-nested numbered node and document end, with the stack empty and all end markers eaten |
| SingleDocParsing.SingleDocParser.HandleNode | resourse/yaml-cpp-0.8.0/src/singledocparser.cpp:50-52 | throws exactly when the parse function does; otherwise delivers that tree's events and leaves its rest |
| SingleDocParsing.SingleDocParser.HandleGuarded | resourse/yaml-cpp-0.8.0/src/singledocparser.cpp:53-84 | the same below the depth guard |
| SingleDocParsing.SingleDocParser.HandleContent | resourse/yaml-cpp-0.8.0/src/singledocparser.cpp:84-149 | the same for the content of a node whose properties were read |
| SingleDocParsing.SingleDocParser.HandleSequence | resourse/yaml-cpp-0.8.0/src/singledocparser.cpp:151-163 | the same for a sequence of either style, its start and end events around the entries |
| SingleDocParsing.SingleDocParser.HandleBlockSequence | resourse/yaml-cpp-0.8.0/src/singledocparser.cpp:165-196 | the loop delivers the entries the function yields, and pops what it pushed |
| SingleDocParsing.SingleDocParser.HandleFlowSequence | resourse/yaml-cpp-0.8.0/src/singledocparser.cpp:198-229 | the loop delivers the entries the function yields, and pops what it pushed |
| SingleDocParsing.SingleDocParser.HandleMap | resourse/yaml-cpp-0.8.0/src/singledocparser.cpp:231-249 | the same for a map of either block or flow style |
| SingleDocParsing.SingleDocParser.HandlePairInSequence | resourse/yaml-cpp-0.8.0/src/singledocparser.cpp:131-139 | a key inside a flow sequence begins a map of one pair |
| SingleDocParsing.SingleDocParser.HandleOptionalKey | resourse/yaml-cpp-0.8.0/src/singledocparser.cpp:270-276 | the key, or a null where there is none |
| SingleDocParsing.SingleDocParser.HandleOptionalValue | resourse/yaml-cpp-0.8.0/src/singledocparser.cpp:278-284 | the value, or a null where there is none |
| SingleDocParsing.SingleDocParser.HandlePair | resourse/yaml-cpp-0.8.0/src/singledocparser.cpp:307-321 | key and value in order, throwing where either throws |
| SingleDocParsing.SingleDocParser.HandleBlockMap | resourse/yaml-cpp-0.8.0/src/singledocparser.cpp:251-288 | the loop delivers the pairs the function yields, nulls for missing halves |
| SingleDocParsing.SingleDocParser.HandleFlowMap | resourse/yaml-cpp-0.8.0/src/singledocparser.cpp:290-337 | the loop delivers the pairs the function yields |
| SingleDocParsing.SingleDocParser.HandleCompactMap | resourse/yaml-cpp-0.8.0/src/singledocparser.cpp:339-357 | one pair, and the stack as before |
| SingleDocParsing.SingleDocParser.HandleCompactMapWithNoKey | resourse/yaml-cpp-0.8.0/src/singledocparser.cpp:359-372 | a null key and one value, and the stack as before |
| SingleDocParsing.SingleDocParser.HandleProperties | resourse/yaml-cpp-0.8.0/src/singledocparser.cpp:374-415 | throws on a second tag or anchor; otherwise the properties and the rest |
| SingleDocParsing.SingleDocParser.RegisterAnchor | resourse/yaml-cpp-0.8.0/src/singledocparser.cpp:417-422 | an empty name is no anchor; any other gets the next number, also if it was used before |
| SingleDocParsing.SingleDocParser.PushCollectionType | resourse/yaml-cpp-0.8.0/src/collectionstack.h:27-29 | one more collection is entered |
| SingleDocParsing.SingleDocParser.PopCollectionType | resourse/yaml-cpp-0.8.0/src/collectionstack.h:30-34 | the collection left is the one entered last: the assert holds at every call |
| Loading.Load | resourse/yaml-cpp-0.8.0/src/parse.cpp:22-30 | whatever the tokens, unless the parser throws the builder's asserts and anchor look-ups hold and the graph is the meaning of the parsed tree |
| TextLoading.Load | resourse/yaml-cpp-0.8.0/src/parse.cpp:12-30 | from characters to nodes with the real loops: the graph that the tree parsed from the tokens of the text means, its directives applied, or an error where one of them throws, or the scanner at a token that is asked for |
| TextLoading.LoadInput | resourse/yaml-cpp-0.8.0/src/parse.cpp:22-30 | the same from the bytes of an input in any of the five encodings |
| TextLoading.RestDoesNotMatter | resourse/yaml-cpp-0.8.0/src/parser.cpp:25-36 | what stands behind a document and the token after it has no influence, be it tokens or an error of the scanner |
| ParsingAhead.NodeLooksAhead | resourse/yaml-cpp-0.8.0/src/singledocparser.cpp:50-149 | a node is read from its tokens and one more: with any others behind these the result is the same |
| ParsingAhead.PropertiesLookAhead | resourse/yaml-cpp-0.8.0/src/singledocparser.cpp:374-415 | the same for tags and anchors |
| ParsingAhead.BlockPairsLookAhead | resourse/yaml-cpp-0.8.0/src/singledocparser.cpp:251-288 | the same for the pairs of a block map |
| ParsingAhead.FlowEntriesLookAhead | resourse/yaml-cpp-0.8.0/src/singledocparser.cpp:198-229 | the same for the entries of a flow sequence |
| TextLoading.ParseDirectives | resourse/yaml-cpp-0.8.0/src/parser.cpp:38-113 | throws on a wrong number of parameters, a repeated or bad version and a repeated handle; otherwise the tags declared and what follows |
| TextLoading.PrologueTags | resourse/yaml-cpp-0.8.0/src/parser.cpp:100-113 | a handle gets a prefix exactly from a tag directive that names it, and keeps it |
| PrintedLoading.PrintedLoads | resourse/yaml-cpp-0.8.0/src/parse.cpp:12-30 | loading the text of any printed tree builds the graph its meaning stands for, or is an error exactly where it means nothing |
| PrintedLoading.BlockFits | resourse/yaml-cpp-0.8.0/src/singledocparser.cpp:50-149 | every printed tree is spelled in a way the parser reads as meant |
| PlainTokens.PlainToken | resourse/yaml-cpp-0.8.0/src/scantoken.cpp:295-328 | wherever the scanner takes a plain scalar, in a flow or a block and on any lines, the token holds what its characters say, or the scan throws where they do |
| PlainTokens.PlainTokenOnItsLine | resourse/yaml-cpp-0.8.0/src/scantoken.cpp:295-328 | a plain scalar that ends on its line is the text up to its end without trailing blanks |
| TokenShapes.AnchorToken | resourse/yaml-cpp-0.8.0/src/scantoken.cpp:221-253 | an anchor or an alias is what stands up to white space or a flow indicator; refused exactly if that is nothing or an opening bracket follows |
| TokenShapes.TagIs | resourse/yaml-cpp-0.8.0/src/scantag.cpp:9-80 | which token is read behind an exclamation mark, if and only if: verbatim, by a named handle with its suffix, primary, or alone |
| TokenShapes.TagToken | resourse/yaml-cpp-0.8.0/src/scantoken.cpp:256-292 | a tag is scanned as what it is, and what is none is refused |
| TokenShapes.MarkerToken | resourse/yaml-cpp-0.8.0/src/scanner.cpp:110-117 | three dashes or dots at the beginning of a line, with white space or the end behind them |
| TokenShapes.KeyToken | resourse/yaml-cpp-0.8.0/src/scantoken.cpp:173-189 | a question mark in front of white space is a key, refused exactly in block context where no key may begin |
| TokenShapes.DirectiveToken | resourse/yaml-cpp-0.8.0/src/scantoken.cpp:20-58 | the name and the words of the line of a directive; a comment is none of them |
| TokenShapes.QuotedToken | resourse/yaml-cpp-0.8.0/src/scantoken.cpp:331-368 | any layout of a quoted scalar is one token with the value its lines stand for, but for line feeds at its end |
| TokenShapes.HeaderIs | resourse/yaml-cpp-0.8.0/src/scantoken.cpp:382-417 | chomping and indentation of a block scalar in either order, blanks and a comment; bad exactly with a zero or anything else behind them |
| TokenShapes.BlockToken | resourse/yaml-cpp-0.8.0/src/scantoken.cpp:375-436 | a block scalar is one token with its lines, literal or folded, chomped and indented as its header says |
| TextSteps.CommentSkipped | resourse/yaml-cpp-0.8.0/src/scanner.cpp:186-192 | a comment changes nothing but the place, and ends with its line |
| TextSteps.TabSkipped | resourse/yaml-cpp-0.8.0/src/scanner.cpp:178-184 | behind a tab outside a flow no key may begin, and nothing else changes |
| TextSteps.ReturnSkipped | resourse/yaml-cpp-0.8.0/src/scanner.cpp:194-210 | a carriage return is a break, together with a line feed behind it |
| AtomScanning.WordScans | resourse/yaml-cpp-0.8.0/src/scantoken.cpp:295-328 | a word up to what ends it: its token, and the place where it began remembered as a key if one may begin there |
| AtomScanning.QuoteReads | resourse/yaml-cpp-0.8.0/src/scantoken.cpp:331-368 | a quoted scalar on one line is its characters and escapes, trailing line feeds of escapes included |
| AtomScanning.NameScans | resourse/yaml-cpp-0.8.0/src/scantoken.cpp:221-253 | the same for an alias or an anchor |
| AtomScanning.TagScans | resourse/yaml-cpp-0.8.0/src/scantoken.cpp:256-292 | the same for a tag of any kind |
| InlineScanning.InlineScans | resourse/yaml-cpp-0.8.0/src/scanner.cpp:82-174 | a node on one line, behind its tag and anchor in either order, is scanned to its tokens and the state behind it |
| InlineScanning.EntriesScan | resourse/yaml-cpp-0.8.0/src/scantoken.cpp:87-150 | the entries of a flow collection: nodes and single pairs in a sequence, pairs and keys alone in a map |
| InlineScanning.AfterLone | resourse/yaml-cpp-0.8.0/src/scantoken.cpp:134-141 | a key alone in a flow map is confirmed and given a value |
| InlineScanning.AfterItem | resourse/yaml-cpp-0.8.0/src/scantoken.cpp:134-141 | an entry of a flow sequence is no key |
| InlineScanning.AfterKey | resourse/yaml-cpp-0.8.0/src/scantoken.cpp:192-204 | a key on the line of its colon and not longer than 1024 characters is confirmed |
| BlockScanning.KeyScans | resourse/yaml-cpp-0.8.0/src/scantoken.cpp:192-218 | a key and its colon begin a block map, or go on with it |
| BlockScanning.DashScans | resourse/yaml-cpp-0.8.0/src/scantoken.cpp:153-170 | a dash begins a block sequence, also in the column of a map, or goes on with it |
| BlockScanning.QuestionScans | resourse/yaml-cpp-0.8.0/src/scantoken.cpp:173-189 | a question mark begins a block map, or goes on with it |
| BlockScanning.AnswerScans | resourse/yaml-cpp-0.8.0/src/scantoken.cpp:192-218 | the colon below a question mark |
| BlockScanning.Settles | resourse/yaml-cpp-0.8.0/src/scanner.cpp:316-341 | a block that lies deeper than what follows ends first, and one whose dashes stand in this column if no dash follows |
| BlockScanning.RawIsShown | resourse/yaml-cpp-0.8.0/src/scanner.cpp:53-80 | without the keys that turned out to be none, the tokens of a node on one line are those the parser expects |
| TreeScanning.PrintedIsScanned | resourse/yaml-cpp-0.8.0/src/scanner.cpp:24-174 | scanning the text of any tree that can be written gives exactly its tokens, whatever the indentation, with or without a line feed at the end |
| TreeScanning.PairIsScanned | resourse/yaml-cpp-0.8.0/src/simplekey.cpp:100-126 | for words k and v, the text of k, a colon, a space and v is scanned if and only if k has no more than 1024 characters, and then to exactly its six tokens |
| TreeScanning.LongKeyThrows | resourse/yaml-cpp-0.8.0/src/simplekey.cpp:100-126 | any longer key is refused at its colon |
| TreeScanning.EntriesScan | resourse/yaml-cpp-0.8.0/src/scantoken.cpp:153-170 | the entries of a block sequence and its end |
| TreeScanning.BlockPairsScan | resourse/yaml-cpp-0.8.0/src/scantoken.cpp:173-218 | the pairs of a block map and its end |
| TreeScanning.LongPairScans | resourse/yaml-cpp-0.8.0/src/scantoken.cpp:173-218 | a key of any kind behind a question mark, and its value behind a colon below |
| TreeScanning.ValueScans | resourse/yaml-cpp-0.8.0/src/scantoken.cpp:192-218 | a value on the line of its key or below it, deeper or in its column, or left out |
| TreeScanning.TailScans | resourse/yaml-cpp-0.8.0/src/simplekey.cpp:84-95 | a node with nothing behind it on its line is no key, and the start that waited for it is dropped |
| TreeScanning.WordEndsLine | resourse/yaml-cpp-0.8.0/src/scanscalar.cpp:101-203 | a plain word at the end of its line does not go on in a line that is indented no deeper than the block around it |
| ScannerInvariant.DroppedStart | resourse/yaml-cpp-0.8.0/src/simplekey.cpp:25-33 | dropping a block start that is still open, after later tokens were queued, leaves the others nested |
| ScannerInvariant.ResolveKeeps | resourse/yaml-cpp-0.8.0/src/simplekey.cpp:14-33 | deciding a simple key keeps the whole invariant: order of indents, pointers of keys, nesting |
| ScannerInvariant.InsertKeeps | resourse/yaml-cpp-0.8.0/src/simplekey.cpp:58-80 | a potential simple key, with its undecided map start, keeps the invariant |
| ScannerInvariant.PopIndentKeeps | resourse/yaml-cpp-0.8.0/src/scanner.cpp:360-374 | leaving an indent in block context keeps the invariant: a valid one ends with the matching token, another invalidates its key |
| ScannerInvariant.PopIndentToHereKeeps | resourse/yaml-cpp-0.8.0/src/scanner.cpp:316-341 | in block context the top is afterwards at or left of the column and not INVALID; inside a flow nothing changes |
| ScannerInvariant.PopToNoneKeeps | resourse/yaml-cpp-0.8.0/src/scanner.cpp:343-358 | leaving all indents stops at the NONE marker, with every block closed |
| ScannerSound.OutdentSound | resourse/yaml-cpp-0.8.0/src/scanner.cpp:316-341 | the same bound on the column in every run, also one that forgets a block start |
| ScannerSound.ActSound | resourse/yaml-cpp-0.8.0/src/scantoken.cpp:20-436 | no action whatever breaks the order of indents or the keys' pointers |
| ScannerRuns.ActKeeps | resourse/yaml-cpp-0.8.0/src/scantoken.cpp:20-436 | no action but a marker that forgets a block start breaks the nesting |
| ScannerRuns.ReachableKeys | resourse/yaml-cpp-0.8.0/src/simplekey.cpp:36-131 | in every reachable state the keys' flow levels strictly increase up to the current one, and each points at UNVERIFIED tokens still queued |
| ScannerRuns.ReachableIndents | resourse/yaml-cpp-0.8.0/src/scanner.cpp:245-374 | from the start of the stream the NONE marker at column -1 is at the bottom and is never popped |
| ScannerRuns.IndentColumns | resourse/yaml-cpp-0.8.0/src/scanner.cpp:286-374 | columns never decrease up the stack, and equal ones are a sequence directly on a map |
| ScannerRuns.ReachableNests | resourse/yaml-cpp-0.8.0/src/scanner.cpp:286-374 | in every run that forgets no block start the block tokens nest, SEQ with SEQ and MAP with MAP, in every prefix; when it ends outside a flow none is left undecided |
| ScannerRuns.ClosedExactly | resourse/yaml-cpp-0.8.0/src/scanner.cpp:254-374 | at the end of any run all blocks are closed if and only if no marker forgot a block start and the text did not end in a flow inside a block |
| ScannerRuns.ForgottenForEver | resourse/yaml-cpp-0.8.0/src/simplekey.cpp:128-131 | a block start forgotten by a marker in a flow stays UNVERIFIED, and the tokens unbalanced, whatever steps follow |
| ScannerTally.ActSteady | resourse/yaml-cpp-0.8.0/src/scantoken.cpp:20-436 | every action keeps the count: confirmed starts less ends are the valid indents on the stack; a start no key points at stays undecided |
| ScannerTally.MarkerForgets | resourse/yaml-cpp-0.8.0/src/scantoken.cpp:61-84 | a marker inside a flow leaves the waiting block start without a key |
| ScannerTally.LostIsNeverBalanced | resourse/yaml-cpp-0.8.0/src/simplekey.cpp:128-131 | with such a start there are more block starts than ends |
| ScannerRuns.KeptCloses | resourse/yaml-cpp-0.8.0/src/scanner.cpp:53-80 | leaving out the INVALID tokens does not change whether every block is closed |
| ScannerText.RewoundToken | resourse/yaml-cpp-0.8.0/src/scanner.cpp:82-174 | what is scanned next does not depend on how much of the queue was handed out |
| ScannerText.TokenLeads | resourse/yaml-cpp-0.8.0/src/scanner.cpp:82-174 | a scan that does not throw ends the stream or reads on, and keeps the order of indents and the pointers of keys |
| ScannerRuns.KeptNests | resourse/yaml-cpp-0.8.0/src/scanner.cpp:53-80 | leaving out the INVALID tokens does not change which blocks are open |
| ScannerRuns.DequeuedIsFinal | resourse/yaml-cpp-0.8.0/src/simplekey.cpp:84-126 | no step changes a token that was handed out |
| ScannerRuns.MarkerInFlow | resourse/yaml-cpp-0.8.0/src/scantoken.cpp:20-84 | in one step: a marker inside a flow keeps the invariant if and only if no undecided block start waits for a key it forgets |
| ScannerRuns.EndInFlow | resourse/yaml-cpp-0.8.0/src/scanner.cpp:254-265 | the end of the input inside a flow leaves the tokens nested and closes no block |
| ScannerRuns.CutFlowBreaksNesting | resourse/yaml-cpp-0.8.0/src/scantoken.cpp:61-84 | a run of five steps in which a marker cuts a flow and a block start stays behind, undecided and without an end |
| Scanning.Scanner.IsEmpty | resourse/yaml-cpp-0.8.0/src/scanner.cpp:24-27 | ends; true only after the end of the stream, and hands out nothing |
| Scanning.Scanner.Pop | resourse/yaml-cpp-0.8.0/src/scanner.cpp:29-33 | the token in front follows everything handed out before, and what is still to come stays what it was |
| Scanning.Scanner.Peek | resourse/yaml-cpp-0.8.0/src/scanner.cpp:35-48 | the next token, VALID unless the stream has ended |
| Scanning.Scanner.EnsureTokensInQueue | resourse/yaml-cpp-0.8.0/src/scanner.cpp:53-80 | returns, or throws exactly because scanning the rest of the text does, and then all tokens decided before were handed out; drops INVALID tokens only, stops at a VALID one or at the end |
| Scanning.ScanAll | resourse/yaml-cpp-0.8.0/src/scanner.cpp:24-80 | taken one by one, the tokens of a scanner are exactly `TokensOf` the text, up to where scanning throws, and it throws exactly if that does |
| ScannerRuns.HandedOutIsDecided | resourse/yaml-cpp-0.8.0/src/scanner.cpp:53-80 | while the stream has not ended no undecided token was handed out |
| Scanning.Scanner.ScanOneMore | resourse/yaml-cpp-0.8.0/src/scanner.cpp:82-174 | one scan leads on to what was to come, or throws because that does |
| Scanning.Scanner.AllHandedOut | resourse/yaml-cpp-0.8.0/src/scanner.cpp:24-80 | after the last token, what was handed out are all tokens of the text that are not INVALID |
| Scanning.Scanner.ScanNextToken | resourse/yaml-cpp-0.8.0/src/scanner.cpp:82-174 | what it does is a function of text and state: skip the gap, leave the blocks that end there, and take the action the characters call for, throw, or end the stream |
| Scanning.Scanner.ScanToken | resourse/yaml-cpp-0.8.0/src/scanner.cpp:106-173 | exactly the action that the first characters choose is taken, with the token read from the text, and the input stands behind it; it throws exactly if there is no proper token or the action does |
| Scanning.Scanner.ScanNode | resourse/yaml-cpp-0.8.0/src/scanner.cpp:133-173 | the same behind the markers and flow indicators |
| Scanning.Scanner.ScanContent | resourse/yaml-cpp-0.8.0/src/scanner.cpp:146-173 | the same behind the indicators of entries, keys and values |
| Scanning.Scanner.ScanText | resourse/yaml-cpp-0.8.0/src/scanner.cpp:156-173 | the same for scalars |
| Scanning.Scanner.Outdent | resourse/yaml-cpp-0.8.0/src/scanner.cpp:94-95 | leaving blocks before a token, as an action of a run |
| Scanning.Scanner.Dequeue | resourse/yaml-cpp-0.8.0/src/scanner.cpp:29-33 | only a decided token leaves the queue, or any after the end |
| Scanning.Scanner.ScanToNextToken | resourse/yaml-cpp-0.8.0/src/scanner.cpp:176-211 | skips blanks, comments and breaks as specified and stops at neither blank nor break; tabs and breaks are actions of a run |
| Scanning.Scanner.EatBlanks | resourse/yaml-cpp-0.8.0/src/scanner.cpp:178-184 | after a tab in block context no key may start |
| Scanning.EatComment | resourse/yaml-cpp-0.8.0/src/scanner.cpp:186-192 | a comment ends at the break or the end, and nothing else is skipped |
| Scanning.Scanner.StartStream | resourse/yaml-cpp-0.8.0/src/scanner.cpp:245-252 | the stream's start, as the first action of a run |
| Scanning.Scanner.EndStream | resourse/yaml-cpp-0.8.0/src/scanner.cpp:254-265 | the stream's end, as an action; the column is reset |
| Scanning.Scanner.PushIndentTo | resourse/yaml-cpp-0.8.0/src/scanner.cpp:286-314 | no indent in a flow or when it does not lie deeper; otherwise a start token and a marker that belong together |
| Scanning.Scanner.PopIndentToHere | resourse/yaml-cpp-0.8.0/src/scanner.cpp:316-341 | both loops leave the indents the transition leaves |
| Scanning.Scanner.PopAllIndents | resourse/yaml-cpp-0.8.0/src/scanner.cpp:343-358 | nothing in a flow; otherwise everything down to the NONE marker |
| Scanning.Scanner.PopIndent | resourse/yaml-cpp-0.8.0/src/scanner.cpp:360-374 | one indent less, with its end token or its key invalidated |
| Scanning.Scanner.InsertPotentialSimpleKey | resourse/yaml-cpp-0.8.0/src/simplekey.cpp:58-80 | an undecided key and, in block context, an undecided map start, remembered together |
| Scanning.Scanner.SetStatus | resourse/yaml-cpp-0.8.0/src/simplekey.cpp:14-33 | the key, its map start and its indent change status together |
| Scanning.Scanner.PushMapStart | resourse/yaml-cpp-0.8.0/src/simplekey.cpp:64-72 | the map start and its indent are both undecided |
| Scanning.Scanner.PopAllSimpleKeys | resourse/yaml-cpp-0.8.0/src/simplekey.cpp:128-131 | the keys are forgotten and no token changes |
| Scanning.Scanner.CloseFlowEntry | resourse/yaml-cpp-0.8.0/src/scantoken.cpp:135-141 | a solo key of a flow map gets its value token, a pending key of a flow sequence is refused |
| Scanning.Scanner.InvalidateSimpleKey | resourse/yaml-cpp-0.8.0/src/simplekey.cpp:84-95 | only the key at the current flow level is refused |
| Scanning.Scanner.VerifySimpleKey | resourse/yaml-cpp-0.8.0/src/simplekey.cpp:100-126 | the key is valid on its own line within 1024 characters; either way it is decided and gone |
| Scanning.Scanner.ScanDirective | resourse/yaml-cpp-0.8.0/src/scantoken.cpp:20-58 | leaves all indents and forgets all keys; the token holds the word behind the indicator and the parameters |
| Scanning.Scanner.ScanDocStart | resourse/yaml-cpp-0.8.0/src/scantoken.cpp:61-72 | reads on; leaves all indents and forgets all keys before the token |
| Scanning.Scanner.ScanDocEnd | resourse/yaml-cpp-0.8.0/src/scantoken.cpp:74-84 | reads on; leaves all indents and forgets all keys before the token |
| Scanning.Scanner.ScanFlowStart | resourse/yaml-cpp-0.8.0/src/scantoken.cpp:87-101 | a potential key first, then one flow more |
| Scanning.Scanner.ScanFlowEnd | resourse/yaml-cpp-0.8.0/src/scantoken.cpp:104-131 | throws without a flow or on the wrong bracket; otherwise the pending entry is closed and the flow left |
| Scanning.Scanner.ScanFlowEntry | resourse/yaml-cpp-0.8.0/src/scantoken.cpp:134-150 | closes the pending entry of a flow; outside one it only re-allows keys |
| Scanning.Scanner.ScanBlockEntry | resourse/yaml-cpp-0.8.0/src/scantoken.cpp:153-170 | throws in a flow or where no key may start; otherwise a sequence indent and the entry |
| Scanning.Scanner.ScanKey | resourse/yaml-cpp-0.8.0/src/scantoken.cpp:173-189 | throws where no key may start; otherwise a map indent and the key |
| Scanning.Scanner.ScanValue | resourse/yaml-cpp-0.8.0/src/scantoken.cpp:192-218 | decides the simple key, or handles a value without one, or throws |
| Scanning.Scanner.ScanAnchorOrAlias | resourse/yaml-cpp-0.8.0/src/scantoken.cpp:221-253 | throws exactly on an empty or badly ended name; otherwise a potential key and the token with that name |
| Scanning.Scanner.ScanTag | resourse/yaml-cpp-0.8.0/src/scantoken.cpp:256-292 | throws exactly on a bad tag; otherwise a potential key and the token with the kind of tag, its text and its suffix |
| Scanning.Scanner.ScanPlainScalar | resourse/yaml-cpp-0.8.0/src/scantoken.cpp:295-328 | throws exactly if the scalar of the text does; otherwise a potential key and a token with its value, and keys allowed exactly after leading spaces |
| Scanning.Scanner.ScanQuotedScalar | resourse/yaml-cpp-0.8.0/src/scantoken.cpp:331-368 | throws exactly if the scalar of the text does; otherwise a potential key and a token with its value |
| Scanning.Scanner.ScanBlockScalar | resourse/yaml-cpp-0.8.0/src/scantoken.cpp:375-436 | throws exactly on a bad header or scalar; otherwise a token with the value, and no simple key |
| Scanning.ReadDirective | resourse/yaml-cpp-0.8.0/src/scantoken.cpp:33-55 | the token with the word behind the indicator and the words behind it, up to a comment or the end of the line |
| Scanning.ReadWord | resourse/yaml-cpp-0.8.0/src/scantoken.cpp:36-38 | the characters up to the next blank or break |
| Scanning.ReadAnchor | resourse/yaml-cpp-0.8.0/src/scantoken.cpp:234-246 | the longest run of anchor characters; good if there are some and what follows may end a name |
| Scanning.ReadTag | resourse/yaml-cpp-0.8.0/src/scantoken.cpp:267-289 | verbatim tag, handle, or handle and suffix: the token with kind, text and suffix, exactly as specified |
| Scanning.ScanVerbatimTag | resourse/yaml-cpp-0.8.0/src/scantag.cpp:9-30 | the text up to the closing bracket, if only characters of a URI come before it |
| Scanning.ScanTagHandle | resourse/yaml-cpp-0.8.0/src/scantag.cpp:32-63 | the text of a handle or suffix; an exclamation mark behind anything but word characters throws |
| Scanning.ScanTagSuffix | resourse/yaml-cpp-0.8.0/src/scantag.cpp:65-80 | the longest run of tag characters, which must not be empty |
| Scanning.ReadBlockHeader | resourse/yaml-cpp-0.8.0/src/scantoken.cpp:382-417 | fold, chomping and indentation from the indicators, and where the line ends; throws exactly on a zero indent or a stray character |
| Scanning.ReadQuoted | resourse/yaml-cpp-0.8.0/src/scantoken.cpp:331-368 | the scalar behind an opening quote, whatever its lines |
| Scanning.Scanner.HandedOutNests | resourse/yaml-cpp-0.8.0/src/scanner.cpp:29-80 | unless a block start was forgotten the tokens handed out nest; after the last one none is open if and only if none was forgotten and the text did not end in a flow inside a block |
| ScannerBranches.PlainDoesNotStop | resourse/yaml-cpp-0.8.0/src/scanner.cpp:142-170 | where the scanner chooses a plain scalar, the scalar does not end at its first character |
| Scanning.QuotedLine | resourse/yaml-cpp-0.8.0/src/scantoken.cpp:331-368 | a quoted scalar that closes on its line has the value its characters and escapes say |
| ScalarScanning.ScanScalar | resourse/yaml-cpp-0.8.0/src/scanscalar.cpp:21-250 | ends, and reads exactly the scalar `ReadScalar` specifies, for all parameters: value, leading spaces and place, or a throw |
| ScalarScanning.AddNext | resourse/yaml-cpp-0.8.0/src/scanscalar.cpp:69-82 | one escape sequence or character; the rest of the line is what it was to be |
| ScalarScanning.FoldLine | resourse/yaml-cpp-0.8.0/src/scanscalar.cpp:108-196 | the line ending and the spaces behind it, and what they become, exactly as specified; a tab in the indentation throws |
| ScalarLines.FoldIsNoReturn | resourse/yaml-cpp-0.8.0/src/scanscalar.cpp:150-196 | folding breaks adds no carriage return |
| ScalarScanning.ScanLine | resourse/yaml-cpp-0.8.0/src/scanscalar.cpp:39-83 | one line of a scalar, to its end, a break or an escaped break, exactly as specified |
| ScalarReading.LastNotOf | resourse/yaml-cpp-0.8.0/src/scanscalar.cpp:205-250 | the last character outside a set, -1 if there is none |
| ScalarScanning.ScanInitialSpaces | resourse/yaml-cpp-0.8.0/src/scanscalar.cpp:115-146 | the indentation and the blanks behind it, and the indentation found, exactly as specified |
| ScalarScanning.ScanLines | resourse/yaml-cpp-0.8.0/src/scanscalar.cpp:35-203 | line after line until the scalar ends, exactly as specified |
| ScalarLines.ScalarMoves | resourse/yaml-cpp-0.8.0/src/scanscalar.cpp:35-83 | where a scalar does not end at once, a character of it is read |
| ScalarLines.SingleHasNoReturn | resourse/yaml-cpp-0.8.0/src/scanscalar.cpp:21-250 | between single quotes no carriage return reaches the scalar, however many lines it has |
| ScalarLines.QuotedOnOneLine | resourse/yaml-cpp-0.8.0/src/scanscalar.cpp:21-250 | a quoted scalar that closes on its line is read as its characters and escapes say |
| PlainFolding.PlainScalarReads | resourse/yaml-cpp-0.8.0/src/scanscalar.cpp:21-250 | with the parameters the scanner passes, a plain scalar on any lines is the lines without blanks around them, a space for a single break and k line feeds for k empty lines, up to where its characters say it ends |
| PlainFolding.LinesRead | resourse/yaml-cpp-0.8.0/src/scanscalar.cpp:35-203 | the same from any line on |
| PlainFolding.PlainLineReads | resourse/yaml-cpp-0.8.0/src/scanscalar.cpp:205-216 | one that ends on its line is its text without trailing blanks |
| FlowFolding.FoldedScalar | resourse/yaml-cpp-0.8.0/src/scanscalar.cpp:101-196 | any layout of a quoted scalar, escapes and escaped breaks included, is read as its lines: a space for a single break, nothing for an escaped one, k line feeds for k empty lines; if and only if it does not end in more than one line feed behind its last escape |
| FlowFolding.LinesRead | resourse/yaml-cpp-0.8.0/src/scanscalar.cpp:35-203 | the same from any line on, whatever was read before |
| FlowFolding.EmptyRun | resourse/yaml-cpp-0.8.0/src/scanscalar.cpp:150-196 | a break and k empty lines, with any blanks on them, become a space, nothing behind an escaped break, or k line feeds |
| FlowFolding.WholeIs | resourse/yaml-cpp-0.8.0/src/scanscalar.cpp:66-80 | what is read of all lines is their meaning, and the last escape is where the last one stands |
| FlowFolding.EscapeAhead | resourse/yaml-cpp-0.8.0/src/exp.cpp:38-135 | an escape sequence means the same wherever it stands |
| LiteralScalars.LiteralScalar | resourse/yaml-cpp-0.8.0/src/scantoken.cpp:375-436 | a literal block scalar is its lines without their indentation, each with a line feed, chomped as asked; it ends in front of the first line that is less indented |
| FoldedScalars.FoldedScalar | resourse/yaml-cpp-0.8.0/src/scantoken.cpp:375-436 | a folded block scalar: lines joined by a space, empty lines and lines indented more kept apart, chomped as asked |
| FoldedScalars.LinesRead | resourse/yaml-cpp-0.8.0/src/scanscalar.cpp:150-196 | the same from any line on, whatever was read before |
| FoldedScalars.BreakAdds | resourse/yaml-cpp-0.8.0/src/scanscalar.cpp:150-196 | what the break in front of a line adds, by the lines around it |
| FoldedScalars.EndIsWhole | resourse/yaml-cpp-0.8.0/src/scanscalar.cpp:150-196 | all breaks at the end are there to be kept if and only if no empty line follows the last one or that is indented more |
| LiteralScalars.LinesRead | resourse/yaml-cpp-0.8.0/src/scanscalar.cpp:30-205 | the same from any line on, while the indentation is looked for or known |
| LiteralScalars.ChompedIs | resourse/yaml-cpp-0.8.0/src/scanscalar.cpp:218-247 | stripped, clipped or kept: none, one or all of the line feeds at the end |
| Streaming.Stream.Get | resourse/yaml-cpp-0.8.0/src/stream.cpp:260-299 | one character on; line and column follow the line feeds |
| Utf8.DecodeBounds | resourse/yaml-cpp-0.8.0/src/emitterutils.cpp:90-132 | decoding any bytes advances, stays inside, and yields no surrogate and no noncharacter |
| Utf8.GetNextCodePointAndAdvance | resourse/yaml-cpp-0.8.0/src/emitterutils.cpp:90-132 | the loop over trailing bytes decodes as specified and advances on every byte string |
| Utf8.DecodeEncoded | resourse/yaml-cpp-0.8.0/src/emitterutils.cpp:134-153 | decoding undoes encoding for every scalar value that is a character |
| Utf8.EncodedIsWellFormed | resourse/yaml-cpp-0.8.0/src/emitterutils.cpp:134-153 | what is written for a scalar value is well-formed by the table of RFC 3629 |
| Utf8.WellFormedIsEncoded | resourse/yaml-cpp-0.8.0/src/emitterutils.cpp:64-153 | a sequence well-formed by that table is what is written for its code point |
| Utf8.WellFormedRecodes | resourse/yaml-cpp-0.8.0/src/emitterutils.cpp:64-153 | well-formed text without noncharacters is recoded to itself |
| Utf8.RecodeNormalizes | resourse/yaml-cpp-0.8.0/src/emitterutils.cpp:64-153 | recoding any bytes gives well-formed UTF-8 and is idempotent |
| Escaping.ParseHex | resourse/yaml-cpp-0.8.0/src/exp.cpp:13-30 | the number the digits stand for, modulo 2 to the 32, or a throw; the number itself for up to eight digits |
| Escaping.Escape | resourse/yaml-cpp-0.8.0/src/exp.cpp:38-135 | the sequence at the stream's position, or a throw; it always reads on |
| Escaping.HexEscape | resourse/yaml-cpp-0.8.0/src/exp.cpp:38-67 | the UTF-8 of the number the digits stand for, or a throw for a surrogate or one too large |
| Escaping.LetterReads | resourse/yaml-cpp-0.8.0/src/exp.cpp:74-135 | behind a backslash each letter stands for the UTF-8 of its code point, but for N and _, which give one byte; x, u and U begin a number, and nothing else is an escape |
| Escaping.HexFits | resourse/yaml-cpp-0.8.0/src/exp.cpp:13-30 | n digits stay below 16 to the n |
| Escaping.HexDigitsReadBack | resourse/yaml-cpp-0.8.0/src/emitterutils.cpp:230-254 | digits written for a number that fits read as that number |
| Escaping.WriteEscapeSequence | resourse/yaml-cpp-0.8.0/src/emitterutils.cpp:221-254 | the shifting loop writes the digits from the top, in the length the style calls for, or the pair of a JSON escape |
| QuotedScalars.WriteDoubleQuotedString | resourse/yaml-cpp-0.8.0/src/emitterutils.cpp:319-364 | every code point of the string, escaped as the style demands, between quotes |
| QuotedScalars.WriteDoubleQuotedChar | resourse/yaml-cpp-0.8.0/src/emitterutils.cpp:325-360 | one code point, by the case it falls in |
| QuotedScalars.WriteSingleQuotedString | resourse/yaml-cpp-0.8.0/src/emitterutils.cpp:299-317 | fails exactly on a line feed; otherwise every code point, quotes doubled |
| QuotedScalars.EscapeSequenceReads | resourse/yaml-cpp-0.8.0/src/exp.cpp:38-135 | a written escape sequence reads as the UTF-8 of its code point, in all three styles, unless it is a pair of JSON escapes, which throws |
| QuotedScalars.DoubleQuotedCharReads | resourse/yaml-cpp-0.8.0/src/exp.cpp:74-135 | one double-quoted code point, escaped or raw, reads as its UTF-8 |
| QuotedScalars.QuotedReadsBack | resourse/yaml-cpp-0.8.0/src/scanscalar.cpp:35-108 | what a writer put between the quotes reads as the UTF-8 of the code points, and ends at the closing quote |
| QuotedRoundTrip.WrittenReads | resourse/yaml-cpp-0.8.0/src/scanscalar.cpp:21-250 | wherever a written scalar stands in a text, it reads as the recoded string: for well-formed text without noncharacters, itself |
| QuotedRoundTrip.WriteAndScan | resourse/yaml-cpp-0.8.0/src/emitterutils.cpp:299-364 | on a decoded stream, writing and then scanning with the real loops gives the recoded string back, for any bytes and any style |
| QuotedRoundTrip.WriteAndScanSingle | resourse/yaml-cpp-0.8.0/src/emitterutils.cpp:299-317 | on a decoded stream, for strings without U+0004: refused exactly with a line feed, and then read back if and only if there is no carriage return |
| QuotedRoundTrip.WriteDecodeAndScan | resourse/yaml-cpp-0.8.0/src/stream.cpp:185-241 | as the first thing of an input, through detection, decoding and scanning: the text arrives if and only if it is not a string in single quotes that begins with U+0000, and is then read back |
| QuotedRoundTrip.QuotedIsDetected | resourse/yaml-cpp-0.8.0/src/stream.cpp:185-241 | the encoding found for a quoted scalar is right under the same condition |
| Transcoding.DetectCharset | resourse/yaml-cpp-0.8.0/src/stream.cpp:185-241 | the table-driven loop, with what it puts back, finds what the first four bytes say |
| Transcoding.MarkIsDetected | resourse/yaml-cpp-0.8.0/src/stream.cpp:71-241 | a byte order mark is detected if and only if the text is not UTF-16LE beginning with U+0000 |
| Transcoding.QueuedIsEncoded | resourse/yaml-cpp-0.8.0/src/stream.cpp:152-183 | a queued code point is its UTF-8 |
| Transcoding.Decoder.constructor | resourse/yaml-cpp-0.8.0/src/stream.cpp:185-241 | what is left to decode is the input behind the mark |
| Transcoding.Decoder.GetNextByte | resourse/yaml-cpp-0.8.0/src/stream.cpp:406-422 | the next byte of the input, wherever the 2048-byte pieces end |
| Transcoding.Decoder.GetPair | resourse/yaml-cpp-0.8.0/src/stream.cpp:347-411 | two bytes, if the input holds them, and nothing is lost |
| Transcoding.Decoder.Fetch | resourse/yaml-cpp-0.8.0/src/stream.cpp:406-422 | refilling the buffer loses and repeats nothing |
| Transcoding.Decoder.GetUnit | resourse/yaml-cpp-0.8.0/src/stream.cpp:341-347 | two bytes as one unit, in either order |
| Transcoding.Decoder.StreamInUtf8 | resourse/yaml-cpp-0.8.0/src/stream.cpp:329-334 | one byte moves to the read-ahead queue; the whole stays the same |
| Transcoding.Decoder.StreamInUtf16 | resourse/yaml-cpp-0.8.0/src/stream.cpp:336-400 | one character or a replacement moves; read ahead plus what is still to come stays the same |
| Transcoding.Decoder.ReadTrailingSurrogate | resourse/yaml-cpp-0.8.0/src/stream.cpp:355-397 | a pair gives its code point; an unpaired surrogate is replaced as the code does it |
| Transcoding.Decoder.StreamInUtf32 | resourse/yaml-cpp-0.8.0/src/stream.cpp:424-445 | one word moves; the whole stays the same |
| Transcoding.Decoder.ReadAhead | resourse/yaml-cpp-0.8.0/src/stream.cpp:301-327 | reading to the end gives the transcoding of everything left, and ends |
| Transcoding.TextReads | resourse/yaml-cpp-0.8.0/src/stream.cpp:329-445 | any text without U+0004 in any of the five encodings is transcoded to its UTF-8 |
| Transcoding.ReadText | resourse/yaml-cpp-0.8.0/src/stream.cpp:185-445 | the same text behind a mark in any encoding gives the same characters, if and only if it is not UTF-16LE beginning with U+0000 |
| Transcoding.Decode | resourse/yaml-cpp-0.8.0/src/stream.cpp:185-445 | a whole input becomes what its encoding says, behind its mark |
| Transcoding.MistakenText | resourse/yaml-cpp-0.8.0/src/stream.cpp:185-241 | UTF-16LE that begins with U+0000 is taken for UTF-32LE and never read as the same text |
| Transcoding.UnmarkedIsDetected | resourse/yaml-cpp-0.8.0/src/stream.cpp:185-241 | the encoding of a text that begins with an ASCII character and has no mark is found if and only if it is not UTF-8 or UTF-16LE with U+0000 as its second character |
| Transcoding.ReadUnmarked | resourse/yaml-cpp-0.8.0/src/stream.cpp:185-445 | and then the text is read as it was written |
| Transcoding.MistakenUnmarked | resourse/yaml-cpp-0.8.0/src/stream.cpp:185-241 | UTF-16LE with U+0000 second is taken for UTF-32LE and read as another text |
| Transcoding.AsciiIsDetected | resourse/yaml-cpp-0.8.0/src/stream.cpp:185-241 | UTF-8 that begins with an ASCII character and has no mark is read as it stands if and only if no U+0000 comes second |
| Base64.EncodeBase64 | resourse/yaml-cpp-0.8.0/src/binary.cpp:9-45 | writes the specified text and stays inside its buffer |
| Base64.WriteQuad | resourse/yaml-cpp-0.8.0/src/binary.cpp:20-23 | four stores through the output position, inside the buffer |
| Base64.WriteGroup | resourse/yaml-cpp-0.8.0/src/binary.cpp:88-92 | up to three stores, as the pads say, inside the buffer |
| Base64.EncodedLength | resourse/yaml-cpp-0.8.0/src/binary.cpp:9-45 | four characters for every three bytes begun |
| Base64.DecodeBase64 | resourse/yaml-cpp-0.8.0/src/binary.cpp:68-99 | decodes as specified, nothing on a bad character, and no write leaves the buffer on any input |
| Base64.DecodeFits | resourse/yaml-cpp-0.8.0/src/binary.cpp:68-99 | never more than three bytes for four characters read |
| Base64.LowBits | resourse/yaml-cpp-0.8.0/src/binary.cpp:78-93 | the 32-bit accumulator is never cleared, and its low 24 bits are still the last four digits |
| Base64.DecodedEncoded | resourse/yaml-cpp-0.8.0/src/binary.cpp:9-99 | decoding undoes encoding for every byte string |
| Base64.BadExactly | resourse/yaml-cpp-0.8.0/src/binary.cpp:80-86 | the decoder gives up if and only if some character is neither white space nor one of its letters |
| Base64.WhiteSpaceIsIgnored | resourse/yaml-cpp-0.8.0/src/binary.cpp:68-99 | a text decodes like itself without white space if and only if it has a bad character or no white space splits a pair of pads |
| Emitting.Emitter.StartedNode | resourse/yaml-cpp-0.8.0/src/emitterstate.cpp:82-96 | one child more in the innermost group, or in the document; anchors, tags and long keys are used up |
| Emitting.Emitter.StartedScalar | resourse/yaml-cpp-0.8.0/src/emitterstate.cpp:127-130 | one node more and the restored settings; nothing written |
| Emitting.Emitter.SetLongKey | resourse/yaml-cpp-0.8.0/src/emitterstate.cpp:63-71 | marks the key of the innermost map and changes no other group |
| Emitting.SetAndRestored | resourse/yaml-cpp-0.8.0/src/emitterstate.cpp:42-53 | what a manipulator sets once is undone by the changes it records |
| Emitting.SetTwice | resourse/yaml-cpp-0.8.0/src/setting.h:85-88 | a flow format set twice in one scope stays at the first change, since changes are undone in the order they were made |
| Emitting.Emitter.Restore | resourse/yaml-cpp-0.8.0/src/setting.h:85-88 | each change brings back what it recorded, in order |
| Emitting.Emitter.SetLocal | resourse/yaml-cpp-0.8.0/src/emitterstate.cpp:42-53 | a manipulator for the next node: the setting, and the change that undoes it |
| Emitting.Emitter.SetGlobal | resourse/yaml-cpp-0.8.0/src/emitterstate.cpp:354-364 | a setting for the whole emitter, remembered apart |
| Emitting.Emitter.RestoreGlobalModifiedSettings | resourse/yaml-cpp-0.8.0/src/emitterstate.cpp:236-238 | the global settings as they were made |
| Emitting.Emitter.LeaveGroup | resourse/yaml-cpp-0.8.0/src/emitterstate.cpp:159-195 | the settings of the group that ends are undone |
| Emitting.Emitter.StartedGroup | resourse/yaml-cpp-0.8.0/src/emitterstate.cpp:132-157 | the new group is flow if and only if the group around it is, or the setting for its kind says so; it keeps the changes made for it |
| Emitting.Emitter.EndedGroup | resourse/yaml-cpp-0.8.0/src/emitterstate.cpp:159-196 | good afterwards exactly if a group of this kind was open and no property is left over |
| Emitting.Emitter.LastIndent | resourse/yaml-cpp-0.8.0/src/emitterstate.cpp:226-232 | the sum of the indents of all groups but the two innermost: the subtraction never goes below zero |
| Emitting.Emitter.ForceFlow | resourse/yaml-cpp-0.8.0/src/emitterstate.cpp:73-80 | turns the innermost group, and keeps every flow group's inner groups flow |
| Emitting.Emitter.PrepareNode | resourse/yaml-cpp-0.8.0/src/emitter.cpp:278-300 | in a good run no unreachable case is reached, and the punctuation written is the one the next node needs; an error exactly where a second document would begin behind a property |
| Emitting.Emitter.PrepareTopNode | resourse/yaml-cpp-0.8.0/src/emitter.cpp:302-326 | in the document no bracket is open, and none is written |
| Emitting.Emitter.BeginDoc | resourse/yaml-cpp-0.8.0/src/emitter.cpp:153-173 | an error inside a group or behind a property |
| Emitting.Emitter.EndDoc | resourse/yaml-cpp-0.8.0/src/emitter.cpp:175-192 | an error inside a group or behind a property, and nothing else changes |
| Emitting.Emitter.FlowSeqPrepareNode | resourse/yaml-cpp-0.8.0/src/emitter.cpp:328-357 | bracket for the first entry, comma for the others, nothing if the node has begun; a block child never comes here |
| Emitting.Emitter.BlockSeqPrepareNode | resourse/yaml-cpp-0.8.0/src/emitter.cpp:359-391 | a dash exactly in front of a node without properties; no bracket is open |
| Emitting.Emitter.FlowMapPrepareNode | resourse/yaml-cpp-0.8.0/src/emitter.cpp:393-408 | chooses key or value and long or simple so that brackets, commas and colons fit |
| Emitting.Emitter.FlowMapPrepareLongKey | resourse/yaml-cpp-0.8.0/src/emitter.cpp:410-439 | bracket or comma and then a question mark, unless the node has begun |
| Emitting.Emitter.FlowMapPrepareSimpleKey | resourse/yaml-cpp-0.8.0/src/emitter.cpp:469-498 | bracket or comma |
| Emitting.Emitter.FlowMapPrepareValue | resourse/yaml-cpp-0.8.0/src/emitter.cpp:441-529 | a colon |
| Emitting.Emitter.BlockMapPrepareNode | resourse/yaml-cpp-0.8.0/src/emitter.cpp:531-550 | no bracket is open and none is written; block keys become long ones |
| Emitting.Emitter.BlockMapPrepareKey | resourse/yaml-cpp-0.8.0/src/emitter.cpp:552-643 | a question mark exactly for a long key without properties |
| Emitting.Emitter.BlockMapPrepareValue | resourse/yaml-cpp-0.8.0/src/emitter.cpp:587-672 | a colon exactly for a value that has not begun |
| Emitting.Emitter.BeginGroup | resourse/yaml-cpp-0.8.0/src/emitter.cpp:195-238 | good afterwards exactly if no second document begins behind a property; one node more in the group around, and one empty group that is flow if and only if the group around it is flow or the field for its kind is set |
| Emitting.Emitter.EndGroup | resourse/yaml-cpp-0.8.0/src/emitter.cpp:205-262 | one group less; good afterwards exactly if a group of this kind was open and no property is left over; the collections that are flow or empty have exactly one pair of brackets each; an assertion fails exactly if nothing was begun and nothing written |
| Emitting.Emitter.CloseGroup | resourse/yaml-cpp-0.8.0/src/emitter.cpp:205-262 | the brackets of the innermost group are complete, those around it untouched |
| Emitting.Emitter.EndWrong | resourse/yaml-cpp-0.8.0/src/emitter.cpp:205-262 | ending a group of the other kind, or none, is an error; with no group and no node yet an assertion fails first |
| Emitting.Emitter.WriteScalar | resourse/yaml-cpp-0.8.0/src/emitter.cpp:718-740 | good afterwards exactly if no second document begins behind a property; one node more in the innermost group, the groups around untouched |
| Emitting.Emitter.WriteAlias | resourse/yaml-cpp-0.8.0/src/emitter.cpp:856-877 | good afterwards exactly if no property was pending and the name could be written; one node more |
| Emitting.Emitter.WriteAnchor | resourse/yaml-cpp-0.8.0/src/emitter.cpp:879-898 | good afterwards exactly if this is the first anchor, it could be written, and no second document begins behind a tag; nothing but the anchor is new |
| Emitting.Emitter.WriteTag | resourse/yaml-cpp-0.8.0/src/emitter.cpp:900-927 | good afterwards exactly if this is the first tag, it could be written, and no second document begins behind an anchor; nothing but the tag is new |
| Emitting.Emitter.WriteNonContent | resourse/yaml-cpp-0.8.0/src/emitter.cpp:931-945 | never an error; the next node has begun, with the properties it had |
| EmitterRuns.MakeGroup | resourse/yaml-cpp-0.8.0/src/emitter.cpp:195-238 | beginning a group, as a step of a run: settings, groups and marks |
| EmitterRuns.MakeEnd | resourse/yaml-cpp-0.8.0/src/emitter.cpp:205-262 | ending a group, as a step of a run |
| EmitterRuns.MakeNode | resourse/yaml-cpp-0.8.0/src/emitter.cpp:718-877 | a scalar or an alias, as a step of a run |
| EmittedMarks.TreeWritten | resourse/yaml-cpp-0.8.0/src/emitter.cpp:195-672 | for any tree of collections, from any place and with any settings, exactly its marks are written, and behind it the settings are as before |
| EmittedMarks.ScalarsAlone | resourse/yaml-cpp-0.8.0/src/emitter.cpp:328-391 | n scalars in a flow sequence are one pair of brackets with n - 1 commas, in a block sequence n dashes and no bracket |
| EmittedMarks.StyleIsUndone | resourse/yaml-cpp-0.8.0/src/emitfromevents.cpp:52-64 | a style asked for one collection is in force in it and what it holds, and not behind it |
| Emitting.Emitter.SeparatorsAreWritten | resourse/yaml-cpp-0.8.0/src/emitter.cpp:328-529 | inside a flow collection there is one comma fewer than entries, and in a map one colon for every value |
| Emitting.Emitter.BracketsArePaired | resourse/yaml-cpp-0.8.0/src/emitter.cpp:195-262 | after a good run every bracket is matched, one pair for every flow or empty collection |
| EmitterRuns.Make | resourse/yaml-cpp-0.8.0/src/emitter.cpp:97-137 | whether a call is taken, and what it leaves open, is a function of the kinds of the open groups, the nodes of the document and the pending properties |
| EmitterRuns.Run | resourse/yaml-cpp-0.8.0/src/emitter.cpp:97-137 | any run of calls: good exactly if every call is taken, and then all brackets match once every group has ended |
| EventEmitting.EmitFromEvents.OnNull | resourse/yaml-cpp-0.8.0/src/emitfromevents.cpp:29-33 | the properties and a null: the emitter and the stack go where `EventAfter` and `StackAfter` say |
| EventEmitting.EmitFromEvents.OnAlias | resourse/yaml-cpp-0.8.0/src/emitfromevents.cpp:35-38 | an alias, and the map around it turns from key to value or back |
| EventEmitting.EmitFromEvents.OnScalar | resourse/yaml-cpp-0.8.0/src/emitfromevents.cpp:40-45 | the properties and a scalar, as a long key if need be |
| EventEmitting.EmitFromEvents.OnSequenceStart | resourse/yaml-cpp-0.8.0/src/emitfromevents.cpp:47-66 | the properties and the beginning of a sequence, inside which entries are waited for |
| EventEmitting.EmitFromEvents.SetStyle | resourse/yaml-cpp-0.8.0/src/emitfromevents.cpp:52-61 | flow or block for the next collection, or what is in force |
| EventEmitting.EmitFromEvents.BeginCollection | resourse/yaml-cpp-0.8.0/src/emitfromevents.cpp:47-66 | the properties, the style, the global settings restored, and the beginning |
| EventEmitting.EmitFromEvents.OnSequenceEnd | resourse/yaml-cpp-0.8.0/src/emitfromevents.cpp:68-72 | the end of a sequence; the assertions of handler and emitter hold |
| EventEmitting.EmitFromEvents.OnMapStart | resourse/yaml-cpp-0.8.0/src/emitfromevents.cpp:74-92 | the properties and the beginning of a map, inside which a key is waited for |
| EventEmitting.EmitFromEvents.OnMapEnd | resourse/yaml-cpp-0.8.0/src/emitfromevents.cpp:94-98 | the end of a map, which waits for a key; the assertions of handler and emitter hold |
| EventEmitting.EmitFromEvents.BeginNode | resourse/yaml-cpp-0.8.0/src/emitfromevents.cpp:100-116 | in a map keys and values take turns |
| EventEmitting.EmitFromEvents.EmitProps | resourse/yaml-cpp-0.8.0/src/emitfromevents.cpp:118-123 | a tag other than the non-specific ones, and then the anchor |
| EventEmitting.EmitFromEvents.ReceiveAll | resourse/yaml-cpp-0.8.0/src/emitfromevents.cpp:29-123 | a run of handler calls is the fold of both |
| EventEmitting.TreeIsEmitted | resourse/yaml-cpp-0.8.0/src/emitfromevents.cpp:29-123 | the events of any tree leave the groups as they were and one node more, if and only if its tags can be written and its properties fit where it stands |
| EventEmitting.TreeOnStack | resourse/yaml-cpp-0.8.0/src/emitfromevents.cpp:68-116 | the events of any tree with whole pairs fail no assertion of the handler |
| EventEmitting.WriteVerbatimTag | resourse/yaml-cpp-0.8.0/src/emitterutils.cpp:438-457 | writes the tag between its brackets, if and only if it holds characters of a URI alone |
| EventEmitting.VerbatimTagReads | resourse/yaml-cpp-0.8.0/src/emitterutils.cpp:438-457 | the scanner finds the end of a tag that was written |
| Dumping.StylesAlone | resourse/yaml-cpp-0.8.0/src/emitterstate.cpp:366-373 | with the formats of a new emitter a collection is flow if and only if it or one around it has the flow style |
| Dumping.GraphTags | resourse/yaml-cpp-0.8.0/src/nodeevents.cpp:54-92 | the events of a graph hold the tags of exactly its reachable nodes |
| Dumping.EmitNode | resourse/yaml-cpp-0.8.0/src/emit.cpp:7-12 | a graph is taken by an emitter in any state if and only if every reachable node's tag can be written and the root's properties fit; the groups are as before, and the marks of its tree are written |
| Dumping.SecondRootIsRefused | resourse/yaml-cpp-0.8.0/src/emitter.cpp:302-307 | a tagged scalar behind another document is an error, in the first document it is not |
| Dumping.Dump | resourse/yaml-cpp-0.8.0/src/emit.cpp:20-24 | any finite graph, cyclic or shared: no assertion fails, good if and only if every reachable node's tag can be written, and then the marks are exactly those of the tree the graph is reported as, with its styles, and every bracket is matched |
| AsyncResolving.StepKeeps | cpp/rtcbase/src/rtc_base/async_resolver.cc:96-204 | every step of every thread keeps the invariant on holders, lock, deletion and recursion flag |
| AsyncResolving.EveryInterleaving | cpp/rtcbase/src/rtc_base/async_resolver.cc:96-204 | nothing deleted or freed is touched; one deletion at most, only after Destroy, and done by the time the sequence is idle; State is freed exactly when nobody holds it |
| AsyncResolving.DeletionComesCloser | cpp/rtcbase/src/rtc_base/async_resolver.cc:175-204 | after Destroy each step of the owning sequence comes closer to the deletion and no other step leads away |
| AsyncResolving.DeletionIsNotStuck | cpp/rtcbase/src/rtc_base/async_resolver.cc:106-113 | the owning sequence can step, the handler has to return, or the thread that holds the lock can step |
| AsyncResolving.LockIsGivenUp | cpp/rtcbase/src/rtc_base/async_resolver.cc:127-148 | a thread gives the lock up after at most two steps of its own |
| AsyncResolving.DestroyCompletes | cpp/rtcbase/src/rtc_base/async_resolver.cc:106-204 | from every state after Destroy the resolver can be deleted exactly once within a bounded number of steps |
| AsyncResolving.OnlyALiveTaskSignals | cpp/rtcbase/src/rtc_base/async_resolver.cc:133-147 | exactly the step of a task that found the resolver live signals, once, with its own result, which is the resolver's from then on |
| AsyncResolving.LogMoves | cpp/rtcbase/src/rtc_base/async_resolver.cc:122-151 | results signalled, in flight and posted form one sequence, which a worker that finds the resolver live makes longer by its own |
| AsyncResolving.StepDelivers | cpp/rtcbase/src/rtc_base/async_resolver.cc:122-204 | every step keeps the invariant on posts and signals |
| AsyncResolving.DestroyIsLate | cpp/rtcbase/src/rtc_base/async_resolver.cc:175-182 | until Destroy no task finds the resolver dead |
| AsyncResolving.EveryResultIsDelivered | cpp/rtcbase/src/rtc_base/async_resolver.cc:122-196 | every signal is one worker's result and no worker signals twice; while Destroy was not called and all is quiet there is one for every Start, and the result kept is the last |
| AsyncResolving.LogOnlyGrows | cpp/rtcbase/src/rtc_base/async_resolver.cc:133-147 | signals come in the order the results were posted |
| AsyncResolving.GetResolvedAddress | cpp/rtcbase/src/rtc_base/async_resolver.cc:153-167 | the first address of the family asked for, if and only if there is one and the last result is no error |
| AsyncResolving.QuietComesCloser | cpp/rtcbase/src/rtc_base/async_resolver.cc:122-196 | until Destroy every step that is no call leads closer to quiet |
| AsyncResolving.UntilQuiet | cpp/rtcbase/src/rtc_base/async_resolver.cc:122-196 | and while it is not quiet there is such a step |
| AsyncResolving.ResultsArrive | cpp/rtcbase/src/rtc_base/async_resolver.cc:122-196 | from every state before Destroy those steps lead to quiet, with every result delivered |
| ScopedRefptrs.ScopedRefptr.FromRaw | cpp/rtcbase/src/api/scoped_refptr.h:78-81 | one reference more for the pointer, none for anybody else |
| ScopedRefptrs.ScopedRefptr.Copy | cpp/rtcbase/src/api/scoped_refptr.h:83-92 | one reference more; the source keeps its own |
| ScopedRefptrs.ScopedRefptr.Move | cpp/rtcbase/src/api/scoped_refptr.h:95-98 | no count changes and the source is left empty |
| ScopedRefptrs.ScopedRefptr.Destroy | cpp/rtcbase/src/api/scoped_refptr.h:100-103 | gives up one reference; the object is deleted exactly if it was the last |
| ScopedRefptrs.ScopedRefptr.Release | cpp/rtcbase/src/api/scoped_refptr.h:115-119 | the reference goes to the caller, uncounted |
| ScopedRefptrs.ScopedRefptr.Assign | cpp/rtcbase/src/api/scoped_refptr.h:121-129 | conserves every other reference, self-assignment included; the old object is deleted exactly if this was its last |
| ScopedRefptrs.ScopedRefptr.AssignFrom | cpp/rtcbase/src/api/scoped_refptr.h:131-138 | the same from another pointer |
| ScopedRefptrs.ScopedRefptr.MoveFrom | cpp/rtcbase/src/api/scoped_refptr.h:140-149 | what this held is released, what the other held comes here, no count changes otherwise |
| ScopedRefptrs.ScopedRefptr.Swap | cpp/rtcbase/src/api/scoped_refptr.h:151-157 | the two pointers change places and no count changes |
| WalkStats.StatsWalk.Walk | screen_share/static/js/adapter.js:2436-2450 | ends on cyclic statistics; the visited set stays closed under references and gains only what is reachable; succeeds if and only if every entry it gains has lists under the names ...Ids, and otherwise stops at one that has not |
| WalkStats.StatsWalk.WalkProperties | screen_share/static/js/adapter.js:2441-2449 | all references of one entry have been followed, or an entry without a list under ...Ids was met |
| WalkStats.StatsWalk.Follow | screen_share/static/js/adapter.js:2443-2447 | one reference: the entry of that id, if there is one, has been visited, or an entry without a list under ...Ids was met on the way |
| WalkStats.StatsWalk.WalkProperty | screen_share/static/js/adapter.js:2442-2448 | all references of one property have been followed, by the suffix of its name; an error if it is named ...Ids and is no list, or such an entry was met on the way |
| WalkStats.WalkFromStreams | screen_share/static/js/adapter.js:2466-2470 | every stream of one track entry has been walked from, and nothing else came in; an error only if an entry to be collected has no list under ...Ids |
| WalkStats.ClosedHoldsReachable | screen_share/static/js/adapter.js:2436-2450 | a closed set holds everything reachable from a member, if entries are filed under their ids |
| WalkStats.WalkIsExact | screen_share/static/js/adapter.js:2436-2450 | from a closed set the walk yields that set and exactly what is reachable from the base |
| WalkStats.StatsWalk.WalkFrom | screen_share/static/js/adapter.js:2436-2450 | the walk between two walks: the visited set gains exactly what is reachable from the base; it succeeds if and only if all of that, where it is new, has lists under ...Ids |
| WalkStats.TrackStats | screen_share/static/js/adapter.js:2459-2464 | the entries of the track |
| WalkStats.FilterStats | screen_share/static/js/adapter.js:2453-2473 | exactly what is reachable from a stream of the wanted direction of the track, each entry under its id; succeeds if and only if all of that has lists under ...Ids |
| ConfigFiles.ConfigFile.SetValue | signaling/src/goconfig/conf.go:87-117 | sets the value in place or appends key and section at the end; true exactly if the key is new; maps and lists agree |
| ConfigFiles.ConfigFile.DeleteKey | signaling/src/goconfig/conf.go:122-156 | removes the key from map, list and comments, order kept; false exactly if it is not there |
| ConfigFiles.ConfigFile.DeleteSection | signaling/src/goconfig/conf.go:390-421 | removes the section from all maps and the list; false exactly if it is not there |
| ConfigFiles.ConfigFile.GetKeyList | signaling/src/goconfig/conf.go:362-386 | the keys in order, without the keeper key |
| ConfigFiles.ConfigFile.SetSectionComments | signaling/src/goconfig/conf.go:454-476 | stored with a comment sign in front; an empty text deletes |
| ConfigFiles.ConfigFile.SetKeyComments | signaling/src/goconfig/conf.go:483-516 | stored with a comment sign in front; an empty text deletes |
| ConfigFiles.SetAgrees | signaling/src/goconfig/conf.go:87-117 | maps and lists stay in step: every name once, every key once |
| ConfigIO.WriteKey | signaling/src/goconfig/write.go:56-72 | an automatic key as a dash, a key with a separator between quotes it does not hold |
| ConfigIO.WriteValue | signaling/src/goconfig/write.go:73-81 | a value with a backtick between quotes |
| ConfigIO.SaveEntry | signaling/src/goconfig/write.go:48-86 | the comment and the line of one key |
| ConfigIO.SaveEntries | signaling/src/goconfig/write.go:47-88 | the keys of a section in order, without the keeper |
| ConfigIO.SaveSection | signaling/src/goconfig/write.go:32-93 | comment, header unless DEFAULT, keys and a blank line |
| ConfigIO.SaveConfigData | signaling/src/goconfig/write.go:25-100 | the nested loops write the text of the contents, section by section |
| ConfigIO.ReadInto | signaling/src/goconfig/read.go:31-175 | the line loop does to the maps what reading does to the ordered contents, and fails on the same lines |
| ConfigIO.ReadOneLine | signaling/src/goconfig/read.go:63-167 | comment, header or entry, for one line |
| ConfigIO.ReadKeyAndValue | signaling/src/goconfig/read.go:90-166 | key, quotes, value and automatic numbers, for one line |
| ConfigRoundTrip.ValueReadsBack | signaling/src/goconfig/read.go:136-158 | a trimmed value is read back if and only if it holds both a backtick and a double quote, or no backtick and does not look quoted |
| ConfigRoundTrip.KeySplits | signaling/src/goconfig/read.go:98-133 | a key that survives is split off its line again, whatever quotes it was given |
| ConfigRoundTrip.EntryReads | signaling/src/goconfig/read.go:90-166 | the line written for an entry sets that key to that value |
| ConfigRoundTrip.HeaderReads | signaling/src/goconfig/read.go:75-87 | the line written for a section opens it, with the keeper key |
| ConfigRoundTrip.SavedReadsBack | signaling/src/goconfig/read.go:31-175 | reading what was saved rebuilds ordered sections, ordered keys and values, up to the keeper key |
| ConfigRoundTrip.MarkIsLost | signaling/src/goconfig/read.go:34-40 | what is read where such a key is lost, if what is left of the configuration survives: the key without its mark |
| ConfigExact.ReadsEntryOf | signaling/src/goconfig/read.go:63-167 | in an open section a line sets the entry it stands for |
| ConfigExact.ValueExact | signaling/src/goconfig/write.go:73-81 | a value is read back if and only if it survives, white space at its ends included |
| ConfigExact.AutomaticExact | signaling/src/goconfig/write.go:56-60 | a key that begins with # is read back if and only if it is the next automatic one |
| ConfigExact.QuotedExact | signaling/src/goconfig/write.go:61-72 | a key with a separator is read back if and only if the quotes chosen for it do not close inside it |
| ConfigExact.RawExact | signaling/src/goconfig/read.go:121-127 | any other key is read back if and only if it is trimmed, no dash, and the line looks like no quote, comment or header |
| ConfigExact.EntryReadsBack | signaling/src/goconfig/write.go:48-86 | for every key and value without line feeds: the saved line is read back as this entry if and only if the entry survives |
| ConfigEquivalence.SavedExact | signaling/src/goconfig/write.go:25-100 | for every configuration with unique names and keys: reading what was saved succeeds and gives it back if and only if it survives |
| ConfigEquivalence.SavedAdvances | signaling/src/goconfig/read.go:31-175 | in whatever state it is read, a saved configuration adds at most as many entries as it has, and only then leaves all others in place |
| ConfigEquivalence.LineMustGive | signaling/src/goconfig/read.go:63-167 | a line that adds an entry which stays in its place stands for that entry |
| ConfigEquivalence.EntriesExact | signaling/src/goconfig/read.go:90-166 | the entries of a section that are all read back survive |
| ConfigEquivalence.LateDefaultIsLost | signaling/src/goconfig/write.go:40-46 | behind another section DEFAULT is never read back |
| ConfigEquivalence.MarkIsMissed | signaling/src/goconfig/read.go:34-40 | a configuration whose text begins with a byte order mark is never read back |
| ConfigEquivalence.ReadTextReadable | signaling/src/goconfig/read.go:31-175 | from any text, what is read has proper names, keys without line feeds and no empty section |
| ConfigComments.CommentsExact | signaling/src/goconfig/write.go:32-55 | for any comments: sections, keys, values and comments are all read back if and only if the configuration survives, every line of a comment is one to the reader, and every comment stands in front of a header or a key |
| ConfigComments.DataExact | signaling/src/goconfig/read.go:63-80 | comments that fit change nothing about the rest, but that one in front of the first key keeps its byte order mark |
| ConfigComments.SavedAlike | signaling/src/goconfig/write.go:32-55 | with and without comments that fit the same sections, keys and values are read |
| ConfigComments.SavedIsNoted | signaling/src/goconfig/read.go:63-166 | which comments are read: those of headers and keys, and that of DEFAULT at its first key |
| ConfigComments.LinesNotes | signaling/src/goconfig/read.go:63-70 | from any text only comments that fit are read |
| ConfigComments.CommentReads | signaling/src/goconfig/read.go:63-70 | a comment that fits is gathered line by line |
| ConfigComments.SecondLineIsNone | signaling/src/goconfig/conf.go:454-476 | a comment of two lines gets one sign, and does not fit |
| ConfigIO.SaveAndReload | signaling/src/goconfig/write.go:25-100 | with the real loops, into a fresh configuration: everything comes back if and only if the configuration survives, and its comments with it if and only if each fits and is placed |
| ConfigIO.ReadBackLooksTheSame | signaling/src/goconfig/conf.go:353-386 | the getters see the same sections and keys before and after |

## Left out

- Marks and error texts. A mark is kept only where the scanner compares lines, columns and positions.
- Nodes of type Undefined: they emit no event, so a map that holds one would lose its pairing (`nodeevents.cpp:69-70`).
- Null nodes: the event carries no tag, so `Cloning.Clone` keeps none for them; scalar styles are not part of the events either.
- Nodes as pointers with merged memories: a node is a position in the sequence of nodes its memory holder created.
- The `EventHandler` interface: the parser and the emitting walk write to a log of events, and the builder is fed from it.
- Loading several documents from one text.
- TextLoading.ParseDirectives: extracts the two numbers of a version as a stream does in the C locale.
- The file `depthguard.h` is not part of this model; its limit of 500 nested nodes is a constant.
- A block scalar whose last line has no line feed is specified by `ReadScalar` alone.
- PlainFolding.PlainScalarReads: a plain scalar that holds U+0000 is left out, because the code takes that character for the escape where there is none (`scanscalar.cpp:69-75`); `ReadScalar` covers it. A carriage return alone breaks a line without resetting the column, and the model does the same.
- TextPrinting writes no directives, markers, comments, block scalars or scalars over several lines, which `TokenShapes` and `TextSteps` cover token by token, no plain scalars but of letters, digits, underscores, bytes above ASCII and spaces inside, which `PlainTokens` covers for all, and no properties of block collections.
- PrintedLoading.PrintedLoads: says nothing of an empty text, which is no document.
- Plain and literal scalars do not survive writing and scanning in general, for example a plain `---` at column 0, so no round trip is stated for them.
- ScannerRuns.ReachableNests: does not say that every token handed out is VALID, because an UNVERIFIED key can surface at the end of the stream (`simplekey.cpp:128-131`).
- The character U+0004 marks the end of a stream, so a text that holds it is cut short there. `Streaming` takes the end to be the end of the text, which is right for texts without it; `Transcoding` states the same restriction.
- Transcoding.Decoder.ReadTrailingSurrogate: on ill-formed UTF-16 the code queues the high surrogate where the unit after it is meant (`stream.cpp:376-379`); the model does the same.
- Transcoding.Decoder.ReadAhead: reads to the end of the input at once, where the stream reads ahead as far as a position asks for; each step it takes is the same.
- Failure of the input stream other than its end.
- Base64.DecodeBase64: takes characters as code points, where C++ looks them up as bytes, and white space as in the C locale.
- Emitting: white space, indentation in columns, document markers, the text of scalars, tags, anchors and comments, and settings that change no group. Whether the output stands in mid line is a parameter, and so is whether a scalar is a string that is literal or longer than 1024 bytes, which makes its key a long one; `EventEmitting` takes every string for a shorter one that is not literal.
- Emitting.Emitter.ForceFlow: requires a group, as its assert does; `EndGroup` says when the source calls it without one.
- Emitting.Emitter.FlowMapPrepareValue: stands for the long and the simple value, which differ in white space only; `BlockMapPrepareKey` and `BlockMapPrepareValue` likewise.
- Name resolution, the address asked about, the task queue's own code and the thread library: a worker's result, error and addresses, is a parameter of its step, tasks of one sequence run one at a time in order, and after `Destroy` the caller calls nothing. `Destroy` runs on the owning sequence.
- The move and copy constructors of counted pointers to derived types, which do the same.
- Walking statistics: a property value is a text or a list of texts; any other value under a name ending in Id leads nowhere, like a list. The order in which a map is visited is a parameter.
- goconfig's locks, files and reloading, typed getters, and the expansion of `%(name)s` in values, which has no bound on cyclic names.
- goconfig strings are sequences of code points, so a file that is not UTF-8 is outside the model; the line break is a line feed. A line break inside a comment is a line feed.
- HTTP, signalling actions, pages, minified bundles, build scripts and log rotation.
