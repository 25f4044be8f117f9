/** Load: the parser's events drive a builder. */
module Loading {
  import opened Events
  import opened NodeBuilding
  import opened TreeBuilding
  import opened Tokens
  import opened Parsing
  import opened ParsingLemmas
  import opened SingleDocParsing
  import opened Cloning

  /**
   * YAML::Load on the tokens of one document. If the parser does not throw, none of the builder's
   * asserts fails and no alias looks up a missing anchor; the graph is the meaning of the parsed tree. `left` are
   * the tokens that the parser was not asked to read.
   */
  method Load(tokens: seq<Token>, directives: Directives)
    returns (ok: bool, memory: Memory, root: Pointer, left: seq<Token>)
    ensures tokens == [] ==> ok && root.Nil? && left == []
    ensures tokens != [] ==>
              var st := State(tokens, directives, [], map[], 0, 0);
              match ParseNode(if st.At(DOC_START) then st.Skip() else st)
              case Thrown => !ok
              case Parsed(t, rest) =>
                && ok && memory == Build(t, 0, [Nil]).created && root == At(Build(t, 0, [Nil]).node)
                && left == DropDocEnds(rest.tokens)
  {
    hide ParseNode, Build, Replay;
    var builder := new NodeBuilder();
    if tokens == [] {
      return true, builder.memory, builder.root, [];
    }
    var parser := new SingleDocParser(tokens, directives);
    var log := new EventLog();
    ghost var tree;
    ok, tree := parser.HandleDocument(log);
    if ok {
      assert [] + [DocumentStart] + Flatten(tree) + [DocumentEnd] == [DocumentStart] + Flatten(tree) + [DocumentEnd];
      DocumentBuilds(tree);
      builder.ReceiveAll(log.events);
    }
    memory, root, left := builder.memory, builder.root, parser.tokens;
  }
}
