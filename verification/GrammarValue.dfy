/** What a stream of the grammar is read as; and where the parser does not follow its grammar. */
module GrammarValue {
  import opened Options
  import opened Resolve
  import opened Tokens
  import opened Parser
  import opened ParserSafety
  import opened ParserRuns
  import opened Composer
  import opened Grammar
  import opened GrammarStream
  import RoundTrip

  function FirstValue(docs: seq<Document>, lib: Library): Result<Value, Failure> {
    if docs == [] then Ok(VNull)
    else
      match Denote(SynNode(docs[0].content, WithDefaults(Prefixes(docs[0].directives))), map[], lib)
      case Err(e) => Err(e)
      case Ok(d) => Ok(d.value)
  }

  /** The tokens of a stream are read as the meaning of its first document, or as null. */
  lemma StreamRead(docs: seq<Document>, lib: Library)
    requires LegalStream(docs)
    ensures RoundTrip.Read(StreamTokens(docs), lib) == FirstValue(docs, lib)
  {
    hide LegalStream, StreamTokens, ParseAll, NodeEvents, SynNode, Denote, ParseValue, DocumentsEvents, WithDefaults;
    StreamParsed(docs);
    var es := StreamEvents(docs);
    if docs == [] {
      NoDocuments();
      assert es == [StreamStart, StreamEnd];
    } else {
      var n := SynNode(docs[0].content, WithDefaults(Prefixes(docs[0].directives)));
      var rest := [DocumentEnd] + (DocumentsEvents(docs[1..]) + [StreamEnd]);
      FirstDocument(docs);
      assert es == [StreamStart, DocumentStart] + (NodeEvents(n) + rest);
      assert es[2..] == NodeEvents(n) + rest;
      FirstNode(n, es[2..], rest, map[], lib);
      assert es[2..][1..] == es[3..];
    }
  }

  lemma NoDocuments()
    ensures DocumentsEvents([]) == []
  {
  }

  lemma FirstDocument(docs: seq<Document>)
    requires docs != []
    ensures DocumentsEvents(docs) == DocumentEvents(docs[0]) + DocumentsEvents(docs[1..])
  {
  }

  // ---------- where the grammar is not followed ----------

  /** The first steps of a stream whose only document is a collection. */
  lemma Opened(start: Token, tokens: seq<Token>) returns (m: Machine)
    requires start.BlockMappingStartToken? || start.FlowSequenceStartToken?
    ensures var event := if start.BlockMappingStartToken? then MappingStart("", "") else SequenceStart("", "");
      Parses(StartMachine([StreamStartToken, start] + tokens), [StreamStart, DocumentStart, event], m)
    ensures m.state == if start.BlockMappingStartToken? then AtBlockMappingFirstKey else AtFlowSequenceFirstEntry
    ensures m.tokens == [start] + tokens && m.states == [AtDocumentEnd] && m.marks == 0
  {
    hide ParseDocumentContent, ParseDocumentEnd, ParseBlockMappingKey, ParseFlowSequenceEntry, WithDefaults;
    var m0 := StartMachine([StreamStartToken, start] + tokens);
    var m1 := Step(m0).next;
    assert m1.tokens == [start] + tokens;
    var m2 := Step(m1).next;
    assert m2.tokens == [start] + tokens && m2.state == AtBlockNode && m2.states == [AtDocumentEnd];
    m := Step(m2).next;
    var event := if start.BlockMappingStartToken? then MappingStart("", "") else SequenceStart("", "");
    FirstEvent(m2, event, m, [], m);
    FirstEvent(m1, DocumentStart, m2, [event] + [], m);
    FirstEvent(m0, StreamStart, m1, [DocumentStart] + ([event] + []), m);
    assert [StreamStart] + ([DocumentStart] + ([event] + [])) == [StreamStart, DocumentStart, event];
  }

  /** The grammar lets a block mapping have a value without KEY; the parser takes it for an error. */
  lemma ValueAlone(rest: seq<Token>)
    ensures var m := StartMachine([StreamStartToken, BlockMappingStartToken] + ([ValueToken] + rest));
      Good(m) && ParseAll(m) == Run([StreamStart, DocumentStart, MappingStart("", "")], Stopped(ExpectedKey))
  {
    hide Parses;
    var tokens := [ValueToken] + rest;
    var m := Opened(BlockMappingStartToken, tokens);
    RunSound(StartMachine([StreamStartToken, BlockMappingStartToken] + tokens));
    assert m.tokens[1..] == tokens;
    assert Step(m) == Failed(ExpectedKey);
    ParsesToError(StartMachine([StreamStartToken, BlockMappingStartToken] + tokens),
                  [StreamStart, DocumentStart, MappingStart("", "")], m, ExpectedKey);
  }

  /** KEY without a node in a flow sequence: the token behind it goes, and two empty nodes come. */
  lemma KeyDropped(m: Machine, rest: seq<Token>) returns (m4: Machine)
    requires m.state == AtFlowSequenceFirstEntry && rest != [] && !rest[0].ValueToken?
    requires m.tokens == [FlowSequenceStartToken, KeyToken, ValueToken] + rest
    ensures Parses(m, [MappingStart("", ""), EmptyScalar, EmptyScalar, MappingEnd], m4)
    ensures m4.state == AtFlowSequenceEntry && m4.tokens == rest && m4.marks == m.marks + 1
  {
    hide Step, Parses;
    var m1 := m.(state := AtFlowSequenceEntryMappingKey, marks := m.marks + 1, tokens := [ValueToken] + rest);
    var m2 := m1.(state := AtFlowSequenceEntryMappingValue, tokens := rest);
    var m3 := m2.(state := AtFlowSequenceEntryMappingEnd);
    m4 := m3.(state := AtFlowSequenceEntry);
    KeySeen(m, rest);
    ValueTakenForKey(m1, rest);
    NothingBehind(m2);
    NoStep(m4);
    FirstEvent(m3, MappingEnd, m4, [], m4);
    FirstEvent(m2, EmptyScalar, m3, [MappingEnd] + [], m4);
    FirstEvent(m1, EmptyScalar, m2, [EmptyScalar] + ([MappingEnd] + []), m4);
    FirstEvent(m, MappingStart("", ""), m1, [EmptyScalar] + ([EmptyScalar] + ([MappingEnd] + [])), m4);
    assert [MappingStart("", "")] + ([EmptyScalar] + ([EmptyScalar] + ([MappingEnd] + [])))
        == [MappingStart("", ""), EmptyScalar, EmptyScalar, MappingEnd];
  }

  lemma KeySeen(m: Machine, rest: seq<Token>)
    requires m.state == AtFlowSequenceFirstEntry && m.tokens == [FlowSequenceStartToken, KeyToken, ValueToken] + rest
    ensures Step(m) == Produced(MappingStart("", ""), m.(state := AtFlowSequenceEntryMappingKey, marks := m.marks + 1,
                                                         tokens := [ValueToken] + rest))
  {
    hide ParseNode;
    assert m.tokens[1..][1..] == [ValueToken] + rest;
  }

  lemma ValueTakenForKey(m: Machine, rest: seq<Token>)
    requires m.state == AtFlowSequenceEntryMappingKey && m.tokens == [ValueToken] + rest
    ensures Step(m) == Produced(EmptyScalar, m.(state := AtFlowSequenceEntryMappingValue, tokens := rest))
  {
    hide ParseNode;
    assert ([ValueToken] + rest)[1..] == rest;
  }

  lemma NothingBehind(m: Machine)
    requires m.state == AtFlowSequenceEntryMappingValue && m.tokens != [] && !m.tokens[0].ValueToken?
    ensures var m1 := m.(state := AtFlowSequenceEntryMappingEnd);
      && Step(m) == Produced(EmptyScalar, m1)
      && Step(m1) == Produced(MappingEnd, m1.(state := AtFlowSequenceEntry))
  {
    hide ParseNode;
  }

  lemma NoStep(m: Machine)
    ensures Parses(m, [], m)
  {
  }

  lemma NoComma(m: Machine)
    requires m.state == AtFlowSequenceEntry && m.marks > 0 && m.tokens != []
    requires !m.tokens[0].FlowEntryToken? && !m.tokens[0].FlowSequenceEndToken?
    ensures Step(m) == Failed(ExpectedCommaOrBracket)
  {
  }

  /** The grammar lets a flow sequence have a KEY without a node; then the value is too much for the parser. */
  lemma KeyAlone(value: string, style: Style, rest: seq<Token>)
    ensures var m := StartMachine([StreamStartToken, FlowSequenceStartToken]
                                  + ([KeyToken, ValueToken, ScalarToken(value, style)] + rest));
      Good(m) && ParseAll(m).finish == Stopped(ExpectedCommaOrBracket)
  {
    hide Parses, Step, Good, ParseAll;
    var tokens := [KeyToken, ValueToken, ScalarToken(value, style)] + rest;
    var m0 := StartMachine([StreamStartToken, FlowSequenceStartToken] + tokens);
    var m := Opened(FlowSequenceStartToken, tokens);
    AnyTokensParseSafely([StreamStartToken, FlowSequenceStartToken] + tokens);
    var after := [ScalarToken(value, style)] + rest;
    assert m.tokens == [FlowSequenceStartToken, KeyToken, ValueToken] + after;
    var m4 := KeyDropped(m, after);
    NoComma(m4);
    var head, es := [StreamStart, DocumentStart, SequenceStart("", "")],
      [MappingStart("", ""), EmptyScalar, EmptyScalar, MappingEnd];
    ParsesOn(m0, head, m, es, m4);
    ParsesToError(m0, head + es, m4, ExpectedCommaOrBracket);
  }
}
