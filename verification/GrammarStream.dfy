/** Whole streams of the grammar: documents with their directives, as the parser reads them. */
module GrammarStream {
  import opened Options
  import opened Resolve
  import opened Tokens
  import opened Parser
  import opened ParserSafety
  import opened ParserRuns
  import opened Composer
  import opened Grammar
  import opened GrammarParse

  datatype Directive = Yaml11 | TagPrefix(handle: string, prefix: string)

  /** A document without directives and DOCUMENT-START is implicit. */
  datatype Document = Document(explicit: bool, directives: seq<Directive>, content: Syntax, ends: nat)

  // ---------- tokens and events ----------

  function DirectiveTokens(ds: seq<Directive>): seq<Token> {
    if ds == [] then []
    else
      [match ds[0]
       case Yaml11 => VersionDirectiveToken(1, 1)
       case TagPrefix(handle, prefix) => TagDirectiveToken(handle, prefix)] + DirectiveTokens(ds[1..])
  }

  function EndTokens(n: nat): seq<Token> {
    if n == 0 then [] else [DocumentEndToken] + EndTokens(n - 1)
  }

  function DocumentTokens(d: Document): seq<Token> {
    DirectiveTokens(d.directives) + (if d.explicit then [DocumentStartToken] else [])
      + (SynTokens(d.content) + EndTokens(d.ends))
  }

  function DocumentsTokens(docs: seq<Document>): seq<Token> {
    if docs == [] then [] else DocumentTokens(docs[0]) + DocumentsTokens(docs[1..])
  }

  function StreamTokens(docs: seq<Document>): seq<Token> {
    [StreamStartToken] + (DocumentsTokens(docs) + [StreamEndToken])
  }

  /** The prefixes that a document declares; "!" and "!!" have one even if it does not. */
  function Prefixes(ds: seq<Directive>): seq<TagDirective> {
    if ds == [] then []
    else (if ds[0].TagPrefix? then [TagDirective(ds[0].handle, ds[0].prefix)] else []) + Prefixes(ds[1..])
  }

  function DocumentEvents(d: Document): seq<Event> {
    [DocumentStart] + NodeEvents(SynNode(d.content, WithDefaults(Prefixes(d.directives)))) + [DocumentEnd]
  }

  function DocumentsEvents(docs: seq<Document>): seq<Event> {
    if docs == [] then [] else DocumentEvents(docs[0]) + DocumentsEvents(docs[1..])
  }

  function StreamEvents(docs: seq<Document>): seq<Event> {
    [StreamStart] + (DocumentsEvents(docs) + [StreamEnd])
  }

  // ---------- what is allowed ----------

  /** One version at most, and no handle twice. */
  predicate LegalDirectives(ds: seq<Directive>) {
    forall i, j :: 0 <= i < j < |ds| ==>
      if ds[i].Yaml11? then !ds[j].Yaml11? else ds[j].Yaml11? || ds[i].handle != ds[j].handle
  }

  predicate LegalDocument(d: Document, first: bool) {
    && LegalDirectives(d.directives)
    && Legal(d.content, InBlock, WithDefaults(Prefixes(d.directives)))
    && (if d.explicit then true else first && d.directives == [] && !d.content.Nothing?)
  }

  /** Only the first document may be implicit. */
  predicate LegalStream(docs: seq<Document>) {
    forall i :: 0 <= i < |docs| ==> LegalDocument(docs[i], i == 0)
  }

  // ---------- directives ----------

  lemma {:induction false} FindIn(a: seq<TagDirective>, handle: string)
    ensures FindDirective(a, handle).Some? ==> exists i :: 0 <= i < |a| && a[i].handle == handle
  {
    if a != [] && a[0].handle != handle {
      FindIn(a[1..], handle);
      if FindDirective(a[1..], handle).Some? {
        var i :| 0 <= i < |a[1..]| && a[1..][i].handle == handle;
        assert a[i + 1].handle == handle;
      }
    }
  }

  lemma NoPrefixes()
    ensures Prefixes([]) == []
  {
  }

  lemma PrefixesFirst(ds: seq<Directive>, rest: seq<Directive>)
    requires ds != [] && rest == ds[1..]
    ensures Prefixes(ds)
        == (if ds[0].TagPrefix? then [TagDirective(ds[0].handle, ds[0].prefix)] else []) + Prefixes(rest)
  {
  }

  lemma {:induction false} PrefixesJoin(a: seq<Directive>, b: seq<Directive>)
    ensures Prefixes(a + b) == Prefixes(a) + Prefixes(b)
  {
    hide Prefixes;
    if a == [] {
      assert a + b == b;
      NoPrefixes();
    } else {
      PrefixesJoin(a[1..], b);
      PrefixesFirst(a, a[1..]);
      assert (a + b)[0] == a[0] && (a + b)[1..] == a[1..] + b;
      PrefixesFirst(a + b, a[1..] + b);
    }
  }

  lemma {:induction false} PrefixFrom(ds: seq<Directive>, k: nat)
    requires k < |Prefixes(ds)|
    ensures exists i :: 0 <= i < |ds| && ds[i] == TagPrefix(Prefixes(ds)[k].handle, Prefixes(ds)[k].prefix)
  {
    if ds[0].TagPrefix? && k == 0 {
      assert ds[0] == TagPrefix(Prefixes(ds)[0].handle, Prefixes(ds)[0].prefix);
    } else {
      var j := if ds[0].TagPrefix? then k - 1 else k;
      PrefixFrom(ds[1..], j);
      var i :| 0 <= i < |ds[1..]| && ds[1..][i] == TagPrefix(Prefixes(ds)[k].handle, Prefixes(ds)[k].prefix);
      assert ds[i + 1] == TagPrefix(Prefixes(ds)[k].handle, Prefixes(ds)[k].prefix);
    }
  }

  predicate HasVersion(ds: seq<Directive>) {
    exists i :: 0 <= i < |ds| && ds[i].Yaml11?
  }

  /** The directives from the k-th on, those in front being processed. */
  lemma {:induction false} DirectivesRead(ds: seq<Directive>, k: nat, m: Machine, rest: seq<Token>)
    requires k <= |ds| && LegalDirectives(ds) && m.directives == Prefixes(ds[..k])
    requires m.tokens == DirectiveTokens(ds[k..]) + rest
    requires rest != [] && !rest[0].VersionDirectiveToken? && !rest[0].TagDirectiveToken?
    ensures ProcessDirectives(m, HasVersion(ds[..k]))
         == Ok(m.(directives := WithDefaults(Prefixes(ds)), tokens := rest))
    decreases |ds| - k
  {
    hide WithDefaults, ProcessDirectives, Prefixes, HasVersion, LegalDirectives, DirectiveTokens;
    if k == |ds| {
      assert ds[..k] == ds && ds[k..] == [];
      NoneLeft(m, rest, HasVersion(ds));
    } else {
      assert ds[k..][1..] == ds[k + 1..];
      assert ds[..k + 1] == ds[..k] + [ds[k]];
      PrefixesJoin(ds[..k], [ds[k]]);
      VersionOn(ds, k);
      if ds[k].TagPrefix? { NewHandle(ds, k); }
      var m1 := m.(directives := Prefixes(ds[..k + 1]), tokens := DirectiveTokens(ds[k + 1..]) + rest);
      OneDirective(m, ds[k..], rest, HasVersion(ds[..k]));
      DirectivesRead(ds, k + 1, m1, rest);
    }
  }

  lemma NoneLeft(m: Machine, rest: seq<Token>, version: bool)
    requires rest != [] && !rest[0].VersionDirectiveToken? && !rest[0].TagDirectiveToken?
    requires m.tokens == DirectiveTokens([]) + rest
    ensures ProcessDirectives(m, version) == Ok(m.(directives := WithDefaults(m.directives), tokens := rest))
  {
    hide WithDefaults;
    assert m.tokens == rest;
  }

  lemma OneDirective(m: Machine, ds: seq<Directive>, rest: seq<Token>, version: bool)
    requires ds != [] && m.tokens == DirectiveTokens(ds) + rest
    requires if ds[0].Yaml11? then !version else FindDirective(m.directives, ds[0].handle).None?
    ensures ProcessDirectives(m, version)
         == ProcessDirectives(m.(directives := m.directives + Prefixes([ds[0]]),
                                 tokens := DirectiveTokens(ds[1..]) + rest),
                              version || ds[0].Yaml11?)
  {
    hide WithDefaults, FindDirective;
    assert m.tokens[1..] == DirectiveTokens(ds[1..]) + rest;
    assert [ds[0]][1..] == [];
    if ds[0].Yaml11? {
      assert m.tokens[0] == VersionDirectiveToken(1, 1);
      assert Prefixes([ds[0]]) == [] + [] == [] && m.directives + [] == m.directives;
    } else {
      assert m.tokens[0] == TagDirectiveToken(ds[0].handle, ds[0].prefix);
      assert Prefixes([ds[0]]) == [TagDirective(ds[0].handle, ds[0].prefix)];
    }
  }

  /** A second version, a handle given twice, or any version but 1.1 is refused, whatever is in front of it. */
  lemma {:induction false} DirectiveRefused(ds: seq<Directive>, k: nat, m: Machine, bad: Token, rest: seq<Token>)
    requires k <= |ds| && LegalDirectives(ds) && m.directives == Prefixes(ds[..k])
    requires m.tokens == DirectiveTokens(ds[k..]) + ([bad] + rest)
    ensures var r := ProcessDirectives(m, HasVersion(ds[..k]));
      && (bad.VersionDirectiveToken? ==>
            (HasVersion(ds) ==> r == Err(DuplicateVersion))
            && (!HasVersion(ds) && (bad.major != 1 || bad.minor != 1) ==> r == Err(BadVersion)))
      && (bad.TagDirectiveToken? && (exists i, p :: 0 <= i < |ds| && ds[i] == TagPrefix(bad.handle, p)) ==>
            r == Err(DuplicateTag))
    decreases |ds| - k
  {
    hide WithDefaults, ProcessDirectives, Prefixes, HasVersion, LegalDirectives, DirectiveTokens, FindDirective;
    if k == |ds| {
      assert ds[..k] == ds && ds[k..] == [];
      BadDirective(m, bad, rest, HasVersion(ds));
      if i, p :| bad.TagDirectiveToken? && 0 <= i < |ds| && ds[i] == TagPrefix(bad.handle, p) {
        HandleFound(ds, i);
      }
    } else {
      assert ds[k..][1..] == ds[k + 1..];
      assert ds[..k + 1] == ds[..k] + [ds[k]];
      PrefixesJoin(ds[..k], [ds[k]]);
      VersionOn(ds, k);
      if ds[k].TagPrefix? { NewHandle(ds, k); }
      var m1 := m.(directives := Prefixes(ds[..k + 1]), tokens := DirectiveTokens(ds[k + 1..]) + ([bad] + rest));
      OneDirective(m, ds[k..], [bad] + rest, HasVersion(ds[..k]));
      DirectiveRefused(ds, k + 1, m1, bad, rest);
    }
  }

  lemma BadDirective(m: Machine, bad: Token, rest: seq<Token>, version: bool)
    requires m.tokens == DirectiveTokens([]) + ([bad] + rest)
    ensures var r := ProcessDirectives(m, version);
      && (bad.VersionDirectiveToken? && version ==> r == Err(DuplicateVersion))
      && (bad.VersionDirectiveToken? && !version && (bad.major != 1 || bad.minor != 1) ==> r == Err(BadVersion))
      && (bad.TagDirectiveToken? && FindDirective(m.directives, bad.handle).Some? ==> r == Err(DuplicateTag))
  {
    hide WithDefaults, FindDirective;
    assert m.tokens == [bad] + rest;
  }

  lemma {:induction false} HandleFound(ds: seq<Directive>, i: nat)
    requires i < |ds| && ds[i].TagPrefix?
    ensures FindDirective(Prefixes(ds), ds[i].handle).Some?
  {
    hide Prefixes;
    PrefixesFirst(ds, ds[1..]);
    if i > 0 { HandleFound(ds[1..], i - 1); }
    if ds[0].TagPrefix? {
      FindFirst(TagDirective(ds[0].handle, ds[0].prefix), Prefixes(ds[1..]), ds[i].handle);
    } else {
      assert [] + Prefixes(ds[1..]) == Prefixes(ds[1..]);
    }
  }

  lemma FindFirst(d: TagDirective, rest: seq<TagDirective>, handle: string)
    ensures FindDirective([d] + rest, handle)
         == if d.handle == handle then Some(d.prefix) else FindDirective(rest, handle)
  {
    assert ([d] + rest)[1..] == rest;
  }

  lemma VersionOn(ds: seq<Directive>, k: nat)
    requires k < |ds| && LegalDirectives(ds)
    ensures HasVersion(ds[..k + 1]) == (HasVersion(ds[..k]) || ds[k].Yaml11?)
    ensures ds[k].Yaml11? ==> !HasVersion(ds[..k])
  {
    assert ds[..k + 1] == ds[..k] + [ds[k]];
    if HasVersion(ds[..k]) {
      var i :| 0 <= i < |ds[..k]| && ds[..k][i].Yaml11?;
      assert ds[..k + 1][i].Yaml11?;
    }
    if ds[k].Yaml11? { assert ds[..k + 1][k].Yaml11?; }
  }

  lemma NewHandle(ds: seq<Directive>, k: nat)
    requires k < |ds| && LegalDirectives(ds) && ds[k].TagPrefix?
    ensures FindDirective(Prefixes(ds[..k]), ds[k].handle).None?
  {
    var before := Prefixes(ds[..k]);
    if FindDirective(before, ds[k].handle).Some? {
      FindIn(before, ds[k].handle);
      var j :| 0 <= j < |before| && before[j].handle == ds[k].handle;
      PrefixFrom(ds[..k], j);
    }
  }

  // ---------- documents ----------

  lemma {:induction false} EndsSkipped(n: nat, rest: seq<Token>)
    requires rest != [] && !rest[0].DocumentEndToken?
    ensures SkipDocumentEnds(EndTokens(n) + rest) == rest
  {
    if n == 0 {
      assert EndTokens(n) + rest == rest;
    } else {
      assert (EndTokens(n) + rest)[1..] == EndTokens(n - 1) + rest;
      EndsSkipped(n - 1, rest);
    }
  }

  /** What may come behind a document. */
  predicate BehindDocument(rest: seq<Token>) {
    rest != [] && EndsContent(rest[0])
  }

  lemma BodyFollows(d: Document, rest: seq<Token>)
    requires BehindDocument(rest)
    ensures MayFollow(EndTokens(d.ends) + rest, InBlock)
    ensures (EndTokens(d.ends) + rest)[0].DocumentEndToken? || (EndTokens(d.ends) + rest)[0] == rest[0]
  {
    if d.ends == 0 { assert EndTokens(d.ends) + rest == rest; }
  }

  /** The start of a document, from either state that one is read in. */
  lemma StartParsed(d: Document, m: Machine, skipped: nat, body: seq<Token>)
    requires m.state == AtImplicitDocumentStart || m.state == AtDocumentStart
    requires LegalDocument(d, m.state == AtImplicitDocumentStart) && m.directives == []
    requires m.state == AtImplicitDocumentStart ==> skipped == 0
    requires m.tokens == EndTokens(skipped)
             + (DirectiveTokens(d.directives) + (if d.explicit then [DocumentStartToken] else []) + body)
    requires body != [] && (!d.explicit ==> Starts(body[0]))
    ensures Step(m) == Produced(DocumentStart,
      m.(state := if d.explicit then AtDocumentContent else AtBlockNode, states := m.states + [AtDocumentEnd],
         directives := WithDefaults(Prefixes(d.directives)), tokens := body))
  {
    hide WithDefaults, ProcessDirectives, Legal, LegalDirectives;
    var ds := d.directives;
    var first := if d.explicit then [DocumentStartToken] else [];
    var all := DirectiveTokens(ds) + first + body;
    assert all == DirectiveTokens(ds) + (first + body);
    if d.explicit { assert (first + body)[1..] == body; } else { assert first + body == body; }
    FirstOfAll(ds, first + body);
    EndsSkipped(skipped, all);
    if skipped == 0 { assert m.tokens == all; }
    var m1 := m.(tokens := all);
    assert ds[..0] == [] && ds[0..] == ds;
    assert HasVersion(ds[..0]) == false;
    DirectivesRead(ds, 0, m1, first + body);
  }

  lemma FirstOfAll(ds: seq<Directive>, rest: seq<Token>)
    requires rest != [] && !rest[0].DocumentEndToken? && !rest[0].StreamEndToken?
    ensures var all := DirectiveTokens(ds) + rest;
      && all != [] && !all[0].DocumentEndToken? && !all[0].StreamEndToken?
      && (ds != [] || EndsContent(rest[0]) ==> EndsContent(all[0]))
      && (ds == [] ==> all == rest)
  {
  }

  lemma ContentParsed(d: Document, m: Machine, rest: seq<Token>)
    requires (m.state == AtDocumentContent && d.explicit) || (m.state == AtBlockNode && !d.content.Nothing?)
    requires Legal(d.content, InBlock, m.directives) && BehindDocument(rest) && m.states != []
    requires m.tokens == SynTokens(d.content) + (EndTokens(d.ends) + rest)
    ensures Begins(Step(m), NodeEvents(SynNode(d.content, m.directives)), Back(m, EndTokens(d.ends) + rest))
  {
    hide Parses, NodeEvents, SynNode, Begins, ParseNode, Legal, SynTokens;
    var more := EndTokens(d.ends) + rest;
    BodyFollows(d, rest);
    if d.content.Nothing? {
      assert SynTokens(d.content) == [] by { NothingTokens(); }
      assert m.tokens == more;
      assert Step(m) == Produced(EmptyScalar, Back(m, more));
      NullBegins(Back(m, more));
      assert NodeEvents(SynNode(d.content, m.directives)) == NodeEvents(NULL_NODE) by { NothingNode(m.directives); }
    } else {
      FirstOf(d.content, InBlock, m.directives);
      assert m.tokens[0] == SynTokens(d.content)[0];
      NodeParsed(d.content, m, more, InBlock);
      assert Step(m) == NodeStep(m, InBlock);
    }
  }

  lemma NothingTokens()
    ensures SynTokens(Nothing) == []
  {
  }

  lemma NothingNode(ds: seq<TagDirective>)
    ensures SynNode(Nothing, ds) == NULL_NODE
  {
  }

  /** One document, and up to one DOCUMENT-END behind it; the others wait for the next state. */
  lemma DocumentParsed(d: Document, m: Machine, skipped: nat, rest: seq<Token>) returns (left: nat)
    requires m.state == AtImplicitDocumentStart || m.state == AtDocumentStart
    requires LegalDocument(d, m.state == AtImplicitDocumentStart) && m.directives == [] && m.states == []
    requires m.state == AtImplicitDocumentStart ==> skipped == 0
    requires m.tokens == EndTokens(skipped) + (DocumentTokens(d) + rest) && BehindDocument(rest)
    ensures Parses(m, DocumentEvents(d), m.(state := AtDocumentStart, tokens := EndTokens(left) + rest))
  {
    hide Parses, NodeEvents, SynNode, Legal, SynTokens, Step, Begins, DirectiveTokens, Prefixes, WithDefaults,
      EndTokens, LegalDirectives;
    var more := EndTokens(d.ends) + rest;
    var body := SynTokens(d.content) + more;
    var first := if d.explicit then [DocumentStartToken] else [];
    assert DocumentTokens(d) + rest == DirectiveTokens(d.directives) + first + body;
    BodyFollows(d, rest);
    if d.content.Nothing? {
      assert body == more by { NothingTokens(); }
    } else {
      FirstOf(d.content, InBlock, WithDefaults(Prefixes(d.directives)));
      assert body[0] == SynTokens(d.content)[0];
    }
    StartParsed(d, m, skipped, body);
    var m1 := Step(m).next;
    ContentParsed(d, m1, rest);
    var m2 := Back(m1, more);
    assert m2.states == [];
    left := if d.ends == 0 then 0 else d.ends - 1;
    DocumentClosed(d, m2, rest, left);
    var node, end := NodeEvents(SynNode(d.content, m1.directives)), [DocumentEnd];
    StepBegins(m1, node, m2, end, m.(state := AtDocumentStart, tokens := EndTokens(left) + rest));
    FirstEvent(m, DocumentStart, m1, node + end, m.(state := AtDocumentStart, tokens := EndTokens(left) + rest));
    assert DocumentEvents(d) == [DocumentStart] + (node + end);
  }

  lemma DocumentClosed(d: Document, m: Machine, rest: seq<Token>, left: nat)
    requires m.state == AtDocumentEnd && BehindDocument(rest) && left == if d.ends == 0 then 0 else d.ends - 1
    requires m.tokens == EndTokens(d.ends) + rest
    ensures Parses(m, [DocumentEnd], m.(state := AtDocumentStart, directives := [], tokens := EndTokens(left) + rest))
  {
    if d.ends == 0 {
      assert m.tokens == rest == EndTokens(left) + rest;
    } else {
      assert m.tokens[1..] == EndTokens(d.ends - 1) + rest;
    }
    OneEvent(DocumentEnd, m.(state := AtDocumentStart, directives := [], tokens := EndTokens(left) + rest));
  }

  lemma DocumentBegins(d: Document)
    requires LegalDocument(d, false)
    ensures DocumentTokens(d) != [] && EndsContent(DocumentTokens(d)[0])
  {
    hide SynTokens, Legal, LegalDirectives, EndTokens;
    FirstOfAll(d.directives, [DocumentStartToken]);
    assert DocumentTokens(d)[0] == (DirectiveTokens(d.directives) + [DocumentStartToken])[0];
  }

  /** What comes next is a document that begins with a directive or DOCUMENT-START, or the end. */
  lemma NextBehind(docs: seq<Document>)
    requires forall i :: 0 <= i < |docs| ==> LegalDocument(docs[i], false)
    ensures BehindDocument(DocumentsTokens(docs) + [StreamEndToken])
  {
    hide DocumentTokens, LegalDocument;
    if docs != [] {
      assert LegalDocument(docs[0], false);
      DocumentBegins(docs[0]);
    } else {
      assert DocumentsTokens(docs) + [StreamEndToken] == [StreamEndToken];
    }
  }

  lemma {:induction false} DocumentsParsed(docs: seq<Document>, m: Machine, skipped: nat) returns (end: Machine)
    requires m.state == AtImplicitDocumentStart || m.state == AtDocumentStart
    requires m.state == AtImplicitDocumentStart ==> skipped == 0
    requires forall i :: 0 <= i < |docs| ==> LegalDocument(docs[i], i == 0 && m.state == AtImplicitDocumentStart)
    requires m.directives == [] && m.states == []
    requires m.tokens == EndTokens(skipped) + (DocumentsTokens(docs) + [StreamEndToken])
    ensures Parses(m, DocumentsEvents(docs) + [StreamEnd], end) && end.state == AtEnd
    decreases |docs|
  {
    hide Parses, LegalDocument, DocumentTokens, DocumentEvents, Step;
    if docs == [] {
      assert DocumentsTokens(docs) + [StreamEndToken] == [StreamEndToken];
      end := m.(state := AtEnd, tokens := []);
      StreamClosed(m, skipped);
      assert DocumentsEvents(docs) + [StreamEnd] == [StreamEnd];
    } else {
      var rest := DocumentsTokens(docs[1..]) + [StreamEndToken];
      forall i | 0 <= i < |docs[1..]| ensures LegalDocument(docs[1..][i], false) {
        assert docs[1..][i] == docs[i + 1];
      }
      NextBehind(docs[1..]);
      assert DocumentsTokens(docs) + [StreamEndToken] == DocumentTokens(docs[0]) + rest;
      var left := DocumentParsed(docs[0], m, skipped, rest);
      var m1 := m.(state := AtDocumentStart, tokens := EndTokens(left) + rest);
      end := DocumentsParsed(docs[1..], m1, left);
      ParsesOn(m, DocumentEvents(docs[0]), m1, DocumentsEvents(docs[1..]) + [StreamEnd], end);
      assert DocumentsEvents(docs) + [StreamEnd]
          == DocumentEvents(docs[0]) + (DocumentsEvents(docs[1..]) + [StreamEnd]);
    }
  }

  lemma StreamClosed(m: Machine, skipped: nat)
    requires m.state == AtImplicitDocumentStart || m.state == AtDocumentStart
    requires m.state == AtImplicitDocumentStart ==> skipped == 0
    requires m.tokens == EndTokens(skipped) + [StreamEndToken]
    ensures Parses(m, [StreamEnd], m.(state := AtEnd, tokens := []))
  {
    EndsSkipped(skipped, [StreamEndToken]);
    if skipped == 0 { assert m.tokens == [StreamEndToken]; }
    OneEvent(StreamEnd, m.(state := AtEnd, tokens := []));
  }

  /**
   The parser implements its grammar: the tokens of every derivation, in every document of a
   stream, give exactly the events of the nodes they stand for, and no error.
   */
  lemma StreamParsed(docs: seq<Document>)
    requires LegalStream(docs)
    ensures Good(StartMachine(StreamTokens(docs)))
    ensures var r := ParseAll(StartMachine(StreamTokens(docs))); r.events == StreamEvents(docs) && r.finish.Complete?
  {
    hide Parses, LegalDocument, DocumentsTokens, DocumentsEvents;
    var m := StartMachine(StreamTokens(docs));
    var m1 := Step(m).next;
    assert m.tokens[1..] == EndTokens(0) + (DocumentsTokens(docs) + [StreamEndToken]);
    var end := DocumentsParsed(docs, m1, 0);
    FirstEvent(m, StreamStart, m1, DocumentsEvents(docs) + [StreamEnd], end);
    RunSound(m);
    ParsesAll(m, StreamEvents(docs), end);
  }
}
