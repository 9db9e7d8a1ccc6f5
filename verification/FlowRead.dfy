/**
 Flow collections through the whole reader: the text of one, from brackets and indicators to scalars
 in any style, is decoded, scanned, parsed and composed to what it stands for.
 */
module FlowRead {
  import opened Chars
  import opened Unicode
  import opened Decoding
  import opened Options
  import opened Tokens
  import opened Composer
  import opened Scanner
  import opened ScanSteps
  import opened ScanToEnd
  import opened DemandScan
  import opened DemandKept
  import opened Grammar
  import opened GrammarStream
  import opened GrammarValue
  import opened NameSpelling
  import opened FlowText
  import RoundTrip

  // ---------- what is spelled is delivered ----------

  lemma {:induction false} NoEndPiece(p: Placed)
    requires PieceOk(p)
    ensures var ts := PieceTokens(p); ts != [] && !ts[|ts| - 1].StreamEndToken?
  {
    hide FormToken, TagFormParts, FormOk, TagFormOk;
    if p.piece.ScalarPiece? { assert FormToken(p.piece.form).ScalarToken? by { Scalars(p.piece.form); } }
  }

  lemma Scalars(form: Form)
    requires FormOk(form)
    ensures FormToken(form).ScalarToken?
  {
  }

  lemma {:induction false} NoEnds(ps: seq<Placed>)
    requires AllOk(ps) && ps != []
    ensures var ts := PiecesTokens(ps); ts != [] && !ts[|ts| - 1].StreamEndToken?
    decreases |ps|
  {
    hide PieceTokens;
    NoEndPiece(ps[0]);
    if |ps| == 1 {
      assert PiecesTokens(ps) == PieceTokens(ps[0]) + [];
    } else {
      NoEnds(ps[1..]);
    }
  }

  lemma {:induction false} FlowDelivered(head: Preface, ps: seq<Placed>, tail: string)
    requires HeadOk(head) && ps != [] && Follow(RootSpot(head), ps) && AllOk(ps) && TailOk(tail)
    ensures ScanAll(StreamText(head, ps, tail)).Tokens()
         == [StreamStartToken] + HeadTokens(head) + PiecesTokens(ps) + [StreamEndToken]
  {
    hide PiecesTokens, PiecesText, Run, EndsOnce, DeliverFrom, FlowText.Follow, HeadText, HeadTokens, HeadOk;
    var t := StreamText(head, ps, tail);
    var n, done := StreamFetched(head, ps, tail, Fetcher(t));
    NoEnds(ps);
    EndsSo([StreamStartToken] + HeadTokens(head), PiecesTokens(ps));
    TextDelivered(t, n, done);
  }

  lemma EndsSo(before: seq<Token>, ts: seq<Token>)
    requires ts != [] && !ts[|ts| - 1].StreamEndToken?
    ensures EndsOnce(before + ts + [StreamEndToken])
  {
  }

  // ---------- and read ----------

  lemma {:induction false} NoMarkFirst(head: Preface, ps: seq<Placed>, tail: string)
    requires HeadOk(head) && ps != [] && Follow(RootSpot(head), ps) && AllOk(ps)
    ensures StreamText(head, ps, tail) != "" && StreamText(head, ps, tail)[0] in "[{&!%-"
  {
    hide FormText, FormOk, TagFormText, ValueText, LineOk;
    var p := ps[0];
    PieceFirst(p);
    if p.piece.TagPiece? { TagFirst(p.piece.tag); }
    assert PiecesText(ps)[0] == PieceText(p)[0];
    match head
    case Implicit => assert HeadText(head) + (PiecesText(ps) + tail) == PiecesText(ps) + tail;
    case Explicit(lines, space) =>
      if lines != [] { assert LinesText(lines)[0] == LineText(lines[0])[0] == '%'; }
  }

  /** The document that is one flow collection. */
  function Alone(explicit: bool, ds: seq<Directive>, x: Syntax): Document {
    Document(explicit, ds, x, 0)
  }

  lemma AloneTokens(explicit: bool, ds: seq<Directive>, x: Syntax)
    ensures StreamTokens([Alone(explicit, ds, x)])
         == [StreamStartToken] + (DirectiveTokens(ds) + (if explicit then [DocumentStartToken] else []))
            + SynTokens(x) + [StreamEndToken]
  {
    hide SynTokens, DirectiveTokens;
    assert DocumentsTokens([]) == [] && [Alone(explicit, ds, x)][1..] == [];
    assert EndTokens(0) == [];
  }

  /**
   Whatever a text of pieces spells by the grammar, in whatever styles, blanks and line breaks, it is
   read as what the derivation denotes: anchors, aliases and tags included, with the prefixes that
   directives declare, and errors of meaning too.
   */
  lemma {:induction false} FlowReadBack(head: Preface, ps: seq<Placed>, tail: string, ds: seq<Directive>, x: Syntax,
                                        lib: Library)
    requires HeadOk(head) && ps != [] && Follow(RootSpot(head), ps) && AllOk(ps) && TailOk(tail)
    requires AllReadable(StreamText(head, ps, tail)) && SynTokens(x) == PiecesTokens(ps)
    requires HeadTokens(head) == DirectiveTokens(ds) + if head.Explicit? then [DocumentStartToken] else []
    requires LegalStream([Alone(head.Explicit?, ds, x)])
    ensures RoundTrip.ReadBack(EncodeAll(StreamText(head, ps, tail)), lib)
         == FirstValue([Alone(head.Explicit?, ds, x)], lib)
  {
    hide PiecesTokens, PiecesText, DeliverFrom, LegalStream, SynTokens, DecodeStream, EncodeAll, RoundTrip.Read,
      FirstValue, AllReadable, FlowText.Follow, HeadText, HeadTokens, HeadOk, DirectiveTokens;
    NoMarkFirst(head, ps, tail);
    StreamsDecoded(Utf8, StreamText(head, ps, tail));
    FlowDelivered(head, ps, tail);
    AloneTokens(head.Explicit?, ds, x);
    StreamRead([Alone(head.Explicit?, ds, x)], lib);
  }
}
