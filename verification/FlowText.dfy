/**
 Text of flow collections, piece by piece: brackets, indicators, scalars in any style, anchors, tags
 and aliases, with blanks and line breaks between them. The scanner fetches it as the tokens it
 spells.
 */
module FlowText {
  import opened Chars
  import opened ScalarScan
  import opened Options
  import opened Resolve
  import opened Tokens
  import opened Scanner
  import opened ScanSteps
  import opened Spelling
  import opened NameSpelling
  import NameScan

  datatype Form = PlainForm(v: string) | QuotedForm(single: bool, units: seq<Unit>)

  datatype Piece =
    | Open(isMap: bool)
    | Close(isMap: bool)
    | Comma
    | Question
    | Colon
    | ScalarPiece(form: Form)
    | KeyPiece(form: Form, space: string)   // a scalar, and the ':' of a key behind it
    | AliasPiece(name: string)
    | AnchorPiece(name: string)
    | TagPiece(tag: TagForm)

  /** A piece, and what separates it from the next. */
  datatype Placed = Placed(piece: Piece, gap: string)

  // ---------- what is written ----------

  predicate FormOk(f: Form) {
    match f
    case PlainForm(v) => FlowPlain(v)
    case QuotedForm(single, units) => UnitsOk(units, single)
  }

  function FormText(f: Form): string
    requires FormOk(f)
  {
    match f
    case PlainForm(v) => v
    case QuotedForm(single, units) => QuoteMark(single) + UnitsText(units, single) + QuoteMark(single)
  }

  predicate NameOk(name: string) {
    name != "" && IsName(name)
  }

  predicate PieceOk(p: Placed) {
    && Gap(p.gap)
    && match p.piece
       case Colon => p.gap != ""
       case ScalarPiece(form) => FormOk(form)
       case KeyPiece(form, space) =>
         FormOk(form) && Blanks(space) && |FormText(form)| + |space| <= 1024 && (form.PlainForm? ==> p.gap != "")
       case AliasPiece(name) => NameOk(name)
       case AnchorPiece(name) => NameOk(name) && p.gap != ""
       case TagPiece(tag) => TagFormOk(tag) && p.gap != ""
       case _ => true
  }

  function PieceText(p: Placed): (s: string)
    requires PieceOk(p)
  {
    match p.piece
    case Open(isMap) => if isMap then "{" else "["
    case Close(isMap) => if isMap then "}" else "]"
    case Comma => ","
    case Question => "?"
    case Colon => ":"
    case ScalarPiece(form) => FormText(form)
    case KeyPiece(form, space) => FormText(form) + (space + ":")
    case AliasPiece(name) => "*" + name
    case AnchorPiece(name) => "&" + name
    case TagPiece(tag) => TagFormText(tag)
  }

  predicate AllOk(ps: seq<Placed>) {
    forall i :: 0 <= i < |ps| ==> PieceOk(ps[i])
  }

  function PiecesText(ps: seq<Placed>): string
    requires AllOk(ps)
  {
    if ps == [] then "" else PieceText(ps[0]) + (ps[0].gap + PiecesText(ps[1..]))
  }

  // ---------- what it spells ----------

  function FormToken(f: Form): Token
    requires FormOk(f)
  {
    match f
    case PlainForm(v) => ScalarToken(v, Plain)
    case QuotedForm(single, units) =>
      ScalarToken(UnitsValue(units, single), if single then SingleQuoted else DoubleQuoted)
  }

  function PieceTokens(p: Placed): seq<Token>
    requires PieceOk(p)
  {
    match p.piece
    case Open(isMap) => [if isMap then FlowMappingStartToken else FlowSequenceStartToken]
    case Close(isMap) => [if isMap then FlowMappingEndToken else FlowSequenceEndToken]
    case Comma => [FlowEntryToken]
    case Question => [KeyToken]
    case Colon => [ValueToken]
    case ScalarPiece(form) => [FormToken(form)]
    case KeyPiece(form, _) => [KeyToken, FormToken(form), ValueToken]
    case AliasPiece(name) => [AliasToken(name)]
    case AnchorPiece(name) => [AnchorToken(name)]
    case TagPiece(tag) => [TagToken(TagFormParts(tag).0, TagFormParts(tag).1)]
  }

  function PiecesTokens(ps: seq<Placed>): seq<Token>
    requires AllOk(ps)
  {
    if ps == [] then [] else PieceTokens(ps[0]) + PiecesTokens(ps[1..])
  }

  // ---------- where a piece may stand ----------

  /** Where a node may begin afresh, where one is expected, and behind one. */
  datatype Mode = Fresh | Expected | Done

  /** `free`: nothing in the collection at hand can be the simple key of a coming ':'. */
  datatype Spot = Spot(depth: nat, mode: Mode, free: bool)

  predicate MayStand(spot: Spot, p: Placed) {
    match p.piece
    case Open(_) => spot.mode != Done && spot.depth < MAX_FLOW_LEVEL
    case Close(_) => spot.depth > 0
    case Comma => spot.depth > 0
    case Question => spot.depth > 0 && spot.mode != Done
    case Colon => spot.depth > 0 && spot.free
    case ScalarPiece(_) => spot.depth > 0 && spot.mode != Done
    case KeyPiece(_, _) => spot.depth > 0 && spot.mode == Fresh
    case AliasPiece(_) => spot.depth > 0 && spot.mode != Done
    case AnchorPiece(_) => spot.mode != Done && (spot.depth == 0 ==> OnlySpaces(p.gap))
    case TagPiece(_) => spot.mode != Done && (spot.depth == 0 ==> OnlySpaces(p.gap))
  }

  predicate OnlySpaces(s: string) {
    forall i :: 0 <= i < |s| ==> s[i] == ' '
  }

  function SpotAfter(spot: Spot, p: Placed): Spot
    requires MayStand(spot, p)
  {
    match p.piece
    case Open(_) => Spot(spot.depth + 1, Fresh, true)
    case Close(_) => Spot(spot.depth - 1, Done, false)
    case Comma => Spot(spot.depth, Fresh, true)
    case Question => Spot(spot.depth, Expected, true)
    case Colon => Spot(spot.depth, Expected, true)
    case KeyPiece(_, _) => Spot(spot.depth, Expected, true)
    case AnchorPiece(_) => Spot(spot.depth, Expected, spot.free && spot.mode != Fresh)
    case TagPiece(_) => Spot(spot.depth, Expected, spot.free && spot.mode != Fresh)
    case _ => Spot(spot.depth, Done, spot.free && spot.mode != Fresh)
  }

  /** From the spot on the pieces may follow one another, until the outermost collection is closed. */
  predicate Follow(spot: Spot, ps: seq<Placed>)
    decreases |ps|
  {
    if ps == [] then spot.depth == 0 && spot.mode == Done
    else
      && PieceOk(ps[0]) && MayStand(spot, ps[0])
      && (SpotAfter(spot, ps[0]).depth == 0 && ps[0].piece.Close? ==> |ps| == 1 && ps[0].gap == "")
      && Follow(SpotAfter(spot, ps[0]), ps[1..])
  }

  lemma {:induction false} FollowOk(spot: Spot, ps: seq<Placed>)
    requires Follow(spot, ps)
    ensures AllOk(ps)
    decreases |ps|
  {
    if ps != [] {
      FollowOk(SpotAfter(spot, ps[0]), ps[1..]);
      forall i | 0 <= i < |ps| ensures PieceOk(ps[i]) {
        if i > 0 { assert ps[i] == ps[1..][i - 1]; }
      }
    }
  }

  // ---------- where the scanner is ----------

  predicate NoneRequired(keys: seq<Option<SimpleKey>>) {
    forall i :: 0 <= i < |keys| && keys[i].Some? ==> !keys[i].value.required
  }

  /** The scanner, before blanks are passed, is about to read the piece at k. */
  ghost predicate AtPiece(t: string, sc: State, k: nat, spot: Spot) {
    && sc.started && sc.parsed <= |sc.tokens| && (sc.flow == 0 ==> sc.indent < Settled(t, sc).mark.column)
    && sc.flow == spot.depth && |sc.keys| == spot.depth + 1 && NoneRequired(sc.keys)
    && Settled(t, sc).mark.index == k
    && (spot.mode == Fresh ==> Settled(t, sc).keyAllowed)
    && (spot.mode == Expected ==> !Settled(t, sc).keyAllowed)
    && (spot.free ==> sc.keys[spot.depth].None?)
  }

  /** Reading a piece leaves the blocks around it as they are. */
  ghost predicate Same(sc: State, sc1: State) {
    sc1.indent == sc.indent && sc1.indents == sc.indents && sc1.parsed == sc.parsed
  }

  /** In a block, line breaks must not be followed by tabs. */
  predicate NoTabs(p: Placed) {
    Tabless(p.gap) && (p.piece.KeyPiece? ==> Tabless(p.piece.space))
  }

  predicate NoTabsIn(ps: seq<Placed>) {
    forall i :: 0 <= i < |ps| ==> NoTabs(ps[i])
  }

  lemma {:induction false} GapSettles(t: string, m: Mark, flow: nat, allowed: bool, gap: string)
    requires Gap(gap) && (flow == 0 ==> OnlySpaces(gap)) && Reads(t, m.index, gap)
    requires !BlankOrBreak(Ch(t, m.index + |gap|))
    ensures Settle(t, m, flow, allowed).0.index == m.index + |gap| && Settle(t, m, flow, allowed).1 == allowed
    ensures Blanks(gap) ==> Settle(t, m, flow, allowed).0 == Advance(m, |gap|)
    decreases |gap|
  {
    if gap != "" {
      ReadsFirst(t, m.index, gap);
      var c := gap[0];
      if IsBlank(c) {
        GapSettles(t, Skip(m), flow, allowed, gap[1..]);
      } else if c == '\r' && Ch(t, m.index + 1) == '\n' {
        assert |gap| > 1;
        ReadsFirst(t, m.index + 1, gap[1..]);
        assert gap[1..][1..] == gap[2..];
        GapSettles(t, SkipLine(t, m), flow, allowed, gap[2..]);
      } else {
        GapSettles(t, SkipLine(t, m), flow, allowed, gap[1..]);
      }
    }
  }

  /** What is fetched at a piece that is no ':' behind a possible key. */
  lemma PieceNext(t: string, f: State -> Fetched, sc: State, k: nat, spot: Spot)
    requires Fetches(t, f) && AtPiece(t, sc, k, spot) && (Ch(t, k) == ':' ==> spot.free)
    ensures f(sc) == Dispatch(t, Settled(t, sc))
  {
    hide Dispatch, Settle, KeyValid;
    assert Prepared(t, sc) == Settled(t, sc);
    assert KeysInTime(sc);
    FetchesNext(t, f, sc);
  }

  /** The state with the next token's key saved where one may start. */
  ghost function Saved(s: State): State
    requires s.keys != []
  {
    if s.keyAllowed then s.(keys := s.keys[|s.keys| - 1 := Some(SimpleKey(false, |s.tokens|, s.mark))]) else s
  }

  lemma SaveIs(s: State)
    requires s.keys != [] && NoneRequired(s.keys) && (s.flow == 0 ==> s.indent < s.mark.column)
    ensures SaveKey(s) == Ok(Saved(s)) && NoneRequired(Saved(s).keys) && |Saved(s).keys| == |s.keys|
    ensures RemoveKey(s) == Ok(s.(keys := s.keys[|s.keys| - 1 := None])) && NoneRequired(RemoveKey(s).value.keys)
    ensures !s.keyAllowed ==> Saved(s).keys == s.keys
  {
    var last := |s.keys| - 1;
    var k := Some(SimpleKey(false, |s.tokens|, s.mark));
    assert s.keys[last := None][last := k] == s.keys[last := k];
  }

  // ---------- single pieces ----------

  /** The text at k begins with the piece and what is behind it. */
  ghost predicate Written(t: string, k: nat, p: Placed)
    requires PieceOk(p)
  {
    Reads(t, k, PieceText(p)) && Reads(t, k + |PieceText(p)|, p.gap)
  }

  function EndOf(k: nat, p: Placed): nat
    requires PieceOk(p)
  {
    k + |PieceText(p)| + |p.gap|
  }

  /** The scanner behind a piece whose end is at m. */
  lemma Arrived(t: string, sc1: State, p: Placed, k: nat, after: Spot)
    requires PieceOk(p) && Reads(t, sc1.mark.index, p.gap) && sc1.mark.index + |p.gap| == EndOf(k, p)
    requires !BlankOrBreak(Ch(t, EndOf(k, p))) && (sc1.flow == 0 ==> OnlySpaces(p.gap))
    requires sc1.started && sc1.parsed <= |sc1.tokens| && (sc1.flow == 0 ==> sc1.indent < sc1.mark.column)
    requires sc1.flow == after.depth && |sc1.keys| == after.depth + 1 && NoneRequired(sc1.keys)
    requires (after.mode == Fresh ==> sc1.keyAllowed) && (after.mode == Expected ==> !sc1.keyAllowed)
    requires after.free ==> sc1.keys[after.depth].None?
    ensures AtPiece(t, sc1, EndOf(k, p), after)
  {
    GapSettles(t, sc1.mark, sc1.flow, sc1.keyAllowed, p.gap);
  }

  lemma OneChar(t: string, k: nat, p: Placed)
    requires PieceOk(p) && Written(t, k, p)
    requires p.piece.Open? || p.piece.Close? || p.piece.Comma? || p.piece.Question? || p.piece.Colon?
    ensures |PieceText(p)| == 1 && Ch(t, k) == PieceText(p)[0] && Reads(t, k + 1, p.gap)
  {
    ReadsFirst(t, k, PieceText(p));
  }

  /** The characters that begin a token of their own in a flow collection. */
  lemma IndicatorDispatch(t: string, s: State)
    ensures var c := Ch(t, s.mark.index);
      && (c == '[' ==> Dispatch(t, s) == FetchFlowStart(s, FlowSequenceStartToken))
      && (c == '{' ==> Dispatch(t, s) == FetchFlowStart(s, FlowMappingStartToken))
      && (c == ']' ==> Dispatch(t, s) == FetchFlowEnd(s, FlowSequenceEndToken))
      && (c == '}' ==> Dispatch(t, s) == FetchFlowEnd(s, FlowMappingEndToken))
      && (c == ',' ==> Dispatch(t, s) == FetchFlowEntry(s))
      && (c == '?' && s.flow > 0 ==> Dispatch(t, s) == FetchKey(s))
      && (c == ':' && s.flow > 0 ==> Dispatch(t, s) == FetchValue(s))
      && (c == '\'' ==> Dispatch(t, s) == FetchFlowScalar(t, s, true))
      && (c == '"' ==> Dispatch(t, s) == FetchFlowScalar(t, s, false))
      && (c == '*' ==> Dispatch(t, s) == FetchAnchor(t, s, true))
      && (c == '&' ==> Dispatch(t, s) == FetchAnchor(t, s, false))
      && (c == '!' ==> Dispatch(t, s) == FetchTag(t, s))
  {
    hide FetchStreamEnd, FetchDirective, FetchDocumentIndicator, FetchFlowStart, FetchFlowEnd, FetchFlowEntry,
      FetchBlockEntry, FetchKey, FetchValue, FetchAnchor, FetchTag, FetchFlowScalar, FetchPlainScalar, StartsPlain;
  }

  lemma OpenRead(t: string, f: State -> Fetched, sc: State, k: nat, spot: Spot, p: Placed) returns (sc1: State)
    requires Fetches(t, f) && AtPiece(t, sc, k, spot) && PieceOk(p) && p.piece.Open? && MayStand(spot, p)
    requires Written(t, k, p) && !BlankOrBreak(Ch(t, EndOf(k, p)))
    ensures f(sc) == Ok(sc1) && sc1.tokens == sc.tokens + PieceTokens(p)
    ensures AtPiece(t, sc1, EndOf(k, p), SpotAfter(spot, p))
    ensures Same(sc, sc1)
  {
    hide Dispatch, Settle;
    var s := Settled(t, sc);
    OneChar(t, k, p);
    PieceNext(t, f, sc, k, spot);
    IndicatorDispatch(t, s);
    SaveIs(s);
    sc1 := f(sc).value;
    assert sc1.keys == Saved(s).keys + [None];
    Arrived(t, sc1, p, k, SpotAfter(spot, p));
  }

  lemma CloseRead(t: string, f: State -> Fetched, sc: State, k: nat, spot: Spot, p: Placed) returns (sc1: State)
    requires Fetches(t, f) && AtPiece(t, sc, k, spot) && PieceOk(p) && p.piece.Close? && MayStand(spot, p)
    requires Written(t, k, p) && !BlankOrBreak(Ch(t, EndOf(k, p))) && spot.depth > 1
    ensures f(sc) == Ok(sc1) && sc1.tokens == sc.tokens + PieceTokens(p)
    ensures AtPiece(t, sc1, EndOf(k, p), SpotAfter(spot, p))
    ensures Same(sc, sc1)
  {
    hide Dispatch, Settle;
    var s := Settled(t, sc);
    OneChar(t, k, p);
    PieceNext(t, f, sc, k, spot);
    IndicatorDispatch(t, s);
    SaveIs(s);
    sc1 := f(sc).value;
    Arrived(t, sc1, p, k, SpotAfter(spot, p));
  }

  lemma MarkRead(t: string, f: State -> Fetched, sc: State, k: nat, spot: Spot, p: Placed) returns (sc1: State)
    requires Fetches(t, f) && AtPiece(t, sc, k, spot) && PieceOk(p) && MayStand(spot, p)
    requires p.piece.Comma? || p.piece.Question? || p.piece.Colon?
    requires Written(t, k, p) && !BlankOrBreak(Ch(t, EndOf(k, p)))
    ensures f(sc) == Ok(sc1) && sc1.tokens == sc.tokens + PieceTokens(p)
    ensures AtPiece(t, sc1, EndOf(k, p), SpotAfter(spot, p))
    ensures Same(sc, sc1)
  {
    hide Dispatch, Settle, KeyValid;
    var s := Settled(t, sc);
    OneChar(t, k, p);
    PieceNext(t, f, sc, k, spot);
    IndicatorDispatch(t, s);
    SaveIs(s);
    sc1 := f(sc).value;
    Arrived(t, sc1, p, k, SpotAfter(spot, p));
  }

  // ---------- scalars and names ----------

  /** What comes behind a scalar and its gap: an indicator that ends it, and no quote that goes on with it. */
  predicate EndsForm(t: string, k: nat, form: Form, gap: string)
    requires FormOk(form)
  {
    var end := k + |FormText(form)|;
    && !BlankOrBreak(Ch(t, end + |gap|))
    && (form.PlainForm? ==> StopsFlowPlain(t, end + |gap|))
    && (form.QuotedForm? && form.single ==> Ch(t, end) != '\'')
  }

  /** The scanner behind a scalar: its token is queued, and perhaps a key is saved for it. */
  ghost predicate FormTaken(t: string, s: State, r: State, form: Form, gap: string)
    requires FormOk(form) && s.keys != []
  {
    && r == Saved(s).(tokens := s.tokens + [FormToken(form)], mark := r.mark, keyAllowed := r.keyAllowed)
    && Settled(t, r).mark.index == s.mark.index + |FormText(form)| + |gap|
    && (Blanks(gap) ==> Settled(t, r).mark.line == s.mark.line)
  }

  lemma PlainDispatch(j: PlainJob, s: State)
    requires JobOk(j) && JobText(j) && j.flow == s.flow && j.m == s.mark
    ensures Dispatch(j.t, s) == FetchPlainScalar(j.t, s)
  {
    hide FetchStreamEnd, FetchDirective, FetchDocumentIndicator, FetchFlowStart, FetchFlowEnd, FetchFlowEntry,
      FetchBlockEntry, FetchKey, FetchValue, FetchAnchor, FetchTag, FetchFlowScalar, FetchPlainScalar, StopsFlowPlain,
      DocIndicatorAt;
    var v := j.v;
    PlainBegins(j);
    JobChar(j, 0);
    assert PlainCharAt(v, 0);
    if |v| > 1 { JobChar(j, 1); }
  }

  lemma PlainFetched(t: string, s: State, v: string, gap: string)
    requires s.keys != [] && s.flow > 0 && (s.indent < 0 || Tabless(gap)) && NoneRequired(s.keys) && FlowPlain(v)
    requires Gap(gap)
    requires Reads(t, s.mark.index, v) && Reads(t, s.mark.index + |v|, gap)
    requires EndsForm(t, s.mark.index, PlainForm(v), gap)
    ensures Dispatch(t, s).Ok? && FormTaken(t, s, Dispatch(t, s).value, PlainForm(v), gap)
  {
    hide Dispatch, StopsFlowPlain;
    var j := PlainJob(t, s.flow, s.indent + 1, s.mark, v, gap);
    PlainDispatch(j, s);
    SaveIs(s);
    var end, next, leads := PlainIsRead(j);
    var r := Dispatch(t, s).value;
    assert r.mark == next;
    GapSettles(t, next, s.flow, r.keyAllowed, "");
  }

  lemma {:induction false} QuotedFetched(t: string, s: State, single: bool, units: seq<Unit>, gap: string)
    requires s.keys != [] && s.flow > 0 && (s.indent < 0 || Tabless(gap)) && NoneRequired(s.keys)
    requires UnitsOk(units, single) && Gap(gap)
    requires var form := QuotedForm(single, units);
      && Reads(t, s.mark.index, FormText(form)) && Reads(t, s.mark.index + |FormText(form)|, gap)
      && EndsForm(t, s.mark.index, form, gap)
    ensures Dispatch(t, s).Ok? && FormTaken(t, s, Dispatch(t, s).value, QuotedForm(single, units), gap)
  {
    hide Dispatch, UnitsText, UnitsValue, Settle, UnitOk;
    var form := QuotedForm(single, units);
    var n := |UnitsText(units, single)| + 2;
    assert |FormText(form)| == n;
    ReadsFirst(t, s.mark.index, FormText(form));
    IndicatorDispatch(t, s);
    SaveIs(s);
    QuotedIsRead(t, single, s.mark, units);
    GapSettles(t, Advance(s.mark, n), s.flow, false, gap);
    var r := Dispatch(t, s).value;
    assert r.mark == Advance(s.mark, n) && r.flow == s.flow && !r.keyAllowed;
  }

  lemma {:induction false} FormFetched(t: string, s: State, form: Form, gap: string)
    requires s.keys != [] && s.flow > 0 && (s.indent < 0 || Tabless(gap)) && NoneRequired(s.keys) && FormOk(form)
    requires Gap(gap)
    requires Reads(t, s.mark.index, FormText(form)) && Reads(t, s.mark.index + |FormText(form)|, gap)
    requires EndsForm(t, s.mark.index, form, gap)
    ensures Dispatch(t, s).Ok? && FormTaken(t, s, Dispatch(t, s).value, form, gap)
  {
    hide Dispatch, FlowPlain;
    match form
    case PlainForm(v) => PlainFetched(t, s, v, gap);
    case QuotedForm(single, units) => QuotedFetched(t, s, single, units, gap);
  }

  lemma {:induction false} FormFirst(form: Form)
    requires FormOk(form)
    ensures FormText(form) != "" && FormText(form)[0] != ':' && !BlankOrBreak(FormText(form)[0])
  {
    if form.PlainForm? { assert PlainCharAt(form.v, 0); }
  }

  lemma {:induction false} ScalarRead(t: string, f: State -> Fetched, sc: State, k: nat, spot: Spot, p: Placed)
    returns (sc1: State)
    requires Fetches(t, f) && AtPiece(t, sc, k, spot) && PieceOk(p) && p.piece.ScalarPiece? && MayStand(spot, p)
    requires Written(t, k, p) && EndsForm(t, k, p.piece.form, p.gap)
    requires sc.indent < 0 || NoTabs(p)
    ensures f(sc) == Ok(sc1) && sc1.tokens == sc.tokens + PieceTokens(p)
    ensures AtPiece(t, sc1, EndOf(k, p), SpotAfter(spot, p))
    ensures Same(sc, sc1)
  {
    hide Dispatch, Settle, FormText, FormToken, FormOk, EndsForm;
    var s := Settled(t, sc);
    FormFirst(p.piece.form);
    ReadsFirst(t, k, PieceText(p));
    PieceNext(t, f, sc, k, spot);
    FormFetched(t, s, p.piece.form, p.gap);
    SaveIs(s);
    sc1 := f(sc).value;
  }

  /** The state behind a name of n characters. */
  ghost function BehindName(s: State, n: nat, token: Token): State
    requires s.keys != []
  {
    Saved(s).(tokens := s.tokens + [token], keyAllowed := false, mark := Advance(s.mark, n))
  }

  lemma {:induction false} AnchorFetched(t: string, s: State, alias: bool, name: string)
    requires s.keys != [] && NoneRequired(s.keys) && (s.flow == 0 ==> s.indent < s.mark.column)
    requires s.mark.index < |t| && NameOk(name) && Reads(t, s.mark.index + 1, name)
    requires var c := Ch(t, s.mark.index + 1 + |name|); IsBlankz(c) || c in ",]}:"
    ensures FetchAnchor(t, s, alias)
         == Ok(BehindName(s, 1 + |name|, if alias then AliasToken(name) else AnchorToken(name)))
  {
    hide NameScan.ScanAnchor, IsName;
    SaveIs(s);
    AnchorIsRead(t, s.mark.index, name);
  }

  lemma {:induction false} TagFetched(t: string, s: State, tag: TagForm)
    requires s.keys != [] && NoneRequired(s.keys) && (s.flow == 0 ==> s.indent < s.mark.column)
    requires s.mark.index < |t| && TagFormOk(tag) && Reads(t, s.mark.index, TagFormText(tag))
    requires IsBlankz(Ch(t, s.mark.index + |TagFormText(tag)|))
    ensures FetchTag(t, s)
         == Ok(BehindName(s, |TagFormText(tag)|, TagToken(TagFormParts(tag).0, TagFormParts(tag).1)))
  {
    hide NameScan.ScanTag, TagFormText, TagFormParts, TagFormOk, TagStops;
    SaveIs(s);
    BlankzStops(tag, Ch(t, s.mark.index + |TagFormText(tag)|));
    TagIsRead(t, s.mark.index, tag);
  }

  lemma {:induction false} NameRead(t: string, f: State -> Fetched, sc: State, k: nat, spot: Spot, p: Placed)
    returns (sc1: State)
    requires Fetches(t, f) && AtPiece(t, sc, k, spot) && PieceOk(p) && MayStand(spot, p)
    requires p.piece.AliasPiece? || p.piece.AnchorPiece?
    requires Written(t, k, p) && !BlankOrBreak(Ch(t, EndOf(k, p)))
    requires p.gap == "" ==> Ch(t, EndOf(k, p)) in ",]}:"
    ensures f(sc) == Ok(sc1) && sc1.tokens == sc.tokens + PieceTokens(p)
    ensures AtPiece(t, sc1, EndOf(k, p), SpotAfter(spot, p))
    ensures Same(sc, sc1)
  {
    hide Dispatch, Settle, FetchAnchor, IsName;
    var s := Settled(t, sc);
    var name := p.piece.name;
    ReadsFirst(t, k, PieceText(p));
    assert PieceText(p)[1..] == name;
    if p.gap != "" { ReadsFirst(t, k + 1 + |name|, p.gap); }
    InText(t, k);
    PieceNext(t, f, sc, k, spot);
    IndicatorDispatch(t, s);
    SaveIs(s);
    AnchorFetched(t, s, p.piece.AliasPiece?, name);
    sc1 := f(sc).value;
    assert sc1.mark == Advance(s.mark, 1 + |name|);
    Arrived(t, sc1, p, k, SpotAfter(spot, p));
  }

  lemma InText(t: string, k: nat)
    requires Ch(t, k) != NUL
    ensures k < |t|
  {
  }

  lemma TagFirst(tag: TagForm)
    ensures TagFormText(tag) != "" && TagFormText(tag)[0] == '!'
  {
    hide UriText;
  }

  lemma {:induction false} TagRead(t: string, f: State -> Fetched, sc: State, k: nat, spot: Spot, p: Placed)
    returns (sc1: State)
    requires Fetches(t, f) && AtPiece(t, sc, k, spot) && PieceOk(p) && MayStand(spot, p) && p.piece.TagPiece?
    requires Written(t, k, p) && !BlankOrBreak(Ch(t, EndOf(k, p)))
    ensures f(sc) == Ok(sc1) && sc1.tokens == sc.tokens + PieceTokens(p)
    ensures AtPiece(t, sc1, EndOf(k, p), SpotAfter(spot, p))
    ensures Same(sc, sc1)
  {
    hide Dispatch, Settle, FetchTag, TagFormText, TagFormParts, TagFormOk;
    var s := Settled(t, sc);
    TagFirst(p.piece.tag);
    ReadsFirst(t, k, PieceText(p));
    ReadsFirst(t, k + |PieceText(p)|, p.gap);
    InText(t, k);
    PieceNext(t, f, sc, k, spot);
    IndicatorDispatch(t, s);
    SaveIs(s);
    TagFetched(t, s, p.piece.tag);
    sc1 := f(sc).value;
    assert sc1.mark == Advance(s.mark, |PieceText(p)|);
    Arrived(t, sc1, p, k, SpotAfter(spot, p));
  }

  // ---------- keys ----------

  /** The ':' behind a key on its line. */
  lemma KeyColonRead(t: string, f: State -> Fetched, s: State, r: State, form: Form, space: string, k: nat, p: Placed,
                     spot: Spot)
    returns (sc1: State)
    requires Fetches(t, f) && FormOk(form) && PieceOk(p) && p.piece == KeyPiece(form, space) && MayStand(spot, p)
    requires s.started && s.parsed <= |s.tokens| && s.flow == spot.depth && |s.keys| == spot.depth + 1
    requires NoneRequired(s.keys) && s.keyAllowed && s.mark.index == k && FormTaken(t, s, r, form, space)
    requires Ch(t, k + |FormText(form)| + |space|) == ':' && Reads(t, k + |PieceText(p)|, p.gap)
    requires !BlankOrBreak(Ch(t, EndOf(k, p)))
    ensures f(r) == Ok(sc1) && sc1.tokens == s.tokens + PieceTokens(p)
    ensures AtPiece(t, sc1, EndOf(k, p), SpotAfter(spot, p))
    ensures Same(s, sc1)
  {
    hide Dispatch, Settle, FormText, FormToken, FormOk;
    var q := Settled(t, r);
    var last := spot.depth;
    var key := SimpleKey(false, |s.tokens|, s.mark);
    SaveIs(s);
    assert r.keys[last] == Some(key);
    assert Prepared(t, r) == q && KeysInTime(r);
    assert |PieceText(p)| == |FormText(form)| + |space| + 1;
    FetchesNext(t, f, r);
    IndicatorDispatch(t, q);
    assert KeyValid(q, key);
    InsertBeforeLast(q, s.tokens, [FormToken(form)], KeyToken);
    sc1 := f(r).value;
    assert sc1.tokens == s.tokens + [KeyToken] + [FormToken(form)] + [ValueToken];
    assert NoneRequired(sc1.keys);
    Arrived(t, sc1, p, k, SpotAfter(spot, p));
  }

  lemma {:induction false} KeyRead(t: string, f: State -> Fetched, sc: State, k: nat, spot: Spot, p: Placed)
    returns (sc1: State)
    requires Fetches(t, f) && AtPiece(t, sc, k, spot) && PieceOk(p) && p.piece.KeyPiece? && MayStand(spot, p)
    requires Written(t, k, p) && !BlankOrBreak(Ch(t, EndOf(k, p)))
    requires sc.indent < 0 || NoTabs(p)
    ensures Run(f, sc, 2) == Ok(sc1) && sc1.tokens == sc.tokens + PieceTokens(p)
    ensures AtPiece(t, sc1, EndOf(k, p), SpotAfter(spot, p))
    ensures Same(sc, sc1)
  {
    hide Dispatch, Settle, FormText, FormToken, FormOk, Run, FormTaken;
    var s := Settled(t, sc);
    var form, space := p.piece.form, p.piece.space;
    FormFirst(form);
    ReadsPart(t, k, FormText(form), space + ":");
    ReadsPart(t, k + |FormText(form)|, space, ":");
    ReadsFirst(t, k + |FormText(form)| + |space|, ":");
    ReadsFirst(t, k, FormText(form));
    ColonEnds(t, k, p);
    PieceNext(t, f, sc, k, spot);
    assert Gap(space);
    FormFetched(t, s, form, space);
    var r := f(sc).value;
    sc1 := KeyColonRead(t, f, s, r, form, space, k, p, spot);
    RunTwo(f, sc, r, sc1);
  }

  lemma ColonEnds(t: string, k: nat, p: Placed)
    requires PieceOk(p) && p.piece.KeyPiece? && Written(t, k, p)
    ensures EndsForm(t, k, p.piece.form, p.piece.space)
  {
    hide FormText, FormOk;
    var form, space := p.piece.form, p.piece.space;
    ReadsPart(t, k, FormText(form), space + ":");
    ReadsPart(t, k + |FormText(form)|, space, ":");
    var c := k + |FormText(form)| + |space|;
    ReadsFirst(t, c, ":");
    if space != "" { ReadsFirst(t, k + |FormText(form)|, space); }
    if p.gap != "" { ReadsFirst(t, k + |PieceText(p)|, p.gap); }
    assert |PieceText(p)| == |FormText(form)| + |space| + 1;
  }

  // ---------- pieces in a row ----------

  lemma PieceFirst(p: Placed)
    requires PieceOk(p)
    ensures PieceText(p) != "" && !BlankOrBreak(PieceText(p)[0])
    ensures p.piece.Close? || p.piece.Comma? ==> PieceText(p)[0] in ",]}" && |PieceText(p)| == 1
    ensures p.piece.Colon? ==> PieceText(p) == ":"
  {
    hide FormText, FormOk, TagFormText;
    match p.piece
    case ScalarPiece(form) => FormFirst(form);
    case KeyPiece(form, _) => FormFirst(form);
    case TagPiece(tag) => TagFirst(tag);
    case _ =>
  }

  /** What the next piece begins with. */
  lemma {:induction false} NextChar(t: string, k: nat, spot: Spot, ps: seq<Placed>)
    requires ps != [] && Follow(spot, ps)
    requires AllOk(ps) && Reads(t, k, PiecesText(ps))
    ensures !BlankOrBreak(Ch(t, k))
    ensures spot.mode == Done ==> Ch(t, k) in ",]}:" && StopsFlowPlain(t, k)
  {
    hide PieceText;
    var p := ps[0];
    var rest := p.gap + PiecesText(ps[1..]);
    ReadsPart(t, k, PieceText(p), rest);
    PieceFirst(p);
    ReadsFirst(t, k, PieceText(p));
    if p.piece.Colon? {
      ReadsPart(t, k + 1, p.gap, PiecesText(ps[1..]));
      ReadsFirst(t, k + 1, p.gap);
    }
  }

  /** One piece that does not close the outermost collection. */
  lemma {:induction false} PieceRead(t: string, f: State -> Fetched, sc: State, k: nat, spot: Spot, ps: seq<Placed>)
    returns (n: nat, sc1: State)
    requires Fetches(t, f) && AtPiece(t, sc, k, spot) && |ps| > 1 && Follow(spot, ps)
    requires AllOk(ps) && Reads(t, k, PiecesText(ps))
    requires sc.indent < 0 || NoTabs(ps[0])
    ensures Run(f, sc, n) == Ok(sc1) && sc1.tokens == sc.tokens + PieceTokens(ps[0])
    ensures AtPiece(t, sc1, EndOf(k, ps[0]), SpotAfter(spot, ps[0]))
    ensures Reads(t, EndOf(k, ps[0]), PiecesText(ps[1..]))
    ensures Same(sc, sc1)
  {
    hide PieceText, AtPiece, Run, PieceTokens, Reads, EndsForm;
    var p := ps[0];
    var after := SpotAfter(spot, p);
    var rest := PiecesText(ps[1..]);
    ReadsPart(t, k, PieceText(p), p.gap + rest);
    ReadsPart(t, k + |PieceText(p)|, p.gap, rest);
    NextChar(t, EndOf(k, p), after, ps[1..]);
    n := 1;
    match p.piece {
      case Open(_) => sc1 := OpenRead(t, f, sc, k, spot, p);
      case Close(_) => sc1 := CloseRead(t, f, sc, k, spot, p);
      case Comma => sc1 := MarkRead(t, f, sc, k, spot, p);
      case Question => sc1 := MarkRead(t, f, sc, k, spot, p);
      case Colon => sc1 := MarkRead(t, f, sc, k, spot, p);
      case ScalarPiece(form) =>
        FormEnds(t, k, p);
        sc1 := ScalarRead(t, f, sc, k, spot, p);
      case KeyPiece(_, _) =>
        n := 2;
        sc1 := KeyRead(t, f, sc, k, spot, p);
      case AliasPiece(_) => sc1 := NameRead(t, f, sc, k, spot, p);
      case AnchorPiece(_) => sc1 := NameRead(t, f, sc, k, spot, p);
      case TagPiece(_) => sc1 := TagRead(t, f, sc, k, spot, p);
    }
    if n == 1 { RunOne(f, sc, sc1); }
  }

  lemma FormEnds(t: string, k: nat, p: Placed)
    requires PieceOk(p) && p.piece.ScalarPiece? && Written(t, k, p) && StopsFlowPlain(t, EndOf(k, p))
    requires Ch(t, EndOf(k, p)) in ",]}:"
    ensures EndsForm(t, k, p.piece.form, p.gap)
  {
    hide FormText, FormOk;
    if p.gap != "" { ReadsFirst(t, k + |PieceText(p)|, p.gap); }
  }

  /** The outermost collection is closed at k. */
  ghost predicate Closed(sc: State, k: nat) {
    && sc.started && sc.flow == 0 && |sc.keys| == 1 && NoneRequired(sc.keys) && !sc.keyAllowed
    && sc.mark.index == k && sc.parsed <= |sc.tokens|
  }

  lemma LastRead(t: string, f: State -> Fetched, sc: State, k: nat, spot: Spot, p: Placed) returns (sc1: State)
    requires Fetches(t, f) && AtPiece(t, sc, k, spot) && PieceOk(p) && p.piece.Close? && spot.depth == 1
    requires Reads(t, k, PieceText(p))
    ensures f(sc) == Ok(sc1) && sc1.tokens == sc.tokens + PieceTokens(p) && Closed(sc1, k + 1) && Same(sc, sc1)
  {
    hide Dispatch, Settle;
    var s := Settled(t, sc);
    ReadsFirst(t, k, PieceText(p));
    PieceNext(t, f, sc, k, spot);
    IndicatorDispatch(t, s);
    SaveIs(s);
    sc1 := f(sc).value;
  }

  lemma {:induction false} PiecesRead(t: string, f: State -> Fetched, sc: State, k: nat, spot: Spot, ps: seq<Placed>)
    returns (n: nat, sc1: State)
    requires Fetches(t, f) && AtPiece(t, sc, k, spot) && ps != [] && Follow(spot, ps)
    requires AllOk(ps) && Reads(t, k, PiecesText(ps))
    requires sc.indent < 0 || NoTabsIn(ps)
    ensures Run(f, sc, n) == Ok(sc1) && sc1.tokens == sc.tokens + PiecesTokens(ps)
    ensures Same(sc, sc1)
    ensures Closed(sc1, k + |PiecesText(ps)|)
    decreases |ps|
  {
    hide PieceText, AtPiece, Run, PieceTokens, Closed, Reads, SpotAfter, MayStand;
    var p := ps[0];
    if |ps| == 1 {
      LastPiece(spot, ps);
      ReadsPart(t, k, PieceText(p), p.gap + PiecesText(ps[1..]));
      sc1 := LastRead(t, f, sc, k, spot, p);
      n := 1;
      RunOne(f, sc, sc1);
      assert sc.tokens + PieceTokens(p) == sc.tokens + (PieceTokens(p) + []);
    } else {
      var a, mid := PieceRead(t, f, sc, k, spot, ps);
      var b;
      b, sc1 := PiecesRead(t, f, mid, EndOf(k, p), SpotAfter(spot, p), ps[1..]);
      n := a + b;
      RunGoesOn(f, sc, a, mid, mid, b, sc1);
      assert sc.tokens + PieceTokens(p) + PiecesTokens(ps[1..]) == sc.tokens + PiecesTokens(ps);
    }
  }

  lemma LastPiece(spot: Spot, ps: seq<Placed>)
    requires |ps| == 1 && Follow(spot, ps) && AllOk(ps)
    ensures ps[0].piece.Close? && spot.depth == 1 && ps[0].gap == ""
    ensures PiecesTokens(ps) == PieceTokens(ps[0]) + [] && |PiecesText(ps)| == 1 && |PieceText(ps[0])| == 1
  {
    assert ps[1..] == [];
    assert PiecesText([]) == "" && PiecesTokens([]) == [];
    PieceFirst(ps[0]);
  }

  // ---------- the whole stream ----------

  /** What may stand behind the root: blanks and line breaks. */
  predicate TailOk(s: string) {
    forall i :: 0 <= i < |s| ==> s[i] == ' ' || IsBreak(s[i])
  }

  lemma {:induction false} TailSettles(t: string, m: Mark, allowed: bool, tail: string)
    requires TailOk(tail) && Reads(t, m.index, tail) && Ch(t, m.index + |tail|) == NUL
    ensures Settle(t, m, 0, allowed).0.index == m.index + |tail|
    decreases |tail|
  {
    if tail != "" {
      ReadsFirst(t, m.index, tail);
      if tail[0] == ' ' {
        TailSettles(t, Skip(m), allowed, tail[1..]);
      } else if tail[0] == '\r' && Ch(t, m.index + 1) == '\n' {
        assert |tail| > 1;
        ReadsFirst(t, m.index + 1, tail[1..]);
        assert tail[1..][1..] == tail[2..];
        TailSettles(t, SkipLine(t, m), true, tail[2..]);
      } else {
        TailSettles(t, SkipLine(t, m), true, tail[1..]);
      }
    }
  }

  lemma {:induction false} EndRead(t: string, f: State -> Fetched, sc: State, k: nat, tail: string)
    returns (done: State)
    requires Fetches(t, f) && Closed(sc, k) && sc.indent == -1 && TailOk(tail) && Reads(t, k, tail)
    requires Ch(t, k + |tail|) == NUL
    ensures f(sc) == Ok(done) && done.tokens == sc.tokens + [StreamEndToken] && done.keys == [None]
  {
    hide Settle;
    TailSettles(t, sc.mark, sc.keyAllowed, tail);
    var s := Settled(t, sc);
    assert Prepared(t, sc) == s && KeysInTime(sc);
    FetchesNext(t, f, sc);
    assert Dispatch(t, s) == FetchStreamEnd(s) by { AtEnd(t, s); }
    assert s.keys[0 := None] == [None];
    done := f(sc).value;
  }

  lemma AtEnd(t: string, s: State)
    requires Ch(t, s.mark.index) == NUL
    ensures Dispatch(t, s) == FetchStreamEnd(s)
  {
    hide FetchStreamEnd;
  }

  /** A directive with what is behind it on its line. */
  datatype Line = Line(form: DirectiveForm, gap: string, comment: string)

  /** What stands in front of the root: nothing, or directives and "---". */
  datatype Preface = Implicit | Explicit(lines: seq<Line>, space: string)

  predicate LineOk(l: Line) {
    DirectiveFormOk(l.form) && LineRest(l.gap, l.comment) && (l.comment != "" ==> l.gap != "")
  }

  predicate HeadOk(head: Preface) {
    head.Explicit? ==>
      head.space != "" && OnlySpaces(head.space) && LinesOk(head.lines)
  }

  predicate LinesOk(lines: seq<Line>) {
    forall i :: 0 <= i < |lines| ==> LineOk(lines[i])
  }

  function LineText(l: Line): string
    requires LineOk(l)
  {
    "%" + (DirectiveWord(l.form) + (ValueText(l.form) + (l.gap + l.comment))) + "\n"
  }

  function LinesText(lines: seq<Line>): string
    requires LinesOk(lines)
  {
    if lines == [] then "" else LineText(lines[0]) + LinesText(lines[1..])
  }

  function LineToken(l: Line): Token
    requires LineOk(l)
  {
    DirectiveToken(l.form)
  }

  function LinesTokens(lines: seq<Line>): seq<Token>
    requires LinesOk(lines)
  {
    if lines == [] then []
    else
      assert LineOk(lines[0]);
      [LineToken(lines[0])] + LinesTokens(lines[1..])
  }

  function HeadText(head: Preface): string
    requires HeadOk(head)
  {
    match head
    case Implicit => ""
    case Explicit(lines, space) => LinesText(lines) + ("---" + space)
  }

  function HeadTokens(head: Preface): seq<Token>
    requires HeadOk(head)
  {
    match head
    case Implicit => []
    case Explicit(lines, _) => LinesTokens(lines) + [DocumentStartToken]
  }

  /** Where the root stands: behind "---" no simple key may begin. */
  function RootSpot(head: Preface): Spot {
    Spot(0, if head.Implicit? then Fresh else Expected, true)
  }

  /** At the beginning of a line, outside everything. */
  ghost predicate AtLine(sc: State, k: nat) {
    && sc.started && sc.indent == -1 && sc.indents == [] && sc.parsed == 0 && sc.flow == 0 && sc.keys == [None]
    && sc.mark.index == k && sc.mark.column == 0
  }

  lemma LineNext(t: string, f: State -> Fetched, sc: State, k: nat)
    requires Fetches(t, f) && AtLine(sc, k) && !BlankOrBreak(Ch(t, k))
    ensures f(sc) == Dispatch(t, sc)
  {
    hide Dispatch, KeyValid;
    assert Settled(t, sc) == sc && Prepared(t, sc) == sc && KeysInTime(sc);
    FetchesNext(t, f, sc);
  }

  lemma {:induction false} LineRead(t: string, f: State -> Fetched, sc: State, k: nat, l: Line) returns (sc1: State)
    requires Fetches(t, f) && AtLine(sc, k) && LineOk(l) && Reads(t, k, LineText(l))
    ensures f(sc) == Ok(sc1) && sc1.tokens == sc.tokens + [LineToken(l)] && AtLine(sc1, k + |LineText(l)|)
  {
    hide NameScan.ScanDirective, ValueText, DirectiveFormOk, LineRest, DirectiveToken;
    var inner := DirectiveWord(l.form) + (ValueText(l.form) + (l.gap + l.comment));
    assert LineText(l) == "%" + (inner + "\n");
    ReadsPart(t, k, "%", inner + "\n");
    ReadsPart(t, k + 1, inner, "\n");
    ReadsFirst(t, k, "%");
    ReadsFirst(t, k + 1 + |inner|, "\n");
    LineNext(t, f, sc, k);
    InText(t, k);
    DirectiveIsRead(t, sc.mark, l.form, l.gap, l.comment);
    assert Dispatch(t, sc) == FetchDirective(t, sc) by { PercentDispatch(t, sc); }
    assert sc.keys[0 := None] == [None];
    sc1 := f(sc).value;
  }

  lemma PercentDispatch(t: string, sc: State)
    requires sc.mark.index < |t| && Ch(t, sc.mark.index) == '%' && sc.mark.column == 0
    ensures Dispatch(t, sc) == FetchDirective(t, sc)
  {
    hide FetchDirective;
  }

  lemma {:induction false} LinesSplit(lines: seq<Line>)
    requires LinesOk(lines) && lines != []
    ensures LineOk(lines[0]) && LinesOk(lines[1..])
    ensures LinesText(lines) == LineText(lines[0]) + LinesText(lines[1..])
    ensures LinesTokens(lines) == [LineToken(lines[0])] + LinesTokens(lines[1..])
  {
    hide LineText, LineToken, LineOk;
  }

  lemma {:induction false} LinesRead(t: string, f: State -> Fetched, sc: State, k: nat, lines: seq<Line>)
    returns (sc1: State)
    requires Fetches(t, f) && AtLine(sc, k) && LinesOk(lines) && Reads(t, k, LinesText(lines))
    ensures Run(f, sc, |lines|) == Ok(sc1) && sc1.tokens == sc.tokens + LinesTokens(lines)
    ensures AtLine(sc1, k + |LinesText(lines)|)
    decreases |lines|
  {
    hide LineText, LineOk, LinesOk, LineToken, Reads, AtLine, LinesText, LinesTokens, Fetches, Run;
    if lines == [] {
      sc1 := sc;
      NoLines(f, sc);
    } else {
      LinesSplit(lines);
      ReadsPart(t, k, LineText(lines[0]), LinesText(lines[1..]));
      var mid := LineRead(t, f, sc, k, lines[0]);
      sc1 := LinesRead(t, f, mid, k + |LineText(lines[0])|, lines[1..]);
      RunOne(f, sc, mid);
      RunGoesOn(f, sc, 1, mid, mid, |lines| - 1, sc1);
      assert sc.tokens + [LineToken(lines[0])] + LinesTokens(lines[1..]) == sc.tokens + LinesTokens(lines);
    }
  }

  lemma NoLines(f: State -> Fetched, sc: State)
    ensures LinesText([]) == "" && LinesTokens([]) == [] && Run(f, sc, 0) == Ok(sc)
    ensures sc.tokens + [] == sc.tokens
  {
  }

  /** "---" and the spaces behind it. */
  lemma {:induction false} DashesRead(t: string, f: State -> Fetched, sc: State, k: nat, space: string)
    returns (sc1: State)
    requires Fetches(t, f) && AtLine(sc, k) && space != "" && OnlySpaces(space) && Reads(t, k, "---" + space)
    requires !BlankOrBreak(Ch(t, k + 3 + |space|))
    ensures f(sc) == Ok(sc1) && sc1.tokens == sc.tokens + [DocumentStartToken]
    ensures AtPiece(t, sc1, k + 3 + |space|, Spot(0, Expected, true)) && sc1.indent == -1
  {
    hide Settle;
    ReadsPart(t, k, "---", space);
    ReadsFirst(t, k, "---");
    assert Ch(t, k + 2) == "---"[2];
    ReadsFirst(t, k + 3, space);
    LineNext(t, f, sc, k);
    assert Dispatch(t, sc) == FetchDocumentIndicator(sc, DocumentStartToken) by { DashesDispatch(t, sc); }
    assert sc.keys[0 := None] == [None];
    sc1 := f(sc).value;
    GapSettles(t, sc1.mark, 0, false, space);
  }

  lemma DashesDispatch(t: string, sc: State)
    requires DocIndicatorAt(t, sc.mark) && Ch(t, sc.mark.index) == '-'
    ensures Dispatch(t, sc) == FetchDocumentIndicator(sc, DocumentStartToken)
  {
    hide FetchDocumentIndicator;
  }

  function StreamText(head: Preface, ps: seq<Placed>, tail: string): string
    requires HeadOk(head) && AllOk(ps)
  {
    HeadText(head) + (PiecesText(ps) + tail)
  }

  lemma {:induction false} HeadRead(t: string, f: State -> Fetched, head: Preface, ps: seq<Placed>)
    returns (n: nat, sc: State)
    requires Fetches(t, f) && HeadOk(head) && ps != [] && Follow(RootSpot(head), ps) && AllOk(ps)
    requires Reads(t, 0, HeadText(head)) && Reads(t, |HeadText(head)|, PiecesText(ps))
    ensures n > 0 && Run(f, StartState, n) == Ok(sc) && sc.tokens == [StreamStartToken] + HeadTokens(head)
    ensures AtPiece(t, sc, |HeadText(head)|, RootSpot(head)) && sc.indent == -1
  {
    hide PiecesText, LinesText, LinesTokens, LineOk, Run;
    NextChar(t, |HeadText(head)|, RootSpot(head), ps);
    FetchesNext(t, f, StartState);
    var begun := FetchStreamStart(StartState);
    RunOne(f, StartState, begun);
    match head
    case Implicit =>
      n, sc := 1, begun;
      assert Settle(t, begun.mark, 0, true) == (begun.mark, true);
    case Explicit(lines, space) =>
      ReadsPart(t, 0, LinesText(lines), "---" + space);
      assert |HeadText(head)| == |LinesText(lines)| + 3 + |space|;
      var mid := LinesRead(t, f, begun, 0, lines);
      sc := DashesRead(t, f, mid, |LinesText(lines)|, space);
      RunOne(f, mid, sc);
      RunGoesOn(f, StartState, 1, begun, begun, |lines|, mid);
      RunGoesOn(f, StartState, 1 + |lines|, mid, mid, 1, sc);
      n := 1 + |lines| + 1;
      assert [StreamStartToken] + LinesTokens(lines) + [DocumentStartToken] == [StreamStartToken] + HeadTokens(head);
  }

  /**
   The text of a flow collection, with directives in front of it or not, and with blanks and line
   breaks behind it, is fetched as what it spells.
   */
  lemma {:induction false} StreamFetched(head: Preface, ps: seq<Placed>, tail: string, f: State -> Fetched)
    returns (n: nat, done: State)
    requires HeadOk(head) && ps != [] && Follow(RootSpot(head), ps) && AllOk(ps) && TailOk(tail)
    requires Fetches(StreamText(head, ps, tail), f)
    ensures n > 0 && Run(f, StartState, n) == Ok(done) && done.keys == [None]
    ensures done.tokens == [StreamStartToken] + HeadTokens(head) + PiecesTokens(ps) + [StreamEndToken]
  {
    hide PiecesText, PiecesTokens, Run, Fetches, AtPiece, Closed, HeadText, HeadTokens, HeadOk;
    var t := StreamText(head, ps, tail);
    var h := |HeadText(head)|;
    assert "" + (HeadText(head) + (PiecesText(ps) + tail)) == t;
    ReadsAfter(t, "", HeadText(head) + (PiecesText(ps) + tail));
    ReadsPart(t, 0, HeadText(head), PiecesText(ps) + tail);
    ReadsPart(t, h, PiecesText(ps), tail);
    var a, begun := HeadRead(t, f, head, ps);
    var k, mid := PiecesRead(t, f, begun, h, RootSpot(head), ps);
    done := EndRead(t, f, mid, h + |PiecesText(ps)|, tail);
    RunOne(f, mid, done);
    RunGoesOn(f, StartState, a, begun, begun, k, mid);
    RunGoesOn(f, StartState, a + k, mid, mid, 1, done);
    n := a + k + 1;
  }
}
