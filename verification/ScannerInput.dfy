/**
 The scanner's view of its input, as it runs: UTF-8 bytes followed by NULs, a position in them
 and its mark; and the scanners of quoted and plain scalars over it.
 */
module ScannerInput {
  import opened Chars
  import opened Unicode
  import opened Decoding
  import opened ByteText
  import opened Options
  import opened ScalarScan

  /** A scalar's bytes, or the error. */
  type Scanned = Result<Bytes, ScanError>

  const PADDING: nat := 16

  lemma AppendEncoded(s: string, c: string)
    ensures EncodeAll(s + c) == EncodeAll(s) + EncodeAll(c)
  {
    EncodeConcat(s, c);
  }

  class Input {
    const buffer: Bytes
    var pos: nat
    var index: nat
    var line: nat
    var column: nat

    ghost const text: string      // the input
    ghost const padded: string    // and the NULs behind it

    constructor (bytes: Bytes, ghost t: string)
      requires bytes == EncodeAll(t)
      ensures Valid() && text == t && At() == Mark(0, 0, 0)
    {
      var zeros := seq(PADDING, _ => 0);
      buffer := bytes + zeros;
      pos, index, line, column := 0, 0, 0, 0;
      text := t;
      padded := t + seq(PADDING, _ => NUL);
      new;
      NulBytes(PADDING);
      EncodeConcat(t, seq(PADDING, _ => NUL));
      StartBegins(padded);
    }

    ghost predicate Valid()
      reads this
    {
      && |padded| == |text| + PADDING && padded[..|text|] == text
      && (forall k :: |text| <= k < |padded| ==> padded[k] == NUL)
      && index <= |text|
      && Begins(buffer, padded, pos, index)
    }

    ghost function At(): Mark
      reads this
    {
      Mark(index, line, column)
    }

    lemma Same(k: nat)
      requires Valid() && k < |padded|
      ensures padded[k] == Ch(text, k)
    {
      if k < |text| { assert padded[..|text|][k] == text[k]; }
    }

    /** n bytes ahead is n characters ahead, if those between are ASCII. */
    lemma AheadBegins(n: nat)
      requires Valid() && n < PADDING && forall k :: index <= k < index + n ==> IsAscii(Ch(text, k))
      ensures Begins(buffer, padded, pos + n, index + n)
    {
      hide Encode;
      if n > 0 {
        AheadBegins(n - 1);
        Same(index + n - 1);
        AsciiWidth(Ch(text, index + n - 1));
        NextBegins(buffer, padded, pos + n - 1, index + n - 1);
      }
    }

    lemma Ahead(n: nat)
      requires Valid() && n < PADDING && forall k :: index <= k < index + n ==> IsAscii(Ch(text, k))
      ensures pos + n < |buffer| && Begins(buffer, padded, pos + n, index + n)
      ensures SameClasses(buffer, pos + n, Ch(text, index + n))
    {
      hide Encode, SameClasses;
      AheadBegins(n);
      Same(index + n);
      ClassesAt(buffer, padded, pos + n, index + n);
    }

    /** Past the character here, which is not a NUL. */
    lemma Past()
      requires Valid() && Ch(text, index) != NUL
      ensures index < |text| && pos < |buffer|
      ensures Begins(buffer, padded, pos + WidthAt(buffer, pos), index + 1)
      ensures WidthAt(buffer, pos) == |Encode(Ch(text, index))| && pos + WidthAt(buffer, pos) <= |buffer|
      ensures buffer[pos..pos + WidthAt(buffer, pos)] == Encode(Ch(text, index))
    {
      hide Encode;
      Ahead(0);
      Same(index);
      NextBegins(buffer, padded, pos, index);
    }

    method Skip()
      requires Valid() && Ch(text, index) != NUL
      modifies this`pos, this`index, this`column
      ensures Valid() && At() == Chars.Skip(old(At()))
    {
      Past();
      pos := pos + WidthAt(buffer, pos);
      index := index + 1;
      column := column + 1;
    }

    method SkipLine()
      requires Valid() && IsBreak(Ch(text, index))
      modifies this`pos, this`index, this`line, this`column
      ensures Valid() && At() == Chars.SkipLine(text, old(At()))
    {
      hide Encode, EncodeAll;
      Ahead(0);
      if buffer[pos] == 0x0D {
        Ahead(1);
      }
      if buffer[pos] == 0x0D && buffer[pos + 1] == 0x0A {
        Past();
        pos, index := pos + 1, index + 1;
        Past();
        pos, index := pos + 1, index + 1;
      } else {
        Past();
        pos := pos + WidthAt(buffer, pos);
        index := index + 1;
      }
      column := 0;
      line := line + 1;
    }

    /** Copies a character to the end of s. */
    method Read(s: Bytes, ghost r: string) returns (s': Bytes)
      requires Valid() && Ch(text, index) != NUL && s == EncodeAll(r)
      modifies this`pos, this`index, this`column
      ensures Valid() && At() == Chars.Skip(old(At()))
      ensures s' == EncodeAll(r + [old(Ch(text, index))])
    {
      hide Encode, EncodeAll;
      Past();
      ghost var c := Ch(text, index);
      var w := WidthAt(buffer, pos);
      s' := s + buffer[pos..pos + w];
      AppendEncoded(r, [c]);
      EncodeOne(c);
      pos := pos + w;
      index := index + 1;
      column := column + 1;
    }

    /** Copies a line break to the end of s, as LF unless it is LS or PS. */
    method ReadLine(s: Bytes, ghost r: string) returns (s': Bytes)
      requires Valid() && IsBreak(Ch(text, index)) && s == EncodeAll(r)
      modifies this`pos, this`index, this`line, this`column
      ensures Valid() && At() == Chars.SkipLine(text, old(At()))
      ensures s' == EncodeAll(r + BreakText(old(Ch(text, index))))
    {
      hide EncodeAll;
      ghost var c := Ch(text, index);
      AppendEncoded(r, BreakText(c));
      EncodeOne(c);
      EncodeOne('\n');
      Past();
      BreakOctets();
      if buffer[pos] == 0xE2 {
        s' := s + buffer[pos..pos + 3];
      } else {
        s' := s + [0x0A];
      }
      SkipLine();
    }

    lemma BreakOctets()
      requires Valid() && IsBreak(Ch(text, index))
      ensures pos < |buffer|
      ensures buffer[pos] == 0xE2 <==> Ch(text, index) == LS || Ch(text, index) == PS
      ensures buffer[pos] == 0xE2 ==> WidthAt(buffer, pos) == 3
    {
      Past();
      Octets(buffer, pos, Encode(Ch(text, index)));
    }

    /** "---" or "..." at the beginning of a line. */
    method AtDocumentIndicator() returns (yes: bool)
      requires Valid()
      ensures yes == DocIndicatorAt(text, At())
    {
      hide Encode, EncodeAll, Begins;
      Ahead(0);
      if column != 0 || (buffer[pos] != 0x2D && buffer[pos] != 0x2E) {
        return false;
      }
      Ahead(1);
      if buffer[pos + 1] != buffer[pos] {
        return false;
      }
      Ahead(2);
      if buffer[pos + 2] != buffer[pos] {
        return false;
      }
      Ahead(3);
      yes := IsBlankzAt(buffer, pos + 3);
    }

    // ---------- quoted scalars ----------

    /** The escape whose backslash is here; its character goes to the end of s. */
    method ReadEscape(s: Bytes, ghost r: string) returns (s': Bytes, error: Option<ScanError>)
      requires Valid() && Ch(text, index) == '\\' && s == EncodeAll(r)
      modifies this`pos, this`index, this`column
      ensures Valid() && index >= old(index)
      ensures match ScalarScan.ReadEscape(text, old(index)) {
        case Escape(c, n) => error == None && At() == Advance(old(At()), n) && s' == EncodeAll(r + [c])
        case BadEscape(e, _) => error == Some(e)
      }
    {
      hide Encode, EncodeAll, SIMPLE, Lookup, SameClasses;
      s', error := s, None;
      ghost var k := index;
      Ahead(0);
      Ahead(1);
      NextOctet();
      var e := buffer[pos + 1];
      var simple := if e <= 0x7F then Lookup(SIMPLE, e as char, 0) else "";
      SimpleIsAscii(Ch(text, k + 1));
      var n := if e <= 0x7F then CodeLength(e as char) else 0;
      if simple != "" {
        AppendEncoded(r, [simple[0]]);
        EncodeOne(simple[0]);
        s' := s + Encode(simple[0]);
      } else if n == 0 {
        error := Some(UnknownEscape);
        return;
      }
      Skip();
      Skip();
      if simple == "" {
        var value;
        value, error := ReadHex(n);
        if error.Some? {
          return;
        }
        if (0xD800 <= value <= 0xDFFF) || value > 0x10FFFF {
          error := Some(BadCodePoint);
          return;
        }
        AppendEncoded(r, [value as char]);
        EncodeOne(value as char);
        s' := s + Encode(value as char);
      }
    }

    lemma NextOctet()
      requires Valid() && IsAscii(Ch(text, index))
      ensures pos + 1 < |buffer|
      ensures buffer[pos + 1] <= 0x7F ==> buffer[pos + 1] as char == Ch(text, index + 1)
      ensures buffer[pos + 1] <= 0x7F <==> IsAscii(Ch(text, index + 1))
    {
      Ahead(1);
    }

    /** The value of n hexadecimal digits, which are passed. */
    method ReadHex(n: nat) returns (value: nat, error: Option<ScanError>)
      requires Valid() && n < PADDING
      modifies this`pos, this`index, this`column
      ensures Valid() && index >= old(index)
      ensures HexRun(text, old(index), n) ==>
        error == None && value == HexValue(text, old(index), n) && At() == Advance(old(At()), n)
      ensures !HexRun(text, old(index), n) ==> error == Some(BadHexDigit)
    {
      hide Encode, EncodeAll, Begins;
      value, error := 0, None;
      var k := 0;
      while k < n
        invariant k <= n && Valid() && At() == old(At())
        invariant HexRun(text, index, k) && value == HexValue(text, index, k)
      {
        assert forall j :: index <= j < index + k ==> IsAscii(Ch(text, j));
        Ahead(k);
        HexAgrees(buffer, pos + k, Ch(text, index + k));
        if !IsHexAt(buffer, pos + k) {
          error := Some(BadHexDigit);
          return;
        }
        value := value * 16 + AsHexAt(buffer, pos + k);
        k := k + 1;
      }
      k := 0;
      while k < n
        invariant k <= n && Valid() && At() == Advance(old(At()), k)
      {
        assert IsHex(Ch(text, index));
        Skip();
        k := k + 1;
      }
    }

    /**
     One character of a quoted scalar, or an escape, or two quotes for one. It stops at the
     closing quote, and behind an escaped line break.
     */
    method FlowTurn(single: bool, s: Bytes, ghost r: string)
      returns (s': Bytes, stop: bool, leading: bool, error: Option<ScanError>, ghost r': string)
      requires Valid() && s == EncodeAll(r) && !IsBlankz(Ch(text, index))
      modifies this`pos, this`index, this`line, this`column
      ensures Valid() && s' == EncodeAll(r') && index >= old(index)
      ensures error.Some? ==> IsError(FlowChars(text, single, old(At()), r), error.value)
      ensures !stop ==> !leading
      ensures error.None? && stop ==>
        FlowChars(text, single, old(At()), r) == AfterChars(text, single, At(), r', leading)
      ensures error.None? && stop && index == old(index) ==> Ch(text, index) == (if single then '\'' else '"')
      ensures error.None? && !stop ==>
        index > old(index) && FlowChars(text, single, old(At()), r) == FlowChars(text, single, At(), r')
    {
      hide FlowBlanks, FlowTop, ScalarScan.ReadEscape, Encode, EncodeAll, Begins, IsPrintableAt;
      s', stop, leading, error, r' := s, false, false, None, r;
      Ahead(0);
      var octet := buffer[pos];
      if octet <= 0x7F { Ahead(1); }
      if single && octet == 0x27 && buffer[pos + 1] == 0x27 {
        AppendEncoded(r', "'");
        AsciiBytes('\'');
        s', r' := s' + [0x27], r' + "'";
        Skip();
        Skip();
      } else if (single && octet == 0x27) || (!single && octet == 0x22) {
        stop := true;
        BlankzEnds(text, single, At(), r');
      } else if !single && octet == 0x5C && IsBreakAt(buffer, pos + 1) {
        Skip();
        SkipLine();
        stop, leading := true, true;
      } else if !single && octet == 0x5C {
        ghost var k := index;
        EscapeAdvances(text, index);
        s', error := ReadEscape(s', r');
        if error.Some? {
          s' := s;
          return;
        }
        r' := r' + [ScalarScan.ReadEscape(text, k).c];
      } else {
        ghost var c := Ch(text, index);
        s' := Read(s', r');
        r' := r' + [c];
      }
    }

    /** The characters up to a blank, a break or the closing quote; an escaped break ends them too. */
    method ReadFlowChars(single: bool, s: Bytes, ghost r: string)
      returns (s': Bytes, leading: bool, error: Option<ScanError>, ghost r': string)
      requires Valid() && s == EncodeAll(r)
      modifies this`pos, this`index, this`line, this`column
      ensures Valid() && s' == EncodeAll(r') && index >= old(index)
      ensures error.None? ==> FlowChars(text, single, old(At()), r) == AfterChars(text, single, At(), r', leading)
      ensures error.Some? ==> IsError(FlowChars(text, single, old(At()), r), error.value)
      ensures error.None? && index == old(index) ==>
        IsBlankz(Ch(text, index)) || Ch(text, index) == (if single then '\'' else '"')
    {
      hide FlowChars, AfterChars, Encode, EncodeAll, Begins, IsPrintableAt;
      s', leading, error, r' := s, false, None, r;
      ghost var goal := FlowChars(text, single, At(), r);
      Ahead(0);
      while !IsBlankzAt(buffer, pos)
        invariant Valid() && s' == EncodeAll(r') && error == None && !leading
        invariant index >= old(index) && goal == FlowChars(text, single, At(), r')
        invariant SameClasses(buffer, pos, Ch(text, index))
        decreases |text| - index
      {
        var stop;
        s', stop, leading, error, r' := FlowTurn(single, s', r');
        if error.Some? || stop {
          return;
        }
        Ahead(0);
      }
      BlankzEnds(text, single, At(), r');
    }

    /** Blanks and line breaks, joined. */
    method ReadFlowBlanks(single: bool, s: Bytes, leading: bool, ghost r: string) returns (s': Bytes, ghost r': string)
      requires Valid() && s == EncodeAll(r)
      modifies this`pos, this`index, this`line, this`column
      ensures Valid() && s' == EncodeAll(r')
      ensures FlowBlanks(text, single, old(At()), r, "", "", "", leading) == FlowTop(text, single, At(), r')
      ensures index >= old(index) && (BlankOrBreak(Ch(text, old(index))) ==> index > old(index))
    {
      hide FlowTop, Encode, EncodeAll, Begins, Join;
      ghost var goal := FlowBlanks(text, single, At(), r, "", "", "", leading);
      var ws, lead, trail, blanks := [], [], [], leading;
      ghost var wr, lr, tr := "", "", "";
      NoTextNoBytes();
      Ahead(0);
      while IsBlankAt(buffer, pos) || IsBreakAt(buffer, pos)
        invariant Valid() && index >= old(index)
        invariant SameClasses(buffer, pos, Ch(text, index))
        invariant index == old(index) ==> At() == old(At())
        invariant goal == FlowBlanks(text, single, At(), r, wr, lr, tr, blanks)
        invariant ws == EncodeAll(wr) && lead == EncodeAll(lr) && trail == EncodeAll(tr)
        decreases |text| - index
      {
        ghost var c := Ch(text, index);
        if IsBlankAt(buffer, pos) {
          if !blanks {
            ws := Read(ws, wr);
            wr := wr + [c];
          } else {
            Skip();
          }
        } else if !blanks {
          ws, wr := [], "";
          lead := ReadLine(lead, lr);
          lr := lr + BreakText(c);
          blanks := true;
        } else {
          trail := ReadLine(trail, tr);
          tr := tr + BreakText(c);
        }
        Ahead(0);
      }
      var joined := JoinBytes(ws, lead, trail, blanks, wr, lr, tr);
      AppendEncoded(r, Join(wr, lr, tr, blanks));
      s', r' := s + joined, r + Join(wr, lr, tr, blanks);
    }

    /** The scan of a quoted scalar whose left quote is here. */
    method ScanFlowScalar(single: bool) returns (r: Scanned, ghost value: string)
      requires Valid() && (Ch(text, index) == '\'' || Ch(text, index) == '"')
      modifies this`pos, this`index, this`line, this`column
      ensures Valid()
      ensures match ScanFlow(text, single, old(At())) {
        case FlowOk(v, end) => value == v && r == Ok(EncodeAll(v)) && At() == end
        case FlowErr(e, _) => r == Err(e)
      }
    {
      hide FlowChars, FlowBlanks, Encode, EncodeAll, Begins;
      ghost var goal := ScanFlow(text, single, At());
      Skip();
      var s: Bytes := [];
      value := "";
      NoTextNoBytes();
      while true
        invariant Valid() && s == EncodeAll(value) && goal == FlowTop(text, single, At(), value)
        decreases |text| - index
      {
        var indicator := AtDocumentIndicator();
        if indicator {
          return Err(DocumentIndicator), value;
        }
        Ahead(0);
        if buffer[pos] == 0 {
          return Err(EndOfStream), value;
        }
        var leading, error;
        ghost var start, before := index, value;
        s, leading, error, value := ReadFlowChars(single, s, value);
        if error.Some? {
          return Err(error.value), value;
        }
        Ahead(0);
        if (single && buffer[pos] == 0x27) || (!single && buffer[pos] == 0x22) {
          Skip();
          return Ok(s), value;
        }
        ghost var middle := index;
        s, value := ReadFlowBlanks(single, s, leading, value);
      }
    }

    // ---------- plain scalars ----------

    method EndsPlainHere(flow: nat) returns (ends: bool)
      requires Valid() && !IsBlankz(Ch(text, index))
      ensures ends == EndsPlain(text, flow, index)
    {
      hide Encode, EncodeAll, Begins, IsPrintableAt;
      Ahead(0);
      var octet := buffer[pos];
      if octet == 0x3A {
        Ahead(1);
        if IsBlankzAt(buffer, pos + 1) {
          return true;
        }
      }
      ends := flow > 0 && octet <= 0x7F && octet as char in ",?[]{}";
    }

    /** The characters up to a blank, a break, the end or an indicator that ends the scalar. */
    method ReadPlainChars(flow: nat, indent: int, p: Pieces, ghost q: Texts) returns (p': Pieces, ghost q': Texts)
      requires Valid() && Carries(p, q)
      modifies this`pos, this`index, this`column
      ensures Valid() && Carries(p', q') && index >= old(index)
      ensures CharsFrom(text, flow, indent, old(At()), q)
           == if BlankOrBreak(Ch(text, index)) then BlanksFrom(text, flow, indent, At(), q') else Finished(At(), q')
      ensures index == old(index) ==> At() == old(At())
    {
      hide PlainBlanks, Join, EndsPlain, Encode, EncodeAll, Begins, IsPrintableAt;
      p', q' := p, q;
      ghost var goal := CharsFrom(text, flow, indent, At(), q);
      Ahead(0);
      while !IsBlankzAt(buffer, pos)
        invariant Valid() && Carries(p', q') && index >= old(index)
        invariant index == old(index) ==> At() == old(At())
        invariant goal == CharsFrom(text, flow, indent, At(), q')
        invariant SameClasses(buffer, pos, Ch(text, index))
        decreases |text| - index
      {
        var ends := EndsPlainHere(flow);
        if ends {
          return;
        }
        ghost var c := Ch(text, index);
        var joined := JoinBytes(p'.ws, p'.lead, p'.trail, p'.leading, q'.ws, q'.lead, q'.trail);
        ghost var js := q'.s + Join(q'.ws, q'.lead, q'.trail, q'.leading);
        AppendEncoded(q'.s, Join(q'.ws, q'.lead, q'.trail, q'.leading));
        NoTextNoBytes();
        var s := Read(p'.s + joined, js);
        p', q' := Pieces(s, [], [], [], false), Texts(js + [c], At(), "", "", "", false);
        Ahead(0);
      }
    }

    /** Blanks and breaks. A tab in the indentation is an error. */
    method ReadPlainBlanks(flow: nat, indent: int, p: Pieces, ghost q: Texts)
      returns (p': Pieces, tab: bool, ghost q': Texts)
      requires Valid() && Carries(p, q) && BlankOrBreak(Ch(text, index))
      modifies this`pos, this`index, this`line, this`column
      ensures Valid() && Carries(p', q')
      ensures tab ==> BlanksFrom(text, flow, indent, old(At()), q) == PlainErr(TabIndentation, At())
      ensures !tab ==> index > old(index)
      ensures !tab && flow == 0 && column < indent ==>
        BlanksFrom(text, flow, indent, old(At()), q) == Finished(At(), q')
      ensures !tab && !(flow == 0 && column < indent) ==>
        BlanksFrom(text, flow, indent, old(At()), q) == TopFrom(text, flow, indent, At(), q')
    {
      hide PlainTop, Encode, EncodeAll, Begins, IsPrintableAt;
      p', tab, q' := p, false, q;
      ghost var goal := BlanksFrom(text, flow, indent, At(), q);
      NoTextNoBytes();
      Ahead(0);
      while IsBlankAt(buffer, pos) || IsBreakAt(buffer, pos)
        invariant Valid() && Carries(p', q') && index >= old(index)
        invariant index == old(index) ==> At() == old(At())
        invariant goal == BlanksFrom(text, flow, indent, At(), q')
        invariant SameClasses(buffer, pos, Ch(text, index))
        decreases |text| - index
      {
        ghost var c := Ch(text, index);
        if IsBlankAt(buffer, pos) {
          if p'.leading && column < indent && IsTabAt(buffer, pos) {
            tab := true;
            return;
          }
          if !p'.leading {
            var ws := Read(p'.ws, q'.ws);
            p', q' := p'.(ws := ws), q'.(ws := q'.ws + [c]);
          } else {
            Skip();
          }
        } else if !p'.leading {
          var lead := ReadLine(p'.lead, q'.lead);
          p' := p'.(ws := [], lead := lead, leading := true);
          q' := q'.(ws := "", lead := q'.lead + BreakText(c), leading := true);
        } else {
          var trail := ReadLine(p'.trail, q'.trail);
          p', q' := p'.(trail := trail), q'.(trail := q'.trail + BreakText(c));
        }
        Ahead(0);
      }
    }

    /** The scan of a plain scalar that starts here; `leading` says that it ended behind a line break. */
    method ScanPlainScalar(flow: nat, parentIndent: int) returns (r: Scanned, leading: bool, ghost value: string)
      requires Valid()
      modifies this`pos, this`index, this`line, this`column
      ensures Valid()
      ensures match ScanPlain(text, flow, parentIndent, old(At())) {
        case PlainOk(v, _, next, l) => value == v && r == Ok(EncodeAll(v)) && At() == next && leading == l
        case PlainErr(e, _) => r == Err(e)
      }
    {
      hide PlainChars, PlainBlanks, Encode, EncodeAll, Begins, IsPrintableAt;
      var indent := parentIndent + 1;
      ghost var goal := ScanPlain(text, flow, parentIndent, At());
      var p := Pieces([], [], [], [], false);
      ghost var q := Texts("", At(), "", "", "", false);
      NoTextNoBytes();
      while true
        invariant Valid() && Carries(p, q) && goal == TopFrom(text, flow, indent, At(), q)
        decreases |text| - index
      {
        var indicator := AtDocumentIndicator();
        Ahead(0);
        if indicator || buffer[pos] == 0x23 {
          return Ok(p.s), p.leading, q.s;
        }
        ghost var start := At();
        p, q := ReadPlainChars(flow, indent, p, q);
        Ahead(0);
        if !IsBlankAt(buffer, pos) && !IsBreakAt(buffer, pos) {
          return Ok(p.s), p.leading, q.s;
        }
        var tab;
        p, tab, q := ReadPlainBlanks(flow, indent, p, q);
        if tab {
          return Err(TabIndentation), false, q.s;
        }
        if flow == 0 && column < indent {
          return Ok(p.s), p.leading, q.s;
        }
      }
    }
  }

  // ---------- the pieces of a plain scalar ----------

  /** The bytes read so far, and the blanks and breaks behind them. */
  datatype Pieces = Pieces(s: Bytes, ws: Bytes, lead: Bytes, trail: Bytes, leading: bool)

  datatype Texts = Texts(s: string, end: Mark, ws: string, lead: string, trail: string, leading: bool)

  ghost predicate Carries(p: Pieces, q: Texts) {
    p.s == EncodeAll(q.s) && p.ws == EncodeAll(q.ws) && p.lead == EncodeAll(q.lead) && p.trail == EncodeAll(q.trail)
    && p.leading == q.leading
  }

  ghost function TopFrom(t: string, flow: nat, indent: int, m: Mark, q: Texts): PlainResult {
    PlainTop(t, flow, indent, m, q.s, q.end, q.ws, q.lead, q.trail, q.leading)
  }

  ghost function CharsFrom(t: string, flow: nat, indent: int, m: Mark, q: Texts): PlainResult {
    PlainChars(t, flow, indent, m, q.s, q.end, q.ws, q.lead, q.trail, q.leading)
  }

  ghost function BlanksFrom(t: string, flow: nat, indent: int, m: Mark, q: Texts): PlainResult {
    PlainBlanks(t, flow, indent, m, q.s, q.end, q.ws, q.lead, q.trail, q.leading)
  }

  ghost function Finished(m: Mark, q: Texts): PlainResult {
    PlainOk(q.s, q.end, m, q.leading)
  }

  /** What is left of the scan when the run of characters has ended. */
  ghost function AfterChars(t: string, single: bool, m: Mark, s: string, leading: bool): FlowResult {
    if AtQuote(t, single, m) then FlowOk(s, Chars.Skip(m)) else FlowBlanks(t, single, m, s, "", "", "", leading)
  }

  predicate IsError(r: FlowResult, e: ScanError) {
    r.FlowErr? && r.error == e
  }

  /** A blank, a break, a NUL or the quote ends a run of characters. */
  lemma BlankzEnds(t: string, single: bool, m: Mark, s: string)
    requires IsBlankz(Ch(t, m.index)) || (AtQuote(t, single, m) && !(single && Ch(t, m.index + 1) == '\''))
    ensures FlowChars(t, single, m, s) == AfterChars(t, single, m, s, false)
  {
    if Ch(t, m.index) == NUL {
      assert s + Join("", "", "", false) == s;
      assert FlowTop(t, single, m, s) == FlowErr(EndOfStream, m);
    }
  }

  lemma EscapeAdvances(t: string, k: nat)
    ensures ScalarScan.ReadEscape(t, k).Escape? ==> ScalarScan.ReadEscape(t, k).length >= 2
  {
  }

  lemma AsciiBytes(c: char)
    requires IsAscii(c)
    ensures EncodeAll([c]) == [c as int]
  {
    EncodeOne(c);
  }

  lemma NoTextNoBytes()
    ensures EncodeAll("") == []
  {
  }

  /** Joins the bytes as Join does the characters. */
  method JoinBytes(ws: Bytes, lead: Bytes, trail: Bytes, leading: bool,
                   ghost wr: string, ghost lr: string, ghost tr: string)
    returns (joined: Bytes)
    requires ws == EncodeAll(wr) && lead == EncodeAll(lr) && trail == EncodeAll(tr)
    ensures joined == EncodeAll(Join(wr, lr, tr, leading))
  {
    hide Encode;
    NoTextNoBytes();
    AsciiBytes(' ');
    AppendEncoded(lr, tr);
    FirstIsNewline(lr);
    FirstIsNewline(tr);
    if !leading {
      return ws;
    }
    if |lead| > 0 && lead[0] == 0x0A {
      joined := if |trail| == 0 then [0x20] else trail;
    } else {
      joined := lead + trail;
    }
  }

  lemma FirstIsNewline(r: string)
    ensures EncodeAll(r) == [] <==> r == ""
    ensures r != "" ==> (EncodeAll(r)[0] == 0x0A <==> r[0] == '\n')
  {
    if r != "" {
      StartBegins(r);
      ClassesAt(EncodeAll(r), r, 0, 0);
    }
  }

  lemma HexAgrees(b: Bytes, i: nat, c: char)
    requires SameClasses(b, i, c)
    ensures IsHexAt(b, i) <==> IsHex(c)
    ensures IsHex(c) ==> AsHexAt(b, i) == AsHex(c)
  {
  }

  lemma SimpleIsAscii(c: char)
    ensures !IsAscii(c) ==> Lookup(SIMPLE, c, 0) == "" && CodeLength(c) == 0
    ensures c == NUL ==> Lookup(SIMPLE, c, 0) == "" && CodeLength(c) == 0
    ensures Lookup(SIMPLE, c, 0) != "" ==> |Lookup(SIMPLE, c, 0)| == 1
  {
    LookupFinds(SIMPLE, c, 0);
  }

  lemma AsciiWidth(c: char)
    requires IsAscii(c)
    ensures |Encode(c)| == 1
  {
  }

  lemma {:induction false} NulBytes(n: nat)
    ensures EncodeAll(seq(n, _ => NUL)) == seq(n, _ => 0)
  {
    if n > 0 {
      assert seq(n, _ => NUL)[1..] == seq(n - 1, _ => NUL);
      NulBytes(n - 1);
      assert seq(n, _ => 0) == [0] + seq(n - 1, _ => 0);
    }
  }
}
