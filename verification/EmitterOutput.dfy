/**
 The emitter's output as it runs: bytes collected in a small buffer that is flushed when it is
 nearly full, the position on the line, and the scalar writers.
 */
module EmitterOutput {
  import opened Chars
  import opened Unicode
  import opened Decoding
  import opened ByteText
  import opened Pens
  import opened ScalarWriters
  import opened Analysis

  const OUTPUT_BUFFER_SIZE: nat := 128

  /** v >> 4k */
  function Shift(v: nat, k: nat): nat {
    if k == 0 then v else Shift(v / 16, k - 1)
  }

  lemma {:induction false} HexDigitsAt(x: nat, n: nat, t: nat)
    requires t < n
    ensures HexDigits(x, n)[t] == HexDigit(Shift(x, n - 1 - t) % 16)
    decreases n
  {
    if t < n - 1 { HexDigitsAt(x / 16, n - 1, t); }
  }

  class Output {
    const cfg: Config
    const buffer: array<byte>
    var bufferPos: nat
    var output: Bytes           // what the write handler was given
    var column: nat
    var line: nat
    var whitespace: bool
    var indention: bool
    var openEnded: bool

    ghost var text: string      // all that was written

    constructor (cfg: Config)
      ensures Valid() && Written() == StartPen && this.cfg == cfg && fresh(buffer)
    {
      this.cfg := cfg;
      buffer := new byte[OUTPUT_BUFFER_SIZE](_ => 0);
      bufferPos, output, column, line := 0, [], 0, 0;
      whitespace, indention, openEnded, text := true, true, false, "";
    }

    /** The bytes flushed and those in the buffer are the text, in UTF-8. */
    ghost predicate Valid()
      reads this, buffer
    {
      && buffer.Length == OUTPUT_BUFFER_SIZE && bufferPos <= buffer.Length
      && output + buffer[..bufferPos] == EncodeAll(text)
    }

    ghost function Written(): Pen
      reads this
    {
      Pen(text, column, line, whitespace, indention, openEnded)
    }

    method Flush()
      requires Valid()
      modifies this`output, this`bufferPos
      ensures Valid() && bufferPos == 0 && output == EncodeAll(text)
    {
      if bufferPos != 0 {
        output := output + buffer[..bufferPos];
        bufferPos := 0;
      }
      assert buffer[..0] == [];
    }

    /** Room for a character, which takes at most four bytes. */
    method Reserve()
      requires Valid()
      modifies this`output, this`bufferPos
      ensures Valid() && bufferPos + 5 < buffer.Length
    {
      if bufferPos + 5 >= buffer.Length {
        Flush();
      }
    }

    /** Adds the bytes of a character to the buffer. */
    method Store(e: Bytes, ghost c: char)
      requires Valid() && bufferPos + 4 <= buffer.Length && e == Encode(c)
      modifies this`bufferPos, this`text, buffer
      ensures Valid() && text == old(text) + [c] && bufferPos == old(bufferPos) + |e|
    {
      hide Encode, EncodeAll;
      ghost var was := buffer[..bufferPos];
      forall j | 0 <= j < |e| {
        buffer[bufferPos + j] := e[j];
      }
      bufferPos := bufferPos + |e|;
      assert buffer[..bufferPos] == was + e;
      EncodeConcat(text, [c]);
      EncodeOne(c);
      text := text + [c];
    }

    method Put(c: char)
      requires Valid() && IsAscii(c)
      modifies this`bufferPos, this`output, this`column, this`text, buffer
      ensures Valid() && Written() == Pens.Put(old(Written()), c)
    {
      Reserve();
      Store([c as int], c);
      column := column + 1;
    }

    method PutBreak()
      requires Valid()
      modifies this`bufferPos, this`output, this`column, this`line, this`indention, this`text, buffer
      ensures Valid() && Written() == Pens.PutBreak(old(Written()))
    {
      Reserve();
      Store([0x0A], '\n');
      column := 0;
      line := line + 1;
      indention := true;
    }

    /** Copies the character at i. */
    method Write(value: Bytes, i: nat, ghost v: string, ghost k: nat) returns (next: nat)
      requires Valid() && Begins(value, v, i, k) && k < |v|
      modifies this`bufferPos, this`output, this`column, this`text, buffer
      ensures Valid() && Written() == Pens.Put(old(Written()), v[k])
      ensures Begins(value, v, next, k + 1)
    {
      ClassesAt(value, v, i, k);
      NextBegins(value, v, i, k);
      Reserve();
      var w := WidthAt(value, i);
      Store(value[i..i + w], v[k]);
      column := column + 1;
      next := i + w;
    }

    method WriteAll(s: string)
      requires Valid() && forall j :: 0 <= j < |s| ==> IsAscii(s[j])
      modifies this`bufferPos, this`output, this`column, this`text, buffer
      ensures Valid() && Written() == PutAll(old(Written()), s)
    {
      hide PutAll;
      var j := 0;
      PutNothing(Written(), s[..0]);
      while j < |s|
        invariant j <= |s| && Valid() && Written() == PutAll(old(Written()), s[..j])
      {
        OneMore(s, j);
        PutSnoc(old(Written()), s[..j], s[j]);
        Put(s[j]);
        j := j + 1;
      }
      assert s[..j] == s;
    }

    /** Copies the line break at i. */
    method WriteBreak(value: Bytes, i: nat, ghost v: string, ghost k: nat) returns (next: nat)
      requires Valid() && Begins(value, v, i, k) && k < |v|
      modifies this`bufferPos, this`output, this`column, this`line, this`indention, this`text, buffer
      ensures Valid() && Written() == Pens.WriteBreak(old(Written()), v[k])
      ensures Begins(value, v, next, k + 1)
    {
      ClassesAt(value, v, i, k);
      if value[i] == 0x0A {
        PutBreak();
        next := i + 1;
      } else {
        next := Write(value, i, v, k);
        column := 0;
        line := line + 1;
        indention := true;
      }
    }

    method WriteIndent(indent: int)
      requires Valid()
      modifies this`bufferPos, this`output, this`column, this`line, this`indention, this`whitespace, this`text, buffer
      ensures Valid() && Written() == Pens.WriteIndent(old(Written()), indent)
    {
      var n := if indent < 0 then 0 else indent;
      if !indention || column > n || (column == n && !whitespace) {
        PutBreak();
      }
      PutSpaces(n);
      whitespace := true;
    }

    method PutSpaces(n: nat)
      requires Valid()
      modifies this`bufferPos, this`output, this`column, this`text, buffer
      ensures Valid() && Written() == PadTo(old(Written()), n)
    {
      hide PadTo;
      while column < n
        invariant Valid() && PadTo(Written(), n) == PadTo(old(Written()), n)
      {
        PadOne(Written(), n);
        Put(' ');
      }
      PadNone(Written(), n);
    }

    method WriteIndicator(indicator: string, needWhitespace: bool, isWhitespace: bool, isIndention: bool)
      requires Valid() && forall j :: 0 <= j < |indicator| ==> IsAscii(indicator[j])
      modifies this`bufferPos, this`output, this`column, this`indention, this`whitespace, this`openEnded,
        this`text, buffer
      ensures Valid()
      ensures Written() == Pens.WriteIndicator(old(Written()), indicator, needWhitespace, isWhitespace, isIndention)
    {
      if needWhitespace && !whitespace {
        Put(' ');
      }
      WriteAll(indicator);
      whitespace := isWhitespace;
      indention := indention && isIndention;
      openEnded := false;
    }

    // ---------- scalars ----------

    method WritePlain(value: Bytes, allowBreaks: bool, root: bool, indent: int, ghost v: string)
      requires Valid() && value == EncodeAll(v)
      modifies this`bufferPos, this`output, this`column, this`line, this`indention, this`whitespace, this`openEnded,
        this`text, buffer
      ensures Valid() && Written() == ScalarWriters.WritePlain(old(Written()), v, root, allowBreaks, indent, cfg)
    {
      hide ScalarWriters.LineStep, Encode, EncodeAll;
      StartBegins(v);
      EndBegins(value, v, 0, 0);
      if |value| > 0 && !whitespace {
        Put(' ');
      }
      var spaces, breaks := false, false;
      var i: nat := 0;
      ghost var k: nat := 0;
      ghost var goal := PlainBody(Written(), v, 0, false, false, allowBreaks, indent, cfg);
      while i < |value|
        invariant Valid() && Begins(value, v, i, k)
        invariant PlainBody(Written(), v, k, spaces, breaks, allowBreaks, indent, cfg) == goal
        decreases |v| - k
      {
        EndBegins(value, v, i, k);
        i, spaces, breaks := PlainTurn(value, i, spaces, breaks, allowBreaks, indent, v, k);
        k := k + 1;
      }
      EndBegins(value, v, i, k);
      if |value| > 0 {
        whitespace := false;
      }
      indention := false;
      if root {
        openEnded := true;
      }
    }

    /** One turn of the plain writer's loop. */
    method PlainTurn(value: Bytes, i: nat, spaces: bool, breaks: bool, allowBreaks: bool, indent: int,
                     ghost v: string, ghost k: nat) returns (next: nat, spaces': bool, breaks': bool)
      requires Valid() && Begins(value, v, i, k) && k < |v|
      modifies this`bufferPos, this`output, this`column, this`line, this`indention, this`whitespace, this`text, buffer
      ensures Valid() && Begins(value, v, next, k + 1)
      ensures spaces' == SpacesAfter(v[k], spaces) && breaks' == BreaksAfter(v[k], breaks)
      ensures Written() == LineStep(old(Written()), v[k],
        FoldsPlain(old(Written()), v, k, allowBreaks, spaces, cfg), breaks, false, indent)
    {
      spaces', breaks' := spaces, breaks;
      ClassesAt(value, v, i, k);
      if IsSpaceAt(value, i) {
        SpaceNext(value, v, i, k);
        if allowBreaks && !spaces && column > cfg.bestWidth && !IsSpaceAt(value, i + 1) {
          WriteIndent(indent);
          next := i + WidthAt(value, i);
        } else {
          next := Write(value, i, v, k);
        }
        spaces' := true;
      } else if IsBreakAt(value, i) {
        if !breaks && value[i] == 0x0A {
          PutBreak();
        }
        next := WriteBreak(value, i, v, k);
        breaks' := true;
      } else {
        if breaks {
          WriteIndent(indent);
        }
        next := Write(value, i, v, k);
        indention := false;
        spaces', breaks' := false, false;
      }
    }

    method WriteSingleQuoted(value: Bytes, allowBreaks: bool, indent: int, ghost v: string)
      requires Valid() && value == EncodeAll(v)
      modifies this`bufferPos, this`output, this`column, this`line, this`indention, this`whitespace, this`openEnded,
        this`text, buffer
      ensures Valid() && Written() == ScalarWriters.WriteSingle(old(Written()), v, allowBreaks, indent, cfg)
    {
      hide ScalarWriters.LineStep, Encode, EncodeAll;
      StartBegins(v);
      WriteIndicator("'", true, false, false);
      var spaces, breaks := false, false;
      var i: nat := 0;
      ghost var k: nat := 0;
      ghost var goal := SingleBody(Written(), v, 0, false, false, allowBreaks, indent, cfg);
      EndBegins(value, v, 0, 0);
      while i < |value|
        invariant Valid() && Begins(value, v, i, k)
        invariant SingleBody(Written(), v, k, spaces, breaks, allowBreaks, indent, cfg) == goal
        decreases |v| - k
      {
        EndBegins(value, v, i, k);
        i, spaces, breaks := SingleTurn(value, i, spaces, breaks, allowBreaks, indent, v, k);
        k := k + 1;
      }
      EndBegins(value, v, i, k);
      WriteIndicator("'", false, false, false);
      whitespace := false;
      indention := false;
    }

    /** One turn of the single-quoted writer's loop. */
    method SingleTurn(value: Bytes, i: nat, spaces: bool, breaks: bool, allowBreaks: bool, indent: int,
                      ghost v: string, ghost k: nat) returns (next: nat, spaces': bool, breaks': bool)
      requires Valid() && Begins(value, v, i, k) && k < |v|
      modifies this`bufferPos, this`output, this`column, this`line, this`indention, this`whitespace, this`text, buffer
      ensures Valid() && Begins(value, v, next, k + 1)
      ensures spaces' == SpacesAfter(v[k], spaces) && breaks' == BreaksAfter(v[k], breaks)
      ensures Written() == LineStep(old(Written()), v[k],
        FoldsSingle(old(Written()), v, k, allowBreaks, spaces, cfg), breaks, true, indent)
    {
      spaces', breaks' := spaces, breaks;
      ClassesAt(value, v, i, k);
      AtStart(value, v, i, k);
      if IsSpaceAt(value, i) {
        SpaceNext(value, v, i, k);
        if allowBreaks && !spaces && column > cfg.bestWidth && 0 < i < |value| - 1 && !IsSpaceAt(value, i + 1) {
          WriteIndent(indent);
          next := i + WidthAt(value, i);
        } else {
          next := Write(value, i, v, k);
        }
        spaces' := true;
      } else if IsBreakAt(value, i) {
        if !breaks && value[i] == 0x0A {
          PutBreak();
        }
        next := WriteBreak(value, i, v, k);
        breaks' := true;
      } else {
        if breaks {
          WriteIndent(indent);
        }
        if value[i] == 0x27 {
          Put('\'');
        }
        next := Write(value, i, v, k);
        indention := false;
        spaces', breaks' := false, false;
      }
    }

    method WriteDoubleQuoted(value: Bytes, allowBreaks: bool, indent: int, ghost v: string)
      requires Valid() && value == EncodeAll(v)
      modifies this`bufferPos, this`output, this`column, this`line, this`indention, this`whitespace, this`openEnded,
        this`text, buffer
      ensures Valid() && Written() == ScalarWriters.WriteDouble(old(Written()), v, allowBreaks, indent, cfg)
    {
      hide DoubleStep, Encode, EncodeAll;
      StartBegins(v);
      WriteIndicator("\"", true, false, false);
      var spaces := false;
      var i: nat := 0;
      ghost var k: nat := 0;
      ghost var goal := DoubleBody(Written(), v, 0, false, allowBreaks, indent, cfg);
      EndBegins(value, v, 0, 0);
      while i < |value|
        invariant Valid() && Begins(value, v, i, k)
        invariant DoubleBody(Written(), v, k, spaces, allowBreaks, indent, cfg) == goal
        decreases |v| - k
      {
        EndBegins(value, v, i, k);
        i, spaces := DoubleTurn(value, i, spaces, allowBreaks, indent, v, k);
        k := k + 1;
      }
      EndBegins(value, v, i, k);
      WriteIndicator("\"", false, false, false);
      whitespace := false;
      indention := false;
    }

    /** One turn of the double-quoted writer's loop. */
    method DoubleTurn(value: Bytes, i: nat, spaces: bool, allowBreaks: bool, indent: int,
                      ghost v: string, ghost k: nat) returns (next: nat, spaces': bool)
      requires Valid() && Begins(value, v, i, k) && k < |v|
      modifies this`bufferPos, this`output, this`column, this`line, this`indention, this`whitespace, this`text, buffer
      ensures Valid() && Begins(value, v, next, k + 1) && spaces' == PlainSpace(v, k, cfg)
      ensures Written() == DoubleStep(old(Written()), v, k, spaces, allowBreaks, indent, cfg)
    {
      hide EscapeText;
      ClassesAt(value, v, i, k);
      AtStart(value, v, i, k);
      BomAtStart(value, v, i);
      if !IsPrintableAt(value, i) || (!cfg.unicode && !IsAsciiAt(value, i)) || IsBomAt(value, i)
         || IsBreakAt(value, i) || value[i] == 0x22 || value[i] == 0x5C {
        next := WriteEscape(value, i, v, k);
        spaces' := false;
      } else if IsSpaceAt(value, i) {
        SpaceNext(value, v, i, k);
        if allowBreaks && !spaces && column > cfg.bestWidth && 0 < i < |value| - 1 {
          WriteIndent(indent);
          if IsSpaceAt(value, i + 1) {
            Put('\\');
          }
          next := i + WidthAt(value, i);
        } else {
          next := Write(value, i, v, k);
        }
        spaces' := true;
      } else {
        next := Write(value, i, v, k);
        spaces' := false;
      }
    }

    /** The character at i as an escape: by name if it has one, or in hexadecimal. */
    method WriteEscape(value: Bytes, i: nat, ghost v: string, ghost k: nat) returns (next: nat)
      requires Valid() && Begins(value, v, i, k) && k < |v|
      modifies this`bufferPos, this`output, this`column, this`text, buffer
      ensures Valid() && Begins(value, v, next, k + 1)
      ensures Written() == PutAll(old(Written()), EscapeText(v[k]))
    {
      hide Encode, NAMED, HexEscape, PutAll;
      var x := DecodeAt(value, i, v, k);
      next := i + WidthAt(value, i);
      ClassesAt(value, v, i, k);
      var name := Lookup(NAMED, x as char, 0);
      PutThen(Written(), '\\', if name != "" then name else HexEscape(x));
      Put('\\');
      if name != "" {
        NameIsAscii(x as char);
        PutThen(Written(), name[0], "");
        PutNothing(Pens.Put(Written(), name[0]), "");
        Put(name[0]);
        assert [name[0]] + "" == name;
      } else {
        WriteHexEscape(x);
      }
    }

    method WriteHexEscape(x: nat)
      requires Valid()
      modifies this`bufferPos, this`output, this`column, this`text, buffer
      ensures Valid() && Written() == PutAll(old(Written()), HexEscape(x))
    {
      hide HexDigits, PutAll;
      var letter, w := 'U', 8;
      if x <= 0xFF {
        letter, w := 'x', 2;
      } else if x <= 0xFFFF {
        letter, w := 'u', 4;
      }
      PutThen(Written(), letter, HexDigits(x, w));
      Put(letter);
      PutDigits(x, w);
    }

    /** The digits from the highest on. */
    method PutDigits(x: nat, w: nat)
      requires Valid()
      modifies this`bufferPos, this`output, this`column, this`text, buffer
      ensures Valid() && Written() == PutAll(old(Written()), HexDigits(x, w))
    {
      hide HexDigits, PutAll, Shift;
      ghost var digits := HexDigits(x, w);
      var k := w;
      PutNothing(Written(), digits[..0]);
      while k > 0
        invariant 0 <= k <= w && Valid()
        invariant Written() == PutAll(old(Written()), digits[..w - k])
      {
        k := k - 1;
        var digit := Shift(x, k) % 16;
        HexDigitsAt(x, w, w - 1 - k);
        DigitIsAscii(digit);
        OneMore(digits, w - 1 - k);
        PutSnoc(old(Written()), digits[..w - 1 - k], HexDigit(digit));
        Put(HexDigit(digit));
      }
      assert digits[..w] == digits;
    }

    static lemma OneMore(s: string, i: nat)
      requires i < |s|
      ensures s[..i + 1] == s[..i] + [s[i]]
    {
    }

    /** The code point of the character at i. */
    method DecodeAt(value: Bytes, i: nat, ghost v: string, ghost k: nat) returns (x: nat)
      requires Begins(value, v, i, k) && k < |v|
      ensures x == v[k] as int
    {
      NextBegins(value, v, i, k);
      ClassesAt(value, v, i, k);
      ghost var e := Encode(v[k]);
      var w := WidthAt(value, i);
      ValueBack(v[k]);
      assert forall j :: 0 <= j < w ==> value[i + j] == e[j];
      x := LeadBits(value[i]);
      var j := 1;
      while j < w
        invariant 1 <= j <= w && x == Utf8Value(e, j)
      {
        x := x * 64 + value[i + j] as int % 64;
        j := j + 1;
      }
    }
  }

  lemma DigitIsAscii(d: nat)
    requires d < 16
    ensures IsAscii(HexDigit(d))
  {
  }

  lemma PutNothing(p: Pen, s: string)
    requires s == ""
    ensures PutAll(p, s) == p
  {
    assert p.out + s == p.out;
  }

  lemma PutThen(p: Pen, c: char, s: string)
    ensures PutAll(Pens.Put(p, c), s) == PutAll(p, [c] + s)
  {
    assert p.out + [c] + s == p.out + ([c] + s);
  }

  lemma PutSnoc(p: Pen, s: string, c: char)
    ensures Pens.Put(PutAll(p, s), c) == PutAll(p, s + [c])
  {
    assert p.out + s + [c] == p.out + (s + [c]);
  }

  lemma NameIsAscii(c: char)
    ensures var name := Lookup(NAMED, c, 0); name != "" ==> |name| == 1 && IsAscii(name[0])
  {
    LookupFinds(NAMED, c, 0);
  }

  lemma AtStart(value: Bytes, v: string, i: nat, k: nat)
    requires Begins(value, v, i, k)
    ensures i == 0 <==> k == 0
  {
    if k > 0 { EncodedSize(v[..k]); } else { assert v[..0] == ""; }
  }

  lemma BomAtStart(value: Bytes, v: string, i: nat)
    requires value == EncodeAll(v)
    ensures IsBomAt(value, i) <==> StartsWithBom(v)
  {
    if v != "" {
      var e := Encode(v[0]);
      StartBegins(v);
      NextBegins(value, v, 0, 0);
      Octets(value, 0, e);
      LeadOf(v[0]);
      MarkIsFEFF(v[0]);
      if IsBomAt(value, i) {
        assert |e| == 3;
        assert e == [e[0], e[1], e[2]];
      }
    }
  }

  lemma PadNone(p: Pen, n: nat)
    requires p.column >= n
    ensures PadTo(p, n) == p
  {
    assert p.out + Spaces(0) == p.out;
  }

  lemma PadOne(p: Pen, n: nat)
    requires p.column < n
    ensures PadTo(Pens.Put(p, ' '), n) == PadTo(p, n)
  {
    var k: nat := n - p.column;
    assert [' '] + Spaces(k - 1) == Spaces(k);
    assert p.out + [' '] + Spaces(k - 1) == p.out + ([' '] + Spaces(k - 1));
  }

  /** The character behind a space. */
  lemma SpaceNext(value: Bytes, v: string, i: nat, k: nat)
    requires Begins(value, v, i, k) && k < |v| && v[k] == ' '
    ensures IsSpaceAt(value, i + 1) <==> Ch(v, k + 1) == ' '
    ensures i < |value| - 1 <==> k < |v| - 1
  {
    ClassesAt(value, v, i, k);
    assert |Encode(' ')| == 1;
    EndBegins(value, v, i + 1, k + 1);
    if k + 1 < |v| { ClassesAt(value, v, i + 1, k + 1); }
  }
}
