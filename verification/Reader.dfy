/**
 The refill-driven reader: a raw buffer that the read handler fills in pieces of any size, and
 a buffer of UTF-8 that the scanner reads ahead in. Of input without an error it delivers all,
 whatever the pieces; of other input what the module Delivery says.
 */
module Reader {
  import opened Options
  import opened Unicode
  import opened Decoding
  import opened Delivery

  const BUFFER_SIZE: nat := 1536

  /** So many characters of any width may be asked for without overrunning the buffer. */
  const MAX_LENGTH: nat := 192

  /** So many bytes may be in the buffer when one character more is asked for. */
  const MAX_PEEKED: nat := 767

  function Zeros(n: nat): (s: seq<byte>)
    ensures |s| == n
  {
    seq(n, _ => 0)
  }

  /** The bytes not yet decoded, the pieces still to come, and whether the end was seen. */
  datatype Raw = Raw(window: seq<byte>, pieces: Pieces, eof: bool)

  /** After one read, which is none if there is no room or the end was seen. */
  ghost function AfterRead(r: Raw): Raw
    requires NoneEmpty(r.pieces)
  {
    if r.eof || |r.window| >= RAW_SIZE then r
    else if r.pieces == [] then r.(eof := true)
    else
      var (chunk, more) := ReadPiece(r.pieces, RAW_SIZE - |r.window|);
      Raw(r.window + chunk, more, false)
  }

  class Reader {
    var pieces: Pieces          // what the read handler will give
    const raw: array<byte>
    var rawLen: nat
    var rawPos: nat
    const buffer: array<byte>
    var bufferLen: nat
    var bufferPos: nat
    var unread: nat
    var eof: bool
    var encoding: Option<Encoding>
    var offset: nat

    ghost var ahead: string     // the characters of the input in the buffer
    ghost var nuls: nat         // the NULs counted as unread behind them
    ghost var padding: nat      // all NULs behind them

    constructor (pieces: Pieces)
      requires NoneEmpty(pieces)
      ensures Valid() && Ahead() == DecodeStream(Joined(pieces)) && Yield() == Delivered(pieces) && ahead == ""
      ensures fresh(raw) && fresh(buffer)
    {
      this.pieces := pieces;
      raw, rawLen, rawPos := new byte[RAW_SIZE](_ => 0), 0, 0;
      buffer, bufferLen, bufferPos := new byte[BUFFER_SIZE](_ => 0), 0, 0;
      unread, eof, encoding, offset := 0, false, None, 0;
      ahead, nuls, padding := "", 0, 0;
      new;
      assert Remaining() == Joined(pieces);
      var d := DecodeStream(Joined(pieces));
      assert "" + d.text == d.text && "" + Delivered(pieces) == Delivered(pieces);
    }

    ghost predicate RawValid()
      reads this, raw
    {
      && raw != buffer
      && raw.Length == RAW_SIZE && rawPos <= rawLen <= raw.Length && NoneEmpty(pieces)
      && (eof ==> pieces == [])
    }

    ghost predicate Valid()
      reads this, raw, buffer
    {
      && RawValid()
      && buffer.Length == BUFFER_SIZE && bufferPos <= bufferLen <= buffer.Length
      && buffer[bufferPos..bufferLen] == EncodeAll(ahead) + Zeros(padding)
      && unread == |ahead| + nuls && nuls <= padding <= nuls + MAX_PEEKED
      && (padding > 0 ==> eof && rawPos == rawLen) && (nuls == 0 ==> padding == 0)
      && (encoding.None? ==> !eof)
      && AllReadable(ahead)
    }

    ghost function RawView(): Raw
      requires rawPos <= rawLen <= raw.Length
      reads this, raw
    {
      Raw(raw[rawPos..rawLen], pieces, eof)
    }

    /** The input not yet decoded. */
    ghost function Remaining(): seq<byte>
      requires RawValid()
      reads this, raw
    {
      raw[rawPos..rawLen] + Joined(pieces)
    }

    /** All that is still to be delivered. */
    ghost function Ahead(): Decoded
      requires RawValid()
      reads this, raw
    {
      Then(ahead, AheadRaw())
    }

    /** What is still to be delivered, as the pieces come. */
    ghost function Yield(): string
      requires RawValid()
      reads this, raw
    {
      ahead + YieldRaw()
    }

    /** Any handler: it gives the next piece, or as much of it as there is room for, or says that there is no more. */
    method ReadHandler(space: nat) returns (chunk: seq<byte>, atEnd: bool)
      requires NoneEmpty(pieces) && space > 0
      modifies this`pieces
      ensures atEnd <==> old(pieces) == []
      ensures atEnd ==> chunk == [] && pieces == []
      ensures !atEnd ==> (chunk, pieces) == ReadPiece(old(pieces), space)
    {
      if pieces == [] {
        return [], true;
      }
      atEnd := false;
      var r := ReadPiece(pieces, space);
      chunk, pieces := r.0, r.1;
    }

    /** Reads once, if there is room and the end was not seen. */
    method UpdateRawBuffer()
      requires RawValid()
      modifies this`pieces, this`rawLen, this`rawPos, this`eof, raw
      ensures RawValid() && RawView() == AfterRead(old(RawView()))
    {
      hide Joined;
      if rawPos == 0 && rawLen == raw.Length {
        return;
      }
      if eof {
        return;
      }
      MoveDown();
      if rawLen == raw.Length {
        return;
      }
      var chunk, atEnd := ReadHandler(raw.Length - rawLen);
      ghost var was := raw[..];
      forall i | 0 <= i < |chunk| {
        raw[rawLen + i] := chunk[i];
      }
      ChunkPut(was, raw[..], rawLen, chunk);
      rawLen := rawLen + |chunk|;
      eof := eof || atEnd;
    }

    /** Moves the bytes not yet decoded to the beginning of the raw buffer. */
    method MoveDown()
      requires RawValid()
      modifies this`rawLen, this`rawPos, raw
      ensures RawValid() && rawPos == 0 && rawLen == old(rawLen - rawPos)
      ensures raw[..rawLen] == old(raw[rawPos..rawLen])
    {
      var kept := rawLen - rawPos;
      if rawPos > 0 && rawPos < rawLen {
        forall i | 0 <= i < kept {
          raw[i] := raw[rawPos + i];
        }
      }
      rawLen, rawPos := kept, 0;
    }

    /** At least three bytes of the input, if it has so many. */
    method FillThree()
      requires RawValid() && !eof
      modifies this`pieces, this`rawLen, this`rawPos, this`eof, raw
      ensures RawValid()
      ensures var (window, more) := Gather(old(raw[rawPos..rawLen]), old(pieces));
        RawView() == Raw(window, more, |window| < 3)
    {
      hide Gather, Joined;
      while !eof && rawLen - rawPos < 3
        invariant RawValid() && (eof ==> rawLen - rawPos < 3)
        invariant Gather(raw[rawPos..rawLen], pieces) == Gather(old(raw[rawPos..rawLen]), old(pieces))
        decreases |Joined(pieces)|, if eof then 0 else 1
      {
        GatherReads(raw[rawPos..rawLen], pieces);
        UpdateRawBuffer();
      }
      NoMoreGathered(raw[rawPos..rawLen], pieces);
    }

    method DetermineEncoding()
      requires RawValid() && encoding.None? && !eof
      modifies this`pieces, this`rawLen, this`rawPos, this`eof, this`encoding, this`offset, raw
      ensures RawValid() && encoding.Some? && Ahead() == old(Ahead()) && Yield() == old(Yield())
    {
      hide Rounds, DecodeAll, Gather;
      ghost var window, later := raw[rawPos..rawLen], pieces;
      FillThree();
      DetectPrefix(raw[rawPos..rawLen], Joined(pieces));
      var enc, mark := ByteOrderMark();
      encoding := Some(enc);
      PassRaw(mark);
    }

    method ByteOrderMark() returns (enc: Encoding, length: nat)
      requires RawValid()
      ensures (enc, length) == Detect(raw[rawPos..rawLen]) && length <= rawLen - rawPos
    {
      var avail := rawLen - rawPos;
      ghost var here := raw[rawPos..rawLen];
      assert forall i :: 0 <= i < |here| ==> here[i] == raw[rawPos + i];
      if avail >= 2 && raw[rawPos] == BOM_LE[0] && raw[rawPos + 1] == BOM_LE[1] {
        return Utf16LE, 2;
      } else if avail >= 2 && raw[rawPos] == BOM_BE[0] && raw[rawPos + 1] == BOM_BE[1] {
        return Utf16BE, 2;
      } else if avail >= 3 && raw[rawPos] == BOM8[0] && raw[rawPos + 1] == BOM8[1] && raw[rawPos + 2] == BOM8[2] {
        return Utf8, 3;
      } else {
        return Utf8, 0;
      }
    }

    /** Moves the raw pointers over bytes that have been decoded. */
    method PassRaw(width: nat)
      requires RawValid() && width <= rawLen - rawPos
      modifies this`rawPos, this`offset
      ensures RawValid() && rawPos == old(rawPos) + width && Remaining() == old(Remaining())[width..]
      ensures raw[rawPos..rawLen] == old(raw[rawPos..rawLen])[width..]
    {
      rawPos, offset := rawPos + width, offset + width;
    }

    // ---------- decoding ----------

    /** The next character of the raw buffer. */
    method DecodeNext() returns (one: One)
      requires RawValid() && encoding.Some? && rawPos < rawLen
      ensures one == DecodeOne(encoding.value, raw[rawPos..rawLen])
    {
      match encoding.value
      case Utf8 => one := DecodeNextUtf8();
      case Utf16LE => one := DecodeNextUtf16(0, 1);
      case Utf16BE => one := DecodeNextUtf16(1, 0);
    }

    method DecodeNextUtf8() returns (one: One)
      requires RawValid() && rawPos < rawLen
      ensures one == DecodeUtf8(raw[rawPos..rawLen])
    {
      ghost var bs := raw[rawPos..rawLen];
      var octet := raw[rawPos];
      var width := Width(octet);
      if width == 0 {
        return Bad(InvalidLeadingOctet(octet));
      }
      if width > rawLen - rawPos {
        return Partial(IncompleteUtf8);
      }
      var value: nat := LeadBits(octet);
      var k := 1;
      while k < width
        invariant 1 <= k <= width
        invariant value == Utf8Value(bs, k)
        invariant BadTrailing(bs, 1, width) == BadTrailing(bs, k, width)
      {
        octet := raw[rawPos + k];
        assert octet == bs[k];
        if octet / 64 != 2 {
          return Bad(InvalidTrailingOctet(octet));
        }
        value := value * 64 + octet as int % 64;
        k := k + 1;
      }
      if !RightLength(value, width) {
        return Bad(InvalidLength);
      }
      if 0xD800 <= value <= 0xDFFF || value > 0x10FFFF {
        return Bad(InvalidCharacter(value));
      }
      one := Checked(value, width);
    }

    method DecodeNextUtf16(low: nat, high: nat) returns (one: One)
      requires RawValid() && rawPos < rawLen
      requires (low == 0 && high == 1) || (low == 1 && high == 0)
      ensures one == DecodeUtf16(raw[rawPos..rawLen], low == 1)
    {
      ghost var bs := raw[rawPos..rawLen];
      if rawLen - rawPos < 2 {
        return Partial(IncompleteUtf16);
      }
      assert bs[0] == raw[rawPos] && bs[1] == raw[rawPos + 1];
      var value := raw[rawPos + low] as int + raw[rawPos + high] as int * 256;
      if value / 1024 == 0x37 {
        return Bad(UnexpectedLowSurrogate(value));
      }
      var width := 2;
      if value / 1024 == 0x36 {
        if rawLen - rawPos < 4 {
          return Partial(IncompletePair);
        }
        assert bs[2] == raw[rawPos + 2] && bs[3] == raw[rawPos + 3];
        var value2 := raw[rawPos + low + 2] as int + raw[rawPos + high + 2] as int * 256;
        if value2 / 1024 != 0x37 {
          return Bad(ExpectedLowSurrogate(value2));
        }
        width := 4;
        value := 0x10000 + value % 1024 * 1024 + value2 % 1024;
      }
      one := Checked(value, width);
    }

    method PutOctet(octet: byte)
      requires bufferPos <= bufferLen < buffer.Length
      modifies this`bufferLen, buffer
      ensures bufferLen == old(bufferLen) + 1
      ensures buffer[bufferPos..bufferLen] == old(buffer[bufferPos..bufferLen]) + [octet]
    {
      buffer[bufferLen] := octet;
      bufferLen := bufferLen + 1;
    }

    /** Writes a character behind those in the buffer. */
    method PutCharacter(c: char)
      requires bufferPos <= bufferLen && bufferLen + |Encode(c)| <= buffer.Length
      modifies this`bufferLen, buffer
      ensures bufferLen == old(bufferLen) + |Encode(c)|
      ensures buffer[bufferPos..bufferLen] == old(buffer[bufferPos..bufferLen]) + Encode(c)
    {
      hide Encode;
      var value := c as int;
      EncodeParts(c);
      if value <= 0x7F {
        PutOctet(value);
      } else if value <= 0x7FF {
        PutTwo(0xC0 + value / 64, 0x80 + value % 64);
      } else if value <= 0xFFFF {
        PutThree(0xE0 + value / 4096, 0x80 + value / 64 % 64, 0x80 + value % 64);
      } else {
        PutFour(0xF0 + value / 262144, 0x80 + value / 4096 % 64, 0x80 + value / 64 % 64, 0x80 + value % 64);
      }
    }

    method PutTwo(a: byte, b: byte)
      requires bufferPos <= bufferLen && bufferLen + 2 <= buffer.Length
      modifies this`bufferLen, buffer
      ensures bufferLen == old(bufferLen) + 2
      ensures buffer[bufferPos..bufferLen] == old(buffer[bufferPos..bufferLen]) + [a, b]
    {
      ghost var was := buffer[bufferPos..bufferLen];
      PutOctet(a);
      PutOctet(b);
      assert was + [a, b] == was + [a] + [b];
    }

    method PutThree(a: byte, b: byte, c: byte)
      requires bufferPos <= bufferLen && bufferLen + 3 <= buffer.Length
      modifies this`bufferLen, buffer
      ensures bufferLen == old(bufferLen) + 3
      ensures buffer[bufferPos..bufferLen] == old(buffer[bufferPos..bufferLen]) + [a, b, c]
    {
      ghost var was := buffer[bufferPos..bufferLen];
      PutOctet(a);
      PutTwo(b, c);
      assert was + [a, b, c] == was + [a] + [b, c];
    }

    method PutFour(a: byte, b: byte, c: byte, d: byte)
      requires bufferPos <= bufferLen && bufferLen + 4 <= buffer.Length
      modifies this`bufferLen, buffer
      ensures bufferLen == old(bufferLen) + 4
      ensures buffer[bufferPos..bufferLen] == old(buffer[bufferPos..bufferLen]) + [a, b, c, d]
    {
      ghost var was := buffer[bufferPos..bufferLen];
      PutTwo(a, b);
      PutTwo(c, d);
      assert was + [a, b, c, d] == was + [a, b] + [c, d];
    }

    /**
     Decodes what the raw buffer holds, up to a character that is cut off there; no byte of it
     takes more than one and a half in the buffer.
     */
    method DecodeRaw() returns (error: Option<ReadError>)
      requires Valid() && encoding.Some? && bufferPos == 0
      requires rawPos < rawLen ==> padding == 0 && bufferLen + 768 <= BUFFER_SIZE
      modifies this`rawPos, this`offset, this`bufferLen, this`unread, this`ahead, buffer
      ensures Valid() && Ahead() == old(Ahead())
      ensures rawPos >= old(rawPos) && (bufferLen - old(bufferLen)) * 2 <= (rawPos - old(rawPos)) * 3
      ensures var w := Look(encoding.value, old(raw[rawPos..rawLen]));
        && (error.Some? <==> w.bad || (eof && w.rest != []))
        && (error.None? ==> ahead == old(ahead) + w.text && raw[rawPos..rawLen] == w.rest)
      ensures error.Some? ==> Ahead() == Decoded(ahead, error)
      ensures |ahead| - old(|ahead|) <= rawPos - old(rawPos)
    {
      hide DecodeAll, DecodeOne, EncodeAll, Encode, AllReadable;
      ghost var start, rawStart, enc, window := bufferLen, rawPos, encoding.value, raw[rawPos..rawLen];
      ghost var read := "";
      assert ahead + "" == ahead;
      while rawPos != rawLen
        invariant Valid() && Ahead() == old(Ahead()) && ahead == old(ahead) + read
        invariant Look(enc, window) == Follow(Window(read, [], false), Look(enc, raw[rawPos..rawLen]))
        invariant rawStart <= rawPos && start <= bufferLen && (bufferLen - start) * 2 <= (rawPos - rawStart) * 3
        invariant |ahead| - old(|ahead|) <= rawPos - rawStart
        decreases rawLen - rawPos
      {
        ghost var here := raw[rawPos..rawLen];
        var one := DecodeNext();
        OneWidth(enc, here);
        FirstLook(enc, here, read);
        if one.One? {
          FirstOfMore(enc, here, Joined(pieces));
          FirstIsEncoded(enc, here);
          Deliver(one.c, one.width);
          read := read + [one.c];
        } else {
          NotLooked(enc, here, Joined(pieces), ahead);
          if one.Partial? && !eof {
            return None;
          }
          return Some(one.error);
        }
      }
      LookAtNothing(enc);
      error := None;
    }

    /** The next character of the input goes from the raw buffer to the other. */
    method Deliver(c: char, width: nat)
      requires Valid() && encoding.Some? && padding == 0 && rawPos < rawLen && bufferLen + |Encode(c)| <= BUFFER_SIZE
      requires 1 <= width <= rawLen - rawPos
      requires DecodeOne(encoding.value, raw[rawPos..rawLen]) == One(c, width)
      requires DecodeOne(encoding.value, Remaining()) == One(c, width) && Readable(c as int)
      modifies this`rawPos, this`offset, this`bufferLen, this`unread, this`ahead, buffer
      ensures Valid() && Ahead() == old(Ahead()) && rawPos == old(rawPos) + width
      ensures raw[rawPos..rawLen] == old(raw[rawPos..rawLen])[width..]
      ensures bufferLen == old(bufferLen) + |Encode(c)| && unread == old(unread) + 1 && ahead == old(ahead) + [c]
    {
      hide DecodeOne, DecodeAll, EncodeAll, Encode;
      FirstDelivered(encoding.value, Remaining(), ahead, c, width);
      PassRaw(width);
      PutCharacter(c);
      unread := unread + 1;
      ahead := ahead + [c];
    }

    /** Moves the unread characters to the beginning of the buffer. */
    method Compact()
      requires Valid()
      modifies this`bufferPos, this`bufferLen, buffer
      ensures Valid() && bufferPos == 0 && bufferLen == old(bufferLen - bufferPos)
      ensures buffer[..bufferLen] == old(buffer[bufferPos..bufferLen])
    {
      var n := bufferLen - bufferPos;
      ghost var was := buffer[bufferPos..bufferLen];
      if bufferPos > 0 && bufferPos < bufferLen {
        forall i | 0 <= i < n {
          buffer[i] := buffer[bufferPos + i];
        }
      }
      bufferPos, bufferLen := 0, n;
      assert buffer[0..n] == was;
    }

    /** Puts NULs behind the last character: one that counts, and what the length asked for needs. */
    method PutNuls(length: nat)
      requires Valid() && eof && rawPos == rawLen && bufferPos == 0
      requires bufferLen < BUFFER_SIZE && length <= MAX_PEEKED + 1
      modifies this`bufferLen, this`unread, this`nuls, this`padding, buffer
      ensures Valid() && unread == old(unread) + 1 && bufferPos == 0 && bufferLen >= length
      ensures nuls == old(nuls) + 1
    {
      PutNul();
      unread := unread + 1;
      nuls := nuls + 1;
      while bufferLen < length
        invariant Valid() && bufferPos == 0 && unread == old(unread) + 1 && nuls == old(nuls) + 1
        invariant bufferLen < length ==> padding <= bufferLen
      {
        PutNul();
      }
    }

    method PutNul()
      requires RawValid() && buffer.Length == BUFFER_SIZE && bufferPos <= bufferLen < buffer.Length
      requires buffer[bufferPos..bufferLen] == EncodeAll(ahead) + Zeros(padding)
      modifies this`bufferLen, this`padding, buffer
      ensures bufferLen == old(bufferLen) + 1 && padding == old(padding) + 1
      ensures buffer[bufferPos..bufferLen] == EncodeAll(ahead) + Zeros(padding)
    {
      PutOctet(0);
      assert EncodeAll(ahead) + Zeros(padding) + [0] == EncodeAll(ahead) + Zeros(padding + 1);
      padding := padding + 1;
    }

    /** Fewer characters of any width, or one more than are there if those are narrow. */
    predicate Fits(length: nat)
      reads this
      requires bufferPos <= bufferLen
    {
      length <= MAX_LENGTH || (length <= unread + 1 && bufferLen - bufferPos <= MAX_PEEKED)
    }

    /** There is room for what a full raw buffer is decoded to, and for NULs. */
    lemma Space(length: nat)
      requires Valid() && bufferPos == 0 && unread < length && Fits(length)
      ensures length <= MAX_PEEKED + 1 && bufferLen < BUFFER_SIZE
      ensures padding == 0 ==> bufferLen + 769 <= BUFFER_SIZE
    {
      hide EncodeAll;
      EncodedSize(ahead);
    }

    /** As many blanks as the scanners of comments look ahead over fit. */
    lemma BlanksFit(length: nat)
      requires Valid() && length <= unread + 1 && nuls == 0 && |EncodeAll(ahead)| <= MAX_PEEKED
      ensures Fits(length)
    {
    }

    /** Reads once, behind bytes that show no character yet. */
    method ReadOnce()
      requires Valid() && encoding.Some?
      requires Look(encoding.value, raw[rawPos..rawLen]) == Window("", raw[rawPos..rawLen], false)
      modifies this`pieces, this`rawLen, this`rawPos, this`eof, raw
      ensures Valid() && Ahead() == old(Ahead()) && Yield() == old(Yield())
      ensures !eof ==> |Joined(pieces)| < old(|Joined(pieces)|)
      ensures eof ==> pieces == old(pieces) && rawLen - rawPos == old(rawLen - rawPos)
    {
      hide DecodeAll, DecodeStream, EncodeAll, Look, Rounds, FirstRounds;
      ghost var enc, before := encoding.value, RawView();
      LookIsDecode(enc, before.window);
      ReadKeepsInput(before);
      ReadKeepsRounds(enc, before);
      UpdateRawBuffer();
    }

    /** Decodes the raw buffer; what is decoded together with an error is not to be delivered. */
    method DecodeRound() returns (error: Option<ReadError>)
      requires Valid() && encoding.Some? && bufferPos == 0
      requires rawPos < rawLen ==> padding == 0 && bufferLen + 768 <= BUFFER_SIZE
      modifies this`rawPos, this`offset, this`bufferLen, this`unread, this`ahead, buffer
      ensures Valid() && Ahead() == old(Ahead()) && rawPos >= old(rawPos)
      ensures (bufferLen - old(bufferLen)) * 2 <= (rawPos - old(rawPos)) * 3
      ensures error.Some? ==> Ahead() == Decoded(ahead, error) && |ahead| <= old(|ahead|) + RAW_SIZE
      ensures error.Some? ==> old(Yield()) == old(ahead)
      ensures error.None? ==> Yield() == old(Yield()) && unread >= old(unread)
      ensures error.None? ==> Look(encoding.value, raw[rawPos..rawLen]) == Window("", raw[rawPos..rawLen], false)
      ensures error.None? && unread == old(unread) ==> bufferLen == old(bufferLen)
      ensures error.None? && eof ==> rawPos == rawLen
    {
      hide DecodeAll, DecodeStream, DecodeOne, EncodeAll, AllReadable, Look, Rounds, FirstRounds, Joined, Then;
      ghost var enc, window, was := encoding.value, raw[rawPos..rawLen], ahead;
      ghost var w := Look(enc, window);
      RoundDecoded(enc, window, pieces, eof);
      EmptyBetween(was, "");
      error := DecodeRaw();
      if error.None? {
        ConcatThree(was, w.text, Rounds(enc, w.rest, pieces, eof));
        if unread == old(unread) { assert ahead == was; }
      }
    }

    /** Everything is decoded: NULs come behind it. */
    method EndOfInput(length: nat)
      requires Valid() && encoding.Some? && eof && rawPos == rawLen && bufferPos == 0
      requires bufferLen < BUFFER_SIZE && length <= MAX_PEEKED + 1
      modifies this`bufferLen, this`unread, this`nuls, this`padding, buffer
      ensures Valid() && Ahead() == old(Ahead()) == Decoded(ahead, None) && Yield() == old(Yield())
      ensures nuls > 0 && bufferLen >= length && unread > old(unread)
    {
      hide DecodeAll, DecodeStream, EncodeAll, AllReadable, Rounds, FirstRounds;
      NothingAhead(ahead, encoding.value, Remaining());
      PutNuls(length);
    }

    /** Fills the raw buffer if that is due, and decodes it; at the end of the input puts NULs. */
    method Refill(length: nat, first: bool) returns (error: Option<ReadError>, done: bool)
      requires Valid() && encoding.Some? && bufferPos == 0 && unread < length && Fits(length)
      requires first || Look(encoding.value, raw[rawPos..rawLen]) == Window("", raw[rawPos..rawLen], false)
      modifies this, raw, buffer
      ensures Valid() && Ahead() == old(Ahead()) && encoding == old(encoding) && bufferPos == 0
      ensures Look(encoding.value, raw[rawPos..rawLen]) == Window("", raw[rawPos..rawLen], false) || error.Some?
      ensures error.Some? ==> Ahead() == Decoded(ahead, error) && |ahead| < length + RAW_SIZE
      ensures error.Some? ==> old(Yield()) == old(ahead)
      ensures error.None? ==> Yield() == old(Yield())
      ensures error.None? && done ==> nuls > 0 && Ahead() == Decoded(ahead, None) && bufferLen >= length
      ensures error.None? && !done && unread < length ==> Fits(length)
      ensures error.None? && !done ==>
        || |Joined(pieces)| < old(|Joined(pieces)|)
        || (pieces == old(pieces) && eof == old(eof) &&
            (rawLen - rawPos < old(rawLen - rawPos) || (rawLen - rawPos == old(rawLen - rawPos) && first)))
    {
      hide DecodeAll, DecodeStream, DecodeOne, EncodeAll, AllReadable, Look, Rounds, FirstRounds, AfterRead, Then,
        Joined, Zeros, NoneEmpty;
      Space(length);
      LookAtNothing(encoding.value);
      assert rawPos == rawLen ==> raw[rawPos..rawLen] == [];
      if !first || rawPos == rawLen {
        ReadOnce();
      }
      error := DecodeRound();
      if error.Some? {
        return error, true;
      }
      done := eof;
      if eof {
        EndOfInput(length);
      }
    }

    /**
     Makes so many characters ready, or all there are and a NUL behind them. Whatever pieces the
     handler gave the input in, nothing of what is still to be delivered changes; and an error
     is reported only when all characters before it have come into the buffer, little more than
     one raw buffer's.
     */
    method UpdateBuffer(length: nat) returns (error: Option<ReadError>)
      requires Valid() && 1 <= length && Fits(length)
      modifies this, raw, buffer
      ensures Valid() && Ahead() == old(Ahead())
      ensures error.None? ==>
        (unread >= length || (nuls > 0 && Ahead() == Decoded(ahead, None))) && bufferLen - bufferPos >= length
      ensures error.Some? ==> Ahead() == Decoded(ahead, error) && |ahead| < length + RAW_SIZE
      ensures error.None? ==> Yield() == old(Yield())
      ensures error.Some? ==> |old(Yield())| < length
    {
      hide DecodeAll, DecodeStream, EncodeAll, Look, Rounds;
      if unread < length {
        if encoding.None? {
          DetermineEncoding();
        }
        Compact();
        var first := true;
        while unread < length
          invariant Valid() && Ahead() == old(Ahead()) && Yield() == old(Yield())
          invariant encoding.Some? && bufferPos == 0 && (unread < length ==> Fits(length))
          invariant first || Look(encoding.value, raw[rawPos..rawLen]) == Window("", raw[rawPos..rawLen], false)
          decreases |Joined(pieces)|, if eof then 0 else 1, rawLen - rawPos, if first then 1 else 0
        {
          var done;
          error, done := Refill(length, first);
          if error.Some? || done {
            return;
          }
          first := false;
        }
      }
      EncodedSize(ahead);
      error := None;
    }

    /** The scanner takes the next character. */
    method Take() returns (octets: seq<byte>)
      requires Valid() && ahead != ""
      modifies this`bufferPos, this`unread, this`ahead
      ensures Valid() && octets == Encode(old(ahead)[0]) && ahead == old(ahead)[1..]
      ensures Ahead() == (var d := old(Ahead()); d.(text := d.text[1..])) && old(Ahead()).text[0] == old(ahead)[0]
      ensures old(Yield()) == [old(ahead)[0]] + Yield()
    {
      hide DecodeAll, DecodeStream, Encode, Rounds, FirstRounds, Joined;
      ghost var due, was, bs := YieldRaw(), ahead, buffer[bufferPos..bufferLen];
      FirstOctets(bs, ahead, padding);
      LeadOf(ahead[0]);
      assert buffer[bufferPos] == bs[0];
      var width := Width(buffer[bufferPos]);
      octets := buffer[bufferPos..bufferPos + width];
      Sliced(buffer[..], bufferPos, bufferLen, width);
      TextTaken(ahead, AheadRaw());
      FirstTaken(ahead, due);
      bufferPos, unread := bufferPos + width, unread - 1;
      ahead := ahead[1..];
    }

    ghost function YieldRaw(): string
      requires RawValid()
      reads this, raw
    {
      match encoding
      case None => FirstRounds(raw[rawPos..rawLen], pieces)
      case Some(enc) => Rounds(enc, raw[rawPos..rawLen], pieces, eof)
    }

    ghost function AheadRaw(): Decoded
      requires RawValid()
      reads this, raw
    {
      match encoding
      case None => DecodeStream(Remaining())
      case Some(enc) => DecodeAll(enc, Remaining())
    }

    /** The next character is a NUL only where the input has ended. */
    lemma NulIsEnd()
      requires Valid() && bufferPos < bufferLen
      ensures buffer[bufferPos] == 0 <==> ahead == ""
      ensures ahead == "" ==> Ahead() == Decoded("", None) && Yield() == ""
    {
      hide Encode;
      var bs := buffer[bufferPos..bufferLen];
      assert bs[0] == buffer[bufferPos];
      if ahead != "" {
        assert bs == Encode(ahead[0]) + (EncodeAll(ahead[1..]) + Zeros(padding));
        assert Readable(ahead[0] as int);
        NotNul(ahead[0]);
      } else {
        assert padding > 0 && Remaining() == [];
      }
    }
  }

  lemma EncodeParts(c: char)
    ensures var x := c as int;
      && (x <= 0x7F ==> Encode(c) == [x])
      && (0x7F < x <= 0x7FF ==> Encode(c) == [0xC0 + x / 64, 0x80 + x % 64])
      && (0x7FF < x <= 0xFFFF ==> Encode(c) == [0xE0 + x / 4096, 0x80 + x / 64 % 64, 0x80 + x % 64])
      && (0xFFFF < x ==>
          Encode(c) == [0xF0 + x / 262144, 0x80 + x / 4096 % 64, 0x80 + x / 64 % 64, 0x80 + x % 64])
  {
  }

  lemma NotNul(c: char)
    requires Readable(c as int)
    ensures Encode(c)[0] != 0
  {
  }

  lemma ChunkPut(was: seq<byte>, now: seq<byte>, at: nat, chunk: seq<byte>)
    requires at + |chunk| <= |was| == |now| && now[..at] == was[..at]
    requires forall i :: 0 <= i < |chunk| ==> now[at + i] == chunk[i]
    ensures now[..at + |chunk|] == was[..at] + chunk
  {
    assert now[at..at + |chunk|] == chunk;
  }

  lemma GatherReads(window: seq<byte>, pieces: Pieces)
    requires NoneEmpty(pieces) && |window| < 3
    ensures var r := AfterRead(Raw(window, pieces, false));
      && r.eof == (pieces == []) && NoneEmpty(r.pieces) && Gather(r.window, r.pieces) == Gather(window, pieces)
      && (r.eof ==> r.window == window && r.pieces == pieces)
      && (!r.eof ==> |Joined(r.pieces)| < |Joined(pieces)|)
  {
  }

  lemma NoMoreGathered(window: seq<byte>, pieces: Pieces)
    requires NoneEmpty(pieces) && (|window| >= 3 || pieces == [])
    ensures Gather(window, pieces) == (window, pieces)
  {
  }

  lemma FirstOctets(bs: seq<byte>, ahead: string, padding: nat)
    requires ahead != "" && bs == EncodeAll(ahead) + Zeros(padding)
    ensures var first := Encode(ahead[0]);
      |first| <= |bs| && bs[..|first|] == first && bs[|first|..] == EncodeAll(ahead[1..]) + Zeros(padding)
    ensures bs[0] == Encode(ahead[0])[0]
  {
    hide Encode, Zeros;
    var first, rest := Encode(ahead[0]), EncodeAll(ahead[1..]) + Zeros(padding);
    assert bs == first + rest;
  }

  lemma Sliced(s: seq<byte>, lo: nat, hi: nat, width: nat)
    requires lo + width <= hi <= |s|
    ensures s[lo..hi][..width] == s[lo..lo + width] && s[lo..hi][width..] == s[lo + width..hi]
  {
  }

  lemma FirstTaken(ahead: string, due: string)
    requires ahead != ""
    ensures ahead + due == [ahead[0]] + (ahead[1..] + due)
  {
  }

  lemma TextTaken(ahead: string, more: Decoded)
    requires ahead != ""
    ensures Then(ahead, more).text == [ahead[0]] + Then(ahead[1..], more).text
    ensures Then(ahead[1..], more).end == more.end
  {
  }

  /**
   All characters of the input, in UTF-8, taken one by one through the buffers. Whatever pieces
   it comes in, the end is that of decoding the whole input at once. Without an error all of it
   is delivered; before an error, what the pieces make of it, and no more than one raw buffer
   of characters is lost. Text behind its byte order mark, in any encoding, comes through without it.
   */
  method ReadAll(pieces: Pieces) returns (text: seq<byte>, error: Option<ReadError>, ghost taken: string)
    requires NoneEmpty(pieces)
    ensures error == DecodeStream(Joined(pieces)).end
    ensures text == EncodeAll(taken) && taken == Delivered(pieces) && taken <= DecodeStream(Joined(pieces)).text
    ensures error.None? ==> taken == DecodeStream(Joined(pieces)).text
    ensures |DecodeStream(Joined(pieces)).text| - |taken| <= RAW_SIZE
    ensures forall enc, s :: AllReadable(s) && Joined(pieces) == EncodeIn(enc, Marked(s)) ==>
      error.None? && taken == s
  {
    hide DecodeStream, DecodeAll, EncodeAll, Encode, Delivered, Rounds, FirstRounds, EncodeIn, AllReadable;
    forall enc, s | AllReadable(s) && Joined(pieces) == EncodeIn(enc, Marked(s))
      ensures DecodeStream(Joined(pieces)) == Decoded(s, None)
    {
      StreamsDecoded(enc, s);
    }
    var reader := new Reader(pieces);
    taken := "";
    text := [];
    NoText();
    while true
      invariant reader.Valid() && fresh(reader) && fresh(reader.raw) && fresh(reader.buffer)
      invariant Then(taken, reader.Ahead()) == DecodeStream(Joined(pieces))
      invariant taken + reader.Yield() == Delivered(pieces)
      invariant text == EncodeAll(taken)
      decreases |reader.Ahead().text|
    {
      error := reader.UpdateBuffer(1);
      if error.Some? {
        break;
      }
      reader.NulIsEnd();
      if reader.buffer[reader.bufferPos] == 0 {
        break;
      }
      ghost var c, before, due := reader.ahead[0], reader.Ahead(), reader.Yield();
      var octets := reader.Take();
      TakenOn(taken, c, before, reader.Ahead());
      Shifted(taken, c, reader.Yield());
      text := text + octets;
      taken := taken + [c];
    }
  }

  lemma Shifted(taken: string, c: char, rest: string)
    ensures taken + ([c] + rest) == taken + [c] + rest
  {
  }

  lemma TakenOn(taken: string, c: char, before: Decoded, after: Decoded)
    requires before.text != "" && before.text[0] == c && after == before.(text := before.text[1..])
    ensures Then(taken + [c], after) == Then(taken, before)
    ensures EncodeAll(taken + [c]) == EncodeAll(taken) + Encode(c)
  {
    assert taken + [c] + after.text == taken + before.text;
    EncodeConcat(taken, [c]);
    EncodeOne(c);
  }

  lemma NoText()
    ensures EncodeAll("") == []
  {
  }

  /** Nothing is left of the input. */
  lemma NothingAhead(ahead: string, enc: Encoding, bs: seq<byte>)
    requires bs == []
    ensures Then(ahead, DecodeAll(enc, bs)) == Decoded(ahead, None)
  {
    assert ahead + "" == ahead;
  }

  lemma ReadKeepsInput(r: Raw)
    requires NoneEmpty(r.pieces)
    ensures var r1 := AfterRead(r);
      NoneEmpty(r1.pieces) && r1.window + Joined(r1.pieces) == r.window + Joined(r.pieces)
  {
  }

  lemma ReadKeepsRounds(enc: Encoding, r: Raw)
    requires NoneEmpty(r.pieces) && Look(enc, r.window) == Window("", r.window, false) && |r.window| < 4
    requires r.eof ==> r.pieces == []
    ensures var r1 := AfterRead(r);
      NoneEmpty(r1.pieces) && Rounds(enc, r1.window, r1.pieces, r1.eof) == Rounds(enc, r.window, r.pieces, r.eof)
  {
    hide Look;
  }

  /** A window is decoded, or its error met. */
  lemma RoundDecoded(enc: Encoding, window: seq<byte>, pieces: Pieces, eof: bool)
    requires NoneEmpty(pieces)
    ensures var w := Look(enc, window);
      && (w.bad || (eof && w.rest != []) ==> Rounds(enc, window, pieces, eof) == "")
      && (!(w.bad || (eof && w.rest != [])) ==>
        && Look(enc, w.rest) == Window("", w.rest, false)
        && Rounds(enc, window, pieces, eof) == w.text + Rounds(enc, w.rest, pieces, eof))
  {
    hide Look, Rounds;
    var w := Look(enc, window);
    RoundIs(enc, window, pieces, eof);
    if !w.bad && !(eof && w.rest != []) {
      LookAgain(enc, window);
      RoundIs(enc, w.rest, pieces, eof);
      if pieces != [] {
        LookIsDecode(enc, window);
        var (chunk, more) := ReadPiece(pieces, RAW_SIZE - |w.rest|);
        EmptyBetween(w.text, Rounds(enc, w.rest + chunk, more, false));
      } else {
        EmptyBetween(w.text, "");
      }
    }
  }

  lemma EmptyBetween(a: string, b: string)
    ensures a + ("" + b) == a + b && a + "" == a
  {
  }

  /** One round, unfolded. */
  lemma RoundIs(enc: Encoding, window: seq<byte>, pieces: Pieces, eof: bool)
    requires NoneEmpty(pieces)
    ensures var w := Look(enc, window);
      && (w.bad || (eof && w.rest != []) ==> Rounds(enc, window, pieces, eof) == "")
      && (!w.bad && !(eof && w.rest != []) && pieces == [] ==> Rounds(enc, window, pieces, eof) == w.text)
      && (!w.bad && !(eof && w.rest != []) && pieces != [] ==>
        |w.rest| < 4 && var (chunk, more) := ReadPiece(pieces, RAW_SIZE - |w.rest|);
        Rounds(enc, window, pieces, eof) == w.text + Rounds(enc, w.rest + chunk, more, false))
  {
    hide Look;
    LookIsDecode(enc, window);
  }

  lemma LookAgain(enc: Encoding, bs: seq<byte>)
    requires !Look(enc, bs).bad
    ensures var rest := Look(enc, bs).rest; Look(enc, rest) == Window("", rest, false)
  {
    hide DecodeOne, Look;
    var rest := Look(enc, bs).rest;
    if rest == [] {
      LookAtNothing(enc);
    } else {
      RestIsPartial(enc, bs);
      LookFirst(enc, rest);
    }
  }

  /** The first character of a window, in front of what the rest of it shows. */
  lemma FirstLook(enc: Encoding, here: seq<byte>, read: string)
    requires here != []
    ensures var o := DecodeOne(enc, here); o.One? && o.width <= |here| ==>
      Follow(Window(read, [], false), Look(enc, here))
        == Follow(Window(read + [o.c], [], false), Look(enc, here[o.width..]))
    ensures DecodeOne(enc, here).Partial? ==> Look(enc, here) == Window("", here, false)
    ensures DecodeOne(enc, here).Bad? ==> Look(enc, here) == Window("", here, true)
  {
    hide DecodeOne;
    var o := DecodeOne(enc, here);
    if o.One? && o.width <= |here| {
      OneWidth(enc, here);
      assert read + ([o.c] + Look(enc, here[o.width..]).text) == read + [o.c] + Look(enc, here[o.width..]).text;
    }
  }

  /** An error in a window is one of the input; a character cut off there is one only at the end. */
  lemma NotLooked(enc: Encoding, here: seq<byte>, more: seq<byte>, ahead: string)
    requires here != [] && !DecodeOne(enc, here).One?
    ensures DecodeOne(enc, here).Bad? || more == [] ==>
      Then(ahead, DecodeAll(enc, here + more)) == Decoded(ahead, Some(DecodeOne(enc, here).error))
  {
    hide DecodeOne;
    assert ahead + "" == ahead;
    if more == [] {
      assert here + more == here;
    } else if DecodeOne(enc, here).Bad? {
      MoreBytes(enc, here, more);
    }
  }

  lemma FirstDelivered(enc: Encoding, bs: seq<byte>, ahead: string, c: char, width: nat)
    requires bs != [] && DecodeOne(enc, bs) == One(c, width) && width <= |bs|
    ensures Then(ahead, DecodeAll(enc, bs)) == Then(ahead + [c], DecodeAll(enc, bs[width..]))
    ensures EncodeAll(ahead + [c]) + Zeros(0) == EncodeAll(ahead) + Zeros(0) + Encode(c)
  {
    hide DecodeOne;
    var rest := DecodeAll(enc, bs[width..]).text;
    assert ahead + ([c] + rest) == ahead + [c] + rest;
    EncodeConcat(ahead, [c]);
    EncodeOne(c);
  }

  /** What the raw buffer shows of the next character, the whole input shows. */
  lemma FirstOfMore(enc: Encoding, here: seq<byte>, more: seq<byte>)
    requires here != []
    ensures !DecodeOne(enc, here).Partial? ==> DecodeOne(enc, here + more) == DecodeOne(enc, here)
  {
    if !DecodeOne(enc, here).Partial? { MoreBytes(enc, here, more); }
  }

  /** The length of a character, by its first octet; 0 if it cannot be one. */
  function Width(octet: byte): (w: nat)
    ensures w == Utf8Width(octet)
  {
    if octet < 0x80 then 1
    else if octet / 32 == 6 then 2
    else if octet / 16 == 14 then 3
    else if octet / 8 == 30 then 4
    else 0
  }

  function Then(text: string, d: Decoded): Decoded {
    d.(text := text + d.text)
  }
}
