/**
 What the reader delivers before an error, as a function of the pieces in which the input comes:
 the pieces can make a difference, and the bytes of the input say exactly when.
 */
module Delivery {
  import opened Options
  import opened Unicode
  import opened Decoding

  const RAW_SIZE: nat := 512

  /** The pieces that the read handler gives one after the other; none is empty. */
  type Pieces = seq<seq<byte>>

  function Joined(pieces: Pieces): seq<byte> {
    if pieces == [] then [] else pieces[0] + Joined(pieces[1..])
  }

  predicate NoneEmpty(pieces: Pieces) {
    forall i :: 0 <= i < |pieces| ==> pieces[i] != []
  }

  /** The input, in pieces. */
  predicate Splits(pieces: Pieces, bytes: seq<byte>) {
    NoneEmpty(pieces) && Joined(pieces) == bytes
  }

  /** What one read gives when there is so much room: a piece, or its beginning. */
  function ReadPiece(pieces: Pieces, space: nat): (r: (seq<byte>, Pieces))
    requires NoneEmpty(pieces) && pieces != [] && space > 0
    ensures 0 < |r.0| <= space && NoneEmpty(r.1) && r.0 + Joined(r.1) == Joined(pieces)
  {
    var piece := pieces[0];
    if |piece| <= space then (piece, pieces[1..])
    else
      assert piece[..space] + piece[space..] == piece;
      assert ([piece[space..]] + pieces[1..])[1..] == pieces[1..];
      (piece[..space], [piece[space..]] + pieces[1..])
  }

  // ---------- what a window of bytes shows ----------

  /** The characters in a window, the bytes that are left, and whether an error is seen in them. */
  datatype Window = Window(text: string, rest: seq<byte>, bad: bool)

  function Look(enc: Encoding, bs: seq<byte>): Window
    decreases |bs|
  {
    if bs == [] then Window("", [], false)
    else
      match DecodeOne(enc, bs)
      case Partial(_) => Window("", bs, false)
      case Bad(_) => Window("", bs, true)
      case One(c, width) =>
        OneWidth(enc, bs);
        var w := Look(enc, bs[width..]);
        w.(text := [c] + w.text)
  }

  /** The input is cut off inside a character. */
  predicate CutOff(e: ReadError) {
    e == IncompleteUtf8 || e == IncompleteUtf16 || e == IncompletePair
  }

  lemma {:induction false} LookIsDecode(enc: Encoding, bs: seq<byte>)
    ensures var w, d := Look(enc, bs), DecodeAll(enc, bs);
      && w.text == d.text && (w.bad <==> d.end.Some? && !CutOff(d.end.value))
      && (!w.bad && w.rest == [] <==> d.end == None)
    ensures !Look(enc, bs).bad ==> |Look(enc, bs).rest| < 4
    ensures Look(enc, bs).bad ==> Look(enc, bs).rest != []
    decreases |bs|
  {
    if bs != [] {
      OneWidth(enc, bs);
      OneKind(enc, bs);
      match DecodeOne(enc, bs) {
        case One(c, width) => LookIsDecode(enc, bs[width..]);
        case _ =>
      }
    }
  }

  lemma OneKind(enc: Encoding, bs: seq<byte>)
    requires bs != []
    ensures DecodeOne(enc, bs).Partial? ==> CutOff(DecodeOne(enc, bs).error)
    ensures DecodeOne(enc, bs).Bad? ==> !CutOff(DecodeOne(enc, bs).error)
  {
    hide Utf8Value, BadTrailing, UnitAt, RightLength, Readable;
  }

  /** The text of the window before it, then what the rest shows with more bytes behind it. */
  function Follow(w: Window, next: Window): Window {
    next.(text := w.text + next.text)
  }

  lemma {:induction false} LookOn(enc: Encoding, a: seq<byte>, b: seq<byte>)
    ensures var w := Look(enc, a);
      if w.bad then Look(enc, a + b).bad && Look(enc, a + b).text == w.text
      else Look(enc, a + b) == Follow(w, Look(enc, w.rest + b))
    decreases |a|
  {
    hide DecodeOne, Look;
    if a == [] {
      LookAtNothing(enc);
      assert a + b == b && [] + b == b;
    } else {
      LookFirst(enc, a);
      var o := DecodeOne(enc, a);
      if !o.Partial? {
        MoreBytes(enc, a, b);
        LookFirst(enc, a + b);
        if o.One? {
          assert (a + b)[o.width..] == a[o.width..] + b;
          LookOn(enc, a[o.width..], b);
        }
      }
    }
  }

  lemma LookAtNothing(enc: Encoding)
    ensures Look(enc, []) == Window("", [], false)
  {
  }

  /** The first step of a look. */
  lemma LookFirst(enc: Encoding, bs: seq<byte>)
    requires bs != []
    ensures DecodeOne(enc, bs).Partial? ==> Look(enc, bs) == Window("", bs, false)
    ensures DecodeOne(enc, bs).Bad? ==> Look(enc, bs) == Window("", bs, true)
    ensures var o := DecodeOne(enc, bs); o.One? ==>
      0 < o.width <= |bs| && var w := Look(enc, bs[o.width..]); Look(enc, bs) == w.(text := [o.c] + w.text)
  {
    hide DecodeOne;
    OneWidth(enc, bs);
  }

  // ---------- the rounds of reading and decoding ----------

  /**
   The characters delivered from a window of raw bytes and the pieces still to come: each round
   decodes the window, and gives up what it has decoded when it meets an error.
   */
  function Rounds(enc: Encoding, window: seq<byte>, pieces: Pieces, eof: bool): string
    requires NoneEmpty(pieces)
    decreases |Joined(pieces)|
  {
    var w := Look(enc, window);
    if w.bad || (eof && w.rest != []) then ""
    else if pieces == [] then w.text
    else
      LookIsDecode(enc, window);
      var (chunk, more) := ReadPiece(pieces, RAW_SIZE - |w.rest|);
      w.text + Rounds(enc, w.rest + chunk, more, false)
  }

  /** The first three bytes are gathered for the encoding, or all there are. */
  function Gather(window: seq<byte>, pieces: Pieces): (r: (seq<byte>, Pieces))
    requires NoneEmpty(pieces)
    ensures NoneEmpty(r.1) && r.0 + Joined(r.1) == window + Joined(pieces)
    ensures |r.0| >= 3 || r.1 == []
    decreases |Joined(pieces)|
  {
    if |window| >= 3 || pieces == [] then (window, pieces)
    else
      var (chunk, more) := ReadPiece(pieces, RAW_SIZE - |window|);
      Gather(window + chunk, more)
  }

  function FirstRounds(window: seq<byte>, pieces: Pieces): string
    requires NoneEmpty(pieces)
  {
    var (head, more) := Gather(window, pieces);
    var (enc, skip) := Detect(head);
    Rounds(enc, head[skip..], more, |head| < 3)
  }

  /** All that is delivered of an input that comes in these pieces. */
  function Delivered(pieces: Pieces): string
    requires NoneEmpty(pieces)
  {
    FirstRounds([], pieces)
  }

  // ---------- when the pieces make no difference ----------

  /** Without an error in sight, the pieces make no difference. */
  lemma {:induction false} RoundsWithoutError(enc: Encoding, window: seq<byte>, pieces: Pieces)
    requires NoneEmpty(pieces) && !Look(enc, window + Joined(pieces)).bad
    ensures Rounds(enc, window, pieces, false) == Look(enc, window + Joined(pieces)).text
    decreases |Joined(pieces)|
  {
    hide Look;
    var w := Look(enc, window);
    LookIsDecode(enc, window);
    LookOn(enc, window, Joined(pieces));
    if pieces == [] {
      assert window + Joined(pieces) == window;
    } else {
      var (chunk, more) := ReadPiece(pieces, RAW_SIZE - |w.rest|);
      assert w.rest + chunk + Joined(more) == w.rest + Joined(pieces);
      RoundsWithoutError(enc, w.rest + chunk, more);
    }
  }

  /** With an error behind, what is delivered are some of the characters before it. */
  lemma {:induction false} RoundsArePrefix(enc: Encoding, window: seq<byte>, pieces: Pieces, eof: bool)
    requires NoneEmpty(pieces) && (eof ==> pieces == [])
    ensures Rounds(enc, window, pieces, eof) <= Look(enc, window + Joined(pieces)).text
    decreases |Joined(pieces)|
  {
    hide Look;
    var w := Look(enc, window);
    LookIsDecode(enc, window);
    LookOn(enc, window, Joined(pieces));
    if w.bad || (eof && w.rest != []) {
    } else if pieces == [] {
      assert window + Joined(pieces) == window;
    } else {
      var (chunk, more) := ReadPiece(pieces, RAW_SIZE - |w.rest|);
      assert w.rest + chunk + Joined(more) == w.rest + Joined(pieces);
      RoundsArePrefix(enc, w.rest + chunk, more, false);
    }
  }

  /** Three bytes, or all there are, show the encoding. */
  lemma DetectPrefix(here: seq<byte>, rest: seq<byte>)
    requires |here| >= 3 || rest == []
    ensures Detect(here + rest) == Detect(here)
  {
    if rest == [] { assert here + rest == here; }
  }

  predicate SeesError(bytes: seq<byte>) {
    var end := DecodeStream(bytes).end;
    end.Some? && !CutOff(end.value)
  }

  /**
   The pieces make no difference: there is no error but that the input is cut off, or no
   character before it, or the bytes that are always read together show it.
   */
  predicate Steady(bytes: seq<byte>) {
    || !SeesError(bytes)
    || DecodeStream(bytes).text == ""
    || |bytes| < 3
    || SeesError(bytes[..3])
  }

  /** What is then delivered. */
  function Common(bytes: seq<byte>): string {
    var d := DecodeStream(bytes);
    if d.end != None && (|bytes| < 3 || SeesError(bytes[..3])) then "" else d.text
  }

  /** The window that the first read bytes leave, and the rest of the input. */
  lemma FirstWindow(pieces: Pieces) returns (enc: Encoding, window: seq<byte>, more: Pieces)
    requires NoneEmpty(pieces)
    ensures NoneEmpty(more)
    ensures var bytes := Joined(pieces);
      && Delivered(pieces) == Rounds(enc, window, more, |bytes| < 3)
      && DecodeStream(bytes) == DecodeAll(enc, window + Joined(more))
      && (|bytes| < 3 ==> more == [])
      && (|bytes| >= 3 ==> exists tail :: bytes[..3][Detect(bytes).1..] + tail == window
                                       && DecodeStream(bytes[..3]) == DecodeAll(enc, bytes[..3][Detect(bytes).1..]))
  {
    hide Rounds, DecodeAll, Joined, Gather;
    var bytes := Joined(pieces);
    var g := Gather([], pieces);
    var head := g.0;
    more := g.1;
    assert head + Joined(more) == bytes;
    assert more == [] ==> Joined(more) == [] by { NothingJoined(); }
    DetectPrefix(head, Joined(more));
    enc := Detect(head).0;
    var skip := Detect(head).1;
    window := head[skip..];
    BehindMark(head, Joined(more), skip);
    if |bytes| >= 3 {
      DetectPrefix(bytes[..3], bytes[3..]);
      assert bytes[..3] + bytes[3..] == bytes;
      ThreeOf(head, Joined(more), skip);
    }
  }

  lemma BehindMark(head: seq<byte>, rest: seq<byte>, skip: nat)
    requires skip <= |head|
    ensures (head + rest)[skip..] == head[skip..] + rest
  {
  }

  lemma ThreeOf(head: seq<byte>, rest: seq<byte>, skip: nat)
    requires skip <= 3 <= |head|
    ensures (head + rest)[..3][skip..] + head[3..] == head[skip..]
  {
  }

  lemma NothingJoined()
    ensures Joined([]) == []
  {
  }

  lemma SteadyDelivers(pieces: Pieces)
    requires NoneEmpty(pieces) && Steady(Joined(pieces))
    ensures Delivered(pieces) == Common(Joined(pieces))
  {
    hide Rounds, DecodeAll, Delivered, Look;
    var bytes := Joined(pieces);
    var enc, window, more := FirstWindow(pieces);
    var all := window + Joined(more);
    LookIsDecode(enc, all);
    if |bytes| < 3 {
      assert all == window;
      assert Delivered(pieces) == if DecodeStream(bytes).end == None then DecodeStream(bytes).text else "" by {
        OneRound(enc, window);
      }
    } else {
      RoundsArePrefix(enc, window, more, false);
      if !SeesError(bytes) {
        RoundsWithoutError(enc, window, more);
        NoErrorInFront(bytes);
      } else if SeesError(bytes[..3]) {
        var front := bytes[..3][Detect(bytes).1..];
        var tail :| front + tail == window && DecodeStream(bytes[..3]) == DecodeAll(enc, front);
        LookIsDecode(enc, front);
        LookOn(enc, front, tail);
        BadRound(enc, window, more);
      }
    }
  }

  lemma OneRound(enc: Encoding, window: seq<byte>)
    ensures var d := DecodeAll(enc, window); Rounds(enc, window, [], true) == if d.end == None then d.text else ""
  {
    LookIsDecode(enc, window);
  }

  lemma BadRound(enc: Encoding, window: seq<byte>, pieces: Pieces)
    requires NoneEmpty(pieces) && Look(enc, window).bad
    ensures Rounds(enc, window, pieces, false) == ""
  {
  }

  /** An error in the first bytes is one of the input. */
  lemma NoErrorInFront(bytes: seq<byte>)
    requires |bytes| >= 3 && !SeesError(bytes)
    ensures !SeesError(bytes[..3])
  {
    hide DecodeAll, Look;
    var front, tail := bytes[..3], bytes[3..];
    assert front + tail == bytes;
    DetectPrefix(front, tail);
    var (enc, skip) := Detect(front);
    assert bytes[skip..] == front[skip..] + tail;
    LookIsDecode(enc, front[skip..]);
    LookIsDecode(enc, bytes[skip..]);
    LookOn(enc, front[skip..], tail);
  }

  // ---------- and when they do ----------

  function Singles(bs: seq<byte>): (p: Pieces)
    ensures Splits(p, bs)
  {
    if bs == [] then [] else
      assert ([[bs[0]]] + Singles(bs[1..]))[1..] == Singles(bs[1..]);
      [[bs[0]]] + Singles(bs[1..])
  }

  lemma {:induction false} RestIsPartial(enc: Encoding, bs: seq<byte>)
    requires !Look(enc, bs).bad && Look(enc, bs).rest != []
    ensures DecodeOne(enc, Look(enc, bs).rest).Partial?
    decreases |bs|
  {
    if bs != [] && DecodeOne(enc, bs).One? {
      OneWidth(enc, bs);
      RestIsPartial(enc, bs[DecodeOne(enc, bs).width..]);
    }
  }

  /** One byte more completes one character at most, and then it is its last byte. */
  lemma ByteCompletes(enc: Encoding, r: seq<byte>, b: byte)
    requires r == [] || DecodeOne(enc, r).Partial?
    ensures var o := DecodeOne(enc, r + [b]); o.One? ==> o.width == |r| + 1
  {
    hide DecodeUtf8, DecodeUtf16;
    match enc
    case Utf8 => ByteCompletes8(r, b);
    case Utf16LE => ByteCompletes16(r, b, false);
    case Utf16BE => ByteCompletes16(r, b, true);
  }

  lemma ByteCompletes8(r: seq<byte>, b: byte)
    requires r == [] || DecodeUtf8(r).Partial?
    ensures var o := DecodeUtf8(r + [b]); o.One? ==> o.width == |r| + 1
  {
    hide Utf8Value, BadTrailing, RightLength, Readable;
    if r != [] { assert (r + [b])[0] == r[0]; }
  }

  lemma ByteCompletes16(r: seq<byte>, b: byte, big: bool)
    requires r == [] || DecodeUtf16(r, big).Partial?
    ensures var o := DecodeUtf16(r + [b], big); o.One? ==> o.width == |r| + 1
  {
    hide Readable;
    if |r| >= 2 { assert UnitAt(r + [b], 0, big) == UnitAt(r, 0, big); }
  }

  lemma LookAtByte(enc: Encoding, r: seq<byte>, b: byte)
    requires r == [] || DecodeOne(enc, r).Partial?
    ensures Look(enc, r + [b]).bad ==> Look(enc, r + [b]).text == ""
  {
    hide DecodeOne;
    ByteCompletes(enc, r, b);
    var o := DecodeOne(enc, r + [b]);
    if o.One? {
      assert (r + [b])[o.width..] == [];
      assert Look(enc, []) == Window("", [], false);
    }
  }

  /** Byte by byte, everything before an error is delivered. */
  lemma {:induction false} SinglesDeliver(enc: Encoding, window: seq<byte>, bs: seq<byte>)
    requires !Look(enc, window).bad
    ensures Rounds(enc, window, Singles(bs), false) == Look(enc, window + bs).text
    decreases |bs|
  {
    hide Look;
    var w := Look(enc, window);
    LookIsDecode(enc, window);
    LookOn(enc, window, bs);
    if bs == [] {
      assert window + bs == window;
    } else {
      if w.rest != [] { RestIsPartial(enc, window); }
      var next := w.rest + [bs[0]];
      assert next + bs[1..] == w.rest + bs;
      assert Singles(bs)[1..] == Singles(bs[1..]);
      LookAtByte(enc, w.rest, bs[0]);
      LookOn(enc, next, bs[1..]);
      if Look(enc, next).bad {
        BadRound(enc, next, Singles(bs[1..]));
      } else {
        SinglesDeliver(enc, next, bs[1..]);
      }
    }
  }

  lemma RoundStep(enc: Encoding, window: seq<byte>, pieces: Pieces)
    requires NoneEmpty(pieces) && pieces != [] && |pieces[0]| <= RAW_SIZE - 3 && !Look(enc, window).bad
    ensures var w := Look(enc, window);
      Rounds(enc, window, pieces, false) == w.text + Rounds(enc, w.rest + pieces[0], pieces[1..], false)
  {
    hide Look;
    LookIsDecode(enc, window);
  }

  /** The first of the pieces of one byte, and the others. */
  lemma SinglesFirst(bs: seq<byte>, more: Pieces)
    requires bs != [] && NoneEmpty(more)
    ensures var p := Singles(bs) + more;
      NoneEmpty(p) && p != [] && p[0] == [bs[0]] && p[1..] == Singles(bs[1..]) + more
  {
    hide NoneEmpty, Singles;
    SinglesBegin(bs);
    NoneEmptyJoin(Singles(bs[1..]), more);
    PieceFirst([bs[0]], Singles(bs[1..]) + more);
    PiecesJoined([[bs[0]]], Singles(bs[1..]), more);
  }

  lemma PiecesJoined(a: Pieces, b: Pieces, c: Pieces)
    ensures a + b + c == a + (b + c)
  {
  }

  lemma SinglesBegin(bs: seq<byte>)
    requires bs != []
    ensures Singles(bs) == [[bs[0]]] + Singles(bs[1..]) && NoneEmpty(Singles(bs[1..]))
  {
  }

  lemma NoneEmptyJoin(p: Pieces, q: Pieces)
    requires NoneEmpty(p) && NoneEmpty(q)
    ensures NoneEmpty(p + q)
  {
  }

  lemma PieceFirst(piece: seq<byte>, more: Pieces)
    requires piece != [] && NoneEmpty(more)
    ensures var p := [piece] + more; NoneEmpty(p) && p[0] == piece && p[1..] == more
  {
  }

  lemma NoSingles(more: Pieces)
    ensures Singles([]) + more == more
  {
  }

  /** Bytes one by one, which complete all their characters, and then a larger piece. */
  lemma {:induction false} SinglesThen(enc: Encoding, window: seq<byte>, bs: seq<byte>, more: Pieces)
    requires NoneEmpty(more) && more != [] && |more[0]| <= RAW_SIZE - 3
    requires !Look(enc, window + bs).bad && Look(enc, window + bs).rest == []
    ensures NoneEmpty(Singles(bs) + more)
    ensures Rounds(enc, window, Singles(bs) + more, false)
         == Look(enc, window + bs).text + Rounds(enc, more[0], more[1..], false)
    decreases |bs|
  {
    hide Look, Rounds, Singles;
    var w := Look(enc, window);
    LookOn(enc, window, bs);
    if bs == [] {
      assert window + bs == window;
      NoSingles(more);
      RoundStep(enc, window, more);
      assert [] + more[0] == more[0];
    } else {
      var next, p := w.rest + [bs[0]], Singles(bs) + more;
      assert next + bs[1..] == w.rest + bs;
      SinglesFirst(bs, more);
      RoundStep(enc, window, p);
      SinglesThen(enc, next, bs[1..], more);
      ConcatThree(w.text, Look(enc, next + bs[1..]).text, Rounds(enc, more[0], more[1..], false));
    }
  }

  lemma ConcatThree(a: string, b: string, c: string)
    ensures a + (b + c) == a + b + c
  {
  }

  lemma GatherStep(window: seq<byte>, pieces: Pieces)
    requires NoneEmpty(pieces) && pieces != [] && |window| < 3 && |pieces[0]| <= RAW_SIZE - 3
    ensures Gather(window, pieces) == Gather(window + pieces[0], pieces[1..])
  {
  }

  lemma {:induction false} GatherSingles(window: seq<byte>, bs: seq<byte>, more: Pieces)
    requires |window| <= 3 <= |window| + |bs| && NoneEmpty(more)
    ensures NoneEmpty(Singles(bs) + more)
    ensures var k := 3 - |window|; Gather(window, Singles(bs) + more) == (window + bs[..k], Singles(bs[k..]) + more)
    decreases |bs|
  {
    hide Gather, Singles;
    var p, k := Singles(bs) + more, 3 - |window|;
    if k == 0 {
      assert window + bs[..0] == window && bs[0..] == bs;
      if bs == [] { NoSingles(more); } else { SinglesFirst(bs, more); }
      GatherDone(window, p);
    } else {
      SinglesFirst(bs, more);
      GatherStep(window, p);
      GatherSingles(window + [bs[0]], bs[1..], more);
      NextByte(window, bs, k);
    }
  }

  lemma NextByte(window: seq<byte>, bs: seq<byte>, k: nat)
    requires 0 < k <= |bs|
    ensures window + [bs[0]] + bs[1..][..k - 1] == window + bs[..k] && bs[1..][k - 1..] == bs[k..]
  {
  }

  lemma GatherDone(window: seq<byte>, pieces: Pieces)
    requires NoneEmpty(pieces) && |window| >= 3
    ensures Gather(window, pieces) == (window, pieces)
  {
  }

  lemma {:induction false} GatherFew(window: seq<byte>, bs: seq<byte>, more: Pieces)
    requires |window| + |bs| < 3 && NoneEmpty(more)
    ensures NoneEmpty(Singles(bs) + more) && Gather(window, Singles(bs) + more) == Gather(window + bs, more)
    decreases |bs|
  {
    hide Gather, Singles;
    var p := Singles(bs) + more;
    if bs == [] {
      assert window + bs == window;
      NoSingles(more);
    } else {
      SinglesFirst(bs, more);
      GatherStep(window, p);
      GatherFew(window + [bs[0]], bs[1..], more);
      assert window + [bs[0]] + bs[1..] == window + bs;
    }
  }

  /** Four bytes, or all there are, show the next character or error. */
  lemma FourShow(enc: Encoding, bs: seq<byte>, n: nat)
    requires bs != [] && !DecodeOne(enc, bs).Partial? && n <= |bs| && (n >= 4 || n == |bs|)
    ensures DecodeOne(enc, bs[..n]) == DecodeOne(enc, bs)
  {
    hide DecodeOne;
    assert bs[..n] + bs[n..] == bs;
    OneWidth(enc, bs[..n]);
    if n == |bs| { assert bs[..n] == bs; } else { MoreBytes(enc, bs[..n], bs[n..]); }
  }

  /** Where the last character before the error begins. */
  lemma {:induction false} LastCharacter(enc: Encoding, bs: seq<byte>) returns (a: seq<byte>, b: seq<byte>)
    requires Look(enc, bs).text != "" && Look(enc, bs).bad
    ensures a + b == bs && b != [] && DecodeOne(enc, b).One? && DecodeOne(enc, b).width < |b|
    ensures DecodeOne(enc, b[DecodeOne(enc, b).width..]).Bad?
    ensures Look(enc, a) == Window(Look(enc, bs).text[..|Look(enc, bs).text| - 1], [], false)
    decreases |bs|
  {
    hide DecodeOne, Look;
    CharacterSeen(enc, bs);
    var o := DecodeOne(enc, bs);
    LookFirst(enc, bs);
    var later := bs[o.width..];
    LookIsDecode(enc, later);
    if Look(enc, later).text == "" {
      a, b := [], bs;
      LookAtNothing(enc);
      ErrorSeen(enc, later);
    } else {
      var a1;
      a1, b := LastCharacter(enc, later);
      a := bs[..o.width] + a1;
      assert a + b == bs;
      OneInFront(enc, bs, o.width);
      MoreBytes(enc, bs[..o.width], a1);
      assert a[o.width..] == a1;
      LookFirst(enc, a);
    }
  }

  lemma CharacterSeen(enc: Encoding, bs: seq<byte>)
    requires Look(enc, bs).text != ""
    ensures bs != [] && DecodeOne(enc, bs).One? && 0 < DecodeOne(enc, bs).width <= |bs|
  {
    if bs != [] { OneWidth(enc, bs); }
  }

  lemma ErrorSeen(enc: Encoding, bs: seq<byte>)
    requires Look(enc, bs).text == "" && Look(enc, bs).bad
    ensures bs != [] && DecodeOne(enc, bs).Bad?
  {
    hide DecodeOne;
  }

  lemma OneInFront(enc: Encoding, bs: seq<byte>, width: nat)
    requires bs != [] && width <= |bs| && DecodeOne(enc, bs).One? && DecodeOne(enc, bs).width == width
    ensures width > 0 && DecodeOne(enc, bs[..width]) == DecodeOne(enc, bs)
  {
    hide DecodeOne;
    OneWidth(enc, bs);
    assert bs[..width] + bs[width..] == bs;
    FrontIsWhole(enc, bs, width);
    MoreBytes(enc, bs[..width], bs[width..]);
  }

  lemma FrontIsWhole(enc: Encoding, bs: seq<byte>, width: nat)
    requires 0 < width <= |bs| && DecodeOne(enc, bs).One? && DecodeOne(enc, bs).width == width
    ensures !DecodeOne(enc, bs[..width]).Partial?
  {
    hide DecodeUtf8, DecodeUtf16;
    match enc
    case Utf8 => FrontIsWhole8(bs, width);
    case Utf16LE => FrontIsWhole16(bs, width, false);
    case Utf16BE => FrontIsWhole16(bs, width, true);
  }

  lemma FrontIsWhole8(bs: seq<byte>, width: nat)
    requires 0 < width <= |bs| && DecodeUtf8(bs).One? && DecodeUtf8(bs).width == width
    ensures !DecodeUtf8(bs[..width]).Partial?
  {
    hide Utf8Value, BadTrailing, RightLength, Readable;
    assert bs[..width][0] == bs[0];
  }

  lemma FrontIsWhole16(bs: seq<byte>, width: nat, big: bool)
    requires 0 < width <= |bs| && DecodeUtf16(bs, big).One? && DecodeUtf16(bs, big).width == width
    ensures !DecodeUtf16(bs[..width], big).Partial?
  {
    hide Readable;
    assert UnitAt(bs[..width], 0, big) == UnitAt(bs, 0, big);
  }

  /** The next eight bytes show the last character and the error behind it. */
  lemma EightShow(enc: Encoding, b: seq<byte>, n: nat)
    requires b != [] && DecodeOne(enc, b).One? && DecodeOne(enc, b).width < |b|
    requires DecodeOne(enc, b[DecodeOne(enc, b).width..]).Bad?
    requires n <= |b| && (n >= 8 || n == |b|)
    ensures Look(enc, b[..n]).bad
  {
    hide DecodeOne;
    OneWidth(enc, b);
    var width := DecodeOne(enc, b).width;
    WidthAtMostFour(enc, b);
    FourShow(enc, b, n);
    assert b[..n][width..] == b[width..][..n - width];
    FourShow(enc, b[width..], n - width);
  }

  lemma WidthAtMostFour(enc: Encoding, b: seq<byte>)
    requires b != [] && DecodeOne(enc, b).One?
    ensures DecodeOne(enc, b).width <= 4
  {
  }

  lemma {:induction false} JoinedConcat(p: Pieces, q: Pieces)
    ensures Joined(p + q) == Joined(p) + Joined(q)
  {
    if p == [] {
      assert p + q == q;
    } else {
      assert (p + q)[1..] == p[1..] + q;
      JoinedConcat(p[1..], q);
    }
  }

  /** The first three bytes and what is behind them, seen as the whole stream is. */
  lemma FrontOfStream(bytes: seq<byte>) returns (enc: Encoding, skip: nat)
    requires |bytes| >= 3 && !SeesError(bytes[..3])
    ensures skip <= 3 && Detect(bytes[..3]) == (enc, skip) && Detect(bytes) == (enc, skip)
    ensures !Look(enc, bytes[skip..3]).bad && bytes[..3][skip..] == bytes[skip..3]
    ensures Look(enc, bytes[skip..]).text == DecodeStream(bytes).text
    ensures Look(enc, bytes[skip..]).bad <==> SeesError(bytes)
  {
    hide Look, DecodeAll;
    assert bytes[..3] + bytes[3..] == bytes;
    DetectPrefix(bytes[..3], bytes[3..]);
    enc, skip := Detect(bytes).0, Detect(bytes).1;
    LookIsDecode(enc, bytes[skip..3]);
    LookIsDecode(enc, bytes[skip..]);
  }

  lemma DeliveredFrom(pieces: Pieces, head: seq<byte>, more: Pieces, enc: Encoding, skip: nat)
    requires NoneEmpty(pieces) && NoneEmpty(more) && Gather([], pieces) == (head, more)
    requires Detect(head) == (enc, skip) && skip <= |head|
    ensures Delivered(pieces) == Rounds(enc, head[skip..], more, |head| < 3)
  {
  }

  lemma SinglesWholly(bytes: seq<byte>)
    requires |bytes| >= 3 && !SeesError(bytes[..3])
    ensures Delivered(Singles(bytes)) == DecodeStream(bytes).text
  {
    hide Look, DecodeStream, SeesError, Rounds, Gather, Delivered, Singles, Detect;
    var enc, skip := FrontOfStream(bytes);
    GatherSingles([], bytes, []);
    assert Singles(bytes) + [] == Singles(bytes) && Singles(bytes[3..]) + [] == Singles(bytes[3..]);
    assert [] + bytes[..3] == bytes[..3];
    DeliveredFrom(Singles(bytes), bytes[..3], Singles(bytes[3..]), enc, skip);
    SinglesDeliver(enc, bytes[skip..3], bytes[3..]);
    assert bytes[skip..3] + bytes[3..] == bytes[skip..];
  }

  /** The last character before the error comes in one piece with the error, all else byte by byte. */
  function WithError(a: seq<byte>, b: seq<byte>): Pieces
    requires b != []
  {
    var n := if |b| < 8 then |b| else 8;
    Singles(a) + ([b[..n]] + Singles(b[n..]))
  }

  lemma WithErrorSplits(a: seq<byte>, b: seq<byte>)
    requires b != []
    ensures Splits(WithError(a, b), a + b)
  {
    var n := if |b| < 8 then |b| else 8;
    var tail := [b[..n]] + Singles(b[n..]);
    JoinedConcat(Singles(a), tail);
    assert tail[1..] == Singles(b[n..]) && b[..n] + b[n..] == b;
  }

  lemma FrontWindow(front: seq<byte>, skip: nat)
    requires |front| >= 3 >= skip
    ensures |front[..3]| == 3 && front[..3][skip..] + front[3..] == front[skip..] && [] + front[..3] == front[..3]
  {
  }

  /** The error and the character before it lie behind the first three bytes. */
  lemma LosesLater(front: seq<byte>, tail: Pieces, enc: Encoding, skip: nat)
    requires |front| >= 3 && skip <= 3 && Detect(front[..3]) == (enc, skip)
    requires NoneEmpty(tail) && tail != [] && |tail[0]| <= 8 && Look(enc, tail[0]).bad
    requires !Look(enc, front[skip..]).bad && Look(enc, front[skip..]).rest == []
    ensures var q := Singles(front) + tail; NoneEmpty(q) && Delivered(q) == Look(enc, front[skip..]).text
  {
    hide Look, Rounds, Gather, Delivered, Singles, Detect;
    GatherSingles([], front, tail);
    FrontWindow(front, skip);
    DeliveredFrom(Singles(front) + tail, front[..3], Singles(front[3..]) + tail, enc, skip);
    SinglesThen(enc, front[..3][skip..], front[3..], tail);
    BadRound(enc, tail[0], tail[1..]);
  }

  /** They are among the bytes that are read together for the encoding. */
  lemma LosesAtOnce(front: seq<byte>, tail: Pieces, enc: Encoding, skip: nat)
    requires NoneEmpty(tail) && tail != [] && |tail[0]| <= 8 && Look(enc, tail[0]).bad
    requires |front| < 3 <= |front + tail[0]| && skip <= |front| && Detect(front + tail[0]) == (enc, skip)
    requires !Look(enc, front[skip..]).bad && Look(enc, front[skip..]).rest == []
    ensures var q := Singles(front) + tail; NoneEmpty(q) && Delivered(q) == ""
  {
    hide Look, Rounds, Gather, Delivered, Singles, Detect;
    GatherFew([], front, tail);
    assert [] + front == front;
    GatherStep(front, tail);
    var head := front + tail[0];
    GatherDone(head, tail[1..]);
    DeliveredFrom(Singles(front) + tail, head, tail[1..], enc, skip);
    assert head[skip..] == front[skip..] + tail[0] && [] + tail[0] == tail[0];
    LookOn(enc, front[skip..], tail[0]);
    BadRound(enc, head[skip..], tail[1..]);
  }

  /** The last character is then not delivered. */
  lemma WithErrorLoses(bytes: seq<byte>, enc: Encoding, skip: nat, a: seq<byte>, b: seq<byte>)
    requires |bytes| >= 3 && skip <= 3 && Detect(bytes) == (enc, skip) && skip <= |bytes|
    requires bytes[skip..] == a + b && b != [] && DecodeOne(enc, b).One? && DecodeOne(enc, b).width < |b|
    requires DecodeOne(enc, b[DecodeOne(enc, b).width..]).Bad?
    requires !Look(enc, a).bad && Look(enc, a).rest == []
    ensures var q := WithError(bytes[..skip] + a, b); NoneEmpty(q) && Delivered(q) <= Look(enc, a).text
  {
    hide Look, DecodeOne, Delivered, Singles, Detect;
    var n := if |b| < 8 then |b| else 8;
    var front := bytes[..skip] + a;
    assert front + b == bytes && front[skip..] == a;
    EightShow(enc, b, n);
    PieceFirst(b[..n], Singles(b[n..]));
    var tail := [b[..n]] + Singles(b[n..]);
    if |front| >= 3 {
      DetectPrefix(front[..3], bytes[3..]);
      assert front[..3] + bytes[3..] == bytes;
      LosesLater(front, tail, enc, skip);
    } else {
      DetectPrefix(front + b[..n], b[n..]);
      assert front + b[..n] + b[n..] == bytes;
      LosesAtOnce(front, tail, enc, skip);
    }
  }

  /** Where the pieces can make a difference, here are two ways to split the input that show it. */
  lemma SplitsDiffer(bytes: seq<byte>) returns (p: Pieces, q: Pieces)
    requires !Steady(bytes)
    ensures Splits(p, bytes) && Splits(q, bytes) && Delivered(p) != Delivered(q)
  {
    hide Look, DecodeStream, SeesError, Delivered, DecodeOne;
    var enc, skip := FrontOfStream(bytes);
    var text := DecodeStream(bytes).text;
    p := Singles(bytes);
    SinglesWholly(bytes);
    var a, b := LastCharacter(enc, bytes[skip..]);
    q := WithError(bytes[..skip] + a, b);
    WithErrorSplits(bytes[..skip] + a, b);
    WithErrorLoses(bytes, enc, skip, a, b);
    assert bytes[..skip] + a + b == bytes;
    assert |Delivered(q)| < |text|;
  }

  /**
   However the input is split, the same characters are delivered, if and only if the bytes show no
   error, or none that is preceded by a character and lies behind those read for the encoding.
   */
  lemma SteadyExactly(bytes: seq<byte>)
    ensures Steady(bytes) <==>
      forall p, q :: Splits(p, bytes) && Splits(q, bytes) ==> Delivered(p) == Delivered(q)
  {
    hide Steady, Delivered, Common;
    if Steady(bytes) {
      forall p, q | Splits(p, bytes) && Splits(q, bytes) ensures Delivered(p) == Delivered(q) {
        SteadyDelivers(p);
        SteadyDelivers(q);
      }
    } else {
      var p, q := SplitsDiffer(bytes);
    }
  }

  /** Four characters and a control character: read at once, nothing is delivered; byte by byte, the four are. */
  lemma PiecesMatter()
    ensures var bytes: seq<byte> := [0x61, 0x62, 0x63, 0x64, 0x01];
      && Splits([bytes], bytes) && Splits(Singles(bytes), bytes)
      && Delivered([bytes]) == "" && Delivered(Singles(bytes)) == "abcd"
  {
    hide Look, Gather, Rounds, Singles;
    var bytes: seq<byte> := [0x61, 0x62, 0x63, 0x64, 0x01];
    assert Joined([bytes]) == bytes + Joined([]);
    FiveBytes();
    LookIsDecode(Utf8, bytes);
    GatherStep([], [bytes]);
    assert [] + bytes == bytes && [bytes][1..] == [];
    GatherDone(bytes, []);
    BadRound(Utf8, bytes, []);
    DeliveredFrom([bytes], bytes, [], Utf8, 0);
    SinglesWholly(bytes);
  }

  lemma FiveBytes()
    ensures var bytes: seq<byte> := [0x61, 0x62, 0x63, 0x64, 0x01];
      && DecodeAll(Utf8, bytes) == Decoded("abcd", Some(ControlCharacter(1)))
      && DecodeStream(bytes).text == "abcd" && !SeesError(bytes[..3])
  {
    hide DecodeAll;
    var bad: seq<byte> := [0x01];
    assert DecodeAll(Utf8, bad) == Decoded("", Some(ControlCharacter(1))) by { BadByte(); }
    LetterDecoded(0x64, bad);
    LetterDecoded(0x63, [0x64, 0x01]);
    LetterDecoded(0x62, [0x63, 0x64, 0x01]);
    LetterDecoded(0x61, [0x62, 0x63, 0x64, 0x01]);
    assert "a" + ("b" + ("c" + ("d" + ""))) == "abcd";
    assert [0x64] + bad == [0x64, 0x01] && [0x63] + [0x64, 0x01] == [0x63, 0x64, 0x01];
    assert [0x62] + [0x63, 0x64, 0x01] == [0x62, 0x63, 0x64, 0x01];
    var bytes: seq<byte> := [0x61, 0x62, 0x63, 0x64, 0x01];
    assert [0x61] + [0x62, 0x63, 0x64, 0x01] == bytes && bytes[0..] == bytes;
    var three: seq<byte> := [0x61, 0x62, 0x63];
    assert EncodeAll("abc") == three by { ThreeEncoded(); }
    TextDecoded(Utf8, "abc");
    assert bytes[..3] == three && three[0..] == three;
  }

  lemma BadByte()
    ensures DecodeAll(Utf8, [0x01]) == Decoded("", Some(ControlCharacter(1)))
  {
    assert Utf8Value([0x01], 1) == 1;
  }

  lemma LetterDecoded(x: byte, rest: seq<byte>)
    requires 0x20 <= x <= 0x7E
    ensures DecodeAll(Utf8, [x] + rest) == (var d := DecodeAll(Utf8, rest); d.(text := [x as char] + d.text))
  {
    Utf8Accepted(x as char, rest);
    assert Encode(x as char) == [x];
    assert ([x] + rest)[1..] == rest;
  }

  lemma ThreeEncoded()
    ensures EncodeAll("abc") == [0x61, 0x62, 0x63]
  {
    assert "abc"[1..] == "bc" && "bc"[1..] == "c" && "c"[1..] == "";
    assert EncodeAll("c") == [0x63] && EncodeAll("bc") == [0x62, 0x63];
  }
}
