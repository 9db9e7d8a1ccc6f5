/** The scanners of anchors, tags and directives over the bytes of the input. */
module NameScanner {
  import opened Chars
  import opened Unicode
  import opened Decoding
  import opened ByteText
  import opened Options
  import opened Tokens
  import opened ScalarScan
  import opened TextOfBytes
  import opened NameScan
  import opened ScannerInput

  predicate IsAlphaAt(b: Bytes, i: nat) {
    var c := At(b, i);
    0x30 <= c <= 0x39 || 0x41 <= c <= 0x5A || 0x61 <= c <= 0x7A || c == 0x5F || c == 0x2D
  }

  predicate IsDigitAt(b: Bytes, i: nat) {
    0x30 <= At(b, i) <= 0x39
  }

  predicate IsUriAt(b: Bytes, i: nat) {
    IsAlphaAt(b, i) || (i < |b| && b[i] <= 0x7F && b[i] as char in ";/?:@&=+$,.!~*'()[]%")
  }

  lemma NamesAgree(b: Bytes, i: nat, c: char)
    requires SameClasses(b, i, c) && i < |b|
    ensures IsAlphaAt(b, i) <==> IsAlpha(c)
    ensures IsDigitAt(b, i) <==> IsDigit(c)
    ensures IsUriAt(b, i) <==> IsUri(c)
  {
  }

  /** ASCII text is its bytes. */
  lemma {:induction false} AsciiText(s: string)
    requires forall i :: 0 <= i < |s| ==> IsAscii(s[i])
    ensures |EncodeAll(s)| == |s| && forall i :: 0 <= i < |s| ==> EncodeAll(s)[i] == s[i] as int
  {
    if s != "" {
      AsciiText(s[1..]);
      assert Encode(s[0]) == [s[0] as int];
    }
  }

  /** The test of the byte here, which is the test of the character. */
  method Alpha(input: Input) returns (yes: bool)
    requires input.Valid()
    ensures yes == IsAlpha(Ch(input.text, input.index))
  {
    hide Encode, EncodeAll, Begins;
    input.Ahead(0);
    NamesAgree(input.buffer, input.pos, Ch(input.text, input.index));
    yes := IsAlphaAt(input.buffer, input.pos);
  }

  method Uri(input: Input) returns (yes: bool)
    requires input.Valid()
    ensures yes == IsUri(Ch(input.text, input.index))
  {
    hide Encode, EncodeAll, Begins;
    input.Ahead(0);
    NamesAgree(input.buffer, input.pos, Ch(input.text, input.index));
    yes := IsUriAt(input.buffer, input.pos);
  }

  method Digit(input: Input) returns (yes: bool, digit: nat)
    requires input.Valid()
    ensures yes == IsDigit(Ch(input.text, input.index))
    ensures yes ==> digit == NameScan.Digit(Ch(input.text, input.index))
  {
    hide Encode, EncodeAll, Begins;
    input.Ahead(0);
    NamesAgree(input.buffer, input.pos, Ch(input.text, input.index));
    yes := IsDigitAt(input.buffer, input.pos);
    digit := if yes then input.buffer[input.pos] - 0x30 else 0;
  }

  method Blank(input: Input) returns (yes: bool)
    requires input.Valid()
    ensures yes == IsBlank(Ch(input.text, input.index))
  {
    hide Encode, EncodeAll, Begins;
    input.Ahead(0);
    yes := IsBlankAt(input.buffer, input.pos);
  }

  method Blankz(input: Input) returns (yes: bool)
    requires input.Valid()
    ensures yes == IsBlankz(Ch(input.text, input.index))
  {
    hide Encode, EncodeAll, Begins;
    input.Ahead(0);
    yes := IsBlankzAt(input.buffer, input.pos);
  }

  method Breakz(input: Input) returns (yes: bool)
    requires input.Valid()
    ensures yes == IsBreakz(Ch(input.text, input.index))
  {
    hide Encode, EncodeAll, Begins;
    input.Ahead(0);
    yes := IsBreakAt(input.buffer, input.pos) || input.buffer[input.pos] == 0;
  }

  /** Whether this ASCII character is here. */
  method Here(input: Input, c: char) returns (yes: bool)
    requires input.Valid() && IsAscii(c)
    ensures yes == (Ch(input.text, input.index) == c)
  {
    hide Encode, EncodeAll, Begins;
    input.Ahead(0);
    yes := input.buffer[input.pos] == c as int;
  }

  // ---------- runs of characters ----------

  method ReadAlpha(input: Input, s: Bytes, ghost r: string) returns (s': Bytes)
    requires input.Valid() && s == EncodeAll(r)
    modifies input
    ensures input.Valid() && var e := AlphaEnd(input.text, old(input.index));
      && e <= |input.text| && input.At() == Advance(old(input.At()), e - old(input.index))
      && s' == EncodeAll(r + input.text[old(input.index)..e])
  {
    hide Encode, EncodeAll, IsAlpha, Begins;
    s' := s;
    ghost var t, k := input.text, input.index;
    assert r + t[k..k] == r;
    var alpha := Alpha(input);
    while alpha
      invariant input.Valid() && k <= input.index <= |t| && input.At() == Advance(old(input.At()), input.index - k)
      invariant alpha == IsAlpha(Ch(t, input.index))
      invariant AlphaEnd(t, input.index) == AlphaEnd(t, k) && s' == EncodeAll(r + t[k..input.index])
      decreases |t| - input.index
    {
      ghost var i := input.index;
      AlphaIsSome(Ch(t, i));
      s' := input.Read(s', r + t[k..i]);
      assert r + t[k..i] + [t[i]] == r + t[k..i + 1];
      alpha := Alpha(input);
    }
  }

  lemma AlphaIsSome(c: char)
    ensures IsAlpha(c) ==> c != NUL && IsAscii(c)
    ensures IsUri(c) ==> c != NUL && IsAscii(c)
  {
  }

  method SkipBlanks(input: Input)
    requires input.Valid()
    modifies input
    ensures input.Valid() && var e := BlankEnd(input.text, old(input.index));
      e <= |input.text| && input.At() == Advance(old(input.At()), e - old(input.index))
  {
    hide Encode, EncodeAll, Begins;
    ghost var t, k := input.text, input.index;
    var blank := Blank(input);
    while blank
      invariant input.Valid() && k <= input.index <= |t| && input.At() == Advance(old(input.At()), input.index - k)
      invariant blank == IsBlank(Ch(t, input.index)) && BlankEnd(t, input.index) == BlankEnd(t, k)
      decreases |t| - input.index
    {
      input.Skip();
      blank := Blank(input);
    }
  }

  method SkipToBreak(input: Input)
    requires input.Valid()
    modifies input
    ensures input.Valid() && var e := LineEnd(input.text, old(input.index));
      e <= |input.text| && input.At() == Advance(old(input.At()), e - old(input.index))
  {
    hide Encode, EncodeAll, Begins;
    ghost var t, k := input.text, input.index;
    var breakz := Breakz(input);
    while !breakz
      invariant input.Valid() && k <= input.index <= |t| && input.At() == Advance(old(input.At()), input.index - k)
      invariant breakz == IsBreakz(Ch(t, input.index)) && LineEnd(t, input.index) == LineEnd(t, k)
      decreases |t| - input.index
    {
      input.Skip();
      breakz := Breakz(input);
    }
  }

  // ---------- anchors ----------

  /** The name of an anchor or an alias, whose indicator is here. */
  method ScanAnchor(input: Input) returns (r: Result<Bytes, NameError>)
    requires input.Valid() && (Ch(input.text, input.index) == '&' || Ch(input.text, input.index) == '*')
    modifies input
    ensures input.Valid()
    ensures match NameScan.ScanAnchor(input.text, old(input.index)) {
      case Err(e) => r == Err(e)
      case Ok(name) =>
        r == Ok(EncodeAll(name.text)) && input.At() == Advance(old(input.At()), name.end - old(input.index))
    }
  {
    hide Encode, EncodeAll, IsAlpha, Begins;
    ghost var t, k := input.text, input.index;
    input.Skip();
    NoTextNoBytes();
    var s := ReadAlpha(input, [], "");
    ghost var name := t[k + 1..input.index];
    assert "" + name == name;
    FirstIsNewline(name);
    input.Ahead(0);
    var octet := input.buffer[input.pos];
    if |s| == 0 || !(IsBlankzAt(input.buffer, input.pos) || (octet <= 0x7F && octet as char in "?:,]}%@`")) {
      return Err(NoAnchorName);
    }
    r := Ok(s);
  }

  // ---------- tags ----------

  /** The octet that is escaped here, if there is one; it is not passed. */
  method PeekOctet(input: Input) returns (octet: Option<byte>)
    requires input.Valid()
    ensures octet == EscapedOctet(input.text, input.index)
  {
    hide Encode, EncodeAll, Begins;
    input.Ahead(0);
    if input.buffer[input.pos] != 0x25 {
      return None;
    }
    input.Ahead(1);
    HexAgrees(input.buffer, input.pos + 1, Ch(input.text, input.index + 1));
    if !IsHexAt(input.buffer, input.pos + 1) {
      return None;
    }
    input.Ahead(2);
    HexAgrees(input.buffer, input.pos + 2, Ch(input.text, input.index + 2));
    if !IsHexAt(input.buffer, input.pos + 2) {
      return None;
    }
    octet := Some(AsHexAt(input.buffer, input.pos + 1) * 16 + AsHexAt(input.buffer, input.pos + 2));
  }

  method SkipOctet(input: Input)
    requires input.Valid() && EscapedOctet(input.text, input.index).Some?
    modifies input
    ensures input.Valid() && input.At() == Advance(old(input.At()), 3)
  {
    hide Encode, EncodeAll, Begins;
    assert Ch(input.text, input.index) != NUL && Ch(input.text, input.index + 1) != NUL;
    assert Ch(input.text, input.index + 2) != NUL;
    input.Skip();
    input.Skip();
    input.Skip();
  }

  /** The octets of one escaped character go to the end of s. */
  method ReadUriEscapes(input: Input, s: Bytes) returns (s': Bytes, error: Option<NameError>)
    requires input.Valid()
    modifies input
    ensures input.Valid()
    ensures match UriEscape(input.text, old(input.index)) {
      case Err(e) => error == Some(e)
      case Ok(octets) =>
        error == None && s' == s + octets && input.At() == Advance(old(input.At()), 3 * |octets|)
    }
  {
    hide EscapedOctet, Encode, EncodeAll, Begins;
    ghost var t, k := input.text, input.index;
    s', error := s, None;
    var octet := PeekOctet(input);
    if octet.None? {
      return s, Some(NoEscapedOctet);
    }
    var w: nat := Utf8Width(octet.value);
    if w == 0 {
      return s, Some(BadLeadingOctet);
    }
    ghost var octets := [octet.value];
    s' := s' + [octet.value];
    SkipOctet(input);
    w := w - 1;
    while w > 0
      invariant input.Valid() && k + 3 * |octets| <= |t|
      invariant input.At() == Advance(old(input.At()), 3 * |octets|) && s' == s + octets
      invariant EscapedOctets(t, k + 3 * |octets|, w, octets) == UriEscape(t, k)
    {
      octet := PeekOctet(input);
      if octet.None? {
        return s, Some(NoEscapedOctet);
      }
      if octet.value / 64 != 2 {
        return s, Some(BadTrailingOctet);
      }
      s' := s' + [octet.value];
      SkipOctet(input);
      octets := octets + [octet.value];
      w := w - 1;
    }
  }

  /** The URI here, behind the head that was read of it before. */
  method ScanTagUri(input: Input, head: Bytes, hasHead: bool, ghost headText: string)
    returns (r: Result<Bytes, NameError>)
    requires input.Valid() && Whole(head) && TextOf(head) == headText
    modifies input
    ensures input.Valid()
    ensures match ScanUri(input.text, old(input.index), headText, hasHead) {
      case Err(e) => r == Err(e)
      case Ok(uri) =>
        && r.Ok? && Whole(r.value) && TextOf(r.value) == uri.text
        && input.At() == Advance(old(input.At()), uri.end - old(input.index))
    }
  {
    hide UriEscape, Encode, EncodeAll, IsUri, Begins, Whole, TextOf, FirstOf;
    ghost var t, k, goal := input.text, input.index, ScanUri(input.text, input.index, headText, hasHead);
    var s, hasTag := head, hasHead;
    ghost var text := headText;
    var uri := Uri(input);
    while uri
      invariant input.Valid() && k <= input.index && input.At() == Advance(old(input.At()), input.index - k)
      invariant Whole(s) && TextOf(s) == text && uri == IsUri(Ch(t, input.index))
      invariant ScanUri(t, input.index, text, hasTag) == goal
      decreases |t| - input.index
    {
      ghost var i := input.index;
      var percent := Here(input, '%');
      if percent {
        ghost var octets := UriEscape(t, i);
        var error;
        ghost var before := s;
        s, error := ReadUriEscapes(input, s);
        if error.Some? {
          return Err(error.value);
        }
        OneWhole(octets.value);
        WholeJoin(before, octets.value);
        text := text + [FirstOf(octets.value).0];
      } else {
        AlphaIsSome(Ch(t, i));
        s := ReadUriCharacter(input, s);
        text := text + [t[i]];
      }
      hasTag := true;
      uri := Uri(input);
    }
    if !hasTag {
      return Err(NoTagUri);
    }
    r := Ok(s);
  }

  method ReadUriCharacter(input: Input, s: Bytes) returns (s': Bytes)
    requires input.Valid() && Ch(input.text, input.index) != NUL && Whole(s)
    modifies input
    ensures input.Valid() && input.At() == Chars.Skip(old(input.At())) && old(input.index) < |input.text|
    ensures Whole(s') && TextOf(s') == TextOf(s) + [input.text[old(input.index)]]
  {
    hide Encode, EncodeAll, Begins, Whole, TextOf, FirstOf;
    ghost var c := Ch(input.text, input.index);
    NoTextNoBytes();
    var one := input.Read([], "");
    assert "" + [c] == [c];
    EncodedWhole([c]);
    TextIs([c]);
    WholeJoin(s, one);
    s' := s + one;
  }

  /** The handle here, in ASCII. */
  method ScanTagHandle(input: Input, directive: bool) returns (r: Result<Bytes, NameError>)
    requires input.Valid()
    modifies input
    ensures input.Valid()
    ensures match ScanHandle(input.text, old(input.index), directive) {
      case Err(e) => r == Err(e)
      case Ok(handle) =>
        && r == Ok(EncodeAll(handle.text)) && input.At() == Advance(old(input.At()), handle.end - old(input.index))
        && forall i :: 0 <= i < |handle.text| ==> IsAscii(handle.text[i])
    }
  {
    hide Encode, EncodeAll, IsAlpha, Begins;
    ghost var t, k := input.text, input.index;
    var mark := Here(input, '!');
    if !mark {
      return Err(NoTagMark);
    }
    NoTextNoBytes();
    var s := input.Read([], "");
    assert "" + ['!'] == t[k..k + 1];
    s := ReadAlpha(input, s, t[k..k + 1]);
    ghost var e := input.index;
    assert t[k..k + 1] + t[k + 1..e] == t[k..e];
    forall i | k <= i < e ensures IsAscii(t[i]) {
      if i > k { AlphaIsSome(Ch(t, i)); }
    }
    var closing := Here(input, '!');
    if closing {
      s := input.Read(s, t[k..e]);
      assert t[k..e] + ['!'] == t[k..e + 1];
    } else if directive {
      AsciiText(t[k..e]);
      if |s| != 1 {
        return Err(NoTagMark);
      }
    }
    r := Ok(s);
  }

  /** A tag's handle and suffix. */
  datatype TagBytes = TagBytes(handle: Bytes, suffix: Bytes)

  predicate Spells(b: TagBytes, tag: Tag) {
    TextOf(b.handle) == tag.handle && TextOf(b.suffix) == tag.suffix
  }

  method ScanVerbatimTag(input: Input) returns (r: Result<TagBytes, NameError>)
    requires input.Valid() && Ch(input.text, input.index) == '!' && Ch(input.text, input.index + 1) == '<'
    modifies input
    ensures input.Valid()
    ensures match ScanVerbatim(input.text, old(input.index) + 2) {
      case Err(e) => r == Err(e)
      case Ok(tag) =>
        r.Ok? && Spells(r.value, tag) && input.At() == Advance(old(input.At()), tag.end - old(input.index))
    }
  {
    hide ScanUri, Encode, EncodeAll, Begins, TextOf, Whole;
    NothingSpelt();
    input.Skip();
    input.Skip();
    var suffix := ScanTagUri(input, [], false, "");
    if suffix.Err? {
      return Err(suffix.error);
    }
    var closing := Here(input, '>');
    if !closing {
      return Err(NoTagClosing);
    }
    input.Skip();
    r := Ok(TagBytes([], suffix.value));
  }

  lemma NothingSpelt()
    ensures TextOf([]) == "" && Whole([])
  {
  }

  lemma MarkSpelt()
    ensures TextOf([0x21]) == "!"
  {
    TextIs("!");
    AsciiText("!");
    assert EncodeAll("!") == [0x21];
  }

  /** The bytes of a handle show whether it is one, and what follows its first '!'. */
  lemma HandleBytes(s: string)
    requires s != "" && s[0] == '!' && forall i :: 0 <= i < |s| ==> IsAscii(s[i])
    ensures var b := EncodeAll(s);
      && |b| == |s| && (b[|b| - 1] == 0x21 <==> s[|s| - 1] == '!')
      && TextOf(b) == s && Whole(b[1..]) && TextOf(b[1..]) == s[1..]
  {
    AsciiText(s);
    TextIs(s);
    TextIs(s[1..]);
    EncodedWhole(s[1..]);
    assert EncodeAll(s)[1..] == EncodeAll(s[1..]);
  }

  method ScanShorthandTag(input: Input) returns (r: Result<TagBytes, NameError>)
    requires input.Valid()
    modifies input
    ensures input.Valid()
    ensures match ScanShorthand(input.text, old(input.index)) {
      case Err(e) => r == Err(e)
      case Ok(tag) =>
        r.Ok? && Spells(r.value, tag) && input.At() == Advance(old(input.At()), tag.end - old(input.index))
    }
  {
    hide ScanUri, Encode, EncodeAll, Begins, TextOf, Whole, AlphaEnd;
    ghost var handleText := ScanHandle(input.text, input.index, false);
    var handle := ScanTagHandle(input, false);
    if handle.Err? {
      return Err(handle.error);
    }
    var h := handle.value;
    HandleBytes(handleText.value.text);
    NothingSpelt();
    MarkSpelt();
    if |h| > 1 && h[|h| - 1] == 0x21 {
      var suffix := ScanTagUri(input, [], false, "");
      if suffix.Err? {
        return Err(suffix.error);
      }
      return Ok(TagBytes(h, suffix.value));
    }
    var suffix := ScanTagUri(input, h[1..], true, handleText.value.text[1..]);
    if suffix.Err? {
      return Err(suffix.error);
    }
    EmptySpelt(suffix.value);
    r := Ok(if |suffix.value| == 0 then TagBytes([], [0x21]) else TagBytes([0x21], suffix.value));
  }

  lemma EmptySpelt(bs: Bytes)
    ensures bs == [] <==> TextOf(bs) == ""
  {
  }

  /** The tag whose '!' is here. */
  method ScanTag(input: Input) returns (r: Result<TagBytes, NameError>)
    requires input.Valid() && Ch(input.text, input.index) == '!'
    modifies input
    ensures input.Valid()
    ensures match NameScan.ScanTag(input.text, old(input.index)) {
      case Err(e) => r == Err(e)
      case Ok(tag) =>
        r.Ok? && Spells(r.value, tag) && input.At() == Advance(old(input.At()), tag.end - old(input.index))
    }
  {
    hide ScanVerbatim, ScanShorthand, Encode, EncodeAll, Begins, TextOf;
    input.Ahead(0);
    input.Ahead(1);
    if input.buffer[input.pos + 1] == 0x3C {
      r := ScanVerbatimTag(input);
    } else {
      r := ScanShorthandTag(input);
    }
    if r.Err? {
      return;
    }
    var ends := Blankz(input);
    if !ends {
      r := Err(NoTagEnd);
    }
  }

  // ---------- directives ----------

  /** A version number of at most two digits. */
  method ScanVersionNumber(input: Input) returns (r: Result<nat, NameError>)
    requires input.Valid()
    modifies input
    ensures input.Valid()
    ensures match ScanNumber(input.text, old(input.index)) {
      case Err(e) => r == Err(e)
      case Ok(number) => r == Ok(number.value) && input.At() == Advance(old(input.At()), number.end - old(input.index))
    }
  {
    hide Encode, EncodeAll, Begins;
    ghost var t, k := input.text, input.index;
    var value, length := 0, 0;
    var more, digit := Digit(input);
    while more
      invariant input.Valid() && length <= 2 && input.At() == Advance(old(input.At()), length)
      invariant more == IsDigit(Ch(t, input.index)) && (more ==> digit == NameScan.Digit(Ch(t, input.index)))
      invariant length > 0 ==> IsDigit(Ch(t, k)) && (length == 1 ==> value == NameScan.Digit(Ch(t, k)))
      invariant length == 2 ==> IsDigit(Ch(t, k + 1))
      invariant length == 2 ==> value == NameScan.Digit(Ch(t, k)) * 10 + NameScan.Digit(Ch(t, k + 1))
      invariant length == 0 ==> value == 0
      decreases 3 - length
    {
      if length + 1 > 2 {
        return Err(LongVersionNumber);
      }
      length := length + 1;
      value := value * 10 + digit;
      input.Skip();
      more, digit := Digit(input);
    }
    if length == 0 {
      return Err(NoVersionNumber);
    }
    r := Ok(value);
  }

  /** The directive has been read so far, and its token made. */
  ghost predicate ReadsDirective(o: Result<Directive, NameError>, r: Result<Token, NameError>, input: Input, was: Mark)
    reads input
  {
    match o
    case Err(e) => r == Err(e)
    case Ok(d) => r == Ok(d.token) && d.end >= was.index && input.At() == Advance(was, d.end - was.index)
  }

  method ScanVersionDirective(input: Input) returns (r: Result<Token, NameError>)
    requires input.Valid()
    modifies input
    ensures input.Valid() && ReadsDirective(ScanVersion(input.text, old(input.index)), r, input, old(input.At()))
  {
    hide ScanNumber, BlankEnd, Encode, EncodeAll, Begins;
    SkipBlanks(input);
    var major := ScanVersionNumber(input);
    if major.Err? {
      return Err(major.error);
    }
    var dot := Here(input, '.');
    if !dot {
      return Err(NoVersionDot);
    }
    input.Skip();
    var minor := ScanVersionNumber(input);
    if minor.Err? {
      return Err(minor.error);
    }
    r := Ok(VersionDirectiveToken(major.value, minor.value));
  }

  method ScanTagDirective(input: Input) returns (r: Result<Token, NameError>)
    requires input.Valid()
    modifies input
    ensures input.Valid() && ReadsDirective(ScanPrefix(input.text, old(input.index)), r, input, old(input.At()))
  {
    hide ScanHandle, ScanUri, BlankEnd, Encode, EncodeAll, Begins, TextOf, Whole;
    ghost var t := input.text;
    SkipBlanks(input);
    ghost var handleText := ScanHandle(t, input.index, true);
    var handle := ScanTagHandle(input, true);
    if handle.Err? {
      return Err(handle.error);
    }
    var blank := Blank(input);
    if !blank {
      return Err(NoPrefixBlank);
    }
    SkipBlanks(input);
    NothingSpelt();
    var prefix := ScanTagUri(input, [], false, "");
    if prefix.Err? {
      return Err(prefix.error);
    }
    var ends := Blankz(input);
    if !ends {
      return Err(NoTagEnd);
    }
    TextIs(handleText.value.text);
    r := Ok(TagDirectiveToken(TextOf(handle.value), TextOf(prefix.value)));
  }

  /** The name of a directive, in ASCII. */
  method ScanDirectiveName(input: Input) returns (r: Result<Bytes, NameError>)
    requires input.Valid()
    modifies input
    ensures input.Valid()
    ensures match ScanName(input.text, old(input.index)) {
      case Err(e) => r == Err(e)
      case Ok(name) =>
        && r == Ok(EncodeAll(name.text)) && input.At() == Advance(old(input.At()), name.end - old(input.index))
        && forall i :: 0 <= i < |name.text| ==> IsAscii(name.text[i])
    }
  {
    hide Encode, EncodeAll, IsAlpha, Begins;
    ghost var t, k := input.text, input.index;
    NoTextNoBytes();
    var s := ReadAlpha(input, [], "");
    ghost var name := t[k..input.index];
    assert "" + name == name;
    FirstIsNewline(name);
    forall i | k <= i < input.index ensures IsAscii(t[i]) {
      AlphaIsSome(Ch(t, i));
    }
    if |s| == 0 {
      return Err(NoDirectiveName);
    }
    var ends := Blankz(input);
    if !ends {
      return Err(BadDirectiveName);
    }
    r := Ok(s);
  }

  /** Names in ASCII are told apart by their bytes. */
  lemma SameBytesSameName(a: string, b: string)
    requires forall i :: 0 <= i < |a| ==> IsAscii(a[i])
    requires forall i :: 0 <= i < |b| ==> IsAscii(b[i])
    ensures EncodeAll(a) == EncodeAll(b) <==> a == b
  {
    hide EncodeAll;
    AsciiText(a);
    AsciiText(b);
    if EncodeAll(a) == EncodeAll(b) {
      forall i | 0 <= i < |a| ensures a[i] == b[i] {
        assert EncodeAll(a)[i] == EncodeAll(b)[i];
      }
    }
  }

  lemma DirectiveNames(name: string)
    requires forall i :: 0 <= i < |name| ==> IsAscii(name[i])
    ensures EncodeAll(name) == [0x59, 0x41, 0x4D, 0x4C] <==> name == "YAML"
    ensures EncodeAll(name) == [0x54, 0x41, 0x47] <==> name == "TAG"
  {
    hide EncodeAll;
    AsciiText("YAML");
    AsciiText("TAG");
    assert EncodeAll("YAML") == [0x59, 0x41, 0x4D, 0x4C] && EncodeAll("TAG") == [0x54, 0x41, 0x47];
    SameBytesSameName(name, "YAML");
    SameBytesSameName(name, "TAG");
  }

  method ScanDirectiveValue(input: Input, name: Bytes, ghost nameText: string) returns (r: Result<Token, NameError>)
    requires input.Valid() && name == EncodeAll(nameText) && forall i :: 0 <= i < |nameText| ==> IsAscii(nameText[i])
    modifies input
    ensures input.Valid()
    ensures ReadsDirective(ScanValue(input.text, Named(nameText, old(input.index))), r, input, old(input.At()))
  {
    hide ScanVersion, ScanPrefix, Encode, EncodeAll, Begins;
    DirectiveNames(nameText);
    if name == [0x59, 0x41, 0x4D, 0x4C] {
      r := ScanVersionDirective(input);
    } else if name == [0x54, 0x41, 0x47] {
      r := ScanTagDirective(input);
    } else {
      r := Err(UnknownDirective);
    }
  }

  method SkipRestOfLine(input: Input)
    requires input.Valid()
    modifies input
    ensures input.Valid() && var e := RestOfLine(input.text, old(input.index));
      input.At() == Advance(old(input.At()), e - old(input.index))
  {
    hide BlankEnd, LineEnd, Encode, EncodeAll, Begins;
    SkipBlanks(input);
    var comment := Here(input, '#');
    if comment {
      SkipToBreak(input);
    }
  }

  /** The directive whose '%' is here, and its line. */
  method ScanDirective(input: Input) returns (r: Result<Token, NameError>)
    requires input.Valid() && Ch(input.text, input.index) == '%'
    modifies input
    ensures input.Valid()
    ensures match NameScan.ScanDirective(input.text, old(input.At())) {
      case Err(e) => r == Err(e)
      case Ok(d) => r == Ok(d.0) && input.At() == d.1
    }
  {
    hide ScanName, ScanValue, RestOfLine, Encode, EncodeAll, Begins;
    ghost var t := input.text;
    input.Skip();
    ghost var nameText := ScanName(t, input.index);
    var name := ScanDirectiveName(input);
    if name.Err? {
      return Err(name.error);
    }
    r := ScanDirectiveValue(input, name.value, nameText.value.text);
    if r.Err? {
      return;
    }
    SkipRestOfLine(input);
    var ends := Breakz(input);
    if !ends {
      return Err(NoDirectiveEnd);
    }
    input.Ahead(0);
    if IsBreakAt(input.buffer, input.pos) {
      input.SkipLine();
    }
  }
}
