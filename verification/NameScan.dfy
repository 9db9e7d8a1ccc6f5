/**
 What the scanner reads for anchors, aliases, tags and directives, as functions of the text and a
 position in it.
 */
module NameScan {
  import opened Chars
  import opened Options
  import opened Unicode
  import opened Decoding
  import opened Tokens
  import opened ScalarScan
  import opened TextOfBytes

  datatype NameError =
    | NoAnchorName
    | NoTagMark
    | NoTagUri
    | NoTagClosing
    | NoEscapedOctet
    | BadLeadingOctet
    | BadTrailingOctet
    | NoTagEnd
    | NoDirectiveName
    | BadDirectiveName
    | UnknownDirective
    | NoVersionNumber
    | LongVersionNumber
    | NoVersionDot
    | NoPrefixBlank
    | NoDirectiveEnd

  /** What was read, and where it ended. */
  datatype Named = Named(text: string, end: nat)

  predicate IsDigit(c: char) {
    '0' <= c <= '9'
  }

  /** Letters, digits, '_' and '-'. */
  predicate IsAlpha(c: char) {
    '0' <= c <= '9' || 'A' <= c <= 'Z' || 'a' <= c <= 'z' || c == '_' || c == '-'
  }

  predicate IsUri(c: char) {
    IsAlpha(c) || c in ";/?:@&=+$,.!~*'()[]%"
  }

  predicate IsBreakz(c: char) {
    IsBreak(c) || c == NUL
  }

  // ---------- runs of characters ----------

  function AlphaEnd(t: string, k: nat): (e: nat)
    ensures k <= e && (k <= |t| ==> e <= |t|) && !IsAlpha(Ch(t, e))
    ensures forall i :: k <= i < e ==> IsAlpha(Ch(t, i))
    decreases |t| - k
  {
    if IsAlpha(Ch(t, k)) then AlphaEnd(t, k + 1) else k
  }

  function BlankEnd(t: string, k: nat): (e: nat)
    ensures k <= e && (k <= |t| ==> e <= |t|) && !IsBlank(Ch(t, e))
    decreases |t| - k
  {
    if IsBlank(Ch(t, k)) then BlankEnd(t, k + 1) else k
  }

  function LineEnd(t: string, k: nat): (e: nat)
    ensures k <= e && (k <= |t| ==> e <= |t|) && IsBreakz(Ch(t, e))
    decreases |t| - k
  {
    if IsBreakz(Ch(t, k)) then k else LineEnd(t, k + 1)
  }

  // ---------- anchors and aliases ----------

  /** May stand right behind an anchor. */
  predicate EndsAnchor(c: char) {
    IsBlankz(c) || c in "?:,]}%@`"
  }

  /** The name behind the indicator at k. */
  function ScanAnchor(t: string, k: nat): (r: Result<Named, NameError>)
    requires k < |t|
    ensures r.Ok? ==> k < r.value.end <= |t|
  {
    var e := AlphaEnd(t, k + 1);
    if e == k + 1 || !EndsAnchor(Ch(t, e)) then Err(NoAnchorName) else Ok(Named(t[k + 1..e], e))
  }

  // ---------- tags ----------

  /** The octet that %xx at k stands for. */
  function EscapedOctet(t: string, k: nat): Option<byte> {
    if Ch(t, k) == '%' && IsHex(Ch(t, k + 1)) && IsHex(Ch(t, k + 2)) then
      Some(AsHex(Ch(t, k + 1)) * 16 + AsHex(Ch(t, k + 2)))
    else None
  }

  /** `left` more octets of an escaped character. */
  function EscapedOctets(t: string, k: nat, left: nat, octets: seq<byte>): (r: Result<seq<byte>, NameError>)
    requires k <= |t|
    ensures r.Ok? ==> |r.value| == |octets| + left && octets <= r.value && k + 3 * left <= |t|
    decreases left
  {
    if left == 0 then Ok(octets)
    else if EscapedOctet(t, k).None? then Err(NoEscapedOctet)
    else if !IsTrailing(EscapedOctet(t, k).value) then Err(BadTrailingOctet)
    else EscapedOctets(t, k + 3, left - 1, octets + [EscapedOctet(t, k).value])
  }

  /** The octets of the escaped character at k. */
  function UriEscape(t: string, k: nat): (r: Result<seq<byte>, NameError>)
    requires k <= |t|
    ensures r.Ok? ==> r.value != [] && Utf8Width(r.value[0]) == |r.value| && k + 3 * |r.value| <= |t|
  {
    if EscapedOctet(t, k).None? then Err(NoEscapedOctet)
    else
      var octet := EscapedOctet(t, k).value;
      if Utf8Width(octet) == 0 then Err(BadLeadingOctet)
      else EscapedOctets(t, k + 3, Utf8Width(octet) - 1, [octet])
  }

  /** The URI from k on, behind what was read of it before; it may be empty if `hasTag`. */
  function ScanUri(t: string, k: nat, s: string, hasTag: bool): (r: Result<Named, NameError>)
    requires k <= |t|
    ensures r.Ok? ==> k <= r.value.end <= |t|
    decreases |t| - k
  {
    var c := Ch(t, k);
    if !IsUri(c) then (if hasTag then Ok(Named(s, k)) else Err(NoTagUri))
    else if c == '%' then
      match UriEscape(t, k)
      case Err(e) => Err(e)
      case Ok(octets) => ScanUri(t, k + 3 * |octets|, s + [FirstOf(octets).0], true)
    else ScanUri(t, k + 1, s + [c], true)
  }

  /** "!", "!name!", or the beginning of something else. */
  function ScanHandle(t: string, k: nat, directive: bool): (r: Result<Named, NameError>)
    requires k <= |t|
    ensures r.Ok? ==> k < r.value.end <= |t| && r.value.text != ""
  {
    if Ch(t, k) != '!' then Err(NoTagMark)
    else
      var e := AlphaEnd(t, k + 1);
      if Ch(t, e) == '!' then Ok(Named(t[k..e + 1], e + 1))
      else if directive && e != k + 1 then Err(NoTagMark)
      else Ok(Named(t[k..e], e))
  }

  datatype Tag = Tag(handle: string, suffix: string, end: nat)

  /** !<uri> */
  function ScanVerbatim(t: string, k: nat): (r: Result<Tag, NameError>)
    requires k <= |t|
    ensures r.Ok? ==> k < r.value.end <= |t|
  {
    match ScanUri(t, k, "", false)
    case Err(e) => Err(e)
    case Ok(uri) => if Ch(t, uri.end) != '>' then Err(NoTagClosing) else Ok(Tag("", uri.text, uri.end + 1))
  }

  /** !suffix or !handle!suffix, or ! alone */
  function ScanShorthand(t: string, k: nat): (r: Result<Tag, NameError>)
    requires k <= |t|
    ensures r.Ok? ==> k < r.value.end <= |t|
  {
    match ScanHandle(t, k, false)
    case Err(e) => Err(e)
    case Ok(handle) =>
      if |handle.text| > 1 && handle.text[|handle.text| - 1] == '!' then
        match ScanUri(t, handle.end, "", false)
        case Err(e) => Err(e)
        case Ok(uri) => Ok(Tag(handle.text, uri.text, uri.end))
      else
        match ScanUri(t, handle.end, handle.text[1..], true)
        case Err(e) => Err(e)
        case Ok(uri) => Ok(if uri.text == "" then Tag("", "!", uri.end) else Tag("!", uri.text, uri.end))
  }

  /** The tag whose '!' is at k. */
  function ScanTag(t: string, k: nat): (r: Result<Tag, NameError>)
    requires k < |t|
    ensures r.Ok? ==> k < r.value.end <= |t|
  {
    var tag := if Ch(t, k + 1) == '<' then ScanVerbatim(t, k + 2) else ScanShorthand(t, k);
    if tag.Err? then tag
    else if !IsBlankz(Ch(t, tag.value.end)) then Err(NoTagEnd)
    else tag
  }

  // ---------- directives ----------

  datatype Number = Number(value: nat, end: nat)

  function Digit(c: char): (d: nat)
    requires IsDigit(c)
    ensures d <= 9
  {
    c as int - '0' as int
  }

  /** One or two digits. */
  function ScanNumber(t: string, k: nat): (r: Result<Number, NameError>)
    requires k <= |t|
    ensures r.Ok? ==> k < r.value.end <= |t|
  {
    if !IsDigit(Ch(t, k)) then Err(NoVersionNumber)
    else if !IsDigit(Ch(t, k + 1)) then Ok(Number(Digit(Ch(t, k)), k + 1))
    else if !IsDigit(Ch(t, k + 2)) then Ok(Number(Digit(Ch(t, k)) * 10 + Digit(Ch(t, k + 1)), k + 2))
    else Err(LongVersionNumber)
  }

  datatype Directive = Directive(token: Token, end: nat)

  function ScanVersion(t: string, k: nat): (r: Result<Directive, NameError>)
    requires k <= |t|
    ensures r.Ok? ==> k < r.value.end <= |t| && r.value.token.VersionDirectiveToken?
  {
    match ScanNumber(t, BlankEnd(t, k))
    case Err(e) => Err(e)
    case Ok(major) =>
      if Ch(t, major.end) != '.' then Err(NoVersionDot)
      else
        match ScanNumber(t, major.end + 1)
        case Err(e) => Err(e)
        case Ok(minor) => Ok(Directive(VersionDirectiveToken(major.value, minor.value), minor.end))
  }

  function ScanPrefix(t: string, k: nat): (r: Result<Directive, NameError>)
    requires k <= |t|
    ensures r.Ok? ==> k < r.value.end <= |t| && r.value.token.TagDirectiveToken?
  {
    match ScanHandle(t, BlankEnd(t, k), true)
    case Err(e) => Err(e)
    case Ok(handle) =>
      if !IsBlank(Ch(t, handle.end)) then Err(NoPrefixBlank)
      else
        match ScanUri(t, BlankEnd(t, handle.end), "", false)
        case Err(e) => Err(e)
        case Ok(prefix) =>
          if !IsBlankz(Ch(t, prefix.end)) then Err(NoTagEnd)
          else Ok(Directive(TagDirectiveToken(handle.text, prefix.text), prefix.end))
  }

  function ScanValue(t: string, name: Named): (r: Result<Directive, NameError>)
    requires name.end <= |t|
    ensures r.Ok? ==> name.end < r.value.end <= |t|
    ensures r.Ok? ==> r.value.token.VersionDirectiveToken? || r.value.token.TagDirectiveToken?
  {
    if name.text == "YAML" then ScanVersion(t, name.end)
    else if name.text == "TAG" then ScanPrefix(t, name.end)
    else Err(UnknownDirective)
  }

  function ScanName(t: string, k: nat): (r: Result<Named, NameError>)
    requires k <= |t|
    ensures r.Ok? ==> k < r.value.end <= |t|
  {
    var e := AlphaEnd(t, k);
    if e == k then Err(NoDirectiveName)
    else if !IsBlankz(Ch(t, e)) then Err(BadDirectiveName)
    else Ok(Named(t[k..e], e))
  }

  /** Behind the blanks, and the comment if there is one. */
  function RestOfLine(t: string, k: nat): (e: nat)
    requires k <= |t|
    ensures k <= e <= |t|
  {
    var b := BlankEnd(t, k);
    if Ch(t, b) == '#' then LineEnd(t, b) else b
  }

  /** The directive whose '%' is at m, and the position behind its line. */
  function ScanDirective(t: string, m: Mark): (r: Result<(Token, Mark), NameError>)
    requires m.index < |t|
    ensures r.Ok? ==> Beyond(m, r.value.1)
    ensures r.Ok? ==> r.value.0.VersionDirectiveToken? || r.value.0.TagDirectiveToken?
  {
    match ScanName(t, m.index + 1)
    case Err(e) => Err(e)
    case Ok(name) =>
      match ScanValue(t, name)
      case Err(e) => Err(e)
      case Ok(d) =>
        var end := RestOfLine(t, d.end);
        var at := Advance(m, end - m.index);
        if !IsBreakz(Ch(t, end)) then Err(NoDirectiveEnd)
        else Ok((d.token, if IsBreak(Ch(t, end)) then SkipLine(t, at) else at))
  }
}
