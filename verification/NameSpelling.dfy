/**
 How anchors, tags and directives may be written (sections 6.8 and 6.9 of YAML 1.2), and that they
 are scanned to what they stand for.
 */
module NameSpelling {
  import opened Chars
  import opened Options
  import opened Unicode
  import opened Decoding
  import opened Tokens
  import opened ScalarScan
  import opened TextOfBytes
  import opened NameScan
  import opened Spelling

  predicate NameChar(c: char) {
    'a' <= c <= 'z' || 'A' <= c <= 'Z' || '0' <= c <= '9' || c == '-' || c == '_'
  }

  predicate IsName(s: string) {
    forall i :: 0 <= i < |s| ==> NameChar(s[i])
  }

  lemma {:induction false} ReadsInside(t: string, k: nat, s: string)
    requires Reads(t, k, s) && forall i :: 0 <= i < |s| ==> s[i] != NUL
    ensures s != "" ==> k + |s| <= |t| && t[k..k + |s|] == s
  {
    if s != "" {
      assert Ch(t, k + (|s| - 1)) == s[|s| - 1];
      forall j | 0 <= j < |s| ensures t[k..k + |s|][j] == s[j] {
        assert Ch(t, k + j) == s[j];
      }
    }
  }

  lemma {:induction false} NameEnds(t: string, k: nat, name: string)
    requires IsName(name) && Reads(t, k, name) && !NameChar(Ch(t, k + |name|))
    ensures AlphaEnd(t, k) == k + |name|
    decreases |name|
  {
    if name != "" {
      ReadsFirst(t, k, name);
      NameEnds(t, k + 1, name[1..]);
    }
  }

  lemma NoMark(name: string)
    requires IsName(name)
    ensures var h := "!" + name; |h| > 1 ==> h[|h| - 1] != '!'
  {
  }

  // ---------- anchors and aliases ----------

  /** An anchor or alias is its name, up to a blank or one of these indicators; without them it is none. */
  lemma AnchorIsRead(t: string, k: nat, name: string)
    requires k < |t| && IsName(name) && Reads(t, k + 1, name) && !NameChar(Ch(t, k + 1 + |name|))
    ensures var c := Ch(t, k + 1 + |name|);
      ScanAnchor(t, k) == if name != "" && (IsBlankz(c) || c in "?:,]}%@`") then Ok(Named(name, k + 1 + |name|))
                          else Err(NoAnchorName)
  {
    NameEnds(t, k + 1, name);
    ReadsInside(t, k + 1, name);
  }

  // ---------- tags ----------

  /** A character of a URI, or one given by its octets. */
  datatype UriUnit = UriChar(c: char) | Octets(c: char, upper: bool)

  predicate UriCharOk(c: char) {
    NameChar(c) || c in ";/?:@&=+$,.!~*'()[]"
  }

  predicate UriOk(us: seq<UriUnit>) {
    forall i :: 0 <= i < |us| && us[i].UriChar? ==> UriCharOk(us[i].c)
  }

  function OctetText(b: byte, upper: bool): (s: string)
    ensures |s| == 3
  {
    ['%', DigitChar(HexDigit(b / 16, upper)), DigitChar(HexDigit(b % 16, upper))]
  }

  function OctetsText(bs: seq<byte>, upper: bool): (s: string)
    ensures |s| == 3 * |bs|
  {
    if bs == [] then "" else OctetText(bs[0], upper) + OctetsText(bs[1..], upper)
  }

  function UriText(us: seq<UriUnit>): string {
    if us == [] then ""
    else (if us[0].UriChar? then [us[0].c] else OctetsText(Encode(us[0].c), us[0].upper)) + UriText(us[1..])
  }

  function UriValue(us: seq<UriUnit>): string {
    if us == [] then "" else [us[0].c] + UriValue(us[1..])
  }

  lemma OctetRead(t: string, k: nat, b: byte, upper: bool)
    requires Reads(t, k, OctetText(b, upper))
    ensures EscapedOctet(t, k) == Some(b)
  {
    var s := OctetText(b, upper);
    ReadsFirst(t, k, s);
    assert Ch(t, k + 2) == s[2];
    DigitRead(HexDigit(b / 16, upper));
    DigitRead(HexDigit(b % 16, upper));
  }

  lemma {:induction false} OctetsRead(t: string, k: nat, bs: seq<byte>, upper: bool, before: seq<byte>)
    requires k <= |t| && Reads(t, k, OctetsText(bs, upper)) && forall i :: 0 <= i < |bs| ==> IsTrailing(bs[i])
    ensures k + 3 * |bs| <= |t|
    ensures EscapedOctets(t, k, |bs|, before) == Ok(before + bs)
    decreases |bs|
  {
    if bs == [] {
      assert before + bs == before;
    } else {
      var first, rest := OctetText(bs[0], upper), OctetsText(bs[1..], upper);
      ReadsPart(t, k, first, rest);
      OctetRead(t, k, bs[0], upper);
      OctetInside(t, k, bs[0], upper);
      OctetsRead(t, k + 3, bs[1..], upper, before + [bs[0]]);
      assert before + [bs[0]] + bs[1..] == before + bs;
    }
  }

  lemma OctetInside(t: string, k: nat, b: byte, upper: bool)
    requires Reads(t, k, OctetText(b, upper))
    ensures k + 3 <= |t|
  {
    var s := OctetText(b, upper);
    assert Ch(t, k + 2) == s[2];
    DigitRead(HexDigit(b % 16, upper));
  }

  /** A character escaped octet by octet. */
  lemma EscapeIsRead(t: string, k: nat, c: char, upper: bool)
    requires k <= |t| && Reads(t, k, OctetsText(Encode(c), upper))
    ensures UriEscape(t, k) == Ok(Encode(c)) && FirstOf(Encode(c)).0 == c && Ch(t, k) == '%'
  {
    hide FirstOf, Encode;
    var bs := Encode(c);
    var first, rest := OctetText(bs[0], upper), OctetsText(bs[1..], upper);
    ReadsPart(t, k, first, rest);
    ReadsFirst(t, k, first);
    OctetRead(t, k, bs[0], upper);
    OctetInside(t, k, bs[0], upper);
    LeadOf(c);
    TrailingOnly(c);
    OctetsRead(t, k + 3, bs[1..], upper, [bs[0]]);
    assert [bs[0]] + bs[1..] == bs;
    FirstBack(c, []);
    assert bs + [] == bs;
  }

  lemma TrailingOnly(c: char)
    ensures var bs := Encode(c); forall i :: 0 <= i < |bs[1..]| ==> IsTrailing(bs[1..][i])
  {
  }

  lemma UriEnds(t: string, k: nat, s: string, hasTag: bool)
    requires k <= |t| && !IsUri(Ch(t, k)) && hasTag
    ensures ScanUri(t, k, s, hasTag) == Ok(Named(s, k))
  {
    hide UriEscape;
  }

  lemma UnitTaken(t: string, k: nat, u: UriUnit, first: string, s: string, hasTag: bool)
    requires k <= |t| && UriOk([u]) && first == (if u.UriChar? then [u.c] else OctetsText(Encode(u.c), u.upper))
    requires Reads(t, k, first)
    ensures k + |first| <= |t| && ScanUri(t, k, s, hasTag) == ScanUri(t, k + |first|, s + [u.c], true)
  {
    hide Encode, FirstOf, UriEscape, OctetsText;
    assert UriOk([u]) && [u][0] == u;
    if u.UriChar? {
      ReadsFirst(t, k, first);
    } else {
      EscapeIsRead(t, k, u.c, u.upper);
    }
  }

  lemma {:induction false} UriIsRead(t: string, k: nat, us: seq<UriUnit>, s: string, hasTag: bool)
    requires k <= |t| && UriOk(us) && Reads(t, k, UriText(us)) && !IsUri(Ch(t, k + |UriText(us)|))
    requires us != [] || hasTag
    ensures k + |UriText(us)| <= |t|
    ensures ScanUri(t, k, s, hasTag) == Ok(Named(s + UriValue(us), k + |UriText(us)|))
    decreases |us|
  {
    hide Encode, FirstOf, UriEscape, OctetsText, ScanUri, IsUri;
    if us == [] {
      UriEnds(t, k, s, hasTag);
      assert s + "" == s;
    } else {
      var u := us[0];
      var first := if u.UriChar? then [u.c] else OctetsText(Encode(u.c), u.upper);
      var rest := UriText(us[1..]);
      assert UriText(us) == first + rest;
      ReadsPart(t, k, first, rest);
      UnitTaken(t, k, u, first, s, hasTag);
      UriIsRead(t, k + |first|, us[1..], s + [u.c], true);
      assert s + [u.c] + UriValue(us[1..]) == s + UriValue(us);
    }
  }

  /** !<uri>, !suffix, !name!suffix with or without a name, and ! alone. */
  datatype TagForm =
    | Verbatim(uri: seq<UriUnit>)
    | Primary(suffix: seq<UriUnit>)
    | Shorthand(name: string, suffix: seq<UriUnit>)
    | NonSpecific

  predicate TagFormOk(f: TagForm) {
    match f
    case Verbatim(uri) => uri != [] && UriOk(uri)
    case Primary(suffix) =>
      suffix != [] && UriOk(suffix) && forall i :: 0 <= i < |suffix| && suffix[i].UriChar? ==> suffix[i].c != '!'
    case Shorthand(name, suffix) => IsName(name) && suffix != [] && UriOk(suffix)
    case NonSpecific => true
  }

  function TagFormText(f: TagForm): string {
    match f
    case Verbatim(uri) => "!<" + UriText(uri) + ">"
    case Primary(suffix) => "!" + UriText(suffix)
    case Shorthand(name, suffix) => "!" + name + "!" + UriText(suffix)
    case NonSpecific => "!"
  }

  /** The handle and the suffix that a tag consists of. */
  function TagFormParts(f: TagForm): (string, string) {
    match f
    case Verbatim(uri) => ("", UriValue(uri))
    case Primary(suffix) => ("!", UriValue(suffix))
    case Shorthand(name, suffix) => ("!" + name + "!", UriValue(suffix))
    case NonSpecific => ("", "!")
  }

  /** No URI goes on with this character. */
  predicate NoUri(c: char) {
    !UriCharOk(c) && c != '%'
  }

  lemma NoUriGoesOn(c: char)
    requires NoUri(c)
    ensures !IsUri(c) && !NameChar(c) && c != '!'
  {
  }

  lemma BlankzIsNoUri(c: char)
    requires IsBlankz(c) || c == '>' || c == '<'
    ensures NoUri(c)
  {
  }

  /** A tag ends behind its '>', or where neither its URI nor another form of tag goes on. */
  predicate TagStops(f: TagForm, c: char) {
    match f
    case Verbatim(_) => true
    case NonSpecific => NoUri(c) && c != '<'
    case _ => NoUri(c)
  }

  lemma BlankzStops(f: TagForm, c: char)
    requires IsBlankz(c)
    ensures TagStops(f, c)
  {
  }

  /** What is behind a tag must be a blank, a line break or the end. */
  function Ended(t: string, tag: Tag): Result<Tag, NameError> {
    if IsBlankz(Ch(t, tag.end)) then Ok(tag) else Err(NoTagEnd)
  }

  /** A suffix divided behind the letters and digits it begins with. */
  function Letters(us: seq<UriUnit>): nat {
    if us == [] || us[0].Octets? || !NameChar(us[0].c) then 0 else 1 + Letters(us[1..])
  }

  lemma {:induction false} LettersSplit(us: seq<UriUnit>)
    requires UriOk(us)
    ensures var n := Letters(us);
      && n <= |us| == |UriValue(us)| && UriOk(us[n..]) && IsName(UriValue(us)[..n])
      && (n == |us| ==> UriText(us[n..]) == "") && UriValue(us) == UriValue(us)[..n] + UriValue(us[n..])
      && UriText(us) == UriValue(us)[..n] + UriText(us[n..])
      && (n < |us| ==> us[n].Octets? || !NameChar(us[n].c))
    decreases |us|
  {
    hide Encode, OctetsText;
    var n := Letters(us);
    if n > 0 {
      LettersSplit(us[1..]);
      assert us[1..][n - 1..] == us[n..];
      assert UriValue(us)[..n] == [us[0].c] + UriValue(us[1..])[..n - 1];
    } else {
      assert us[0..] == us && UriValue(us)[..0] == "";
      if us != [] { LettersSplit(us[1..]); }
    }
  }

  lemma {:induction false} NotAHandle(t: string, k: nat, us: seq<UriUnit>, n: nat)
    requires n <= |us| && UriOk(us[n..]) && Reads(t, k, UriText(us[n..]))
    requires n < |us| ==> us[n].Octets? || (!NameChar(us[n].c) && us[n].c != '!')
    requires n == |us| ==> NoUri(Ch(t, k))
    ensures !NameChar(Ch(t, k)) && Ch(t, k) != '!'
  {
    hide Encode;
    if n < |us| {
      var u := us[n..][0];
      assert u == us[n];
      var first := if u.UriChar? then [u.c] else OctetsText(Encode(u.c), u.upper);
      assert first != "" && (u.Octets? ==> first[0] == '%') by {
        if u.Octets? { assert OctetsText(Encode(u.c), u.upper)[0] == OctetText(Encode(u.c)[0], u.upper)[0]; }
      }
      assert UriText(us[n..]) == first + UriText(us[n..][1..]);
      ReadsPart(t, k, first, UriText(us[n..][1..]));
      ReadsFirst(t, k, first);
    }
  }

  /** The letters behind '!' are taken for a handle at first. */
  lemma {:induction false} NameTaken(t: string, k: nat, name: string)
    requires k < |t| && IsName(name) && Reads(t, k, "!") && Reads(t, k + 1, name)
    requires !NameChar(Ch(t, k + 1 + |name|)) && Ch(t, k + 1 + |name|) != '!'
    ensures k + 1 + |name| <= |t|
    ensures ScanHandle(t, k, false) == Ok(Named("!" + name, k + 1 + |name|))
  {
    ReadsFirst(t, k, "!");
    NameEnds(t, k + 1, name);
    ReadsInside(t, k + 1, name);
    assert t[k..k + 1 + |name|] == "!" + name;
  }

  lemma {:induction false} PrimaryIsRead(t: string, k: nat, suffix: seq<UriUnit>)
    requires k < |t| && TagFormOk(Primary(suffix)) && Reads(t, k, "!" + UriText(suffix))
    requires NoUri(Ch(t, k + 1 + |UriText(suffix)|))
    ensures ScanShorthand(t, k) == Ok(Tag("!", UriValue(suffix), k + 1 + |UriText(suffix)|))
  {
    hide UriText, UriValue, ScanUri, IsUri, ScanHandle, NameChar, Letters, IsBlankz, IsName, Reads;
    var text := UriText(suffix);
    ReadsPart(t, k, "!", text);
    LettersSplit(suffix);
    var n := Letters(suffix);
    var name, rest := UriValue(suffix)[..n], suffix[n..];
    assert text == name + UriText(rest) && |text| == n + |UriText(rest)|;
    ReadsPart(t, k + 1, name, UriText(rest));
    NoUriGoesOn(Ch(t, k + 1 + |text|));
    NotAHandle(t, k + 1 + n, suffix, n);
    NameTaken(t, k, name);
    NoMark(name);
    UriIsRead(t, k + 1 + n, rest, name, true);
    assert ("!" + name)[1..] == name;
    assert UriValue(suffix) != "";
  }

  lemma {:induction false} HandleIsRead(t: string, k: nat, name: string, directive: bool)
    requires k <= |t| && IsName(name) && Reads(t, k, "!" + name + "!")
    ensures ScanHandle(t, k, directive) == Ok(Named("!" + name + "!", k + |name| + 2))
  {
    var h := "!" + name + "!";
    assert h == "!" + (name + "!");
    ReadsPart(t, k, "!", name + "!");
    ReadsFirst(t, k, "!");
    ReadsPart(t, k + 1, name, "!");
    ReadsFirst(t, k + 1 + |name|, "!");
    NameEnds(t, k + 1, name);
    ReadsInside(t, k, h);
  }

  lemma {:induction false} VerbatimIsRead(t: string, k: nat, uri: seq<UriUnit>)
    requires k < |t| && TagFormOk(Verbatim(uri)) && Reads(t, k, TagFormText(Verbatim(uri)))
    ensures ScanTag(t, k) == Ended(t, Tag("", UriValue(uri), k + |TagFormText(Verbatim(uri))|))
  {
    hide UriText, UriValue, ScanUri, IsUri, UriOk;
    assert TagFormText(Verbatim(uri)) == "!<" + (UriText(uri) + ">");
    ReadsPart(t, k, "!<", UriText(uri) + ">");
    ReadsFirst(t, k, "!<");
    ReadsPart(t, k + 2, UriText(uri), ">");
    ReadsFirst(t, k + 2 + |UriText(uri)|, ">");
    BlankzIsNoUri('>');
    NoUriGoesOn('>');
    SecondInside(t, k);
    UriIsRead(t, k + 2, uri, "", false);
    assert "" + UriValue(uri) == UriValue(uri);
  }

  lemma {:induction false} HandledIsRead(t: string, k: nat, name: string, suffix: seq<UriUnit>)
    requires k < |t| && TagFormOk(Shorthand(name, suffix)) && Reads(t, k, TagFormText(Shorthand(name, suffix)))
    requires NoUri(Ch(t, k + |TagFormText(Shorthand(name, suffix))|))
    ensures ScanTag(t, k)
         == Ended(t, Tag("!" + name + "!", UriValue(suffix), k + |TagFormText(Shorthand(name, suffix))|))
  {
    hide UriText, UriValue, ScanUri, IsUri, ScanHandle, UriOk;
    var h := "!" + name + "!";
    NoUriGoesOn(Ch(t, k + |TagFormText(Shorthand(name, suffix))|));
    ReadsPart(t, k, h, UriText(suffix));
    HandleIsRead(t, k, name, false);
    ReadsInside(t, k, h);
    assert Ch(t, k + 1) == h[1] && h[1] != '<';
    UriIsRead(t, k + |h|, suffix, "", false);
    assert "" + UriValue(suffix) == UriValue(suffix);
  }

  /** Every tag is read as its handle and suffix, escaped characters included, or refused for what is behind it. */
  lemma {:induction false} TagIsRead(t: string, k: nat, f: TagForm)
    requires k < |t| && TagFormOk(f) && Reads(t, k, TagFormText(f)) && TagStops(f, Ch(t, k + |TagFormText(f)|))
    ensures var parts := TagFormParts(f);
      ScanTag(t, k) == Ended(t, Tag(parts.0, parts.1, k + |TagFormText(f)|))
  {
    hide UriText, UriValue, ScanUri, IsUri, ScanHandle, UriOk, ScanShorthand;
    match f
    case Verbatim(uri) =>
      VerbatimIsRead(t, k, uri);
    case Primary(suffix) =>
      SuffixBegins(t, k, suffix);
      PrimaryIsRead(t, k, suffix);
    case Shorthand(name, suffix) =>
      HandledIsRead(t, k, name, suffix);
    case NonSpecific =>
      ReadsFirst(t, k, "!");
      AloneIsRead(t, k);
  }

  lemma SecondInside(t: string, k: nat)
    requires Ch(t, k + 1) != NUL
    ensures k + 2 <= |t|
  {
  }

  lemma AloneIsRead(t: string, k: nat)
    requires k < |t| && Ch(t, k) == '!' && NoUri(Ch(t, k + 1))
    ensures ScanShorthand(t, k) == Ok(Tag("", "!", k + 1))
  {
    hide IsUri;
    NoUriGoesOn(Ch(t, k + 1));
    assert AlphaEnd(t, k + 1) == k + 1;
    assert t[k..k + 1] == "!" && "!"[1..] == "";
  }

  lemma {:induction false} SuffixBegins(t: string, k: nat, suffix: seq<UriUnit>)
    requires TagFormOk(Primary(suffix)) && Reads(t, k, "!" + UriText(suffix))
    ensures Ch(t, k + 1) != '<'
  {
    hide Encode;
    var u := suffix[0];
    ReadsPart(t, k, "!", UriText(suffix));
    var first := if u.UriChar? then [u.c] else OctetsText(Encode(u.c), u.upper);
    assert first != "" && (u.Octets? ==> first[0] == '%') by {
      if u.Octets? { assert OctetsText(Encode(u.c), u.upper)[0] == OctetText(Encode(u.c)[0], u.upper)[0]; }
    }
    assert UriText(suffix) == first + UriText(suffix[1..]);
    ReadsPart(t, k + 1, first, UriText(suffix[1..]));
    ReadsFirst(t, k + 1, first);
  }

  // ---------- directives ----------

  lemma {:induction false} BlanksPassed(t: string, k: nat, gap: string)
    requires Blanks(gap) && Reads(t, k, gap) && !IsBlank(Ch(t, k + |gap|))
    ensures BlankEnd(t, k) == k + |gap|
    decreases |gap|
  {
    if gap != "" {
      ReadsFirst(t, k, gap);
      BlanksPassed(t, k + 1, gap[1..]);
    }
  }

  lemma {:induction false} InsideText(t: string, k: nat, s: string)
    requires Reads(t, k, s) && k <= |t| && forall i :: 0 <= i < |s| ==> s[i] != NUL
    ensures k + |s| <= |t|
  {
    ReadsInside(t, k, s);
  }

  /** A number of one or two digits. */
  function NumberText(digits: seq<nat>): (s: string)
    requires forall i :: 0 <= i < |digits| ==> digits[i] < 10
    ensures |s| == |digits| && forall i :: 0 <= i < |s| ==> s[i] == DigitChar(HexDigit(digits[i], false))
  {
    seq(|digits|, i requires 0 <= i < |digits| => DigitChar(HexDigit(digits[i], false)))
  }

  predicate NumberOk(digits: seq<nat>) {
    1 <= |digits| <= 2 && forall i :: 0 <= i < |digits| ==> digits[i] < 10
  }

  function NumberValue(digits: seq<nat>): nat
    requires NumberOk(digits)
  {
    if |digits| == 1 then digits[0] else digits[0] * 10 + digits[1]
  }

  /** A number with no digits, or with more than two, is refused. */
  lemma NumberRefused(t: string, k: nat, digits: seq<nat>)
    requires k <= |t| && (forall i :: 0 <= i < |digits| ==> digits[i] < 10) && Reads(t, k, NumberText(digits))
    ensures digits == [] && !IsDigit(Ch(t, k)) ==> ScanNumber(t, k) == Err(NoVersionNumber)
    ensures |digits| > 2 ==> ScanNumber(t, k) == Err(LongVersionNumber)
  {
    var s := NumberText(digits);
    if |digits| > 2 { assert Ch(t, k + 0) == s[0] && Ch(t, k + 1) == s[1] && Ch(t, k + 2) == s[2]; }
  }

  lemma {:induction false} NumberIsRead(t: string, k: nat, digits: seq<nat>)
    requires k <= |t| && NumberOk(digits) && Reads(t, k, NumberText(digits)) && !IsDigit(Ch(t, k + |digits|))
    ensures ScanNumber(t, k) == Ok(Number(NumberValue(digits), k + |digits|))
  {
    var s := NumberText(digits);
    assert Ch(t, k + 0) == s[0];
    if |digits| == 2 { assert Ch(t, k + 1) == s[1]; }
  }

  /** %YAML with a version, or %TAG with a handle and a prefix. */
  datatype DirectiveForm =
    | YamlForm(gap: string, major: seq<nat>, minor: seq<nat>)
    | PrefixForm(gap: string, handle: HandleForm, gap2: string, prefix: seq<UriUnit>)

  /** "!", or a name between two of them. */
  datatype HandleForm = BareMark | MarkedName(name: string)

  function HandleText(h: HandleForm): string {
    match h
    case BareMark => "!"
    case MarkedName(name) => "!" + name + "!"
  }

  predicate DirectiveFormOk(d: DirectiveForm) {
    match d
    case YamlForm(gap, major, minor) => gap != "" && Blanks(gap) && NumberOk(major) && NumberOk(minor)
    case PrefixForm(gap, handle, gap2, prefix) =>
      && gap != "" && Blanks(gap) && gap2 != "" && Blanks(gap2) && UriOk(prefix) && prefix != []
      && (handle.MarkedName? ==> IsName(handle.name))
  }

  function ValueText(d: DirectiveForm): string
    requires DirectiveFormOk(d)
  {
    match d
    case YamlForm(gap, major, minor) => gap + (NumberText(major) + ("." + NumberText(minor)))
    case PrefixForm(gap, handle, gap2, prefix) => gap + (HandleText(handle) + (gap2 + UriText(prefix)))
  }

  function DirectiveWord(d: DirectiveForm): string {
    if d.YamlForm? then "YAML" else "TAG"
  }

  function DirectiveToken(d: DirectiveForm): Token
    requires DirectiveFormOk(d)
  {
    match d
    case YamlForm(_, major, minor) => VersionDirectiveToken(NumberValue(major), NumberValue(minor))
    case PrefixForm(_, handle, _, prefix) => TagDirectiveToken(HandleText(handle), UriValue(prefix))
  }

  lemma {:induction false} YamlIsRead(t: string, k: nat, d: DirectiveForm)
    requires k <= |t| && d.YamlForm? && DirectiveFormOk(d) && Reads(t, k, ValueText(d))
    requires IsBlankz(Ch(t, k + |ValueText(d)|))
    ensures ScanVersion(t, k) == Ok(Directive(DirectiveToken(d), k + |ValueText(d)|))
  {
    hide BlankEnd, ScanNumber;
    var a, b := NumberText(d.major), NumberText(d.minor);
    ReadsPart(t, k, d.gap, a + ("." + b));
    var i := k + |d.gap|;
    ReadsPart(t, i, a, "." + b);
    ReadsPart(t, i + |a|, ".", b);
    ReadsFirst(t, i + |a|, ".");
    ReadsFirst(t, i, a);
    BlanksPassed(t, k, d.gap);
    InsideText(t, k, d.gap);
    InsideText(t, i, a);
    NumberIsRead(t, i, d.major);
    NumberIsRead(t, i + |a| + 1, d.minor);
  }

  lemma {:induction false} DirectiveHandleRead(t: string, k: nat, h: HandleForm)
    requires k <= |t| && Reads(t, k, HandleText(h)) && IsBlank(Ch(t, k + |HandleText(h)|))
    requires h.MarkedName? ==> IsName(h.name)
    ensures ScanHandle(t, k, true) == Ok(Named(HandleText(h), k + |HandleText(h)|)) && Ch(t, k) == '!'
  {
    match h
    case MarkedName(name) =>
      HandleIsRead(t, k, name, true);
      ReadsFirst(t, k, HandleText(h));
    case BareMark =>
      ReadsFirst(t, k, "!");
      assert AlphaEnd(t, k + 1) == k + 1;
      assert t[k..k + 1] == "!";
  }

  lemma {:induction false} PrefixIsRead(t: string, k: nat, d: DirectiveForm)
    requires k <= |t| && d.PrefixForm? && DirectiveFormOk(d) && Reads(t, k, ValueText(d))
    requires IsBlankz(Ch(t, k + |ValueText(d)|))
    ensures ScanPrefix(t, k) == Ok(Directive(DirectiveToken(d), k + |ValueText(d)|))
  {
    hide BlankEnd, ScanHandle, ScanUri, UriText, UriValue, IsUri;
    var h, u := HandleText(d.handle), UriText(d.prefix);
    ReadsPart(t, k, d.gap, h + (d.gap2 + u));
    var i := k + |d.gap|;
    ReadsPart(t, i, h, d.gap2 + u);
    ReadsPart(t, i + |h|, d.gap2, u);
    ReadsFirst(t, i + |h|, d.gap2);
    InsideText(t, k, d.gap);
    DirectiveHandleRead(t, i, d.handle);
    BlanksPassed(t, k, d.gap);
    HandleInside(t, i, d.handle);
    InsideText(t, i + |h|, d.gap2);
    PrefixBegins(t, i + |h| + |d.gap2|, d.prefix);
    BlanksPassed(t, i + |h|, d.gap2);
    BlankzIsNoUri(Ch(t, k + |ValueText(d)|));
    NoUriGoesOn(Ch(t, k + |ValueText(d)|));
    UriIsRead(t, i + |h| + |d.gap2|, d.prefix, "", false);
    assert "" + UriValue(d.prefix) == UriValue(d.prefix);
  }

  lemma {:induction false} HandleInside(t: string, k: nat, h: HandleForm)
    requires k <= |t| && Reads(t, k, HandleText(h)) && (h.MarkedName? ==> IsName(h.name))
    ensures k + |HandleText(h)| <= |t|
  {
    InsideText(t, k, HandleText(h));
  }

  lemma {:induction false} PrefixBegins(t: string, k: nat, us: seq<UriUnit>)
    requires UriOk(us) && us != [] && Reads(t, k, UriText(us))
    ensures !IsBlank(Ch(t, k))
  {
    hide Encode;
    var u := us[0];
    var first := if u.UriChar? then [u.c] else OctetsText(Encode(u.c), u.upper);
    assert first != "" && (u.Octets? ==> first[0] == '%') by {
      if u.Octets? { assert OctetsText(Encode(u.c), u.upper)[0] == OctetText(Encode(u.c)[0], u.upper)[0]; }
    }
    assert UriText(us) == first + UriText(us[1..]);
    ReadsPart(t, k, first, UriText(us[1..]));
    ReadsFirst(t, k, first);
  }

  /** What may stand behind a directive on its line. */
  predicate LineRest(gap: string, comment: string) {
    && Blanks(gap)
    && (forall i :: 0 <= i < |comment| ==> !IsBreak(comment[i]) && comment[i] != NUL)
    && (comment != "" ==> comment[0] == '#')
  }

  lemma {:induction false} LineEnds(t: string, k: nat, s: string)
    requires (forall i :: 0 <= i < |s| ==> !IsBreak(s[i]) && s[i] != NUL) && Reads(t, k, s) && IsBreakz(Ch(t, k + |s|))
    ensures LineEnd(t, k) == k + |s|
    decreases |s|
  {
    if s != "" {
      ReadsFirst(t, k, s);
      LineEnds(t, k + 1, s[1..]);
    }
  }

  lemma {:induction false} RestIsRead(t: string, k: nat, gap: string, comment: string)
    requires k <= |t| && LineRest(gap, comment) && Reads(t, k, gap + comment) && IsBreakz(Ch(t, k + |gap| + |comment|))
    ensures RestOfLine(t, k) == k + |gap| + |comment|
  {
    hide BlankEnd, LineEnd;
    ReadsPart(t, k, gap, comment);
    if comment != "" { ReadsFirst(t, k + |gap|, comment); }
    BlanksPassed(t, k, gap);
    LineEnds(t, k + |gap|, comment);
  }

  lemma {:induction false} WordIsRead(t: string, k: nat, word: string)
    requires k <= |t| && IsName(word) && word != "" && Reads(t, k, word) && IsBlank(Ch(t, k + |word|))
    ensures ScanName(t, k) == Ok(Named(word, k + |word|)) && k + |word| <= |t|
  {
    hide AlphaEnd;
    NameEnds(t, k, word);
    ReadsInside(t, k, word);
  }

  lemma {:induction false} ValueIsRead(t: string, k: nat, d: DirectiveForm)
    requires k <= |t| && DirectiveFormOk(d) && Reads(t, k, ValueText(d)) && IsBlankz(Ch(t, k + |ValueText(d)|))
    ensures ScanValue(t, Named(DirectiveWord(d), k)) == Ok(Directive(DirectiveToken(d), k + |ValueText(d)|))
    ensures k + |ValueText(d)| <= |t|
  {
    hide ScanVersion, ScanPrefix;
    if d.YamlForm? { YamlIsRead(t, k, d); } else { PrefixIsRead(t, k, d); }
  }

  /** A directive line is read as its token, with blanks and a comment behind it. */
  lemma {:induction false} DirectiveIsRead(t: string, m: Mark, d: DirectiveForm, gap: string, comment: string)
    requires m.index < |t| && DirectiveFormOk(d) && LineRest(gap, comment) && (comment != "" ==> gap != "")
    requires Reads(t, m.index + 1, DirectiveWord(d) + (ValueText(d) + (gap + comment)))
    requires var end := m.index + 1 + |DirectiveWord(d)| + |ValueText(d)| + |gap| + |comment|; IsBreak(Ch(t, end))
    ensures var n := 1 + |DirectiveWord(d)| + |ValueText(d)| + |gap| + |comment|;
      ScanDirective(t, m) == Ok((DirectiveToken(d), SkipLine(t, Advance(m, n))))
  {
    hide ScanName, ScanValue, RestOfLine, ValueText, LineRest, DirectiveFormOk, Reads;
    var word, value := DirectiveWord(d), ValueText(d);
    var k := m.index + 1;
    ValueBegins(d);
    ReadsPart(t, k, word, value + (gap + comment));
    ReadsPart(t, k + |word|, value, gap + comment);
    ReadsFirst(t, k + |word|, value);
    WordIsRead(t, k, word);
    RestBegins(t, k + |word| + |value|, gap, comment);
    ValueIsRead(t, k + |word|, d);
    RestIsRead(t, k + |word| + |value|, gap, comment);
  }

  lemma ValueBegins(d: DirectiveForm)
    requires DirectiveFormOk(d)
    ensures ValueText(d) != "" && IsBlank(ValueText(d)[0])
  {
  }

  lemma RestBegins(t: string, k: nat, gap: string, comment: string)
    requires LineRest(gap, comment) && (comment != "" ==> gap != "") && Reads(t, k, gap + comment)
    requires IsBreakz(Ch(t, k + |gap| + |comment|))
    ensures IsBlankz(Ch(t, k))
  {
    if gap != "" { ReadsFirst(t, k, gap + comment); }
  }

  /** Directives of any other name are refused, and so is what has no name. */
  lemma {:induction false} OthersRefused(t: string, m: Mark, name: string)
    requires m.index < |t| && IsName(name) && Reads(t, m.index + 1, name) && !NameChar(Ch(t, m.index + 1 + |name|))
    requires name !in {"YAML", "TAG"}
    ensures ScanDirective(t, m) == Err(if name == "" then NoDirectiveName
                                       else if !IsBlankz(Ch(t, m.index + 1 + |name|)) then BadDirectiveName
                                       else UnknownDirective)
  {
    hide ScanVersion, ScanPrefix, RestOfLine;
    NameEnds(t, m.index + 1, name);
    ReadsInside(t, m.index + 1, name);
  }

  /** An escape whose first octet begins no character, or whose next octet does not go on with it, is refused. */
  lemma OctetsRefused(t: string, k: nat, a: byte, b: byte, upper: bool)
    requires k <= |t| && Reads(t, k, OctetText(a, upper))
    ensures 0x80 <= a < 0xC0 || 0xF8 <= a ==> UriEscape(t, k) == Err(BadLeadingOctet)
    ensures 0xC0 <= a < 0xF8 && Reads(t, k + 3, OctetText(b, upper)) && !(0x80 <= b < 0xC0) ==>
      UriEscape(t, k) == Err(BadTrailingOctet)
  {
    OctetRead(t, k, a, upper);
    OctetInside(t, k, a, upper);
    if Reads(t, k + 3, OctetText(b, upper)) { OctetRead(t, k + 3, b, upper); }
  }
}
