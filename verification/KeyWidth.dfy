/** A simple key stays on its line and well inside the 1024 characters a ':' may be away. */
module KeyWidth {
  import opened Chars
  import opened Pens
  import opened Analysis
  import opened ScalarWriters
  import opened Resolve
  import opened Layout
  import opened LayoutTokens
  import Unicode

  /** q is p with at most `room` characters more on the same line. */
  ghost predicate SameLine(p: Pen, q: Pen, room: nat) {
    && q.line == p.line
    && q.column == p.column + |q.out| - |p.out|
    && |p.out| <= |q.out| <= |p.out| + room
  }

  lemma EscapeWidth(c: char)
    ensures |EscapeText(c)| <= 4 * |Unicode.Encode(c)|
  {
    LookupFinds(NAMED, c, 0);
  }

  lemma LengthFrom(v: string, i: nat)
    requires i < |v|
    ensures Unicode.EncodedLength(v[i..]) == |Unicode.Encode(v[i])| + Unicode.EncodedLength(v[i + 1..])
  {
    assert v[i..][0] == v[i] && v[i..][1..] == v[i + 1..];
  }

  lemma {:induction false} DoubleWidth(p: Pen, v: string, i: nat, spaces: bool, indent: int, cfg: Config)
    requires i <= |v|
    ensures SameLine(p, DoubleBody(p, v, i, spaces, false, indent, cfg), 4 * Unicode.EncodedLength(v[i..]))
    decreases |v| - i
  {
    hide Unicode.EncodedLength, Unicode.Encode;
    if i < |v| {
      var q := DoubleStep(p, v, i, spaces, false, indent, cfg);
      EscapeWidth(v[i]);
      LengthFrom(v, i);
      DoubleWidth(q, v, i + 1, PlainSpace(v, i, cfg), indent, cfg);
    }
  }

  lemma {:induction false} SingleWidth(p: Pen, v: string, i: nat, spaces: bool, indent: int, cfg: Config)
    requires i <= |v| && !HasBreak(v)
    ensures SameLine(p, SingleBody(p, v, i, spaces, false, false, indent, cfg),
                     4 * Unicode.EncodedLength(v[i..]))
    decreases |v| - i
  {
    if i < |v| {
      LengthFrom(v, i);
      assert BreaksAfter(v[i], false) == false;
      SingleWidth(LineStep(p, v[i], false, false, true, indent), v, i + 1,
                  SpacesAfter(v[i], spaces), indent, cfg);
    }
  }

  lemma {:induction false} PlainWidth(p: Pen, v: string, i: nat, spaces: bool, indent: int, cfg: Config)
    requires i <= |v| && !HasBreak(v)
    ensures SameLine(p, PlainBody(p, v, i, spaces, false, false, indent, cfg),
                     4 * Unicode.EncodedLength(v[i..]))
    decreases |v| - i
  {
    if i < |v| {
      assert v[i..][0] == v[i] && v[i..][1..] == v[i + 1..];
      assert BreaksAfter(v[i], false) == false;
      PlainWidth(LineStep(p, v[i], false, false, false, indent), v, i + 1,
                 SpacesAfter(v[i], spaces), indent, cfg);
    }
  }

  lemma ScalarWidth(p: Pen, v: string, style: Style, root: bool, indent: int, cfg: Config)
    requires !HasBreak(v)
    ensures SameLine(p, WriteScalar(p, v, style, root, false, indent, cfg), 3 + 4 * Unicode.EncodedLength(v))
  {
    hide DoubleBody, SingleBody, PlainBody;
    assert v[0..] == v;
    match style
    case Plain =>
      PlainWidth(if v != "" && !p.whitespace then Put(p, ' ') else p, v, 0, false, indent, cfg);
    case SingleQuoted =>
      SingleWidth(WriteIndicator(p, "'", true, false, false), v, 0, false, indent, cfg);
    case DoubleQuoted =>
      DoubleWidth(WriteIndicator(p, "\"", true, false, false), v, 0, false, indent, cfg);
  }

  lemma SimpleKeyWidth(p: Pen, key: string, requested: Style, place: Place, indent: int, cfg: Config)
    requires ValidConfig(cfg) && SimpleKeyAllowed(key)
    ensures SameLine(p, EmitScalar(p, key, requested, place, true, indent, cfg), 515)
  {
    hide WriteScalar, SelectStyle;
    ScalarWidth(p, key, SelectStyle(requested, key, true, false, cfg), place == Root,
                IncreaseIndent(indent, true, place == InList, cfg), cfg);
  }
}
