/** The scan of a value before it is written, as it runs over the bytes with its flags. */
module ScalarAnalysis {
  import opened Chars
  import opened Unicode
  import opened Decoding
  import opened ByteText
  import opened Pens
  import opened Styles = Analysis
  import EmitterOutput

  /** Some of the first k positions has the property. */
  predicate Seen(p: nat -> bool, k: nat) {
    k > 0 && (Seen(p, k - 1) || p(k - 1))
  }

  lemma {:induction false} SeenSomewhere(p: nat -> bool, k: nat)
    ensures Seen(p, k) <==> exists j: nat :: j < k && p(j)
  {
    if k > 0 { SeenSomewhere(p, k - 1); }
  }

  function BlockIndicators(v: string): nat -> bool {
    (j: nat) => j < |v| && BlockIndicatorAt(v, j)
  }

  function FlowIndicators(v: string): nat -> bool {
    (j: nat) => j < |v| && FlowIndicatorAt(v, j)
  }

  function Breaks(v: string): nat -> bool {
    (j: nat) => j < |v| && IsBreak(v[j])
  }

  function Tabs(v: string): nat -> bool {
    (j: nat) => j < |v| && v[j] == '\t'
  }

  function Specials(v: string, cfg: Config): nat -> bool {
    (j: nat) => j < |v| && Special(v[j], cfg)
  }

  /** A break, or a space, before position j and the other kind at it. */
  function BreakSpaces(v: string): nat -> bool {
    (j: nat) => j > 0 && BreakSpaceAt(v, j - 1)
  }

  function SpaceBreaks(v: string): nat -> bool {
    (j: nat) => j > 0 && SpaceBreakAt(v, j - 1)
  }

  /** The flags of the loop, after k characters. */
  datatype Flags = Flags(block: bool, flow: bool, breaks: bool, special: bool, tabs: bool,
                         breakSpace: bool, spaceBreak: bool)

  predicate Right(f: Flags, v: string, k: nat, cfg: Config) {
    && f.block == (DocumentPrefix(v) || Seen(BlockIndicators(v), k))
    && f.flow == (DocumentPrefix(v) || Seen(FlowIndicators(v), k))
    && f.breaks == Seen(Breaks(v), k)
    && f.special == Seen(Specials(v, cfg), k)
    && f.tabs == Seen(Tabs(v), k)
    && f.breakSpace == Seen(BreakSpaces(v), k)
    && f.spaceBreak == Seen(SpaceBreaks(v), k)
  }

  function Conclude(f: Flags, edge: bool, trailingSpace: bool): Styles.Analysis {
    var single := !f.breakSpace && !f.spaceBreak && !f.tabs && !f.special;
    var plain := single && !edge && !f.breaks;
    Styles.Analysis(f.breaks, plain && !f.flow, plain && !f.block, single,
                      !trailingSpace && !f.spaceBreak && !f.special)
  }

  lemma SingleFromFlags(f: Flags, v: string, cfg: Config)
    requires Right(f, v, |v|, cfg)
    ensures SingleQuotedAllowed(v, cfg) <==> !f.breakSpace && !f.spaceBreak && !f.tabs && !f.special
  {
    SeenSomewhere(Tabs(v), |v|);
    SeenSomewhere(Specials(v, cfg), |v|);
    SeenSomewhere(BreakSpaces(v), |v|);
    SeenSomewhere(SpaceBreaks(v), |v|);
    if SingleQuotedAllowed(v, cfg) {
      forall j: nat | j < |v|
        ensures !Tabs(v)(j) && !Specials(v, cfg)(j) && !BreakSpaces(v)(j) && !SpaceBreaks(v)(j)
      {
        assert SingleFits(v, j, cfg);
        if j > 0 { assert SingleFits(v, j - 1, cfg); }
      }
    } else {
      var j :| 0 <= j < |v| && !SingleFits(v, j, cfg);
      assert Tabs(v)(j) || Specials(v, cfg)(j) || BreakSpaces(v)(j + 1) || SpaceBreaks(v)(j + 1);
    }
  }

  lemma OthersFromFlags(f: Flags, v: string, cfg: Config)
    requires Right(f, v, |v|, cfg)
    ensures f.breaks <==> HasBreak(v)
    ensures f.block <==> DocumentPrefix(v) || exists j :: 0 <= j < |v| && BlockIndicatorAt(v, j)
    ensures f.flow <==> DocumentPrefix(v) || exists j :: 0 <= j < |v| && FlowIndicatorAt(v, j)
    ensures f.special <==> exists j :: 0 <= j < |v| && Special(v[j], cfg)
    ensures f.spaceBreak <==> exists j :: 0 <= j < |v| && SpaceBreakAt(v, j)
  {
    SeenSomewhere(Breaks(v), |v|);
    SeenSomewhere(BlockIndicators(v), |v|);
    SeenSomewhere(FlowIndicators(v), |v|);
    SeenSomewhere(Specials(v, cfg), |v|);
    SeenSomewhere(SpaceBreaks(v), |v|);
    if j: int :| 0 <= j < |v| && IsBreak(v[j]) { assert Breaks(v)(j); }
    if j: int :| 0 <= j < |v| && BlockIndicatorAt(v, j) { assert BlockIndicators(v)(j); }
    if j: int :| 0 <= j < |v| && FlowIndicatorAt(v, j) { assert FlowIndicators(v)(j); }
    if j: int :| 0 <= j < |v| && Special(v[j], cfg) { assert Specials(v, cfg)(j); }
    if j: int :| 0 <= j < |v| && SpaceBreakAt(v, j) {
      assert SpaceBreaks(v)(j + 1);
    }
    if j: nat :| j < |v| && SpaceBreaks(v)(j) {
      assert SpaceBreakAt(v, j - 1);
    }
  }

  lemma AnalysisFromFlags(f: Flags, v: string, cfg: Config)
    requires v != "" && Right(f, v, |v|, cfg)
    ensures Conclude(f, EdgeWhitespace(v), v[|v| - 1] == ' ') == Analyze(v, cfg)
  {
    hide Right, BlockIndicatorAt, FlowIndicatorAt, Special, SpaceBreakAt, SingleQuotedAllowed, DocumentPrefix,
      HasBreak, EdgeWhitespace;
    SingleFromFlags(f, v, cfg);
    OthersFromFlags(f, v, cfg);
  }

  /** Whether the character at i keeps the value from being plain, in a flow and in a block. */
  method Indicators(value: Bytes, i: nat, preceded: bool, followed: bool, ghost v: string, ghost k: nat)
    returns (flow: bool, block: bool)
    requires Begins(value, v, i, k) && k < |v|
    requires preceded == (k == 0 || IsBlankz(v[k - 1])) && followed == FollowedByWhitespace(v, k)
    ensures flow == FlowIndicatorAt(v, k) && block == BlockIndicatorAt(v, k)
  {
    ClassesAt(value, v, i, k);
    EmitterOutput.AtStart(value, v, i, k);
    flow, block := false, false;
    var octet := value[i];
    if octet <= 0x7F {
      var c := octet as char;
      if i == 0 {
        if c in "#,[]{}&*!|>'\"%@`" {
          flow, block := true, true;
        } else if c == '?' || c == ':' {
          flow, block := true, followed;
        } else if c == '-' {
          flow, block := followed, followed;
        }
      } else {
        if c in ",?[]{}" {
          flow := true;
        } else if c == ':' {
          flow, block := true, followed;
        } else if c == '#' {
          flow, block := preceded, preceded;
        }
      }
    }
  }

  method Followed(value: Bytes, i: nat, ghost v: string, ghost k: nat) returns (followed: bool)
    requires Begins(value, v, i, k) && k < |v|
    ensures followed == FollowedByWhitespace(v, k)
  {
    ClassesAt(value, v, i, k);
    var next := i + WidthAt(value, i);
    EndBegins(value, v, next, k + 1);
    if k + 1 < |v| { ClassesAt(value, v, next, k + 1); }
    followed := next >= |value| || IsBlankAt(value, next);
  }

  method StartsDocument(value: Bytes, ghost v: string) returns (prefix: bool)
    requires value == EncodeAll(v) && v != ""
    ensures prefix == DocumentPrefix(v)
  {
    StartBegins(v);
    prefix := |value| >= 3 &&
      ((value[0] == 0x2D && value[1] == 0x2D && value[2] == 0x2D)
       || (value[0] == 0x2E && value[1] == 0x2E && value[2] == 0x2E));
    ThreeSame(value, v, '-');
    ThreeSame(value, v, '.');
  }

  lemma ThreeSame(value: Bytes, v: string, c: char)
    requires value == EncodeAll(v) && v != "" && (c == '-' || c == '.')
    ensures |v| >= 3 && v[0] == c && v[1] == c && v[2] == c <==>
      |value| >= 3 && value[0] == c as int && value[1] == c as int && value[2] == c as int
  {
    hide Encode, IsPrintableAt;
    StartBegins(v);
    ClassesAt(value, v, 0, 0);
    EndBegins(value, v, 0, 0);
    if At(value, 0) == c as int {
      OneByte(value, 0, c);
      EndBegins(value, v, 1, 1);
      if 1 < |v| {
        ClassesAt(value, v, 1, 1);
        if At(value, 1) == c as int {
          OneByte(value, 1, c);
          EndBegins(value, v, 2, 2);
          if 2 < |v| { ClassesAt(value, v, 2, 2); }
        }
      }
    }
  }

  lemma OneByte(b: Bytes, i: nat, c: char)
    requires At(b, i) == c as int && c as int <= 0x7F
    ensures WidthAt(b, i) == 1
  {
  }

  /** The styles that may carry the value. */
  method AnalyzeScalar(value: Bytes, cfg: Config, ghost v: string) returns (a: Styles.Analysis)
    requires value == EncodeAll(v)
    ensures a == Analyze(v, cfg)
  {
    hide Encode, Special, BlockIndicatorAt, FlowIndicatorAt, IsPrintable, IsPrintableAt;
    StartBegins(v);
    EndBegins(value, v, 0, 0);
    if |value| == 0 {
      return Styles.Analysis(false, false, true, true, false);
    }
    var prefix := StartsDocument(value, v);
    var f := Flags(prefix, prefix, false, false, false, false, false);
    var leading, trailingSpace, trailingBreak := false, false, false;
    var previousSpace, previousBreak, preceded := false, false, true;
    var i: nat := 0;
    ghost var k: nat := 0;
    while i < |value|
      invariant Begins(value, v, i, k) && Right(f, v, k, cfg)
      invariant preceded == (k == 0 || IsBlankz(v[k - 1]))
      invariant previousSpace == (k > 0 && v[k - 1] == ' ')
      invariant previousBreak == (k > 0 && IsBreak(v[k - 1]))
      invariant leading == (k > 0 && (v[0] == ' ' || IsBreak(v[0])))
      invariant trailingSpace == (k == |v| && k > 0 && v[k - 1] == ' ')
      invariant trailingBreak == (k == |v| && k > 0 && IsBreak(v[k - 1]))
      decreases |v| - k
    {
      EndBegins(value, v, i, k);
      ClassesAt(value, v, i, k);
      EmitterOutput.AtStart(value, v, i, k);
      f := Turn(value, i, f, preceded, previousSpace, previousBreak, cfg, v, k);
      var space, brk := IsSpaceAt(value, i), IsBreakAt(value, i);
      var next := i + WidthAt(value, i);
      EndBegins(value, v, next, k + 1);
      if i == 0 {
        leading := space || brk;
      }
      trailingSpace := space && next == |value|;
      trailingBreak := brk && next == |value|;
      previousSpace, previousBreak := space, brk;
      preceded := IsBlankzAt(value, i);
      i := next;
      k := k + 1;
    }
    EndBegins(value, v, i, k);
    AnalysisFromFlags(f, v, cfg);
    a := Conclude(f, leading || trailingSpace || trailingBreak, trailingSpace);
  }

  /** What the character at k adds. */
  function Added(v: string, k: nat, cfg: Config): Flags
    requires k < |v|
  {
    Flags(BlockIndicatorAt(v, k), FlowIndicatorAt(v, k), IsBreak(v[k]), Special(v[k], cfg), v[k] == '\t',
          k > 0 && BreakSpaceAt(v, k - 1), k > 0 && SpaceBreakAt(v, k - 1))
  }

  function Or(f: Flags, g: Flags): Flags {
    Flags(f.block || g.block, f.flow || g.flow, f.breaks || g.breaks, f.special || g.special, f.tabs || g.tabs,
          f.breakSpace || g.breakSpace, f.spaceBreak || g.spaceBreak)
  }

  lemma RightGoesOn(f: Flags, v: string, k: nat, cfg: Config)
    requires k < |v| && Right(f, v, k, cfg)
    ensures Right(Or(f, Added(v, k, cfg)), v, k + 1, cfg)
  {
    hide BlockIndicatorAt, FlowIndicatorAt, Special, SpaceBreakAt, BreakSpaceAt, DocumentPrefix, IsBreak;
  }

  /** One turn of the loop. */
  method Turn(value: Bytes, i: nat, f: Flags, preceded: bool, previousSpace: bool, previousBreak: bool,
              cfg: Config, ghost v: string, ghost k: nat) returns (g: Flags)
    requires Begins(value, v, i, k) && k < |v| && Right(f, v, k, cfg)
    requires preceded == (k == 0 || IsBlankz(v[k - 1]))
    requires previousSpace == (k > 0 && v[k - 1] == ' ') && previousBreak == (k > 0 && IsBreak(v[k - 1]))
    ensures Right(g, v, k + 1, cfg)
  {
    hide Encode, BlockIndicatorAt, FlowIndicatorAt, IsPrintable, IsPrintableAt, Right;
    var followed := Followed(value, i, v, k);
    var flow, block := Indicators(value, i, preceded, followed, v, k);
    ClassesAt(value, v, i, k);
    var tab := value[i] == 0x09;
    var special := !tab && (!IsPrintableAt(value, i) || (!IsAsciiAt(value, i) && !cfg.unicode));
    var space, brk := IsSpaceAt(value, i), !IsSpaceAt(value, i) && IsBreakAt(value, i);
    g := Or(f, Flags(block, flow, brk, special, tab, space && previousBreak, brk && previousSpace));
    RightGoesOn(f, v, k, cfg);
  }
}
