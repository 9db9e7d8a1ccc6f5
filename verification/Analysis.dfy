/**
 What the scan of a scalar's text before it is written decides: which styles may carry it.
 */
module Analysis {
  import opened Chars
  import opened Pens

  datatype Analysis = Analysis(multiline: bool, flowPlainAllowed: bool, blockPlainAllowed: bool,
                               singleQuotedAllowed: bool, blockAllowed: bool)

  predicate FollowedByWhitespace(v: string, i: nat) {
    i + 1 >= |v| || IsBlank(v[i + 1])
  }

  predicate Special(c: char, cfg: Config) {
    c != '\t' && (!IsPrintable(c) || (!IsAscii(c) && !cfg.unicode))
  }

  predicate SpaceBreakAt(v: string, i: nat) {
    i + 1 < |v| && v[i] == ' ' && IsBreak(v[i + 1])
  }

  predicate BreakSpaceAt(v: string, i: nat) {
    i + 1 < |v| && IsBreak(v[i]) && v[i + 1] == ' '
  }

  predicate DocumentPrefix(v: string) {
    |v| >= 3 && (v[0] == '-' || v[0] == '.') && v[1] == v[0] && v[2] == v[0]
  }

  /** The character at i keeps the value from being plain in a block. */
  predicate BlockIndicatorAt(v: string, i: nat)
    requires i < |v|
  {
    if i == 0 then
      v[0] in "#,[]{}&*!|>'\"%@`" || (v[0] in "?:-" && FollowedByWhitespace(v, 0))
    else
      || (v[i] == ':' && FollowedByWhitespace(v, i))
      || (v[i] == '#' && IsBlankz(v[i - 1]))
  }

  /** The character at i keeps the value from being plain in a flow collection. */
  predicate FlowIndicatorAt(v: string, i: nat)
    requires i < |v|
  {
    if i == 0 then
      v[0] in "#,[]{}&*!|>'\"%@`?:" || (v[0] == '-' && FollowedByWhitespace(v, 0))
    else
      v[i] in ",?[]{}:" || (v[i] == '#' && IsBlankz(v[i - 1]))
  }

  predicate HasBreak(v: string) {
    exists i :: 0 <= i < |v| && IsBreak(v[i])
  }

  /** The character at i, with the next one, fits between single quotes. */
  predicate SingleFits(v: string, i: nat, cfg: Config)
    requires i < |v|
  {
    v[i] != '\t' && !Special(v[i], cfg) && !SpaceBreakAt(v, i) && !BreakSpaceAt(v, i)
  }

  predicate SingleQuotedAllowed(v: string, cfg: Config) {
    forall i :: 0 <= i < |v| ==> SingleFits(v, i, cfg)
  }

  predicate EdgeWhitespace(v: string) {
    v != "" && (v[0] == ' ' || IsBreak(v[0]) || v[|v| - 1] == ' ' || IsBreak(v[|v| - 1]))
  }

  predicate PlainShape(v: string, cfg: Config) {
    SingleQuotedAllowed(v, cfg) && !HasBreak(v) && !EdgeWhitespace(v) && !DocumentPrefix(v)
  }

  predicate BlockPlainAllowed(v: string, cfg: Config) {
    PlainShape(v, cfg) && forall i :: 0 <= i < |v| ==> !BlockIndicatorAt(v, i)
  }

  predicate FlowPlainAllowed(v: string, cfg: Config) {
    v != "" && PlainShape(v, cfg) && forall i :: 0 <= i < |v| ==> !FlowIndicatorAt(v, i)
  }

  predicate BlockScalarAllowed(v: string, cfg: Config) {
    && v != ""
    && v[|v| - 1] != ' '
    && forall i :: 0 <= i < |v| ==> !SpaceBreakAt(v, i) && !Special(v[i], cfg)
  }

  function Analyze(v: string, cfg: Config): Analysis {
    Analysis(HasBreak(v), FlowPlainAllowed(v, cfg), BlockPlainAllowed(v, cfg),
             SingleQuotedAllowed(v, cfg), BlockScalarAllowed(v, cfg))
  }
}
