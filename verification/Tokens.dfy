/** Tokens, events and JSON trees: what the stages of the pipeline hand to each other. */
module Tokens {
  import opened Resolve

  /** The scanner's tokens. Their marks serve error messages and comments only. */
  datatype Token =
    | StreamStartToken
    | StreamEndToken
    | VersionDirectiveToken(major: int, minor: int)
    | TagDirectiveToken(handle: string, prefix: string)
    | DocumentStartToken
    | DocumentEndToken
    | BlockSequenceStartToken
    | BlockMappingStartToken
    | BlockEndToken
    | FlowSequenceStartToken
    | FlowSequenceEndToken
    | FlowMappingStartToken
    | FlowMappingEndToken
    | BlockEntryToken
    | FlowEntryToken
    | KeyToken
    | ValueToken
    | AliasToken(name: string)
    | AnchorToken(name: string)
    | TagToken(handle: string, suffix: string)
    | ScalarToken(value: string, style: Style)

  /** The parser's events. A scalar keeps whether it was plain without a tag. */
  datatype Event =
    | StreamStart
    | StreamEnd
    | DocumentStart
    | DocumentEnd
    | Alias(anchor: string)
    | Scalar(anchor: string, tag: string, value: string, implicit: bool)
    | SequenceStart(anchor: string, tag: string)
    | SequenceEnd
    | MappingStart(anchor: string, tag: string)
    | MappingEnd

  /** A decoded JSON document; an object lists its members in the order they are printed. */
  datatype Tree =
    | TNull
    | TBool(b: bool)
    | TNumber(text: string)
    | TString(s: string)
    | TList(items: seq<Tree>)
    | TObject(entries: seq<Entry>)

  datatype Entry = Entry(key: string, value: Tree)
}
