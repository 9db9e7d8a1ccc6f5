/** Reading YAML as it runs: the reader, the scanner, the parser and the reader of events in turn. */
module YamlReading {
  import opened Unicode
  import opened Decoding
  import opened Delivery
  import opened Options
  import opened Pens
  import opened Resolve
  import opened Tokens
  import opened Layout
  import opened LayoutTokens
  import opened Composer
  import opened Documents
  import opened RoundTrip
  import opened Parser
  import opened ParserSafety
  import opened DemandScan
  import opened Scanner
  import R = Reader
  import S = YamlScanner
  import V = EventReader
  import J = JsonPrinter

  /** The value of a YAML stream of one document. */
  method ReadYaml(bytes: seq<byte>, lib: Library) returns (r: Result<Value, Failure>)
    ensures r == ReadBack(bytes, lib)
  {
    hide DecodeStream, EncodeAll, ReadDocument, Delivered, ParseAll, DeliverFrom, Joined;
    var pieces := if bytes == [] then [] else [bytes];
    OnePiece(bytes);
    var text, error;
    ghost var taken;
    text, error, taken := R.ReadAll(pieces);
    if error.Some? {
      return Err(ParserStopped);
    }
    var tokens, _ := S.ScanText(text, taken);
    r := V.ReadTokens(tokens, lib);
  }

  /** The read handler gives as much as there is room for. */
  lemma OnePiece(bytes: seq<byte>)
    ensures Splits(if bytes == [] then [] else [bytes], bytes)
  {
    if bytes != [] { assert [bytes][1..] == []; }
  }

  /**
   The programs undo each other: a JSON document whose numbers pass the check is printed, and
   reading the bytes gives its value.
   */
  method PrintAndRead(tree: Tree, cfg: Config, lib: Library) returns (r: Option<Value>)
    requires ValidConfig(cfg) && ValidTree(tree) && Depth(tree) <= MAX_INDENTS
    ensures r == if Accepted(tree, lib.numbers) then Some(ValueOf(tree, lib.numbers)) else None
  {
    hide ReadBack, Printed, ValueOf, Accepted, EncodeAll, EmitDocument;
    var bytes := J.JsonToYaml(tree, cfg, lib.numbers);
    if bytes.None? {
      return None;
    }
    PrintedIsReadBack(tree, cfg, lib);
    var value := ReadYaml(bytes.value, lib);
    r := Some(value.value);
  }
}
