/**
 Block text that is refused, and where: a collection on the line of its key, a key that is too long,
 and characters that no token begins with.
 */
module BlockRefused {
  import opened Chars
  import opened ScalarScan
  import opened Options
  import opened Resolve
  import opened Tokens
  import opened Scanner
  import opened ScanSteps
  import opened Spelling
  import opened Folding
  import opened FlowText
  import opened BlockScalars
  import opened BlockTree
  import opened BlockScan

  /** The fetch behind a run that went well fails. */
  lemma ThenRefused(t: string, sc: State, n: nat, mid: State, e: ScanFailure)
    requires Run(Fetcher(t), sc, n) == Ok(mid) && FetchNext(t, mid) == Err(e)
    ensures FetchMany(t, sc, n + 1) == Err(e)
  {
    RunIsFetchMany(t, Fetcher(t), sc, n);
    ManyThenOne(t, sc, n, mid);
  }

  lemma {:induction false} ManyThenOne(t: string, sc: State, n: nat, mid: State)
    requires FetchMany(t, sc, n) == Ok(mid) && FetchNext(t, mid).Err?
    ensures FetchMany(t, sc, n + 1) == FetchNext(t, mid)
    decreases n
  {
    hide FetchNext;
    if n > 0 { ManyThenOne(t, FetchNext(t, sc).value, n - 1, mid); }
  }

  /** A key at the beginning of the text, and the spaces behind its ':'. */
  lemma {:induction false} FirstKey(t: string, key: Scalar, space: string, n: nat) returns (mid: State, m: Mark)
    requires KeyOk(key, space) && n >= 1
    requires Reads(t, 0, ScalarText(key) + (space + ":")) && Reads(t, |ScalarText(key)| + |space| + 1, Blank(n))
    requires !BlankOrBreak(Ch(t, |ScalarText(key)| + |space| + 1 + n))
    ensures Run(Fetcher(t), StartState, 3) == Ok(mid) && Here(t, mid, m, false) && mid.keys == [None] && mid.indent == 0
    ensures m == Advance(Mark(0, 0, 0), |ScalarText(key)| + |space| + 1 + n)
  {
    hide ScalarText, ScalarOk, OneLine, Settle, Run, TokenOf;
    var f := Fetcher(t);
    var begun := FetchStreamStart(StartState);
    StartFetched(t, f);
    ReadsPart(t, 0, ScalarText(key), space + ":");
    ScalarFirst(t, 0, key);
    assert Settle(t, begun.mark, 0, true) == (begun.mark, true) by { AtOnce(t, begun.mark, true); }
    var k := |ScalarText(key)| + |space| + 1;
    ReadsFirst(t, k, Blank(n));
    mid := KeyFetched(t, f, begun, begun.mark, key, space);
    m := Advance(mid.mark, n);
    BlanksSettle(t, mid.mark, n);
    RunOne(f, StartState, begun);
    RunGoesOn(f, StartState, 1, begun, begun, 2, mid);
  }

  lemma AtOnce(t: string, m: Mark, allowed: bool)
    requires !BlankOrBreak(Ch(t, m.index))
    ensures Settle(t, m, 0, allowed) == (m, allowed)
  {
  }

  lemma BlanksSettle(t: string, m: Mark, n: nat)
    requires Reads(t, m.index, Blank(n)) && !BlankOrBreak(Ch(t, m.index + n))
    ensures Settle(t, m, 0, false) == (Advance(m, n), false)
  {
    hide Settle;
    assert Blanks(Blank(n));
    SettleBlanks(t, m, Blank(n));
  }

  lemma Ahead(t: string, sc: State, m: Mark, allowed: bool)
    requires Here(t, sc, m, allowed) && m.column >= sc.indent
    ensures FetchNext(t, sc) == Dispatch(t, sc.(mark := m, keyAllowed := allowed))
  {
    hide Dispatch;
  }

  /** A text that begins with a list on the line of its key is refused at the '-'. */
  lemma {:induction false} ListBehindKey(t: string, key: Scalar, space: string, n: nat)
    requires KeyOk(key, space) && n >= 1 && Reads(t, 0, ScalarText(key) + (space + ":"))
    requires var k := |ScalarText(key)| + |space| + 1; Reads(t, k, Blank(n)) && Reads(t, k + n, "- ")
    ensures FetchMany(t, StartState, 4) == Err(EntryNotAllowed)
  {
    hide ScalarText, ScalarOk, OneLine, Run, FetchMany, FetchNext, Dispatch, Settle;
    var k := |ScalarText(key)| + |space| + 1 + n;
    ReadsFirst(t, k, "- ");
    var mid, m := FirstKey(t, key, space, n);
    Ahead(t, mid, m, false);
    DispatchIndicator(t, mid.(mark := m, keyAllowed := false));
    ThenRefused(t, StartState, 3, mid, EntryNotAllowed);
  }

  /** One that begins with a mapping on the line of a key is refused at the second ':'. */
  lemma {:induction false} KeyBehindKey(t: string, key: Scalar, space: string, n: nat, key2: Scalar, space2: string)
    requires KeyOk(key, space) && n >= 1 && Reads(t, 0, ScalarText(key) + (space + ":"))
    requires ScalarOk(key2) && OneLine(key2) && Blanks(space2)
    requires var k := |ScalarText(key)| + |space| + 1;
      && Reads(t, k, Blank(n)) && Reads(t, k + n, ScalarText(key2) + (space2 + ":"))
      && IsBlankz(Ch(t, k + n + |ScalarText(key2)| + |space2| + 1))
    ensures FetchMany(t, StartState, 5) == Err(ValueNotAllowed)
  {
    hide ScalarText, ScalarOk, OneLine, Run, FetchMany, FetchNext, Dispatch, Settle, Reads;
    var k := |ScalarText(key)| + |space| + 1 + n;
    var c := |ScalarText(key2)| + |space2|;
    ReadsPart(t, k, ScalarText(key2), space2 + ":");
    ReadsPart(t, k + |ScalarText(key2)|, space2, ":");
    ReadsFirst(t, k + c, ":");
    ScalarFirst(t, k, key2);
    var mid, m := FirstKey(t, key, space, n);
    var sc1 := KeyScalarRead(t, Fetcher(t), mid, m, false, key2, space2);
    RunOne(Fetcher(t), mid, sc1);
    RunGoesOn(Fetcher(t), StartState, 3, mid, mid, 1, sc1);
    NoKeyForColon(t, sc1, Advance(m, c));
    ThenRefused(t, StartState, 4, sc1, ValueNotAllowed);
  }

  /** A ':' with no key to go with it, where none may begin. */
  lemma NoKeyForColon(t: string, sc: State, m: Mark)
    requires Here(t, sc, m, false) && m.column >= sc.indent && Ch(t, m.index) == ':' && IsBlankz(Ch(t, m.index + 1))
    requires sc.keys[0].Some? ==>
      !sc.keys[0].value.required && !KeyValid(sc.(mark := m, keyAllowed := false), sc.keys[0].value)
    ensures FetchNext(t, sc) == Err(ValueNotAllowed)
  {
    hide FetchNext, Dispatch, Settle;
    Ahead(t, sc, m, false);
    DispatchIndicator(t, sc.(mark := m, keyAllowed := false));
  }

  /** With more than 1024 characters, the blanks in front of its ':' included, a key is none. */
  lemma {:induction false} LongKey(t: string, key: Scalar, space: string)
    requires ScalarOk(key) && OneLine(key) && Blanks(space) && |ScalarText(key)| + |space| > 1024
    requires Reads(t, 0, ScalarText(key) + (space + ":")) && IsBlankz(Ch(t, |ScalarText(key)| + |space| + 1))
    ensures FetchMany(t, StartState, 3) == Err(ValueNotAllowed)
  {
    hide ScalarText, ScalarOk, OneLine, Run, FetchMany, FetchNext, Dispatch, Settle, Reads;
    var c := |ScalarText(key)| + |space|;
    ReadsPart(t, 0, ScalarText(key), space + ":");
    ReadsPart(t, |ScalarText(key)|, space, ":");
    ReadsFirst(t, c, ":");
    ScalarFirst(t, 0, key);
    var f := Fetcher(t);
    var begun := FetchStreamStart(StartState);
    StartFetched(t, f);
    AtOnce(t, begun.mark, true);
    var sc1 := KeyScalarRead(t, f, begun, begun.mark, true, key, space);
    RunTwo(f, StartState, begun, sc1);
    NoKeyForColon(t, sc1, Advance(begun.mark, c));
    ThenRefused(t, StartState, 2, sc1, ValueNotAllowed);
  }

  /** No token begins with '@' or a backquote, and '%' begins one only in the first column. */
  lemma NoTokenBegins(t: string, sc: State, m: Mark, allowed: bool)
    requires Here(t, sc, m, allowed) && m.column >= sc.indent
    requires Ch(t, m.index) in "@`" || (Ch(t, m.index) == '%' && m.column > 0)
    ensures FetchNext(t, sc) == Err(BadStart)
  {
    hide FetchNext, Settle;
    Ahead(t, sc, m, allowed);
  }

  /** A tab in the indentation of a further line, further out than the scalar may stand. */
  lemma {:induction false} TabMet(t: string, indent: int, m: Mark, s: string, end: Mark, ws: string, lead: string,
                                  trail: string, leading: bool, tail: string)
    returns (at: Mark)
    requires TailOk(tail) && Reads(t, m.index, tail) && Ch(t, m.index + |tail|) == '\t'
    requires (leading || BreakIn(tail)) && PlainColumn(m, tail) < indent
    ensures PlainBlanks(t, 0, indent, m, s, end, ws, lead, trail, leading) == PlainErr(TabIndentation, at)
    ensures at.index == m.index + |tail|
    decreases |tail|
  {
    hide PlainBlanks;
    if tail == "" {
      at := m;
      TabFails(t, indent, m, s, end, ws, lead, trail);
    } else {
      ReadsFirst(t, m.index, tail);
      BehindFirst(tail);
      NoBreaks(tail[1..]);
      if tail[0] == ' ' {
        SpaceTaken(t, indent, m, s, end, ws, lead, trail, leading);
        at := TabMet(t, indent, Skip(m), s, end, if leading then ws else ws + " ", lead, trail, leading, tail[1..]);
      } else {
        var rest := BreakOff(t, m, tail);
        PlainBreakTaken(t, 0, indent, m, s, end, ws, lead, trail, leading);
        var kept := BreakText(tail[0]);
        if leading {
          at := TabMet(t, indent, SkipLine(t, m), s, end, ws, lead, trail + kept, true, rest);
        } else {
          at := TabMet(t, indent, SkipLine(t, m), s, end, "", lead + kept, trail, true, rest);
        }
      }
    }
  }

  lemma TabFails(t: string, indent: int, m: Mark, s: string, end: Mark, ws: string, lead: string, trail: string)
    requires Ch(t, m.index) == '\t' && m.column < indent
    ensures PlainBlanks(t, 0, indent, m, s, end, ws, lead, trail, true) == PlainErr(TabIndentation, m)
  {
  }

  /** A plain scalar in a block whose next line is indented by a tab is refused. */
  lemma {:induction false} TabRefused(t: string, parent: int, m: Mark, v: string, tail: string) returns (at: Mark)
    requires Fragment(v, 0) && Reads(t, m.index, v) && !DocIndicatorAt(t, m) && m.column >= parent
    requires TailOk(tail) && BreakIn(tail) && Behind(tail) <= parent && Reads(t, m.index + |v|, tail)
    requires Ch(t, m.index + |v| + |tail|) == '\t'
    ensures ScanPlain(t, 0, parent, m) == PlainErr(TabIndentation, at) && at.index == m.index + |v| + |tail|
  {
    hide ScanPlain, PlainChars, PlainBlanks, DocIndicatorAt, Join, Fragment;
    PlainStarts(t, 0, parent, m, v);
    FragmentIsRead(t, 0, parent + 1, m, v, "", m, "", "", false);
    NothingJoined();
    assert "" + "" + v == v;
    var m1 := Advance(m, |v|);
    ReadsFirst(t, m1.index, tail);
    PlainBlanksBegin(t, 0, parent + 1, m1, v, m1);
    at := TabMet(t, parent + 1, m1, v, m1, "", "", "", false, tail);
  }
}
