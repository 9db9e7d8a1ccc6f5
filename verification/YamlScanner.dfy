/**
 The scanner as it runs: one object over the bytes of the input, whose fetchers change its
 stacks and put tokens into its queue.
 */
module YamlScanner {
  import opened Chars
  import opened Unicode
  import opened ByteText
  import opened Options
  import opened Resolve
  import opened Tokens
  import opened ScalarScan
  import opened ScannerInput
  import opened Scanner
  import opened ScanInvariant
  import opened TextOfBytes
  import NameScan
  import N = NameScanner
  import Q = TokenQueue
  import ScanToEnd
  import opened DemandScan
  import opened DemandSafety
  import opened Tracking

  /** What the fetchers rely on between two tokens. */
  predicate Ready(sc: State) {
    sc.started && Rising(sc.indents + [sc.indent]) && KeysKnown(sc)
  }

  /** The level below the innermost block is the next lower one. */
  lemma OneLevelDown(indents: seq<int>, indent: int)
    requires Rising(indents + [indent])
    ensures indents == [] ==> indent == -1
    ensures indents != [] ==> Rising(indents[..|indents| - 1] + [indents[|indents| - 1]])
  {
    var levels := indents + [indent];
    if indents != [] {
      assert indents[..|indents| - 1] + [indents[|indents| - 1]] == indents;
      forall i | 1 <= i < |indents| ensures indents[i - 1] < indents[i] {
        assert levels[i - 1] < levels[i];
      }
      assert levels[0] == indents[0];
    }
  }

  lemma QueueInserted(taken: seq<Token>, queued: seq<Token>, position: int, token: Token)
    requires position <= |queued|
    ensures var all, k := taken + queued, |taken| + position;
      taken + Q.Inserted(queued, position, token)
        == if position < 0 || k > |all| then all + [token] else all[..k] + [token] + all[k..]
  {
    if position >= 0 {
      var all, k := taken + queued, |taken| + position;
      assert all[..k] == taken + queued[..position];
      assert all[k..] == queued[position..];
    }
  }

  /** One character of the blanks before a token. */
  lemma SettleOn(t: string, m: Mark, flow: nat, allowed: bool)
    ensures var c := Ch(t, m.index);
      Settle(t, m, flow, allowed)
      == if c == ' ' || (c == '\t' && (flow > 0 || !allowed)) then Settle(t, Skip(m), flow, allowed)
         else if IsBreak(c) then Settle(t, SkipLine(t, m), flow, allowed || flow == 0)
         else (m, allowed)
  {
  }

  class YamlScanner {
    const input: Input
    const queue: Q.TokenQueue
    var indent: int
    var indents: seq<int>
    var flow: nat
    var keys: seq<Option<SimpleKey>>
    var numbers: seq<nat>           // the token number of each slot, also when its key is given up
    var byTok: map<nat, nat>        // the slots by the numbers of their keys
    var keyAllowed: bool
    var started: bool

    ghost var taken: seq<Token>     // those already handed over

    constructor (bytes: Bytes, ghost text: string)
      requires bytes == EncodeAll(text)
      ensures Valid() && View() == StartState && Ix() == StartDemand.ix && input.text == text
      ensures fresh(input) && fresh(queue) && fresh(queue.tokens)
    {
      input := new Input(bytes, text);
      queue := new Q.TokenQueue(16);
      indent, indents, flow, keys, keyAllowed, started := 0, [], 0, [], false, false;
      numbers, byTok := [], map[];
      taken := [];
    }

    ghost predicate Valid()
      reads this, input, queue
    {
      input.Valid() && queue.Valid() && queue.parsed == |taken| && |numbers| == |keys|
    }

    ghost function Ix(): Index
      reads this
    {
      Index(numbers, byTok)
    }

    ghost function View(): State
      requires Valid()
      reads this, input, queue, queue.tokens
    {
      State(input.At(), indent, indents, flow, keys, keyAllowed, taken + queue.Contents(), |taken|, started)
    }

    /** The fetch did what the function says it does. */
    ghost predicate Agrees(o: Fetched, e: Option<ScanFailure>)
      requires Valid()
      reads this, input, queue, queue.tokens
    {
      match o
      case Err(failure) => e == Some(failure)
      case Ok(sc) => e == None && View() == sc
    }

    // ---------- tokens ----------

    method InsertToken(position: int, token: Token)
      requires Valid() && position <= |queue.Contents()|
      modifies queue, queue.tokens
      ensures Valid() && View() == Scanner.InsertToken(old(View()), position, token)
      ensures queue.tokens == old(queue.tokens) || fresh(queue.tokens)
    {
      QueueInserted(taken, queue.Contents(), position, token);
      queue.Insert(position, token);
    }

    method AppendToken(token: Token)
      requires Valid()
      modifies queue, queue.tokens
      ensures Valid() && View() == Scanner.AppendToken(old(View()), token)
      ensures queue.tokens == old(queue.tokens) || fresh(queue.tokens)
    {
      InsertToken(-1, token);
    }

    /** The token at the head of the queue, which leaves it. */
    method TakeToken() returns (token: Token)
      requires Valid() && queue.Contents() != []
      modifies this`taken, queue`head, queue`parsed
      ensures Valid() && token == old(queue.Contents()[0]) && taken == old(taken) + [token]
      ensures View() == old(View()).(parsed := old(View()).parsed + 1)
    {
      token := queue.Peek();
      ghost var queued := queue.Contents();
      assert taken + queued == taken + [token] + queued[1..];
      queue.Skip();
      taken := taken + [token];
    }

    /** An indicator of one character. */
    method SkipAndAppend(token: Token)
      requires Valid() && Ch(input.text, input.index) != NUL
      modifies input, queue, queue.tokens
      ensures Valid() && View() == Scanner.AppendToken(old(View()).(mark := Skip(old(View()).mark)), token)
      ensures queue.tokens == old(queue.tokens) || fresh(queue.tokens)
    {
      input.Skip();
      AppendToken(token);
    }

    // ---------- simple keys ----------

    method RemoveKey() returns (e: Option<ScanFailure>)
      requires Valid() && keys != []
      modifies this`keys, this`byTok
      ensures Valid() && Agrees(Scanner.RemoveKey(old(View())), e)
      ensures e.None? ==> Ix() == Removed(old(Ix()), old(keys))
    {
      e := None;
      var i := |keys| - 1;
      if keys[i].Some? {
        if keys[i].value.required {
          return Some(MissingColon);
        }
        keys := keys[i := None];
        byTok := byTok - {numbers[i]};
      } else {
        assert keys[i := None] == keys;
      }
    }

    method SaveKey() returns (e: Option<ScanFailure>)
      requires Valid() && keys != []
      modifies this`keys, this`numbers, this`byTok
      ensures Valid() && Agrees(Scanner.SaveKey(old(View())), e)
      ensures e.None? ==> Ix() == Saved(old(Ix()), old(keys), keyAllowed, |old(View()).tokens|)
    {
      e := None;
      var required := flow == 0 && indent == input.column;
      if keyAllowed {
        var key := SimpleKey(required, queue.parsed + (queue.length - queue.head),
                             Mark(input.index, input.line, input.column));
        e := RemoveKey();
        if e.None? {
          var last := |keys| - 1;
          keys := keys[last := Some(key)];
          numbers := numbers[last := key.number];
          byTok := byTok[key.number := last];
        }
      }
    }

    /** Whether the key of a slot may still be one; a key that may not is given up. */
    method CheckKey(i: nat) returns (valid: bool, e: Option<ScanFailure>)
      requires Valid() && i < |keys|
      modifies this`keys
      ensures Valid()
      ensures valid == (old(keys)[i].Some? && KeyValid(old(View()), old(keys)[i].value))
      ensures e.Some? <==> old(keys)[i].Some? && !valid && old(keys)[i].value.required
      ensures e.Some? ==> e == Some(MissingColon)
      ensures keys == if valid || e.Some? then old(keys) else old(keys)[i := None]
    {
      valid, e := false, None;
      if keys[i].None? {
        assert keys[i := None] == keys;
        return;
      }
      var key := keys[i].value;
      if key.mark.line < input.line || key.mark.index + 1024 < input.index {
        if key.required {
          return false, Some(MissingColon);
        }
        keys := keys[i := None];
      } else {
        valid := true;
      }
    }

    // ---------- indentation ----------

    method RollIndent(column: nat, number: int, token: Token) returns (e: Option<ScanFailure>)
      requires Valid() && number <= |View().tokens|
      modifies this`indent, this`indents, queue, queue.tokens
      ensures Valid() && Agrees(Scanner.RollIndent(old(View()), column, number, token), e)
      ensures queue.tokens == old(queue.tokens) || fresh(queue.tokens)
    {
      hide Scanner.InsertToken;
      e := None;
      if flow > 0 {
        return;
      }
      if indent < column {
        indents := indents + [indent];
        indent := column;
        if |indents| > MAX_INDENTS {
          return Some(TooDeep);
        }
        InsertToken(if number > -1 then number - queue.parsed else number, token);
      }
    }

    method UnrollIndent(column: int)
      requires Valid() && column >= -1 && Rising(indents + [indent])
      modifies this`indent, this`indents, queue, queue.tokens
      ensures Valid() && View() == Scanner.UnrollIndent(old(View()), column)
      ensures queue.tokens == old(queue.tokens) || fresh(queue.tokens)
    {
      hide Rising;
      if flow > 0 {
        return;
      }
      while indent > column
        invariant Valid() && Rising(indents + [indent])
        invariant Scanner.UnrollIndent(View(), column) == Scanner.UnrollIndent(old(View()), column)
        invariant queue.tokens == old(queue.tokens) || fresh(queue.tokens)
        decreases |indents|
      {
        OneLevelDown(indents, indent);
        ghost var sc := View();
        AppendToken(BlockEndToken);
        indent := indents[|indents| - 1];
        indents := indents[..|indents| - 1];
        assert View() == Scanner.AppendToken(sc, BlockEndToken).(indent := indent, indents := indents);
      }
    }

    // ---------- fetching ----------

    /** Passes blanks and line breaks. */
    method ScanToNextToken()
      requires Valid()
      modifies this`keyAllowed, input
      ensures Valid() && View() == Settled(input.text, old(View()))
    {
      hide Encode, EncodeAll, Begins, Settle;
      ghost var goal := Settle(input.text, input.At(), flow, keyAllowed);
      input.Ahead(0);
      while true
        invariant Valid() && View() == old(View()).(mark := input.At(), keyAllowed := keyAllowed)
        invariant goal == Settle(input.text, input.At(), flow, keyAllowed)
        invariant input.pos < |input.buffer| && SameClasses(input.buffer, input.pos, Ch(input.text, input.index))
        decreases |input.text| - input.index
      {
        SettleOn(input.text, input.At(), flow, keyAllowed);
        if input.buffer[input.pos] == 0x20 || ((flow > 0 || !keyAllowed) && input.buffer[input.pos] == 0x09) {
          input.Skip();
        } else if IsBreakAt(input.buffer, input.pos) {
          input.SkipLine();
          if flow == 0 {
            keyAllowed := true;
          }
        } else {
          return;
        }
        input.Ahead(0);
      }
    }

    method FetchStreamStart()
      requires Valid()
      modifies this, queue, queue.tokens
      ensures Valid() && View() == Scanner.FetchStreamStart(old(View())) && Ix() == Index(old(numbers) + [0], map[])
      ensures taken == old(taken) && (queue.tokens == old(queue.tokens) || fresh(queue.tokens))
    {
      indent := -1;
      keys := keys + [None];
      numbers := numbers + [0];
      byTok := map[];
      keyAllowed := true;
      started := true;
      AppendToken(StreamStartToken);
    }

    method FetchStreamEnd() returns (e: Option<ScanFailure>)
      requires Valid() && Ready(View())
      modifies this, input, queue, queue.tokens
      ensures Valid() && Agrees(Scanner.FetchStreamEnd(old(View())), e)
      ensures e.None? ==> Ix() == Removed(old(Ix()), old(keys))
      ensures taken == old(taken) && (queue.tokens == old(queue.tokens) || fresh(queue.tokens))
    {
      hide Scanner.UnrollIndent, Rising;
      if input.column != 0 {
        input.column := 0;
        input.line := input.line + 1;
      }
      ScanToEnd.UnrollStands(View(), -1);
      UnrollIndent(-1);
      e := RemoveKey();
      if e.None? {
        keyAllowed := false;
        AppendToken(StreamEndToken);
      }
    }

    method SkipIndicator()
      requires Valid() && DocIndicatorAt(input.text, input.At())
      modifies input
      ensures Valid() && View() == old(View()).(mark := Advance(old(View()).mark, 3))
    {
      hide Encode, EncodeAll, Begins;
      input.Skip();
      input.Skip();
      input.Skip();
    }

    method FetchDocumentIndicator(token: Token) returns (e: Option<ScanFailure>)
      requires Valid() && Ready(View()) && DocIndicatorAt(input.text, input.At())
      modifies this, input, queue, queue.tokens
      ensures Valid() && Agrees(Scanner.FetchDocumentIndicator(old(View()), token), e)
      ensures e.None? ==> Ix() == Removed(old(Ix()), old(keys))
      ensures taken == old(taken) && (queue.tokens == old(queue.tokens) || fresh(queue.tokens))
    {
      hide Scanner.UnrollIndent, Rising, DocIndicatorAt;
      ScanToEnd.UnrollStands(View(), -1);
      UnrollIndent(-1);
      e := RemoveKey();
      if e.None? {
        keyAllowed := false;
        SkipIndicator();
        AppendToken(token);
      }
    }

    method FetchFlowStart(token: Token) returns (e: Option<ScanFailure>)
      requires Valid() && Ready(View()) && Ch(input.text, input.index) != NUL
      modifies this, input, queue, queue.tokens
      ensures Valid() && Agrees(Scanner.FetchFlowStart(old(View()), token), e)
      ensures e.None? ==> Ix() == Opened(Saved(old(Ix()), old(keys), old(keyAllowed), |old(View()).tokens|),
                                        |old(View()).tokens|)
      ensures taken == old(taken) && (queue.tokens == old(queue.tokens) || fresh(queue.tokens))
    {
      hide Saved, Removed, Rising, KeyValid, Scanner.SaveKey, Encode, EncodeAll, Begins;
      e := SaveKey();
      if e.Some? {
        return;
      }
      keys := keys + [None];
      numbers := numbers + [queue.parsed + (queue.length - queue.head)];
      flow := flow + 1;
      if flow > MAX_FLOW_LEVEL {
        return Some(TooDeep);
      }
      keyAllowed := true;
      SkipAndAppend(token);
    }

    method DecreaseFlowLevel()
      requires Valid() && keys != []
      modifies this`flow, this`keys, this`numbers, this`byTok
      ensures Valid() && flow == (if old(flow) > 0 then old(flow) - 1 else 0)
      ensures keys == if old(flow) > 0 then old(keys)[..|old(keys)| - 1] else old(keys)
      ensures Ix() == Closed(old(Ix()), old(flow))
    {
      if flow > 0 {
        flow := flow - 1;
        var last := |keys| - 1;
        byTok := byTok - {numbers[last]};
        keys := keys[..last];
        numbers := numbers[..last];
      }
    }

    method FetchFlowEnd(token: Token) returns (e: Option<ScanFailure>)
      requires Valid() && Ready(View()) && Ch(input.text, input.index) != NUL
      modifies this, input, queue, queue.tokens
      ensures Valid() && Agrees(Scanner.FetchFlowEnd(old(View()), token), e)
      ensures e.None? ==> Ix() == Closed(Removed(old(Ix()), old(keys)), old(flow))
      ensures taken == old(taken) && (queue.tokens == old(queue.tokens) || fresh(queue.tokens))
    {
      hide Rising;
      e := RemoveKey();
      if e.Some? {
        return;
      }
      DecreaseFlowLevel();
      keyAllowed := false;
      SkipAndAppend(token);
    }

    method FetchFlowEntry() returns (e: Option<ScanFailure>)
      requires Valid() && Ready(View()) && Ch(input.text, input.index) != NUL
      modifies this, input, queue, queue.tokens
      ensures Valid() && Agrees(Scanner.FetchFlowEntry(old(View())), e)
      ensures e.None? ==> Ix() == Removed(old(Ix()), old(keys))
      ensures taken == old(taken) && (queue.tokens == old(queue.tokens) || fresh(queue.tokens))
    {
      e := RemoveKey();
      if e.None? {
        keyAllowed := true;
        SkipAndAppend(FlowEntryToken);
      }
    }

    method FetchBlockEntry() returns (e: Option<ScanFailure>)
      requires Valid() && Ready(View()) && Ch(input.text, input.index) != NUL
      modifies this, input, queue, queue.tokens
      ensures Valid() && Agrees(Scanner.FetchBlockEntry(old(View())), e)
      ensures e.None? ==> Ix() == Removed(old(Ix()), old(keys))
      ensures taken == old(taken) && (queue.tokens == old(queue.tokens) || fresh(queue.tokens))
    {
      e := None;
      if flow == 0 {
        if !keyAllowed {
          return Some(EntryNotAllowed);
        }
        e := RollIndent(input.column, -1, BlockSequenceStartToken);
        if e.Some? {
          return;
        }
      }
      e := RemoveKey();
      if e.None? {
        keyAllowed := true;
        SkipAndAppend(BlockEntryToken);
      }
    }

    method FetchKey() returns (e: Option<ScanFailure>)
      requires Valid() && Ready(View()) && Ch(input.text, input.index) != NUL
      modifies this, input, queue, queue.tokens
      ensures Valid() && Agrees(Scanner.FetchKey(old(View())), e)
      ensures e.None? ==> Ix() == Removed(old(Ix()), old(keys))
      ensures taken == old(taken) && (queue.tokens == old(queue.tokens) || fresh(queue.tokens))
    {
      e := None;
      if flow == 0 {
        if !keyAllowed {
          return Some(KeyNotAllowed);
        }
        e := RollIndent(input.column, -1, BlockMappingStartToken);
        if e.Some? {
          return;
        }
      }
      e := RemoveKey();
      if e.None? {
        keyAllowed := flow == 0;
        SkipAndAppend(KeyToken);
      }
    }

    method FetchValue() returns (e: Option<ScanFailure>)
      requires Valid() && Ready(View()) && Ch(input.text, input.index) != NUL
      modifies this, input, queue, queue.tokens
      ensures Valid() && Agrees(Scanner.FetchValue(old(View())), e)
      ensures e.None? ==> Ix() == Used(old(Ix()), old(View()))
      ensures taken == old(taken) && (queue.tokens == old(queue.tokens) || fresh(queue.tokens))
    {
      hide Rising, KeyValid, Scanner.RollIndent, Scanner.InsertToken, Encode, EncodeAll, ByteText.Begins;
      var valid;
      valid, e := CheckKey(|keys| - 1);
      if e.Some? {
        return;
      }
      if valid {
        e := FetchSimpleValue();
      } else {
        e := FetchComplexValue();
      }
      if e.None? {
        SkipAndAppend(ValueToken);
      }
    }

    /** The value of a simple key: KEY is put before the key. */
    method FetchSimpleValue() returns (e: Option<ScanFailure>)
      requires Valid() && keys != [] && keys[|keys| - 1].Some? && keys[|keys| - 1].value.number <= |View().tokens|
      modifies this, queue, queue.tokens
      ensures Valid()
      ensures var key := old(keys)[|old(keys)| - 1].value;
        match Scanner.RollIndent(Scanner.InsertToken(old(View()), key.number - old(View()).parsed, KeyToken),
                                 key.mark.column, key.number, BlockMappingStartToken) {
          case Err(failure) => e == Some(failure)
          case Ok(sc) => e == None && View() == sc.(keys := sc.keys[|old(keys)| - 1 := None], keyAllowed := false)
        }
      ensures e.None? ==> Ix() == Index(old(numbers), old(byTok) - {old(numbers)[|old(keys)| - 1]})
      ensures taken == old(taken) && (queue.tokens == old(queue.tokens) || fresh(queue.tokens))
    {
      hide Scanner.RollIndent, Rising, KeyValid, Encode, EncodeAll, Begins;
      var key := keys[|keys| - 1].value;
      InsertToken(key.number - queue.parsed, KeyToken);
      e := RollIndent(key.mark.column, key.number, BlockMappingStartToken);
      if e.None? {
        keys := keys[|keys| - 1 := None];
        byTok := byTok - {numbers[|keys| - 1]};
        keyAllowed := false;
      }
    }

    /** A value behind a complex key, or behind none. */
    method FetchComplexValue() returns (e: Option<ScanFailure>)
      requires Valid()
      modifies this, queue, queue.tokens
      ensures Valid()
      ensures old(flow) == 0 && !old(keyAllowed) ==> e == Some(ValueNotAllowed)
      ensures old(flow) > 0 || old(keyAllowed) ==>
        match Scanner.RollIndent(old(View()), old(input.column), -1, BlockMappingStartToken) {
          case Err(failure) => e == Some(failure)
          case Ok(sc) => e == None && View() == sc.(keyAllowed := sc.flow == 0)
        }
      ensures Ix() == old(Ix())
      ensures taken == old(taken) && (queue.tokens == old(queue.tokens) || fresh(queue.tokens))
    {
      e := None;
      if flow == 0 {
        if !keyAllowed {
          return Some(ValueNotAllowed);
        }
        e := RollIndent(input.column, -1, BlockMappingStartToken);
        if e.Some? {
          return;
        }
      }
      keyAllowed := flow == 0;
    }

    method FetchFlowScalar(single: bool) returns (e: Option<ScanFailure>)
      requires Valid() && Ready(View()) && Ch(input.text, input.index) == (if single then '\'' else '"')
      modifies this, input, queue, queue.tokens
      ensures Valid() && Agrees(Scanner.FetchFlowScalar(input.text, old(View()), single), e)
      ensures e.None? ==> Ix() == Saved(old(Ix()), old(keys), old(keyAllowed), |old(View()).tokens|)
      ensures taken == old(taken) && (queue.tokens == old(queue.tokens) || fresh(queue.tokens))
    {
      hide ScanFlow, EncodeAll;
      e := SaveKey();
      if e.Some? {
        return;
      }
      keyAllowed := false;
      var r;
      ghost var value;
      r, value := input.ScanFlowScalar(single);
      if r.Err? {
        return Some(ScalarFailure(r.error));
      }
      TextIs(value);
      AppendToken(ScalarToken(TextOf(r.value), if single then SingleQuoted else DoubleQuoted));
    }

    method FetchPlainScalar() returns (e: Option<ScanFailure>)
      requires Valid() && Ready(View())
      modifies this, input, queue, queue.tokens
      ensures Valid() && Agrees(Scanner.FetchPlainScalar(input.text, old(View())), e)
      ensures e.None? ==> Ix() == Saved(old(Ix()), old(keys), old(keyAllowed), |old(View()).tokens|)
      ensures taken == old(taken) && (queue.tokens == old(queue.tokens) || fresh(queue.tokens))
    {
      hide ScanPlain, EncodeAll;
      e := SaveKey();
      if e.Some? {
        return;
      }
      keyAllowed := false;
      var r, leading;
      ghost var value;
      r, leading, value := input.ScanPlainScalar(flow, indent);
      if r.Err? {
        return Some(ScalarFailure(r.error));
      }
      TextIs(value);
      keyAllowed := leading;
      AppendToken(ScalarToken(TextOf(r.value), Plain));
    }

    method FetchAnchor(alias: bool) returns (e: Option<ScanFailure>)
      requires Valid() && Ready(View()) && Ch(input.text, input.index) == (if alias then '*' else '&')
      modifies this, input, queue, queue.tokens
      ensures Valid() && Agrees(Scanner.FetchAnchor(input.text, old(View()), alias), e)
      ensures e.None? ==> Ix() == Saved(old(Ix()), old(keys), old(keyAllowed), |old(View()).tokens|)
      ensures taken == old(taken) && (queue.tokens == old(queue.tokens) || fresh(queue.tokens))
    {
      hide NameScan.ScanAnchor, EncodeAll;
      e := SaveKey();
      if e.Some? {
        return;
      }
      keyAllowed := false;
      ghost var name := NameScan.ScanAnchor(input.text, input.index);
      var r := N.ScanAnchor(input);
      if r.Err? {
        return Some(NameFailure(r.error));
      }
      TextIs(name.value.text);
      AppendToken(if alias then AliasToken(TextOf(r.value)) else AnchorToken(TextOf(r.value)));
    }

    method FetchTag() returns (e: Option<ScanFailure>)
      requires Valid() && Ready(View()) && Ch(input.text, input.index) == '!'
      modifies this, input, queue, queue.tokens
      ensures Valid() && Agrees(Scanner.FetchTag(input.text, old(View())), e)
      ensures e.None? ==> Ix() == Saved(old(Ix()), old(keys), old(keyAllowed), |old(View()).tokens|)
      ensures taken == old(taken) && (queue.tokens == old(queue.tokens) || fresh(queue.tokens))
    {
      hide NameScan.ScanTag, EncodeAll;
      e := SaveKey();
      if e.Some? {
        return;
      }
      keyAllowed := false;
      var r := N.ScanTag(input);
      if r.Err? {
        return Some(NameFailure(r.error));
      }
      AppendToken(TagToken(TextOf(r.value.handle), TextOf(r.value.suffix)));
    }

    method FetchDirective() returns (e: Option<ScanFailure>)
      requires Valid() && Ready(View()) && Ch(input.text, input.index) == '%'
      modifies this, input, queue, queue.tokens
      ensures Valid() && Agrees(Scanner.FetchDirective(input.text, old(View())), e)
      ensures e.None? ==> Ix() == Removed(old(Ix()), old(keys))
      ensures taken == old(taken) && (queue.tokens == old(queue.tokens) || fresh(queue.tokens))
    {
      hide Scanner.UnrollIndent, Rising, NameScan.ScanDirective, EncodeAll;
      ScanToEnd.UnrollStands(View(), -1);
      UnrollIndent(-1);
      e := RemoveKey();
      if e.Some? {
        return;
      }
      keyAllowed := false;
      var r := N.ScanDirective(input);
      if r.Err? {
        return Some(NameFailure(r.error));
      }
      AppendToken(r.value);
    }

    /** The character here if it is ASCII, or else some other character that is not. */
    method Peek() returns (c: char, spaced: bool)
      requires Valid()
      ensures IsAscii(c) <==> IsAscii(Ch(input.text, input.index))
      ensures IsAscii(c) ==> c == Ch(input.text, input.index)
      ensures IsAscii(c) ==> spaced == IsBlankz(Ch(input.text, input.index + 1))
    {
      hide Encode, EncodeAll, Begins;
      input.Ahead(0);
      var octet := input.buffer[input.pos];
      if octet > 0x7F {
        return '\U{80}', false;
      }
      c := octet as char;
      input.Ahead(1);
      spaced := IsBlankzAt(input.buffer, input.pos + 1);
    }

    /** The test in front of a plain scalar. */
    method MayStartPlain() returns (yes: bool)
      requires Valid()
      ensures yes == StartsPlain(input.text, flow, input.index)
    {
      hide Encode, EncodeAll, Begins;
      input.Ahead(0);
      var octet := input.buffer[input.pos];
      if octet > 0x7F {
        return !IsBlankzAt(input.buffer, input.pos);
      }
      input.Ahead(1);
      var c := octet as char;
      yes := !(IsBlankzAt(input.buffer, input.pos) || c in "-?:,[]{}#&*!|>'\"%@`")
        || (c == '-' && !IsBlankAt(input.buffer, input.pos + 1))
        || (flow == 0 && (c == '?' || c == ':') && !IsBlankzAt(input.buffer, input.pos + 1));
    }

    /** A name, a quoted scalar or a plain one, if it is nothing else. */
    method DispatchContent(c: char) returns (e: Option<ScanFailure>)
      requires Valid() && Ready(View()) && ActOf(input.text, View()).Save?
      requires IsAscii(c) <==> IsAscii(Ch(input.text, input.index))
      requires IsAscii(c) ==> c == Ch(input.text, input.index)
      modifies this, input, queue, queue.tokens
      ensures Valid() && Agrees(Scanner.Dispatch(input.text, old(View())), e)
      ensures e.None? ==> Ix() == IndexDispatch(input.text, old(View()), old(Ix()))
      ensures taken == old(taken) && (queue.tokens == old(queue.tokens) || fresh(queue.tokens))
    {
      hide Scanner.FetchFlowScalar, Scanner.FetchPlainScalar, Scanner.FetchAnchor, Scanner.FetchTag, StartsPlain,
        Scanner.Dispatch, ActOf, Ready, EncodeAll, Saved;
      ContentIs(input.text, View());
      if c == '#' {
        return Some(NotModelled);
      }
      if c == '*' { e := FetchAnchor(true); return; }
      if c == '&' { e := FetchAnchor(false); return; }
      if c == '!' { e := FetchTag(); return; }
      if c in "|>" && flow == 0 {
        return Some(NotModelled);
      }
      if c == '\'' { e := FetchFlowScalar(true); return; }
      if c == '"' { e := FetchFlowScalar(false); return; }
      var plain := MayStartPlain();
      if plain {
        e := FetchPlainScalar();
      } else {
        e := Some(BadStart);
      }
    }

    /** The fetcher for what is here, between two tokens. */
    method Dispatch() returns (e: Option<ScanFailure>)
      requires Valid() && Ready(View())
      modifies this, input, queue, queue.tokens
      ensures Valid() && Agrees(Scanner.Dispatch(input.text, old(View())), e)
      ensures e.None? ==> Ix() == IndexDispatch(input.text, old(View()), old(Ix()))
      ensures taken == old(taken) && (queue.tokens == old(queue.tokens) || fresh(queue.tokens))
    {
      hide Scanner.FetchStreamEnd, Scanner.FetchDocumentIndicator, Scanner.FetchFlowStart, Scanner.FetchFlowEnd,
        Scanner.FetchFlowEntry, Scanner.FetchBlockEntry, Scanner.FetchKey, Scanner.FetchValue,
        Scanner.FetchFlowScalar, Scanner.FetchPlainScalar, Scanner.FetchAnchor, Scanner.FetchTag,
        Scanner.FetchDirective, StartsPlain, DocIndicatorAt, Ready, EncodeAll, IsBlankz, Removed, Saved, Opened,
        Closed, Used;
      var c, spaced := Peek();
      if c == NUL {
        e := FetchStreamEnd();
        return;
      }
      if input.column == 0 && c == '%' { e := FetchDirective(); return; }
      var indicator := input.AtDocumentIndicator();
      if indicator {
        IndicatorFirst(input.text, input.At());
        e := FetchDocumentIndicator(if c == '-' then DocumentStartToken else DocumentEndToken);
        return;
      }
      if c == '[' { e := FetchFlowStart(FlowSequenceStartToken); return; }
      if c == '{' { e := FetchFlowStart(FlowMappingStartToken); return; }
      if c == ']' { e := FetchFlowEnd(FlowSequenceEndToken); return; }
      if c == '}' { e := FetchFlowEnd(FlowMappingEndToken); return; }
      if c == ',' { e := FetchFlowEntry(); return; }
      if c == '-' && spaced { e := FetchBlockEntry(); return; }
      if c == '?' && (flow > 0 || spaced) { e := FetchKey(); return; }
      if c == ':' && (flow > 0 || spaced) { e := FetchValue(); return; }
      e := DispatchContent(c);
    }

    /** The next token, or several that come together. What the scanner's invariant says, it keeps. */
    method FetchNext() returns (e: Option<ScanFailure>)
      requires Valid() && Invariant(View())
      modifies this, input, queue, queue.tokens
      ensures Valid() && Agrees(Scanner.FetchNext(input.text, old(View())), e)
      ensures e.None? ==> Ix() == IndexNext(input.text, old(View()), old(Ix()))
      ensures e.None? ==> Invariant(View()) && started
      ensures taken == old(taken) && (queue.tokens == old(queue.tokens) || fresh(queue.tokens))
    {
      hide Scanner.UnrollIndent, Scanner.Dispatch, Scanner.Settled, NeverNegative, Balance, Rising, EncodeAll;
      ghost var sc := View();
      FetchKeeps(input.text, sc);
      if !started {
        FetchStreamStart();
        return None;
      }
      ScanToNextToken();
      SettledRuns(input.text, sc);
      UnrollIndent(input.column);
      e := Dispatch();
    }

    // ---------- on demand ----------

    /** Where the machine is, and the object beside it. */
    ghost predicate Follows(d: Demand)
      requires Valid()
      reads this, input, queue, queue.tokens
    {
      Following(input.text, View(), d) && Ix() == d.ix && (ScanToEnd.Ended(d.sc) ==> ScanToEnd.Ended(View()))
    }

    /** Whether the head of the queue may turn out to be a simple key. */
    method HeadIsKey(ghost d: Demand) returns (held: bool, e: Option<ScanFailure>)
      requires Valid() && Follows(d)
      modifies this`keys
      ensures Valid() && (held <==> CheckHead(d).Held?) && (e.Some? <==> CheckHead(d).Late?)
      ensures e.Some? ==> e == Some(MissingColon)
      ensures View() == old(View()).(keys := if CheckHead(d).Free? then CheckHead(d).sc.keys else old(keys))
    {
      hide Good, Invariant, DeliverFrom;
      HeadIsInSlots(input.text, d);
      held, e := false, None;
      if queue.parsed in byTok {
        var i := byTok[queue.parsed];
        if keys[i].None? { assert keys[i := None] == keys; }
        held, e := CheckKey(i);
      }
    }

    /** The next token, or several, into the queue; the machine fetches beside it, but not behind STREAM-END. */
    method FetchBeside(ghost d: Demand) returns (e: Option<ScanFailure>, ghost d1: Demand)
      requires Valid() && Follows(d) && (queue.length - queue.head > 2 ==> CheckHead(d).Held?)
      modifies this, input, queue, queue.tokens
      ensures Valid() && taken == old(taken) && (queue.tokens == old(queue.tokens) || fresh(queue.tokens))
      ensures |d.ix.numbers| == |d.sc.keys|
      ensures e.Some? ==> d1 == d && DeliverFrom(input.text, d) == Scanned(d.sc, Failed(e.value)) && Handed(d)
      ensures e.None? ==> |d1.ix.numbers| == |d1.sc.keys|
      ensures e.None? ==> Follows(d1) && DeliverFrom(input.text, d1) == DeliverFrom(input.text, d)
      ensures e.None? && ScanToEnd.Ended(d.sc) ==>
        d1 == d && queue.length - queue.head == old(queue.length - queue.head) + 1 <= 3
      ensures e.None? && !ScanToEnd.Ended(d.sc) ==>
        || Left(input.text, d1.sc.mark) < Left(input.text, d.sc.mark)
        || (Left(input.text, d1.sc.mark) == Left(input.text, d.sc.mark)
            && d1.sc.started && (!d.sc.started || ScanToEnd.Ended(d1.sc)))
    {
      hide Good, Invariant, DeliverFrom, CheckHead, Scanner.FetchNext, IndexNext, ScanToEnd.Ended, MoreToCome;
      ghost var v := View();
      FollowsFetch(input.text, v, d);
      if queue.length - queue.head > 2 { FollowsHeld(input.text, v, d); }
      e := FetchNext();
      d1 := d;
      if e.Some? {
        HandedPrefix(d, v);
        return;
      }
      if ScanToEnd.Ended(d.sc) { ExtraEnd(input.text, v, d); } else { FetchLeaves(input.text, v, d); }
      d1 := AfterFetch(input.text, v, d);
    }

    /** Fetches tokens until one may be handed over, and gives up its key if it is too far back. */
    method FetchMoreTokens(ghost d: Demand) returns (e: Option<ScanFailure>, ghost d1: Demand, ghost v: State)
      requires Valid() && Follows(d)
      modifies this, input, queue, queue.tokens
      ensures Valid() && taken == old(taken) && (queue.tokens == old(queue.tokens) || fresh(queue.tokens))
      ensures |d.ix.numbers| == |d.sc.keys|
      ensures e.Some? ==> DeliverFrom(input.text, d) == Scanned(d1.sc, Failed(e.value)) && Handed(d1)
      ensures e.None? ==>
        && Following(input.text, v, d1) && v.parsed + 3 <= |v.tokens| && CheckHead(d1).Free? && Ix() == d1.ix
        && View() == v.(keys := CheckHead(d1).sc.keys) && (ScanToEnd.Ended(d1.sc) ==> ScanToEnd.Ended(v))
        && DeliverFrom(input.text, d1) == DeliverFrom(input.text, d)
    {
      hide Good, Invariant, DeliverFrom, CheckHead, ScanToEnd.Ended, Tracks, MoreToCome;
      d1 := d;
      while true
        invariant Valid() && Follows(d1) && taken == old(taken)
        invariant |d1.ix.numbers| == |d1.sc.keys| && DeliverFrom(input.text, d1) == DeliverFrom(input.text, d)
        invariant queue.tokens == old(queue.tokens) || fresh(queue.tokens)
        decreases Left(input.text, d1.sc.mark), if d1.sc.started then 0 else 1, if ScanToEnd.Ended(d1.sc) then 0 else 1,
          if queue.length - queue.head < 3 then 3 - (queue.length - queue.head) else 0
      {
        v := View();
        if queue.length - queue.head > 2 {
          FollowsHead(input.text, v, d1);
          var held;
          held, e := HeadIsKey(d1);
          if e.Some? {
            TrackedPrefix(input.text, v, d1);
            HandedPrefix(d1, v);
            return;
          }
          if !held {
            return;
          }
        }
        e, d1 := FetchBeside(d1);
        if e.Some? {
          return;
        }
      }
    }

    /** What has been handed over is what the machine has handed over. */
    ghost predicate Handed(d: Demand)
      reads this
    {
      taken == Scanned(d.sc, Complete).Tokens()
    }

    lemma HandedPrefix(d: Demand, v: State)
      requires d.sc.parsed == |taken| <= |d.sc.tokens| && d.sc.tokens <= v.tokens && taken <= v.tokens
      ensures Handed(d)
    {
    }

    /** The next token for the parser. */
    method Scan(ghost d: Demand) returns (token: Token, e: Option<ScanFailure>, ghost d1: Demand)
      requires Valid() && Follows(d)
      modifies this, input, queue, queue.tokens
      ensures Valid() && (queue.tokens == old(queue.tokens) || fresh(queue.tokens))
      ensures |d.ix.numbers| == |d.sc.keys|
      ensures e.Some? ==> DeliverFrom(input.text, d) == Scanned(d1.sc, Failed(e.value)) && Handed(d1)
      ensures e.Some? ==> taken == old(taken)
      ensures e.None? ==> taken == old(taken) + [token] && |d1.ix.numbers| == |d1.sc.keys|
      ensures e.None? ==> DeliverFrom(input.text, d1) == DeliverFrom(input.text, d)
      ensures e.None? && token.StreamEndToken? ==>
        DeliverFrom(input.text, d1) == Scanned(d1.sc, Complete) && Handed(d1)
      ensures e.None? && !token.StreamEndToken? ==> Follows(d1)
    {
      hide Good, Invariant, DeliverFrom, CheckHead, Tracks, MoreToCome, Following, ScanToEnd.Ended;
      ghost var v;
      e, d1, v := FetchMoreTokens(d);
      token := StreamEndToken;
      if e.Some? {
        return;
      }
      FollowsHand(input.text, v, d1);
      token := TakeToken();
      assert View() == HandedState(v, d1);
      d1 := HandHead(d1);
      HandedPrefix(d1, v);
    }
  }

  /** All tokens of a text, handed over one by one. */
  method ScanText(bytes: Bytes, ghost text: string) returns (tokens: seq<Token>, e: Option<ScanFailure>)
    requires bytes == EncodeAll(text)
    ensures var r := ScanAll(text);
      && tokens == r.Tokens() && (e.None? <==> r.ending.Complete?)
      && (e.Some? ==> r.ending == Failed(e.value))
  {
    hide Good, Invariant, EncodeAll, DeliverFrom, CheckHead;
    var s := new YamlScanner(bytes, text);
    StartFollows(text);
    ghost var d := StartDemand;
    tokens := [];
    while true
      invariant s.Valid() && s.input.text == text && s.Follows(d) && tokens == s.taken
      invariant |d.ix.numbers| == |d.sc.keys| && DeliverFrom(text, d) == ScanAll(text)
      invariant fresh(s) && fresh(s.input) && fresh(s.queue) && fresh(s.queue.tokens)
      decreases |ScanAll(text).Tokens()| - |tokens|
    {
      var token;
      MoreDelivered(text, d);
      token, e, d := s.Scan(d);
      if e.Some? {
        return;
      }
      tokens := tokens + [token];
      if token.StreamEndToken? {
        return;
      }
    }
  }

  lemma ContentIs(t: string, sc: State)
    requires ActOf(t, sc).Save?
    ensures var c := Ch(t, sc.mark.index);
      Scanner.Dispatch(t, sc)
      == if c == '#' then Err(NotModelled)
         else if c == '*' || c == '&' then Scanner.FetchAnchor(t, sc, c == '*')
         else if c == '!' then Scanner.FetchTag(t, sc)
         else if c in "|>" && sc.flow == 0 then Err(NotModelled)
         else if c == '\'' then Scanner.FetchFlowScalar(t, sc, true)
         else if c == '"' then Scanner.FetchFlowScalar(t, sc, false)
         else if StartsPlain(t, sc.flow, sc.mark.index) then Scanner.FetchPlainScalar(t, sc)
         else Err(BadStart)
  {
  }

  lemma StartFollows(t: string)
    ensures Following(t, StartState, StartDemand) && !ScanToEnd.Ended(StartState)
  {
    StartIsGood(t);
  }

  /** At least as many tokens are delivered as have been handed over. */
  lemma MoreDelivered(t: string, d: Demand)
    requires Good(t, d) && |d.ix.numbers| == |d.sc.keys|
    ensures |DeliverFrom(t, d).Tokens()| >= d.sc.parsed
  {
    hide DeliverFrom, Good;
    DeliveredSafely(t, d);
  }

  lemma IndicatorFirst(t: string, m: Mark)
    requires DocIndicatorAt(t, m)
    ensures Ch(t, m.index) == '-' || Ch(t, m.index) == '.'
  {
  }

  /** The state between the blanks and the token, and with the deeper blocks closed. */
  lemma SettledRuns(t: string, sc: State)
    requires Running(sc)
    ensures Running(Settled(t, sc)) && Ready(Settled(t, sc)) && Ready(Prepared(t, sc))
  {
    hide Scanner.UnrollIndent, Settle, NeverNegative, Balance, Rising;
    UnrollKeepsAll(Settled(t, sc), Settled(t, sc).mark.column);
  }
}
