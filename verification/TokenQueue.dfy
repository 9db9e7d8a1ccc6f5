/**
 The scanner's queue of tokens in one growing array: tokens are taken at the head, put at the
 end, and put in the middle when a simple key turns out to be one.
 */
module TokenQueue {
  import opened Tokens
  import Scanner

  class TokenQueue {
    var tokens: array<Token>
    var length: nat             // the array's cells in use
    var head: nat
    var parsed: nat             // how many tokens have been taken

    ghost predicate Valid()
      reads this
    {
      head <= length <= tokens.Length
    }

    /** The tokens not yet taken. */
    ghost function Contents(): seq<Token>
      requires Valid()
      reads this, tokens
    {
      tokens[head..length]
    }

    constructor (capacity: nat)
      ensures Valid() && Contents() == [] && fresh(tokens) && parsed == 0
    {
      tokens := new Token[capacity](_ => StreamStartToken);
      length, head, parsed := 0, 0, 0;
    }

    /** The token at the head; it stays there. */
    method Peek() returns (t: Token)
      requires Valid() && Contents() != []
      ensures t == Contents()[0]
    {
      t := tokens[head];
    }

    method Skip()
      requires Valid() && Contents() != []
      modifies this`head, this`parsed
      ensures Valid() && Contents() == old(Contents())[1..] && parsed == old(parsed) + 1
    {
      parsed := parsed + 1;
      head := head + 1;
    }

    /** Moves the tokens to the front of a full array whose head has been taken. */
    method Compact()
      requires Valid()
      modifies this`length, this`head, tokens
      ensures Valid() && Contents() == old(Contents()) && (old(head) > 0 ==> length < tokens.Length)
    {
      if head > 0 && length == tokens.Length {
        ghost var was := tokens[head..length];
        if head != length {
          forall i | 0 <= i < length - head {
            tokens[i] := tokens[head + i];
          }
        }
        length := length - head;
        head := 0;
        assert tokens[0..length] == was;
      }
    }

    /** Appends, into a larger array if this one is full. */
    method Append(token: Token)
      requires Valid()
      modifies this`tokens, this`length, tokens
      ensures Valid() && Contents() == old(Contents()) + [token] && head == old(head)
      ensures tokens == old(tokens) || fresh(tokens)
    {
      if length == tokens.Length {
        var larger := new Token[2 * length + 1](_ => token);
        forall i | 0 <= i < length {
          larger[i] := tokens[i];
        }
        assert larger[head..length] == tokens[head..length];
        tokens := larger;
      }
      ghost var was := tokens[head..length];
      tokens[length] := token;
      length := length + 1;
      assert tokens[head..length] == was + [token];
    }

    /**
     Puts a token behind the first `position` tokens not yet taken, or at the end if the position
     is negative. Whatever the array does, this is insertion into the sequence of tokens.
     */
    method Insert(position: int, token: Token)
      requires Valid() && position <= |Contents()|
      modifies this`tokens, this`length, this`head, tokens
      ensures Valid() && parsed == old(parsed) && (tokens == old(tokens) || fresh(tokens))
      ensures Contents() == Inserted(old(Contents()), position, token)
    {
      Compact();
      Append(token);
      if position >= 0 {
        MoveBack(position, token);
      }
    }

    /** The last token goes to its position; those behind it move on by one. */
    method MoveBack(position: nat, token: Token)
      requires Valid() && position < |Contents()| && Contents()[|Contents()| - 1] == token
      modifies tokens
      ensures Valid() && (var s := old(Contents())[..old(|Contents()|) - 1]; Contents() == Inserted(s, position, token))
    {
      var at, was := head + position, tokens[..];
      assert old(Contents())[..old(|Contents()|) - 1] == was[head..length - 1];
      forall j | at < j < length {
        tokens[j] := was[j - 1];
      }
      tokens[at] := token;
      ghost var now := tokens[..];
      MovedIsInserted(was, now, head, length, position, token);
      assert Contents() == now[head..length];
    }
  }

  /** Insertion into a sequence; a negative position stands for the end. */
  function Inserted(s: seq<Token>, position: int, token: Token): seq<Token>
    requires position <= |s|
  {
    if position < 0 then s + [token] else s[..position] + [token] + s[position..]
  }

  /** Moving the tokens behind a place on by one and writing there is an insertion. */
  lemma MovedIsInserted(was: seq<Token>, now: seq<Token>, head: nat, length: nat, position: nat, token: Token)
    requires head + position < length <= |was| == |now|
    requires now[..head + position] == was[..head + position] && now[head + position] == token
    requires forall j :: head + position < j < length ==> now[j] == was[j - 1]
    ensures now[head..length] == Inserted(was[head..length - 1], position, token)
  {
    var s := was[head..length - 1];
    var r := s[..position] + [token] + s[position..];
    forall k | 0 <= k < |r| ensures now[head + k] == r[k] {
      if k > position {
        assert r[k] == s[k - 1] == was[head + k - 1];
      } else if k < position {
        assert now[..head + position][head + k] == was[..head + position][head + k];
      }
    }
  }

  lemma TailInserted(all: seq<Token>, p: nat, position: nat, token: Token)
    requires p + position <= |all|
    ensures var r := all[..p + position] + [token] + all[p + position..];
      r[p..] == Inserted(all[p..], position, token) && r[..p] == all[..p]
  {
    assert all[p..][..position] == all[p..p + position];
    assert all[p..][position..] == all[p + position..];
  }

  /** The queue is the tail of the scanner's list of all tokens, and stays so. */
  lemma QueueIsTail(sc: Scanner.State, position: int, token: Token)
    requires sc.parsed <= |sc.tokens| && position <= |sc.tokens| - sc.parsed
    ensures Scanner.InsertToken(sc, position, token).tokens[sc.parsed..]
         == Inserted(sc.tokens[sc.parsed..], position, token)
    ensures Scanner.InsertToken(sc, position, token).tokens[..sc.parsed] == sc.tokens[..sc.parsed]
  {
    if position >= 0 { TailInserted(sc.tokens, sc.parsed, position, token); }
  }
}
