/** The escapes that the double-quoted writer chooses: the shortest one there is for each character. */
module Escapes {
  import opened Chars
  import opened ScalarWriters
  import opened Spelling

  /** The digits of x, in upper case. */
  function UpperDigits(x: nat, n: nat): (ds: seq<HexDigit>)
    ensures |ds| == n && forall i :: 0 <= i < n ==> ds[i].upper && ds[i].value < 16
  {
    if n == 0 then [] else UpperDigits(x / 16, n - 1) + [HexDigit(x % 16, true)]
  }

  function Power16(n: nat): (p: nat)
    ensures p >= 1
  {
    if n == 0 then 1 else 16 * Power16(n - 1)
  }

  lemma {:induction false} UpperValue(x: nat, n: nat)
    requires x < Power16(n)
    ensures DigitsValue(UpperDigits(x, n)) == x
    ensures DigitsOk(UpperDigits(x, n)) && DigitsText(UpperDigits(x, n)) == HexDigits(x, n)
  {
    if n > 0 {
      UpperValue(x / 16, n - 1);
      var ds := UpperDigits(x, n);
      assert ds[..n - 1] == UpperDigits(x / 16, n - 1);
      assert DigitsText(ds) == DigitsText(ds[..n - 1]) + [DigitChar(ds[n - 1])];
    }
  }

  lemma {:induction false} ValueBound(ds: seq<HexDigit>)
    requires DigitsOk(ds)
    ensures DigitsValue(ds) < Power16(|ds|)
    decreases |ds|
  {
    if ds != [] { ValueBound(ds[..|ds| - 1]); }
  }

  lemma Powers()
    ensures Power16(2) == 0x100 && Power16(4) == 0x1_0000 && Power16(8) == 0x1_0000_0000
  {
    assert Power16(1) == 16 && Power16(3) == 4096 && Power16(5) == 0x10_0000 && Power16(6) == 0x100_0000;
    assert Power16(7) == 0x1000_0000;
  }

  /** Every entry of the writer's table is an escape of that letter; and it has all but two of these. */
  lemma NamesAgree(c: char)
    ensures var name := Lookup(NAMED, c, 0);
      name != "" ==> NamedChar(name[0]) == Code(c as int) && |name| == 1
  {
    LookupFinds(NAMED, c, 0);
    if j :| 0 <= j < |NAMED| && NAMED[j].0 == c && Lookup(NAMED, c, 0) == [NAMED[j].1] {
      assert NamedChar(NAMED[j].1) == Code(NAMED[j].0 as int);
    }
  }

  lemma NamesAll(letter: char)
    requires NamedChar(letter).Code? && letter != ' ' && letter != '\''
    ensures Lookup(NAMED, NamedChar(letter).x as char, 0) != ""
  {
    var j := match letter
             case '0' => 0 case 'a' => 1 case 'b' => 2 case 't' => 3 case '\t' => 3 case 'n' => 4 case 'v' => 5
             case 'f' => 6 case 'r' => 7 case 'e' => 8 case '"' => 9 case '\\' => 10
             case 'N' => 11 case '_' => 12 case 'L' => 13 case _ => 14;
    assert NAMED[j].0 == NamedChar(letter).x as char;
    LookupAt(NAMED, 0, j);
  }

  /** What is written for a character is an escape of it, with digits in upper case. */
  lemma {:induction false} EscapeIsUnit(c: char) returns (u: Unit)
    ensures UnitOk(u, false) && !u.Raw? && UnitText(u, false) == EscapeText(c) && UnitChar(u, false) == c
    ensures u.Coded? ==> forall i :: 0 <= i < |u.digits| ==> u.digits[i].upper
  {
    hide DigitsText, DigitsValue, HexDigits;
    NamesAgree(c);
    var name := Lookup(NAMED, c, 0);
    if name != "" {
      u := Letter(name[0]);
      assert ['\\', name[0]] == "\\" + name;
    } else {
      Powers();
      var x := c as int;
      var n := if x <= 0xFF then 2 else if x <= 0xFFFF then 4 else 8;
      UpperValue(x, n);
      u := Coded(UpperDigits(x, n));
    }
  }

  /** And no escape of the character is shorter. */
  lemma {:induction false} EscapeIsShortest(c: char, u: Unit)
    requires UnitOk(u, false) && !u.Raw? && UnitChar(u, false) == c && c != ' ' && c != '\''
    ensures |EscapeText(c)| <= |UnitText(u, false)|
  {
    hide DigitsText, DigitsValue, HexDigits;
    NamesAgree(c);
    match u
    case Letter(letter) => NamesAll(letter);
    case Coded(ds) =>
      Powers();
      ValueBound(ds);
  }
}
