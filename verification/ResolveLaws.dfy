/**
 What scalars mean, said without the tables: the words for booleans in their three spellings,
 the underscores in numbers, tags long and short, and the names that numbers get as keys.
 */
module ResolveLaws {
  import opened Composer
  import opened Options
  import opened Resolve

  function Capital(c: char): char {
    if 'a' <= c <= 'z' then (c as int - 'a' as int + 'A' as int) as char else c
  }

  function Upper(s: string): string {
    seq(|s|, i requires 0 <= i < |s| => Capital(s[i]))
  }

  /** As it is, with a capital letter, or all in capitals. */
  predicate SpellingOf(s: string, w: string) {
    w != "" && (s == w || s == [Capital(w[0])] + w[1..] || s == Upper(w))
  }

  lemma Spellings(s: string, w: string, capital: string, upper: string)
    requires w != "" && capital == [Capital(w[0])] + w[1..] && upper == Upper(w)
    ensures SpellingOf(s, w) <==> s == w || s == capital || s == upper
  {
  }

  /** The boolean words are these, and no others. */
  lemma BooleanWords(s: string)
    ensures BoolScalar(s) == Some(true) <==>
      SpellingOf(s, "y") || SpellingOf(s, "yes") || SpellingOf(s, "true") || SpellingOf(s, "on")
    ensures BoolScalar(s) == Some(false) <==>
      SpellingOf(s, "n") || SpellingOf(s, "no") || SpellingOf(s, "false") || SpellingOf(s, "off")
  {
    hide SpellingOf, Upper, Capital;
    TrueWords(s);
    FalseWords(s);
  }

  lemma TrueWords(s: string)
    ensures SpellingOf(s, "y") <==> s == "y" || s == "Y"
    ensures SpellingOf(s, "yes") <==> s == "yes" || s == "Yes" || s == "YES"
    ensures SpellingOf(s, "true") <==> s == "true" || s == "True" || s == "TRUE"
    ensures SpellingOf(s, "on") <==> s == "on" || s == "On" || s == "ON"
  {
    hide SpellingOf;
    Spellings(s, "y", "Y", "Y");
    Spellings(s, "yes", "Yes", "YES");
    Spellings(s, "true", "True", "TRUE");
    Spellings(s, "on", "On", "ON");
  }

  lemma FalseWords(s: string)
    ensures SpellingOf(s, "n") <==> s == "n" || s == "N"
    ensures SpellingOf(s, "no") <==> s == "no" || s == "No" || s == "NO"
    ensures SpellingOf(s, "false") <==> s == "false" || s == "False" || s == "FALSE"
    ensures SpellingOf(s, "off") <==> s == "off" || s == "Off" || s == "OFF"
  {
    hide SpellingOf;
    Spellings(s, "n", "N", "N");
    Spellings(s, "no", "No", "NO");
    Spellings(s, "false", "False", "FALSE");
    Spellings(s, "off", "Off", "OFF");
  }

  /** Null is nothing, a tilde, or its word in any mixture of cases; nothing is both null and a boolean. */
  lemma NullWord(s: string)
    ensures NullScalar(s) <==> s == "" || s == "~" || Upper(s) == "NULL"
    ensures NullScalar(s) ==> BoolScalar(s) == None
  {
    assert |Upper(s)| == |s|;
    if |s| == 4 {
      assert EqualFold(s, "null") <==>
        Lower(s[0]) == 'n' && Lower(s[1]) == 'u' && Lower(s[2]) == 'l' && Lower(s[3]) == 'l';
      assert Upper(s) == [Capital(s[0]), Capital(s[1]), Capital(s[2]), Capital(s[3])];
      assert "NULL" == ['N', 'U', 'L', 'L'];
    }
  }

  // ---------- underscores ----------

  /** Exactly the underscores go, wherever they are. */
  lemma {:induction false} UnderscoresDropped(a: string, b: string)
    ensures CleanNumber(a + "_" + b) == CleanNumber(a + b)
    ensures '_' !in CleanNumber(a)
    ensures '_' !in a ==> CleanNumber(a) == a
  {
    if a == "" {
      assert "" + "_" + b == "_" + b && "" + b == b && ("_" + b)[1..] == b;
    } else {
      var x := a[1..];
      UnderscoresDropped(x, b);
      assert (a + "_" + b)[1..] == x + "_" + b && (a + b)[1..] == x + b;
      if '_' !in a { assert [a[0]] + x == a && forall c :: c in x ==> c in a; }
    }
  }

  // ---------- tags ----------

  /** The tag for what a plain scalar is anyway. */
  function KindTag(v: Value): string {
    match v
    case VNull => "null"
    case VBool(_) => "bool"
    case VInt(_) => "int"
    case VFloat(_) => "float"
    case _ => "str"
  }

  /** The same tag may be written long or short. */
  lemma LongTags(text: string, name: string, implicit: bool, nums: Numbers)
    ensures ScalarValue(text, "tag:yaml.org,2002:" + name, implicit, nums)
        == ScalarValue(text, "!!" + name, implicit, nums)
  {
    hide BoolScalar, IntScalar, FloatScalar, ResolvePlain;
    var long := "tag:yaml.org,2002:" + name;
    assert "tag:yaml.org,2002:" + name == LONG_TAG_PREFIX + name;
    assert LONG_TAG_PREFIX <= long && long[|LONG_TAG_PREFIX|..] == name;
    assert !(LONG_TAG_PREFIX <= "!!" + name) by { assert ("!!" + name)[0] != LONG_TAG_PREFIX[0]; }
  }

  /** A tag that says what a plain scalar is anyway changes nothing; and `!!str` makes any text a string. */
  lemma TagsAgree(text: string, v: Value, implicit: bool, nums: Numbers)
    requires ResolvePlain(text, nums) == Ok(v)
    ensures ScalarValue(text, "!!" + KindTag(v), implicit, nums) == Ok(v)
    ensures ScalarValue(text, "!!str", implicit, nums) == Ok(VString(text))
  {
    hide BoolScalar, IntScalar, NullScalar, IsNonFinite, FloatLike, IntegerScalar, CleanNumber;
    var short := "!!" + KindTag(v);
    assert ShortTag(short) == short by { assert short[0] != LONG_TAG_PREFIX[0]; }
    assert ShortTag("!!str") == "!!str";
    assert "!!" + "null" == "!!null" && "!!" + "bool" == "!!bool" && "!!" + "int" == "!!int";
    assert "!!" + "float" == "!!float" && "!!" + "str" == "!!str";
  }

  /** Plain text is refused only because of a float that is no finite number. */
  lemma PlainRefused(s: string, nums: Numbers)
    ensures ResolvePlain(s, nums).Err? <==>
      && !NullScalar(s) && BoolScalar(s) == None && IntScalar(s, nums) == None
      && (IsNonFinite(s) || ((IntegerScalar(s) || FloatLike(s)) && CleanNumber(s) != "" &&
                             (nums.parseFloat)(CleanNumber(s)) == NonFinite))
    ensures ResolvePlain(s, nums).Err? ==> ResolvePlain(s, nums) == Err(NonFiniteFloat(s))
  {
    hide NullScalar, BoolScalar, IntScalar, IsNonFinite, IntegerScalar, FloatLike, CleanNumber;
  }

  // ---------- keys ----------

  /** The number that decimal digits stand for. */
  function NumberOf(s: string): int {
    if s == "" then 0 else 10 * NumberOf(s[..|s| - 1]) + (s[|s| - 1] as int - '0' as int)
  }

  lemma {:induction false} DigitsBack(n: nat)
    ensures NumberOf(Digits(n)) == n && Digits(n) != ""
    ensures forall i :: 0 <= i < |Digits(n)| ==> '0' <= Digits(n)[i] <= '9'
    ensures Digits(n)[0] == '0' ==> n == 0
  {
    var s := Digits(n);
    if n < 10 {
      assert s[..|s| - 1] == "";
    } else {
      DigitsBack(n / 10);
      assert s[..|s| - 1] == Digits(n / 10);
    }
  }

  /** An integer as a key is its digits behind a sign if it needs one, without zeros in front. */
  lemma NumberKey(n: int, lib: Library)
    ensures var k := KeyString(VInt(n), lib).value;
      && k != "" && (n < 0 <==> k[0] == '-')
      && NumberOf(if n < 0 then k[1..] else k) == (if n < 0 then -n else n)
      && (k[0] == '0' ==> n == 0) && (n < 0 ==> |k| > 1 && k[1] != '0')
      && forall i :: (if n < 0 then 1 else 0) <= i < |k| ==> '0' <= k[i] <= '9'
  {
    DigitsBack(if n < 0 then -n else n);
    if n < 0 { assert ("-" + Digits(-n))[1..] == Digits(-n); }
  }

  /** Integers with the same key are the same; and no integer's key is that of null or a boolean. */
  lemma KeysApart(m: int, n: int, b: bool, lib: Library)
    ensures KeyString(VInt(m), lib) == KeyString(VInt(n), lib) ==> m == n
    ensures KeyString(VInt(m), lib) !in {KeyString(VNull, lib), KeyString(VBool(b), lib)}
  {
    NumberKey(m, lib);
    NumberKey(n, lib);
  }
}
