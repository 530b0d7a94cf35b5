/** The parts of java.lang.String and java.lang.Integer that the collectors rely on,
    written out as functions over sequences of characters. */
module JavaString {
  import opened Wrappers
  import opened JavaInt

  // ---------------------------------------------------------------------------
  // String.split on a single, non-regex separator character
  // ---------------------------------------------------------------------------

  /** Every piece between separators, empty pieces included (one more piece than
      there are separators). */
  function Pieces(s: string, sep: char): (ps: seq<string>)
    ensures 1 <= |ps|
  {
    if s == [] then [[]]
    else
      var rest := Pieces(s[1..], sep);
      if s[0] == sep then [[]] + rest
      else [[s[0]] + rest[0]] + rest[1..]
  }

  /** No piece holds the separator. */
  lemma {:induction false} PiecesHaveNoSeparator(s: string, sep: char)
    ensures forall i :: 0 <= i < |Pieces(s, sep)| ==> sep !in Pieces(s, sep)[i]
  {
    if s != [] {
      PiecesHaveNoSeparator(s[1..], sep);
      var rest := Pieces(s[1..], sep);
      if s[0] != sep {
        var ps := Pieces(s, sep);
        assert ps[0] == [s[0]] + rest[0];
        assert forall i :: 1 <= i < |ps| ==> ps[i] == rest[i];
      }
    }
  }

  /** The pieces glued back together with the separator between them. */
  function Join(ps: seq<string>, sep: char): string
    requires 1 <= |ps|
  {
    if |ps| == 1 then ps[0] else ps[0] + [sep] + Join(ps[1..], sep)
  }

  /** The trailing empty pieces removed. */
  function DropTrailingEmpty(ps: seq<string>): (r: seq<string>)
    ensures r <= ps
    ensures r != [] ==> r[|r| - 1] != []
    ensures forall i :: |r| <= i < |ps| ==> ps[i] == []
  {
    if ps != [] && ps[|ps| - 1] == [] then DropTrailingEmpty(ps[..|ps| - 1]) else ps
  }

  /** `s.split(sep)`: an input without a separator is returned as the only piece (so
      "" gives [""]); otherwise the pieces with the trailing empty ones removed. */
  function Split(s: string, sep: char): seq<string>
  {
    if s == [] then [[]] else DropTrailingEmpty(Pieces(s, sep))
  }

  lemma {:induction false} PiecesWithoutSeparator(s: string, sep: char)
    requires sep !in s
    ensures Pieces(s, sep) == [s]
  {
    if s != [] {
      assert s == [s[0]] + s[1..];
      PiecesWithoutSeparator(s[1..], sep);
    }
  }

  lemma HeadTailOfAppend<T>(x: seq<T>, y: seq<T>)
    requires x != []
    ensures (x + y)[0] == x[0] && (x + y)[1..] == x[1..] + y
  {
    assert x + y == [x[0]] + (x[1..] + y);
  }

  /** A separator in the middle splits the pieces of its two sides apart. */
  lemma {:induction false} PiecesAppend(a: string, sep: char, b: string)
    ensures Pieces(a + [sep] + b, sep) == Pieces(a, sep) + Pieces(b, sep)
    decreases |a|
  {
    var s := a + [sep] + b;
    if a == [] {
      assert s[0] == sep && s[1..] == b;
    } else {
      PiecesAppend(a[1..], sep, b);
      assert s[0] == a[0] && s[1..] == a[1..] + [sep] + b;
      PiecesAppendStep(s, a, sep, Pieces(a[1..], sep), Pieces(b, sep));
    }
  }

  /** The step of `PiecesAppend`: the first character of the left side starts a
      piece of its own or joins the first piece of the rest, on both sides alike. */
  lemma PiecesAppendStep(s: string, a: string, sep: char, pa: seq<string>, pb: seq<string>)
    requires s != [] && a != [] && s[0] == a[0]
    requires pa == Pieces(a[1..], sep) && Pieces(s[1..], sep) == pa + pb
    ensures Pieces(s, sep) == Pieces(a, sep) + pb
  {
    if a[0] == sep {
      SeparatorStep(pa, pb);
    } else {
      CharacterStep([a[0]], pa, pb);
    }
  }

  lemma SeparatorStep(pa: seq<string>, pb: seq<string>)
    ensures [[]] + (pa + pb) == ([[]] + pa) + pb
  {
  }

  lemma CharacterStep(c: string, pa: seq<string>, pb: seq<string>)
    requires pa != []
    ensures [c + (pa + pb)[0]] + (pa + pb)[1..] == ([c + pa[0]] + pa[1..]) + pb
  {
    HeadTailOfAppend(pa, pb);
  }

  /** Joining the pieces gives back the string that was split. */
  lemma {:induction false} JoinPieces(s: string, sep: char)
    ensures Join(Pieces(s, sep), sep) == s
  {
    if s != [] {
      var rest := Pieces(s[1..], sep);
      JoinPieces(s[1..], sep);
      if s[0] != sep && |rest| > 1 {
        var ps := Pieces(s, sep);
        assert ps[1..] == rest[1..];
        assert Join(rest, sep) == rest[0] + [sep] + Join(rest[1..], sep);
      }
    }
  }

  /** A string of separators only has nothing but empty pieces... */
  lemma {:induction false} PiecesOfSeparators(s: string, sep: char)
    requires forall i :: 0 <= i < |s| ==> s[i] == sep
    ensures forall i :: 0 <= i < |Pieces(s, sep)| ==> Pieces(s, sep)[i] == []
  {
    if s != [] {
      PiecesOfSeparators(s[1..], sep);
    }
  }

  lemma {:induction false} DropAllEmpty(ps: seq<string>)
    requires forall i :: 0 <= i < |ps| ==> ps[i] == []
    ensures DropTrailingEmpty(ps) == []
    decreases |ps|
  {
    if ps != [] {
      DropAllEmpty(ps[..|ps| - 1]);
    }
  }

  /** ...so `split` returns no piece at all for it: ",".split(",") is empty. */
  lemma SplitOfSeparators(s: string, sep: char)
    requires s != [] && forall i :: 0 <= i < |s| ==> s[i] == sep
    ensures Split(s, sep) == []
  {
    PiecesOfSeparators(s, sep);
    DropAllEmpty(Pieces(s, sep));
  }

  /** Joining one more piece puts a separator before it. */
  lemma {:induction false} JoinAppend(ps: seq<string>, sep: char, last: string)
    requires 1 <= |ps|
    ensures Join(ps + [last], sep) == Join(ps, sep) + [sep] + last
    decreases |ps|
  {
    if |ps| > 1 {
      assert (ps + [last])[1..] == ps[1..] + [last];
      JoinAppend(ps[1..], sep, last);
    }
  }

  /** Splitting a join of separator-free pieces gives back those pieces. */
  lemma {:induction false} PiecesOfJoin(ps: seq<string>, sep: char)
    requires 1 <= |ps|
    requires forall i :: 0 <= i < |ps| ==> sep !in ps[i]
    ensures Pieces(Join(ps, sep), sep) == ps
  {
    PiecesWithoutSeparator(ps[0], sep);
    if |ps| > 1 {
      PiecesOfJoin(ps[1..], sep);
      PiecesAppend(ps[0], sep, Join(ps[1..], sep));
      assert [ps[0]] + ps[1..] == ps;
    }
  }

  /** Dropping the trailing empty pieces removes only separators from the end of the
      join. */
  lemma {:induction false} JoinDropTrailingEmpty(ps: seq<string>, sep: char)
    requires DropTrailingEmpty(ps) != []
    ensures var j, full := Join(DropTrailingEmpty(ps), sep), Join(ps, sep);
      j <= full && forall i :: |j| <= i < |full| ==> full[i] == sep
    decreases |ps|
  {
    if ps[|ps| - 1] == [] {
      var pre := ps[..|ps| - 1];
      assert DropTrailingEmpty(ps) == DropTrailingEmpty(pre);
      JoinDropTrailingEmpty(pre, sep);
      assert pre + [[]] == ps;
      JoinAppend(pre, sep, []);
    }
  }

  /** `split` loses only separators at the end: its pieces joined back are the input
      without some trailing separators. */
  lemma SplitJoin(s: string, sep: char)
    requires Split(s, sep) != []
    ensures var j := Join(Split(s, sep), sep);
      j <= s && forall i :: |j| <= i < |s| ==> s[i] == sep
  {
    if s != [] {
      JoinPieces(s, sep);
      JoinDropTrailingEmpty(Pieces(s, sep), sep);
    }
  }

  /** A separator at the very end only adds a trailing empty piece, which `split`
      drops: "a;b;" splits like "a;b". */
  lemma SplitIgnoresTrailingSeparator(s: string, sep: char)
    requires s != []
    ensures Split(s + [sep], sep) == Split(s, sep)
  {
    PiecesAppend(s, sep, []);
    assert s + [sep] + [] == s + [sep];
    var ps := Pieces(s, sep) + [[]];
    assert ps[..|ps| - 1] == Pieces(s, sep);
  }

  // ---------------------------------------------------------------------------
  // String.trim
  // ---------------------------------------------------------------------------

  /** The characters `trim` removes: every code point up to and including the space. */
  predicate IsBlank(c: char) { c <= ' ' }

  function TrimStart(s: string): (r: string)
    ensures |r| <= |s| && r == s[|s| - |r|..]
    ensures r != [] ==> !IsBlank(r[0])
    ensures forall k :: 0 <= k < |s| - |r| ==> IsBlank(s[k])
  {
    if s != [] && IsBlank(s[0]) then TrimStart(s[1..]) else s
  }

  function TrimEnd(s: string): (r: string)
    ensures |r| <= |s| && r == s[..|r|]
    ensures r != [] ==> !IsBlank(r[|r| - 1])
    ensures forall k :: |r| <= k < |s| ==> IsBlank(s[k])
  {
    if s != [] && IsBlank(s[|s| - 1]) then TrimEnd(s[..|s| - 1]) else s
  }

  /** `s.trim()`: the blank characters at both ends removed; what is left starts and
      ends with a non-blank character and holds only characters of `s`. */
  function Trim(s: string): (r: string)
    ensures r != [] ==> !IsBlank(r[0]) && !IsBlank(r[|r| - 1])
    ensures forall c :: c in r ==> c in s
  {
    var t := TrimStart(s);
    assert forall c :: c in t ==> c in s;
    TrimEnd(t)
  }

  // ---------------------------------------------------------------------------
  // Integer.parseInt and Integer.toString, radix 10
  // ---------------------------------------------------------------------------

  predicate IsDigit(c: char) { '0' <= c <= '9' }

  predicate AllDigits(ds: string) { forall i :: 0 <= i < |ds| ==> IsDigit(ds[i]) }

  function DigitsValue(ds: string): nat
    requires AllDigits(ds)
  {
    if ds == [] then 0 else DigitsValue(ds[..|ds| - 1]) * 10 + (ds[|ds| - 1] as int - '0' as int)
  }

  datatype NumberFormatError = NumberFormatError(input: string)

  /** The text without its sign character, if it has one. */
  function Unsigned(s: string): (r: string)
    ensures r == s || (s != [] && (s[0] == '-' || s[0] == '+') && r == s[1..])
  {
    if s != [] && (s[0] == '-' || s[0] == '+') then s[1..] else s
  }

  /** The digits without their leading zeros; a last zero is kept. */
  function StripLeadingZeros(ds: string): (r: string)
    ensures |r| <= |ds| && r == ds[|ds| - |r|..]
    ensures ds != [] ==> r != [] && (|r| == 1 || r[0] != '0')
  {
    if |ds| > 1 && ds[0] == '0' then StripLeadingZeros(ds[1..]) else ds
  }

  /** `Integer.parseInt(s)`: an optional sign, then one or more decimal digits, whose
      value must fit in an `int`; anything else throws NumberFormatException. Only a
      '-' makes the value negative. */
  function ParseInt(s: string): (r: Result<Int32, NumberFormatError>)
    ensures s == [] ==> r.Err?
    ensures r.Ok? ==> IsDigit(s[|s| - 1])
    ensures r.Ok? && r.value != 0 ==> (r.value < 0 <==> s[0] == '-')
  {
    if s == [] then Err(NumberFormatError(s))
    else
      var digits := Unsigned(s);
      if digits == [] || !AllDigits(digits) then Err(NumberFormatError(s))
      else
        var magnitude: int := DigitsValue(digits);
        var v := if s[0] == '-' then -magnitude else magnitude;
        if MinInt32 <= v <= MaxInt32 then Ok(v) else Err(NumberFormatError(s))
  }

  /** A text that parses is, once its sign and leading zeros are dropped, what
      `toString` writes for its value, after a '-' exactly when the value is
      negative: `parseInt` reads back `toString` and nothing but its variants. */
  lemma ParseIntCanonical(s: string)
    requires ParseInt(s).Ok?
    ensures var n := ParseInt(s).value;
      IntToString(n) == (if n < 0 then ['-'] else []) + StripLeadingZeros(Unsigned(s))
  {
    ParseIntOfDigits(s);
    var v: int := if s[0] == '-' then -(DigitsValue(Unsigned(s)) as int) else DigitsValue(Unsigned(s));
    ParsedCanonical(s, v);
  }

  /** The value of a sign and digits, written by `toString`, is the digits without
      their leading zeros, after a '-' when the value is negative. */
  lemma ParsedCanonical(s: string, v: int)
    requires s != [] && Unsigned(s) != [] && AllDigits(Unsigned(s))
    requires v == if s[0] == '-' then -(DigitsValue(Unsigned(s)) as int) else DigitsValue(Unsigned(s))
    ensures IntToString(v) == (if v < 0 then ['-'] else []) + StripLeadingZeros(Unsigned(s))
    ensures v != 0 ==> (v < 0 <==> s[0] == '-')
  {
    var digits := Unsigned(s);
    DigitsCanonical(digits);
    if v < 0 {
      assert IntToString(v) == ['-'] + NatToDigits(DigitsValue(digits));
    } else {
      assert v == DigitsValue(digits);
      assert IntToString(v) == [] + NatToDigits(DigitsValue(digits));
    }
  }

  /** A leading zero adds nothing to the value of a digit string. */
  lemma {:induction false} LeadingZeroValue(ds: string)
    requires ds != [] && ds[0] == '0' && AllDigits(ds)
    ensures DigitsValue(ds) == DigitsValue(ds[1..])
    decreases |ds|
  {
    var p := ds[..|ds| - 1];
    if |ds| == 1 {
      assert p == [];
    } else {
      LeadingZeroValue(p);
      assert ds[1..][..|ds[1..]| - 1] == p[1..];
    }
  }

  /** A digit string that does not start with '0' has a positive value. */
  lemma {:induction false} PositiveValue(ds: string)
    requires ds != [] && ds[0] != '0' && AllDigits(ds)
    ensures DigitsValue(ds) > 0
    decreases |ds|
  {
    var p := ds[..|ds| - 1];
    if |ds| == 1 {
      assert p == [];
    } else {
      PositiveValue(p);
    }
  }

  /** `toString` writes back a digit string without leading zeros. */
  lemma {:induction false} CanonicalDigits(ds: string)
    requires ds != [] && AllDigits(ds) && (|ds| == 1 || ds[0] != '0')
    ensures NatToDigits(DigitsValue(ds)) == ds
    decreases |ds|
  {
    var p := ds[..|ds| - 1];
    var d := ds[|ds| - 1] as int - '0' as int;
    if |ds| == 1 {
      assert p == [];
      assert ('0' as int + d) as char == ds[0];
    } else {
      CanonicalDigits(p);
      PositiveValue(p);
      var n := DigitsValue(ds);
      assert n == DigitsValue(p) * 10 + d && 0 <= d < 10;
      assert n / 10 == DigitsValue(p) && n % 10 == d;
      assert ('0' as int + d) as char == ds[|ds| - 1];
      assert p + [ds[|ds| - 1]] == ds;
    }
  }

  /** `toString` of a digit string's value is that string without its leading
      zeros. */
  lemma {:induction false} DigitsCanonical(ds: string)
    requires ds != [] && AllDigits(ds)
    ensures NatToDigits(DigitsValue(ds)) == StripLeadingZeros(ds)
    decreases |ds|
  {
    if |ds| > 1 && ds[0] == '0' {
      LeadingZeroValue(ds);
      DigitsCanonical(ds[1..]);
    } else {
      CanonicalDigits(ds);
    }
  }

  /** A sign followed by digits parses exactly when its value fits in an `int`, and
      then to that value. */
  lemma ParseIntSigned(sign: string, ds: string)
    requires sign == [] || sign == ['+'] || sign == ['-']
    requires ds != [] && AllDigits(ds)
    ensures var v: int := if sign == ['-'] then -(DigitsValue(ds) as int) else DigitsValue(ds);
      ParseInt(sign + ds) == if MinInt32 <= v <= MaxInt32 then Ok(v) else Err(NumberFormatError(sign + ds))
  {
    var s := sign + ds;
    if sign == [] {
      assert s == ds && IsDigit(ds[0]);
    } else {
      assert s[0] == sign[0] && s[1..] == ds;
    }
    assert Unsigned(s) == ds && (s[0] == '-' <==> sign == ['-']);
    ParseIntOfDigits(s);
  }

  /** What `parseInt` gives for a sign and digits, read off its definition. */
  lemma ParseIntOfDigits(s: string)
    requires s != [] && Unsigned(s) != [] && AllDigits(Unsigned(s))
    ensures var v: int := if s[0] == '-' then -(DigitsValue(Unsigned(s)) as int) else DigitsValue(Unsigned(s));
      ParseInt(s) == if MinInt32 <= v <= MaxInt32 then Ok(v) else Err(NumberFormatError(s))
  {
  }

  /** Digits worth more than `Integer.MAX_VALUE` do not parse, whatever the sign,
      except "-2147483648", which is `Integer.MIN_VALUE`. */
  lemma ParseIntOutOfRange(sign: string, ds: string)
    requires sign == [] || sign == ['+'] || sign == ['-']
    requires ds != [] && AllDigits(ds) && DigitsValue(ds) > MaxInt32
    ensures ParseInt(sign + ds).Ok? <==> sign == ['-'] && DigitsValue(ds) == MaxInt32 + 1
  {
    ParseIntSigned(sign, ds);
  }

  /** Leading zeros add nothing to a digit string's value. */
  lemma {:induction false} ZerosValue(zs: string, ds: string)
    requires forall k :: 0 <= k < |zs| ==> zs[k] == '0'
    requires AllDigits(ds)
    ensures AllDigits(zs + ds) && DigitsValue(zs + ds) == DigitsValue(ds)
    decreases |zs|
  {
    if zs != [] {
      ZerosValue(zs[1..], ds);
      var s := zs + ds;
      assert s[1..] == zs[1..] + ds;
      assert AllDigits(s) by {
        forall k | 0 <= k < |s| ensures IsDigit(s[k]) {
          if k == 0 {
            assert s[0] == zs[0];
          } else {
            assert s[k] == s[1..][k - 1];
          }
        }
      }
      LeadingZeroValue(s);
    } else {
      assert zs + ds == ds;
    }
  }

  /** A '+' sign and leading zeros change neither whether digits parse nor their
      value: "+5" and "007" read as 5 and 7. */
  lemma ParseIntIgnoresPlusAndZeros(plus: string, zs: string, ds: string)
    requires plus == [] || plus == ['+']
    requires forall k :: 0 <= k < |zs| ==> zs[k] == '0'
    requires ds != [] && AllDigits(ds)
    ensures ParseInt(plus + zs + ds).Ok? <==> ParseInt(ds).Ok?
    ensures ParseInt(ds).Ok? ==> ParseInt(plus + zs + ds).value == ParseInt(ds).value
  {
    ZerosValue(zs, ds);
    assert plus + zs + ds == plus + (zs + ds);
    ParseIntSigned(plus, zs + ds);
    ParseIntSigned([], ds);
    assert [] + ds == ds;
  }

  function NatToDigits(n: nat): (ds: string)
    ensures ds != [] && AllDigits(ds)
  {
    var last := ('0' as int + n % 10) as char;
    if n < 10 then [last] else NatToDigits(n / 10) + [last]
  }

  /** `Integer.toString(n)`: a minus sign for negative values, then the digits. */
  function IntToString(n: int): string
  {
    if n < 0 then ['-'] + NatToDigits(-n) else NatToDigits(n)
  }

  lemma {:induction false} NatToDigitsValue(n: nat)
    ensures DigitsValue(NatToDigits(n)) == n
  {
    if n >= 10 {
      NatToDigitsValue(n / 10);
      var ds := NatToDigits(n);
      assert ds[..|ds| - 1] == NatToDigits(n / 10);
    }
  }

  /** `parseInt` reads back every `int` that `toString` writes. */
  lemma ParseIntToString(n: Int32)
    ensures ParseInt(IntToString(n)) == Ok(n)
  {
    var s := IntToString(n);
    if n < 0 {
      var m: nat := -(n as int);
      var ds := NatToDigits(m);
      NatToDigitsValue(m);
      assert s == ['-'] + ds && s[0] == '-' && s[1..] == ds;
      assert DigitsValue(ds) == m;
    } else {
      var ds := NatToDigits(n);
      NatToDigitsValue(n);
      assert s == ds && IsDigit(s[0]);
      assert DigitsValue(ds) == n;
    }
  }

  // ---------------------------------------------------------------------------
  // String.equalsIgnoreCase against an upper-case ASCII name
  // ---------------------------------------------------------------------------

  predicate IsAsciiUpper(c: char) { 'A' <= c <= 'Z' }

  /** Java compares two characters ignoring case when they are equal, or their
      upper-case forms are, or the lower-case forms of those are. For an ASCII
      upper-case letter `t` that accepts `t`, its lower-case letter, and the four
      characters outside ASCII whose upper- or lower-case form is an ASCII letter:
      for 'I' dotted capital I (U+0130, lower case 'i') and dotless small i
      (U+0131, upper case 'I'), for 'K' the Kelvin sign (U+212A, lower case 'k'),
      and for 'S' the long s (U+017F, upper case 'S'). */
  predicate CharMatchesIgnoringCase(c: char, t: char)
    requires IsAsciiUpper(t)
  {
    c == t || c as int == t as int + 32 ||
    (t == 'I' && (c == '\U{130}' || c == '\U{131}')) ||
    (t == 'K' && c == '\U{212A}') ||
    (t == 'S' && c == '\U{17F}')
  }

  predicate EqualsIgnoreCase(s: string, name: string)
    requires forall i :: 0 <= i < |name| ==> IsAsciiUpper(name[i])
  {
    |s| == |name| && forall i :: 0 <= i < |s| ==> CharMatchesIgnoringCase(s[i], name[i])
  }
}
