/**
 * The Python values the detection overlay works on: a JSON document as
 * `json.loads` returns it, and the built-ins the overlay applies to it
 * (`int()`, `str.lower()`, `str(int)`, `format(x, ".2f")`).
 */
module PyJson {
  import opened Wrappers

  /** A float as `json.loads` yields it; the decoder also accepts `Infinity`, `-Infinity` and `NaN`. */
  datatype Float = Finite(value: real) | PosInf | NegInf | NaN

  /** A parsed JSON value; an object is a dict, in which a repeated key keeps its last value. */
  datatype Json =
    | JNull
    | JBool(b: bool)
    | JInt(i: int)
    | JFloat(f: Float)
    | JStr(s: string)
    | JList(items: seq<Json>)
    | JObj(fields: map<string, Json>)

  /** `d.get(key, default)` on a dict. */
  function Get(d: map<string, Json>, key: string, default: Json): Json
  {
    if key in d then d[key] else default
  }

  // ---------------------------------------------------------------------------
  // Decimal digits

  predicate IsDigit(c: char) { '0' <= c <= '9' }

  predicate AllDigits(s: string) { forall i :: 0 <= i < |s| ==> IsDigit(s[i]) }

  function DigitChar(d: nat): (c: char)
    requires d < 10
    ensures IsDigit(c) && c as int - '0' as int == d
  {
    (d + '0' as int) as char
  }

  /** The value of a string of decimal digits, most significant first. */
  function DigitsValue(ds: string): nat
    requires AllDigits(ds)
  {
    if ds == [] then 0
    else DigitsValue(ds[..|ds| - 1]) * 10 + (ds[|ds| - 1] as int - '0' as int)
  }

  /** The decimal digits of `n` without leading zeros, as `str(n)` writes them. */
  function Digits(n: nat): (ds: string)
    ensures |ds| > 0 && AllDigits(ds)
    ensures ds[0] != '0' || n == 0
  {
    if n < 10 then [DigitChar(n)] else Digits(n / 10) + [DigitChar(n % 10)]
  }

  /** `str(n)` for an int. */
  function Decimal(n: int): string
  {
    if n < 0 then "-" + Digits(-n) else Digits(n)
  }

  lemma {:induction false} DigitsRoundTrip(n: nat)
    ensures DigitsValue(Digits(n)) == n
  {
    if n >= 10 {
      DigitsRoundTrip(n / 10);
      var ds := Digits(n);
      assert ds[..|ds| - 1] == Digits(n / 10);
    }
  }

  /** A printed int starts with '-' exactly when it is negative. */
  lemma DecimalSign(n: int)
    ensures |Decimal(n)| > 0
    ensures Decimal(n)[0] == '-' <==> n < 0
  {
    if n >= 0 {
      assert IsDigit(Digits(n)[0]);
    }
  }

  /** Two different numbers never print alike: `str` is injective on ints. */
  lemma DecimalInjective(m: int, n: int)
    requires Decimal(m) == Decimal(n)
    ensures m == n
  {
    DecimalSign(m);
    DecimalSign(n);
    var am: nat := if m < 0 then -m else m;
    var an: nat := if n < 0 then -n else n;
    assert Digits(am) == Digits(an) by {
      if m < 0 {
        assert Digits(am) == Decimal(m)[1..] == Decimal(n)[1..] == Digits(an);
      }
    }
    DigitsRoundTrip(am);
    DigitsRoundTrip(an);
  }

  // ---------------------------------------------------------------------------
  // int()

  /**
   * What `int(v)` does with a value: `Converted(n)`; `Rejected` for a
   * ValueError or TypeError (the exceptions the overlay catches per entry);
   * `Overflow` for the OverflowError that `int()` raises on an infinity.
   */
  datatype IntConv = Converted(n: int) | Rejected | Overflow

  /** The digit limit CPython (3.11 and later) puts on `int(str)`. */
  const MaxStrDigits: nat := 4300

  /** Truncation toward zero, as `int(float)` does it. */
  function Trunc(r: real): (n: int)
    ensures 0.0 <= r ==> 0 <= n && n as real <= r < n as real + 1.0
    ensures r < 0.0 ==> n <= 0 && n as real - 1.0 < r <= n as real
  {
    if r >= 0.0 then r.Floor else -((-r).Floor)
  }

  /** The whitespace `int()` strips around its argument (only the ASCII part of it is modelled). */
  predicate IsSpace(c: char)
  {
    c == ' ' || c == '\t' || c == '\n' || c == '\r' || c == 11 as char || c == 12 as char
  }

  /** `s.lstrip()`: the longest suffix of `s` that does not start with whitespace. */
  function TrimStart(s: string): (t: string)
    ensures |t| <= |s| && t == s[|s| - |t|..]
    ensures t == [] || !IsSpace(t[0])
    ensures forall i :: 0 <= i < |s| - |t| ==> IsSpace(s[i])
  {
    if s != [] && IsSpace(s[0]) then TrimStart(s[1..]) else s
  }

  /** `s.rstrip()`: the longest prefix of `s` that does not end with whitespace. */
  function TrimEnd(s: string): (t: string)
    ensures |t| <= |s| && t == s[..|t|]
    ensures t == [] || !IsSpace(t[|t| - 1])
    ensures forall i :: |t| <= i < |s| ==> IsSpace(s[i])
  {
    if s != [] && IsSpace(s[|s| - 1]) then TrimEnd(s[..|s| - 1]) else s
  }

  /** Digits in which a single `_` may stand between two digits. */
  predicate GroupedDigits(s: string)
  {
    && |s| > 0 && IsDigit(s[0]) && IsDigit(s[|s| - 1])
    && (forall i :: 0 <= i < |s| ==> IsDigit(s[i]) || s[i] == '_')
    && NoDoubleUnderscore(s)
  }

  /** No two neighbouring characters are both `_`. */
  predicate NoDoubleUnderscore(s: string)
  {
    |s| < 2 || (!(s[0] == '_' && s[1] == '_') && NoDoubleUnderscore(s[1..]))
  }

  lemma {:induction false} DigitsHaveNoDoubleUnderscore(s: string)
    requires AllDigits(s)
    ensures NoDoubleUnderscore(s)
  {
    if |s| >= 2 {
      assert IsDigit(s[0]);
      assert AllDigits(s[1..]) by {
        forall i | 0 <= i < |s[1..]| ensures IsDigit(s[1..][i]) {
          assert s[1..][i] == s[i + 1];
        }
      }
      DigitsHaveNoDoubleUnderscore(s[1..]);
    }
  }

  /** The characters of `s` other than `_`, in their order. */
  function NoUnderscores(s: string): string
  {
    if s == [] then [] else (if s[0] == '_' then [] else [s[0]]) + NoUnderscores(s[1..])
  }

  lemma {:induction false} NoUnderscoresAppend(a: string, b: string)
    ensures NoUnderscores(a + b) == NoUnderscores(a) + NoUnderscores(b)
  {
    if a != [] {
      assert (a + b)[0] == a[0];
      assert (a + b)[1..] == a[1..] + b;
      NoUnderscoresAppend(a[1..], b);
    } else {
      assert a + b == b;
    }
  }

  /** The digits of a literal with its underscores dropped, collected from its last character back. */
  function DropUnderscores(s: string): (ds: string)
    requires forall i :: 0 <= i < |s| ==> IsDigit(s[i]) || s[i] == '_'
    ensures AllDigits(ds) && |ds| <= |s|
    ensures ds == NoUnderscores(s)
  {
    if s == [] then []
    else
      var init, last := s[..|s| - 1], s[|s| - 1];
      assert s == init + [last];
      NoUnderscoresAppend(init, [last]);
      assert NoUnderscores([last]) == if last == '_' then [] else [last];
      if last == '_' then DropUnderscores(init) else DropUnderscores(init) + [last]
  }

  /** `int(s)` for a str, base 10. */
  function ParseInt(s: string): (r: IntConv)
    ensures r != Overflow
  {
    ParseSigned(TrimEnd(TrimStart(s)))
  }

  /** A literal after the whitespace is stripped: an optional sign, then grouped digits. */
  function ParseSigned(t: string): (r: IntConv)
    ensures r != Overflow
  {
    var (negative, body) := SplitSign(t);
    var r := ParseDigits(body);
    if negative && r.Converted? then Converted(-r.n) else r
  }

  /** Whether a literal starts with `-`, and what follows its sign, if any. */
  function SplitSign(t: string): (bool, string)
  {
    if t != [] && t[0] == '-' then (true, t[1..])
    else if t != [] && t[0] == '+' then (false, t[1..])
    else (false, t)
  }

  function ParseDigits(body: string): (r: IntConv)
    ensures r != Overflow
    ensures r.Converted? ==> r.n >= 0
  {
    if !GroupedDigits(body) then Rejected
    else
      var ds := DropUnderscores(body);
      if |ds| > MaxStrDigits then Rejected else Converted(DigitsValue(ds))
  }

  /** A plain digit run has no underscores to drop. */
  lemma {:induction false} NoUnderscoresOfDigits(s: string)
    requires AllDigits(s)
    ensures NoUnderscores(s) == s
  {
    if s != [] {
      assert AllDigits(s[1..]) by {
        forall i | 0 <= i < |s[1..]| ensures IsDigit(s[1..][i]) {
          assert s[1..][i] == s[i + 1];
        }
      }
      NoUnderscoresOfDigits(s[1..]);
      assert s[0] != '_' by { assert IsDigit(s[0]); }
    }
  }

  lemma ParseDigitsOfDigits(ds: string)
    requires AllDigits(ds) && 0 < |ds| <= MaxStrDigits
    ensures ParseDigits(ds) == Converted(DigitsValue(ds))
  {
    DigitsHaveNoDoubleUnderscore(ds);
    assert GroupedDigits(ds);
    NoUnderscoresOfDigits(ds);
  }

  /** A grouped literal within the digit limit converts to the value of its digits, underscores left out. */
  lemma ParseDigitsOfGrouped(body: string)
    requires GroupedDigits(body) && |NoUnderscores(body)| <= MaxStrDigits
    ensures AllDigits(NoUnderscores(body))
    ensures ParseDigits(body) == Converted(DigitsValue(NoUnderscores(body)))
  {
    var ds := DropUnderscores(body);
  }

  /** One `_` between two underscore-free groups keeps the pair a grouped literal. */
  lemma {:induction false} NoDoubleUnderscoreJoin(a: string, b: string)
    requires a != [] && a[|a| - 1] != '_' && NoDoubleUnderscore(a)
    requires b != [] && b[0] != '_' && NoDoubleUnderscore(b)
    ensures NoDoubleUnderscore(a + "_" + b)
  {
    var j := a + "_" + b;
    if |a| == 1 {
      assert j[1..] == "_" + b;
      assert ("_" + b)[1..] == b;
    } else {
      assert j[1..] == a[1..] + "_" + b;
      NoDoubleUnderscoreJoin(a[1..], b);
    }
  }

  /** Two digit groups joined by one `_` form a grouped literal. */
  lemma JoinIsGrouped(a: string, b: string)
    requires AllDigits(a) && AllDigits(b) && a != [] && b != []
    ensures GroupedDigits(a + "_" + b)
  {
    var j := a + "_" + b;
    DigitsHaveNoDoubleUnderscore(a);
    DigitsHaveNoDoubleUnderscore(b);
    NoDoubleUnderscoreJoin(a, b);
    forall i | 0 <= i < |j| ensures IsDigit(j[i]) || j[i] == '_' {
      if i < |a| { assert j[i] == a[i]; }
      else if i > |a| { assert j[i] == b[i - |a| - 1]; }
    }
    assert j[0] == a[0] && j[|j| - 1] == b[|b| - 1];
  }

  /** Dropping the `_` of two joined digit groups leaves the groups side by side. */
  lemma JoinWithoutUnderscore(a: string, b: string)
    requires AllDigits(a) && AllDigits(b)
    ensures NoUnderscores(a + "_" + b) == a + b
  {
    NoUnderscoresAppend(a, "_");
    NoUnderscoresOfDigits(a);
    assert NoUnderscores("_") == [];
    assert NoUnderscores(a + "_") == a;
    NoUnderscoresAppend(a + "_", b);
    NoUnderscoresOfDigits(b);
  }

  /** An underscore between two digit groups is ignored: `int("1_000") == int("1000")`. */
  lemma UnderscoreBetweenGroups(a: string, b: string)
    requires AllDigits(a) && AllDigits(b) && a != [] && b != [] && |a| + |b| <= MaxStrDigits
    ensures AllDigits(a + b)
    ensures ParseDigits(a + "_" + b) == Converted(DigitsValue(a + b))
  {
    JoinIsGrouped(a, b);
    JoinWithoutUnderscore(a, b);
    ParseDigitsOfGrouped(a + "_" + b);
  }

  lemma ThousandValue()
    ensures AllDigits("1000") && DigitsValue("1000") == 1000
  {
    assert "1000"[..3] == "100";
    assert "100"[..2] == "10";
    assert "10"[..1] == "1";
    assert "1"[..0] == "";
  }

  lemma GroupedThousand()
    ensures ParseInt("1_000") == Converted(1000)
  {
    var s := "1_000";
    assert s == "1" + "_" + "000";
    assert "1" + "000" == "1000";
    TrimOfUnpadded(s);
    assert SplitSign(s) == (false, s);
    UnderscoreBetweenGroups("1", "000");
    ThousandValue();
  }

  lemma TrimOfUnpadded(s: string)
    requires s != [] && !IsSpace(s[0]) && !IsSpace(s[|s| - 1])
    ensures TrimEnd(TrimStart(s)) == s
  {
  }

  /** A minus sign in front of a digit run negates its value. */
  lemma ParseSignedOfNegative(ds: string)
    requires AllDigits(ds) && 0 < |ds| <= MaxStrDigits
    ensures ParseSigned("-" + ds) == Converted(-(DigitsValue(ds) as int))
  {
    MinusSplits(ds);
    ParseDigitsOfDigits(ds);
  }

  lemma MinusSplits(ds: string)
    ensures SplitSign("-" + ds) == (true, ds)
  {
    assert ("-" + ds)[1..] == ds;
  }

  /** A digit run with no sign parses to its value. */
  lemma ParseSignedOfDigits(ds: string)
    requires AllDigits(ds) && 0 < |ds| <= MaxStrDigits
    ensures ParseSigned(ds) == Converted(DigitsValue(ds))
  {
    assert SplitSign(ds) == (false, ds) by {
      assert IsDigit(ds[0]);
    }
    ParseDigitsOfDigits(ds);
  }

  /** `int(str(n)) == n` whenever `str(n)` is within the digit limit. */
  lemma ParseIntOfDecimal(n: int)
    requires |Digits(if n < 0 then -n else n)| <= MaxStrDigits
    ensures ParseInt(Decimal(n)) == Converted(n)
  {
    var s := Decimal(n);
    var m: nat := if n < 0 then -n else n;
    var ds := Digits(m);
    assert s[|s| - 1] == ds[|ds| - 1];
    TrimOfUnpadded(s);
    DigitsRoundTrip(m);
    if n < 0 {
      assert s == "-" + ds;
      ParseSignedOfNegative(ds);
    } else {
      assert s == ds;
      ParseSignedOfDigits(ds);
    }
  }

  /** `int(v)` for any JSON value. */
  function PyInt(v: Json): IntConv
  {
    match v
    case JNull => Rejected                                   // TypeError
    case JBool(b) => Converted(if b then 1 else 0)
    case JInt(i) => Converted(i)
    case JFloat(Finite(r)) => Converted(Trunc(r))
    case JFloat(NaN) => Rejected                             // ValueError
    case JFloat(_) => Overflow                               // an infinity
    case JStr(s) => ParseInt(s)
    case JList(_) => Rejected                                // TypeError
    case JObj(_) => Rejected                                 // TypeError
  }

  // ---------------------------------------------------------------------------
  // str.lower(), `in` on strings, format(x, ".2f")

  function LowerChar(c: char): char
  {
    if 'A' <= c <= 'Z' then (c as int + 32) as char else c
  }

  /** `s.lower()` on its ASCII letters; other characters are kept. */
  function Lower(s: string): (t: string)
    ensures |t| == |s|
    ensures forall i :: 0 <= i < |s| ==> t[i] == LowerChar(s[i])
  {
    if s == [] then [] else [LowerChar(s[0])] + Lower(s[1..])
  }

  predicate OccursAt(s: string, sub: string, i: int)
  {
    0 <= i <= |s| - |sub| && s[i..i + |sub|] == sub
  }

  /** `sub in s` for strings. */
  predicate Contains(s: string, sub: string)
  {
    exists i | 0 <= i <= |s| - |sub| :: OccursAt(s, sub, i)
  }

  /**
   * 2^1024 - 2^970, the least int that rounds past the largest double when it
   * is converted to a float: `float(n)`, and so `format(n, ".2f")`, raises
   * OverflowError for every int `n` with `|n|` at or above it.
   */
  const FloatIntLimit: int :=
    0xfffffffffffffc00_0000000000000000_0000000000000000_0000000000000000_0000000000000000_0000000000000000_0000000000000000_0000000000000000_0000000000000000_0000000000000000_0000000000000000_0000000000000000_0000000000000000_0000000000000000_0000000000000000_0000000000000000

  /**
   * `format(v, ".2f")` succeeds for floats, bools and the ints a float can hold,
   * and raises for anything else (an OverflowError for a huge int, a
   * TypeError or ValueError otherwise).
   */
  predicate FormatsAsFixed(v: Json)
  {
    v.JFloat? || v.JBool? || (v.JInt? && -FloatIntLimit < v.i < FloatIntLimit)
  }
}
