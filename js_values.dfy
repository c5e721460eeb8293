/** The shapes request fields take as the controllers see them, the tests the
    controllers apply to them, and the JavaScript string built-ins they use
    (`trim`, `join`, number-to-string). */
module JsValues {

  /** A request field the controllers read as a number.
      Missing: absent, null or the empty string.
      NotNumeric: a value for which `isNaN` holds ("abc").
      Num(n, isNumber): an integer-valued field; isNumber tells a JSON number
      (`typeof x === 'number'`) from a numeric string such as "7". */
  datatype NumArg = Missing | NotNumeric | Num(n: int, isNumber: bool)

  /** A request field the controllers read as text.
      Absent: absent or null. NotText: a truthy value that is not a string. */
  datatype TextArg = Absent | Text(s: string) | NotText

  /** JavaScript truthiness of a numeric field: a numeric string is truthy,
      even "0"; the number 0 is falsy. */
  predicate NumTruthy(a: NumArg)
  {
    match a
    case Missing => false
    case NotNumeric => true
    case Num(n, isNumber) => !isNumber || n != 0
  }

  predicate TextTruthy(a: TextArg)
  {
    match a
    case Absent => false
    case Text(s) => s != []
    case NotText => true
  }

  /** The test `!x || isNaN(x) || parseInt(x) <= 0` does NOT reject x. */
  predicate IsPositiveInt(a: NumArg)
  {
    a.Num? && a.n > 0
  }

  /** The test `!x || typeof x !== 'number' || x <= 0` does NOT reject x. */
  predicate IsPositiveNumber(a: NumArg)
  {
    a.Num? && a.isNumber && a.n > 0
  }

  /** The test `!name || typeof name !== 'string' || name.trim() === ''` does
      NOT reject name. */
  predicate IsNonBlankText(a: TextArg)
  {
    a.Text? && Trim(a.s) != []
  }

  /** The characters `String.prototype.trim` strips and the regular-expression
      class `\s` matches: WhiteSpace and LineTerminator of ECMAScript. */
  predicate IsSpace(c: char)
  {
    c == ' ' || c == '\t' || c == '\n' || c == '\r' || c == '\U{000B}' || c == '\U{000C}'
    || c == '\U{00A0}' || c == '\U{1680}' || ('\U{2000}' <= c <= '\U{200A}')
    || c == '\U{2028}' || c == '\U{2029}' || c == '\U{202F}' || c == '\U{205F}'
    || c == '\U{3000}' || c == '\U{FEFF}'
  }

  predicate AllSpace(s: string)
  {
    forall i :: 0 <= i < |s| ==> IsSpace(s[i])
  }

  /** `s` without its leading white space. */
  function TrimStart(s: string): (r: string)
    ensures |r| <= |s| && r == s[|s| - |r|..]
    ensures forall i :: 0 <= i < |s| - |r| ==> IsSpace(s[i])
    ensures r != [] ==> !IsSpace(r[0])
    decreases |s|
  {
    if |s| > 0 && IsSpace(s[0]) then TrimStart(s[1..]) else s
  }

  /** `s` without its trailing white space. */
  function TrimEnd(s: string): (r: string)
    ensures |r| <= |s| && r == s[..|r|]
    ensures forall i :: |r| <= i < |s| ==> IsSpace(s[i])
    ensures r != [] ==> !IsSpace(r[|r| - 1])
    decreases |s|
  {
    if |s| > 0 && IsSpace(s[|s| - 1]) then TrimEnd(s[..|s| - 1]) else s
  }

  /** `s.trim()`. */
  function Trim(s: string): (r: string)
    ensures |r| <= |s|
    ensures r != [] ==> !IsSpace(r[0]) && !IsSpace(r[|r| - 1])
  {
    TrimEnd(TrimStart(s))
  }

  /** Trimming yields the empty string exactly when the text is all white space. */
  lemma TrimEmptyIff(s: string)
    ensures Trim(s) == [] <==> AllSpace(s)
  {
    var t := TrimStart(s);
    assert s[..|s| - |t|] + t == s;
  }

  /** What TrimStart cuts off is all white space. */
  lemma TrimStartCutIsSpace(s: string)
    ensures AllSpace(s[..|s| - |TrimStart(s)|])
  {
    var n := |s| - |TrimStart(s)|;
    forall k | 0 <= k < n
      ensures IsSpace(s[..n][k])
    {
      assert s[..n][k] == s[k];
    }
  }

  /** What TrimEnd cuts off is all white space. */
  lemma TrimEndCutIsSpace(s: string)
    ensures AllSpace(s[|TrimEnd(s)|..])
  {
    var n := |TrimEnd(s)|;
    forall k | 0 <= k < |s| - n
      ensures IsSpace(s[n..][k])
    {
      assert s[n..][k] == s[n + k];
    }
  }

  /** The trimmed text is a slice of the original with only white space cut
      off on either side, and it neither starts nor ends with white space. */
  lemma TrimIsInnerSlice(s: string)
    ensures exists i, j :: 0 <= i <= j <= |s| && Trim(s) == s[i..j]
                           && AllSpace(s[..i]) && AllSpace(s[j..])
    ensures Trim(s) != [] ==> !IsSpace(Trim(s)[0]) && !IsSpace(Trim(s)[|Trim(s)| - 1])
  {
    var t := TrimStart(s);
    var r := TrimEnd(t);
    var i := |s| - |t|;
    var j := i + |r|;
    TrimStartCutIsSpace(s);
    TrimEndCutIsSpace(t);
    assert t == s[i..];
    assert r == s[i..j];
    assert s[j..] == t[|r|..];
    if r != [] {
      assert r[0] == t[0];
    }
  }

  /** Trimming twice is trimming once. */
  lemma TrimIdempotent(s: string)
    ensures Trim(Trim(s)) == Trim(s)
  {
    var t := TrimStart(s);
    var r := TrimEnd(t);
    if r != [] {
      assert r[0] == t[0];
    }
    assert TrimStart(r) == r;
  }

  /** How many UTF-16 code units a character takes: two for one outside the
      Basic Multilingual Plane, which JavaScript stores as a surrogate pair. */
  function CodeUnits(c: char): nat
  {
    if c as int >= 0x1_0000 then 2 else 1
  }

  /** `s.length`: the number of UTF-16 code units, not of characters. */
  function Utf16Length(s: string): (n: nat)
    ensures |s| <= n <= 2 * |s|
    decreases |s|
  {
    if s == [] then 0 else Utf16Length(s[..|s| - 1]) + CodeUnits(s[|s| - 1])
  }

  lemma {:induction false} Utf16LengthAppend(a: string, b: string)
    ensures Utf16Length(a + b) == Utf16Length(a) + Utf16Length(b)
    decreases |b|
  {
    if b == [] {
      assert a + b == a;
    } else {
      assert (a + b)[..|a + b| - 1] == a + b[..|b| - 1];
      assert (a + b)[|a + b| - 1] == b[|b| - 1];
      Utf16LengthAppend(a, b[..|b| - 1]);
      assert Utf16Length(a + b) == Utf16Length(a + b[..|b| - 1]) + CodeUnits(b[|b| - 1]);
    }
  }

  /** Text made only of characters of the Basic Multilingual Plane has a
      `length` equal to its number of characters. */
  lemma {:induction false} Utf16LengthOfBasicText(s: string)
    requires forall i :: 0 <= i < |s| ==> s[i] as int < 0x1_0000
    ensures Utf16Length(s) == |s|
    decreases |s|
  {
    if s != [] {
      Utf16LengthOfBasicText(s[..|s| - 1]);
    }
  }

  /** Text made only of characters outside the Basic Multilingual Plane has
      a `length` twice its number of characters. */
  lemma {:induction false} Utf16LengthOfAstralText(s: string)
    requires forall i :: 0 <= i < |s| ==> s[i] as int >= 0x1_0000
    ensures Utf16Length(s) == 2 * |s|
    decreases |s|
  {
    if s != [] {
      Utf16LengthOfAstralText(s[..|s| - 1]);
    }
  }

  /** One emoji is one character but two code units. */
  lemma AstralCharCountsTwice()
    ensures |"\U{1F600}"| == 1 && Utf16Length("\U{1F600}") == 2
  {
    assert "\U{1F600}"[..0] == [];
  }

  /** Cutting text in two splits its `length` between the parts. */
  lemma Utf16LengthSplit(s: string, k: nat)
    requires k <= |s|
    ensures Utf16Length(s[..k]) + Utf16Length(s[k..]) == Utf16Length(s)
  {
    assert s[..k] + s[k..] == s;
    Utf16LengthAppend(s[..k], s[k..]);
  }

  /** Trimming never makes the `length` grow. */
  lemma TrimShortensUtf16(s: string)
    ensures Utf16Length(Trim(s)) <= Utf16Length(s)
  {
    var t := TrimStart(s);
    Utf16LengthSplit(s, |s| - |t|);
    var r := TrimEnd(t);
    Utf16LengthSplit(t, |r|);
  }

  /** `xs.join(sep)`. */
  function Join(xs: seq<string>, sep: string): string
    decreases |xs|
  {
    if |xs| == 0 then []
    else if |xs| == 1 then xs[0]
    else xs[0] + sep + Join(xs[1..], sep)
  }

  function DigitChar(d: int): char
    requires 0 <= d < 10
  {
    "0123456789"[d]
  }

  /** The decimal text of an integer, as a template literal writes it. */
  function IntToString(n: int): string
    decreases if n < 0 then 1 - n else n
  {
    if n < 0 then "-" + IntToString(-n)
    else if n < 10 then [DigitChar(n)]
    else IntToString(n / 10) + [DigitChar(n % 10)]
  }
}
