/** Shared vocabulary of the model: optional values, the exceptions the
    library raises, and the handful of .NET string operations the core
    relies on (trimming, ordinal ignore-case comparison, splitting, and
    invariant-culture integer parsing and formatting). */
module Common {

  datatype Option<T> = None | Some(value: T)

  /** The exceptions the modelled code throws, by .NET exception type. */
  datatype Error =
    | ArgumentNull
    | Argument                  // ArgumentException
    | ArgumentOutOfRange
    | DuplicateKey              // ArgumentException from IDictionary.Add
    | InvalidOperation
    | NotSupported
    | Format                    // FormatException
    | NullReference             // NullReferenceException
    | OptionsValidation(optionsName: string, failures: seq<string>)
    | HttpRequestFailed         // EnsureSuccessStatusCode
    | TaskCanceled
    | TaskFaulted

  datatype Result<T> = Ok(value: T) | Err(error: Error)

  datatype Outcome = Pass | Fail(error: Error)

  /** Options.DefaultName of the options framework. */
  const DefaultName: string := ""

  /** `name ?? Options.DefaultName` */
  function NameOrDefault(name: Option<string>): (r: string)
    ensures name.Some? ==> r == name.value
    ensures name.None? ==> r == DefaultName
  {
    if name.Some? then name.value else DefaultName
  }

  // ---------------------------------------------------------------------
  // Trimming

  /** char.IsWhiteSpace, restricted to the ASCII and Latin-1 white space. */
  predicate IsWhiteSpace(c: char)
  {
    c == ' ' || ('\t' <= c <= '\r') || c == '\U{85}' || c == '\U{A0}'
  }

  predicate IsTrimmed(s: string)
  {
    s == [] || (!IsWhiteSpace(s[0]) && !IsWhiteSpace(s[|s| - 1]))
  }

  function TrimStart(s: string): (r: string)
    ensures |r| <= |s| && r == s[|s| - |r|..]
    ensures r == [] || !IsWhiteSpace(r[0])
    ensures forall i :: 0 <= i < |s| - |r| ==> IsWhiteSpace(s[i])
  {
    if s != [] && IsWhiteSpace(s[0]) then TrimStart(s[1..]) else s
  }

  function TrimEnd(s: string): (r: string)
    ensures |r| <= |s| && r == s[..|r|]
    ensures r == [] || !IsWhiteSpace(r[|r| - 1])
    ensures forall i :: |r| <= i < |s| ==> IsWhiteSpace(s[i])
  {
    if s != [] && IsWhiteSpace(s[|s| - 1]) then TrimEnd(s[..|s| - 1]) else s
  }

  /** string.Trim / ReadOnlySpan<char>.Trim: strip white space at both ends. */
  function Trim(s: string): (r: string)
    ensures |r| <= |s| && IsTrimmed(r)
    ensures IsTrimmed(s) ==> r == s
    ensures r == [] <==> forall i :: 0 <= i < |s| ==> IsWhiteSpace(s[i])
    ensures forall c :: c in r ==> c in s
  {
    var t := TrimStart(s);
    var r := TrimEnd(t);
    assert r != [] ==> r[0] == t[0];
    assert t == [] ==> r == [];
    assert t != [] ==> r != [] && !IsWhiteSpace(s[|s| - |t|]);
    r
  }

  /** Trimming leaves an already-trimmed string alone, so Trim is idempotent. */
  lemma TrimOfTrimmed(s: string)
    requires IsTrimmed(s)
    ensures Trim(s) == s
  {
  }

  // ---------------------------------------------------------------------
  // Ordinal ignore-case comparison (ASCII case folding)

  function ToUpperChar(c: char): char
  {
    if 'a' <= c <= 'z' then (c as int - 32) as char else c
  }

  function ToUpper(s: string): (r: string)
    ensures |r| == |s|
    ensures forall i :: 0 <= i < |s| ==> r[i] == ToUpperChar(s[i])
  {
    if s == [] then [] else [ToUpperChar(s[0])] + ToUpper(s[1..])
  }

  lemma ToUpperIdempotent(s: string)
    ensures ToUpper(ToUpper(s)) == ToUpper(s)
  {
  }

  /** StringComparison.OrdinalIgnoreCase equality. */
  predicate EqualsIgnoreCase(a: string, b: string)
  {
    ToUpper(a) == ToUpper(b)
  }

  // ---------------------------------------------------------------------
  // Searching and splitting

  /** ReadOnlySpan<char>.IndexOf(c): the first position of c, or -1. */
  function IndexOfChar(s: string, c: char): (r: int)
    ensures -1 <= r < |s|
    ensures r >= 0 ==> s[r] == c && c !in s[..r]
    ensures r == -1 <==> c !in s
  {
    if s == [] then -1
    else if s[0] == c then 0
    else
      var k := IndexOfChar(s[1..], c);
      assert s[1..][..if k < 0 then 0 else k] == s[1..if k < 0 then 1 else k + 1];
      if k < 0 then -1 else k + 1
  }

  /** IList<T>.IndexOf(x) with default equality: the first position of x, or -1. */
  function IndexOf<T(==)>(s: seq<T>, x: T): (r: int)
    ensures -1 <= r < |s|
    ensures r >= 0 ==> s[r] == x && x !in s[..r]
    ensures r == -1 <==> x !in s
  {
    if s == [] then -1
    else if s[0] == x then 0
    else
      var k := IndexOf(s[1..], x);
      assert s[1..][..if k < 0 then 0 else k] == s[1..if k < 0 then 1 else k + 1];
      if k < 0 then -1 else k + 1
  }

  /** string.Split(sep) with no options: the pieces between separators. */
  function SplitOn(s: string, sep: char): (r: seq<string>)
    ensures |r| >= 1
    ensures forall i :: 0 <= i < |r| ==> sep !in r[i]
  {
    var k := IndexOfChar(s, sep);
    if k < 0 then [s] else [s[..k]] + SplitOn(s[k + 1..], sep)
  }

  /** `string.Join(sep, xs)`, the inverse of SplitOn. */
  function JoinWith(xs: seq<string>, sep: char): string
  {
    if xs == [] then []
    else if |xs| == 1 then xs[0]
    else xs[0] + [sep] + JoinWith(xs[1..], sep)
  }

  /** The first separator of `a + [sep] + b` is the one after `a` when `a` has none. */
  lemma IndexOfCharAfter(a: string, sep: char, b: string)
    requires sep !in a
    ensures IndexOfChar(a + [sep] + b, sep) == |a|
  {
    var s := a + [sep] + b;
    var k := IndexOfChar(s, sep);
    assert s[|a|] == sep;
    assert s[..|a|] == a;
  }

  lemma {:induction false} SplitJoinRoundTrip(xs: seq<string>, sep: char)
    requires |xs| >= 1
    requires forall i :: 0 <= i < |xs| ==> sep !in xs[i]
    ensures SplitOn(JoinWith(xs, sep), sep) == xs
  {
    if |xs| == 1 {
      assert IndexOfChar(xs[0], sep) == -1;
    } else {
      var rest := JoinWith(xs[1..], sep);
      var s := xs[0] + [sep] + rest;
      assert JoinWith(xs, sep) == s;
      IndexOfCharAfter(xs[0], sep, rest);
      assert s[..|xs[0]|] == xs[0];
      assert s[|xs[0]| + 1..] == rest;
      SplitJoinRoundTrip(xs[1..], sep);
      assert SplitOn(s, sep) == [xs[0]] + xs[1..];
    }
  }

  // ---------------------------------------------------------------------
  // Decimal digits

  predicate IsDigit(c: char) { '0' <= c <= '9' }

  predicate AllDigits(s: string)
  {
    forall i :: 0 <= i < |s| ==> IsDigit(s[i])
  }

  function DigitChar(d: nat): (c: char)
    requires d < 10
    ensures IsDigit(c)
  {
    ('0' as int + d) as char
  }

  function DigitsValue(s: string): nat
    requires AllDigits(s)
  {
    if s == [] then 0
    else DigitsValue(s[..|s| - 1]) * 10 + (s[|s| - 1] as int - '0' as int)
  }

  /** The shortest decimal spelling of n. */
  function NatToDigits(n: nat): (r: string)
    ensures |r| >= 1 && AllDigits(r)
  {
    if n < 10 then [DigitChar(n)] else NatToDigits(n / 10) + [DigitChar(n % 10)]
  }

  lemma {:induction false} NatToDigitsValue(n: nat)
    ensures DigitsValue(NatToDigits(n)) == n
  {
    var r := NatToDigits(n);
    if n >= 10 {
      NatToDigitsValue(n / 10);
      assert r[..|r| - 1] == NatToDigits(n / 10);
    }
  }

  /** Leading zeros do not change the value of a digit string. */
  lemma {:induction false} LeadingZerosValue(z: nat, s: string)
    requires AllDigits(s)
    ensures AllDigits(Zeros(z) + s) && DigitsValue(Zeros(z) + s) == DigitsValue(s)
  {
    if s == [] {
      ZerosValue(z);
      assert Zeros(z) + s == Zeros(z);
    } else {
      var t := Zeros(z) + s;
      assert t[..|t| - 1] == Zeros(z) + s[..|s| - 1];
      LeadingZerosValue(z, s[..|s| - 1]);
    }
  }

  function Zeros(z: nat): (r: string)
    ensures |r| == z && AllDigits(r)
    ensures forall i :: 0 <= i < z ==> r[i] == '0'
  {
    if z == 0 then [] else Zeros(z - 1) + "0"
  }

  lemma {:induction false} ZerosValue(z: nat)
    ensures DigitsValue(Zeros(z)) == 0
  {
    if z > 0 {
      ZerosValue(z - 1);
      assert Zeros(z)[..z - 1] == Zeros(z - 1);
    }
  }

  /** Int32.ToString() in the invariant culture. */
  function FormatInt(n: int): string
  {
    if n < 0 then "-" + NatToDigits(-n) else NatToDigits(n)
  }

  /** Int32.ToString("0000"): the sign, then at least four digits. */
  function FormatInt0000(n: int): (r: string)
    ensures n >= 0 ==> |r| >= 4 && AllDigits(r)
    ensures n < 0 ==> |r| >= 5 && r[0] == '-' && AllDigits(r[1..])
  {
    var digits := NatToDigits(if n < 0 then -n else n);
    var padded := if |digits| < 4 then Zeros(4 - |digits|) + digits else digits;
    assert AllDigits(padded);
    if n < 0 then "-" + padded else padded
  }

  // ---------------------------------------------------------------------
  // Int32.TryParse(s, NumberStyles.Integer, CultureInfo.InvariantCulture)

  /** White space that NumberStyles.AllowLeading/TrailingWhite accepts. */
  predicate IsNumberWhiteSpace(c: char)
  {
    c == ' ' || ('\t' <= c <= '\r')
  }

  function SkipNumberWhiteSpace(s: string): (r: string)
    ensures |r| <= |s| && r == s[|s| - |r|..]
    ensures r == [] || !IsNumberWhiteSpace(r[0])
    ensures forall i :: 0 <= i < |s| - |r| ==> IsNumberWhiteSpace(s[i])
  {
    if s != [] && IsNumberWhiteSpace(s[0]) then SkipNumberWhiteSpace(s[1..]) else s
  }

  function DropNumberWhiteSpaceEnd(s: string): (r: string)
    ensures |r| <= |s| && r == s[..|r|]
    ensures r == [] || !IsNumberWhiteSpace(r[|r| - 1])
    ensures forall i :: |r| <= i < |s| ==> IsNumberWhiteSpace(s[i])
  {
    if s != [] && IsNumberWhiteSpace(s[|s| - 1]) then DropNumberWhiteSpaceEnd(s[..|s| - 1]) else s
  }

  predicate InInt32(n: int) { -0x8000_0000 <= n < 0x8000_0000 }

  /** The parser's compatibility rule for trailing zeros: once the number
      and its trailing white space are read, what remains may be a run of
      '\0' characters. */
  function DropTrailingNuls(s: string): (r: string)
    ensures |r| <= |s| && r == s[..|r|]
    ensures r == [] || r[|r| - 1] != '\0'
    ensures forall i :: |r| <= i < |s| ==> s[i] == '\0'
  {
    if s != [] && s[|s| - 1] == '\0' then DropTrailingNuls(s[..|s| - 1]) else s
  }

  /** The text TryParseInt32 reads: leading white space skipped, then a
      final run of '\0' characters and the white space before it dropped. */
  function TrimNumberWhiteSpace(s: string): string
  {
    DropNumberWhiteSpaceEnd(DropTrailingNuls(SkipNumberWhiteSpace(s)))
  }

  /** Optional surrounding white space, an optional sign, one or more
      decimal digits, optional trailing '\0' characters, and a value that
      fits 32 bits; anything else fails. */
  function TryParseInt32(s: string): (r: Option<int>)
    ensures r.Some? ==> InInt32(r.value)
  {
    ParseSignedDigits(TrimNumberWhiteSpace(s))
  }

  function ParseSignedDigits(t: string): (r: Option<int>)
    ensures r.Some? ==> InInt32(r.value)
  {
    if t == [] then None
    else
      var body := if t[0] == '-' || t[0] == '+' then t[1..] else t;
      if body == [] || !AllDigits(body) then None
      else
        var v: int := if t[0] == '-' then -(DigitsValue(body) as int) else DigitsValue(body);
        if InInt32(v) then Some(v) else None
  }

  /** A sign NumberStyles.AllowLeadingSign accepts: none, '+' or '-'. */
  predicate IsSign(sign: string)
  {
    sign == "" || sign == "+" || sign == "-"
  }

  function SignedValue(sign: string, digits: string): int
    requires AllDigits(digits)
  {
    if sign == "-" then -(DigitsValue(digits) as int) else DigitsValue(digits)
  }

  /** Acceptance: when the trimmed text is a sign followed by one or more
      digits, TryParseInt32 yields their value exactly when it fits 32
      bits. */
  lemma TryParseInt32Accepts(s: string, sign: string, digits: string)
    requires IsSign(sign) && |digits| >= 1 && AllDigits(digits)
    requires TrimNumberWhiteSpace(s) == sign + digits
    ensures InInt32(SignedValue(sign, digits)) ==> TryParseInt32(s) == Some(SignedValue(sign, digits))
    ensures !InInt32(SignedValue(sign, digits)) ==> TryParseInt32(s) == None
  {
    var t := sign + digits;
    if sign == "" {
      assert t == digits;
    } else {
      assert t[0] == sign[0] && t[1..] == digits;
    }
  }

  /** Rejection: whatever TryParseInt32 accepts has, once trimmed, the
      shape of a sign followed by one or more digits whose value it is. */
  lemma TryParseInt32Decomposes(s: string) returns (sign: string, digits: string)
    requires TryParseInt32(s).Some?
    ensures IsSign(sign) && |digits| >= 1 && AllDigits(digits)
    ensures TrimNumberWhiteSpace(s) == sign + digits
    ensures TryParseInt32(s) == Some(SignedValue(sign, digits))
  {
    var t := TrimNumberWhiteSpace(s);
    if t[0] == '-' || t[0] == '+' {
      sign, digits := [t[0]], t[1..];
      assert t == sign + digits;
    } else {
      sign, digits := "", t;
      assert t == sign + digits;
    }
  }

  /** Text without white space at either end and no final '\0' is read
      as it is. */
  lemma TrimWithoutWhiteSpace(s: string)
    requires s != [] && !IsNumberWhiteSpace(s[0]) && !IsNumberWhiteSpace(s[|s| - 1]) && s[|s| - 1] != '\0'
    ensures TrimNumberWhiteSpace(s) == s
  {
    assert SkipNumberWhiteSpace(s) == s;
    assert DropTrailingNuls(s) == s;
    assert DropNumberWhiteSpaceEnd(s) == s;
  }

  /** k '\0' characters. */
  function Nuls(k: nat): (r: string)
    ensures |r| == k && forall i :: 0 <= i < k ==> r[i] == '\0'
  {
    if k == 0 then [] else Nuls(k - 1) + ['\0']
  }

  /** Any number of '\0' characters appended to any text change nothing
      TryParseInt32 decides. */
  lemma TrailingNulsIgnored(s: string, k: nat)
    ensures TryParseInt32(s + Nuls(k)) == TryParseInt32(s)
  {
    SkipAppendNuls(s, k);
    DropAppendedNuls(SkipNumberWhiteSpace(s), k);
    assert TrimNumberWhiteSpace(s + Nuls(k)) == TrimNumberWhiteSpace(s);
  }

  lemma SkipAppendNuls(s: string, k: nat)
    ensures SkipNumberWhiteSpace(s + Nuls(k)) == SkipNumberWhiteSpace(s) + Nuls(k)
  {
    if k == 0 {
      assert s + Nuls(k) == s;
      assert SkipNumberWhiteSpace(s) + Nuls(k) == SkipNumberWhiteSpace(s);
    } else {
      SkipThenAppend(s, Nuls(k));
    }
  }

  lemma DropAppendedNuls(x: string, k: nat)
    ensures DropTrailingNuls(x + Nuls(k)) == DropTrailingNuls(x)
  {
    DropNulSuffix(x, Nuls(k));
  }

  /** Dropping the final run of '\0' removes any '\0' suffix. */
  lemma {:induction false} DropNulSuffix(x: string, t: string)
    requires forall i :: 0 <= i < |t| ==> t[i] == '\0'
    ensures DropTrailingNuls(x + t) == DropTrailingNuls(x)
    decreases |t|
  {
    var xt := x + t;
    if t == [] {
      assert xt == x;
    } else {
      var init := t[..|t| - 1];
      assert xt[|xt| - 1] == '\0';
      assert xt[..|xt| - 1] == x + init;
      DropNulSuffix(x, init);
    }
  }

  /** Leading white space is skipped the same way whatever follows, as
      long as what follows does not start with white space. */
  lemma {:induction false} SkipThenAppend(s: string, t: string)
    requires t != [] && !IsNumberWhiteSpace(t[0])
    ensures SkipNumberWhiteSpace(s + t) == SkipNumberWhiteSpace(s) + t
    decreases |s|
  {
    var st := s + t;
    if s == [] {
      assert st == t;
    } else if IsNumberWhiteSpace(s[0]) {
      assert st[0] == s[0];
      assert st[1..] == s[1..] + t;
      SkipThenAppend(s[1..], t);
    } else {
      assert st[0] == s[0];
      assert SkipNumberWhiteSpace(st) == st;
    }
  }

  /** A sign and digits with nothing around them parse to their value. */
  lemma ParsesSignedDigits(sign: string, digits: string)
    requires IsSign(sign) && |digits| >= 1 && AllDigits(digits)
    requires InInt32(SignedValue(sign, digits))
    ensures TryParseInt32(sign + digits) == Some(SignedValue(sign, digits))
  {
    var s := sign + digits;
    assert s[|s| - 1] == digits[|digits| - 1];
    assert IsDigit(digits[0]);
    assert s[0] == if sign == "" then digits[0] else sign[0];
    TrimWithoutWhiteSpace(s);
    TryParseInt32Accepts(s, sign, digits);
  }

  /** Formatting an int32 and parsing it back gives the same number. */
  lemma FormatParseRoundTrip(n: int)
    requires InInt32(n)
    ensures TryParseInt32(FormatInt(n)) == Some(n)
  {
    var sign := if n < 0 then "-" else "";
    var m: nat := if n < 0 then -n else n;
    NatToDigitsValue(m);
    assert FormatInt(n) == sign + NatToDigits(m);
    ParsesSignedDigits(sign, NatToDigits(m));
  }

  /** FormatInt0000 is an optional minus sign followed by digits that denote |n|. */
  lemma FormatInt0000Shape(n: int) returns (padded: string)
    ensures |padded| >= 1 && AllDigits(padded) && DigitsValue(padded) == (if n < 0 then -n else n)
    ensures FormatInt0000(n) == (if n < 0 then "-" else "") + padded
  {
    var m: nat := if n < 0 then -n else n;
    var digits := NatToDigits(m);
    NatToDigitsValue(m);
    padded := if |digits| < 4 then Zeros(4 - |digits|) + digits else digits;
    if |digits| < 4 {
      LeadingZerosValue(4 - |digits|, digits);
    }
  }

  /** The "0000" format also reads back as the same number. */
  lemma FormatInt0000RoundTrip(n: int)
    requires InInt32(n)
    ensures TryParseInt32(FormatInt0000(n)) == Some(n)
  {
    var padded := FormatInt0000Shape(n);
    ParsesSignedDigits(if n < 0 then "-" else "", padded);
  }
}
