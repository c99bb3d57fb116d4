/** Shared vocabulary: optional values, results, bytes, and the few Java string
    operations the plugin relies on (contains, startsWith, toLowerCase, trim,
    split, Boolean.parseBoolean, Integer.parseInt), each stated on `seq<char>`. */
module Base {

  datatype Option<+T> = None | Some(value: T) {
    function GetOr(default: T): T {
      match this
      case Some(v) => v
      case None => default
    }
  }

  /** The errors the modelled code raises, named after what the source throws. */
  datatype Error =
    | ConfigurationError(message: string)     // ConfigurationException
    | InvalidEnumName(name: string)           // IllegalArgumentException from Enum.valueOf
    | MissingJobConfEntry(key: string)        // NullPointerException on jobConf.get(key).toString()
    | StorageReadError(path: string)          // StorageException from the storage tree
    | ResourceModelSourceError(message: string)
    | BundleError(message: string)            // RuntimeException from createBundle
    | MalformedFact(key: string)              // a Gson accessor failing on one fact document

  datatype Result<+T> = Success(value: T) | Failure(error: Error) {
    predicate IsFailure() { Failure? }
    function PropagateFailure<U>(): Result<U>
      requires Failure?
    {
      Failure(error)
    }
    function Extract(): T
      requires Success?
    {
      value
    }
  }

  type byte = b: int | 0 <= b < 256

  /** An ordered string map: the entries of a platform map in its iteration order. */
  type Vars = seq<(string, string)>

  function Keys(vars: Vars): (ks: seq<string>)
    ensures |ks| == |vars|
    ensures forall i :: 0 <= i < |vars| ==> ks[i] == vars[i].0
  {
    if vars == [] then [] else Keys(vars[..|vars| - 1]) + [vars[|vars| - 1].0]
  }

  predicate StartsWith(s: string, prefix: string) {
    |prefix| <= |s| && s[..|prefix|] == prefix
  }

  /** Java's String.contains. */
  predicate Contains(s: string, sub: string)
    decreases |s|
  {
    StartsWith(s, sub) || (|s| > 0 && Contains(s[1..], sub))
  }

  lemma {:induction false} ContainsConcat(a: string, sub: string, b: string)
    ensures Contains(a + sub + b, sub)
    decreases |a|
  {
    if |a| == 0 {
      assert (a + sub + b)[..|sub|] == sub;
    } else {
      assert (a + sub + b)[1..] == a[1..] + sub + b;
      ContainsConcat(a[1..], sub, b);
    }
  }

  lemma {:induction false} ContainsLeft(a: string, sub: string, b: string)
    requires Contains(a, sub)
    ensures Contains(a + b, sub)
    decreases |a|
  {
    if StartsWith(a, sub) {
      assert (a + b)[..|sub|] == a[..|sub|];
    } else {
      assert (a + b)[1..] == a[1..] + b;
      ContainsLeft(a[1..], sub, b);
    }
  }

  lemma {:induction false} ContainsRight(a: string, sub: string, b: string)
    requires Contains(b, sub)
    ensures Contains(a + b, sub)
    decreases |a|
  {
    if |a| > 0 {
      assert (a + b)[1..] == a[1..] + b;
      ContainsRight(a[1..], sub, b);
    } else {
      assert a + b == b;
    }
  }

  /** `sub` occurs in `s` starting at position `i`. */
  predicate OccursAt(s: string, sub: string, i: int) {
    0 <= i && i + |sub| <= |s| && s[i..i + |sub|] == sub
  }

  /** A contained text occurs at some position: the converse of ContainsConcat. */
  lemma {:induction false} ContainsAt(s: string, sub: string)
    requires Contains(s, sub)
    ensures exists i :: OccursAt(s, sub, i)
    decreases |s|
  {
    if StartsWith(s, sub) {
      assert OccursAt(s, sub, 0);
    } else {
      ContainsAt(s[1..], sub);
      var i :| OccursAt(s[1..], sub, i);
      assert s[i + 1..i + 1 + |sub|] == s[1..][i..i + |sub|];
      assert OccursAt(s, sub, i + 1);
    }
  }

  /** The marker after which DataContextUtils.replaceDataReferences is applied. */
  predicate HasReference(s: string) {
    exists i :: 0 <= i < |s| - 1 && s[i] == '$' && s[i + 1] == '{'
  }

  function LowerChar(c: char): char {
    if 'A' <= c <= 'Z' then (c as int + 32) as char else c
  }

  /** String.toLowerCase, restricted to ASCII letters. */
  function ToLower(s: string): (r: string)
    ensures |r| == |s|
    ensures forall i :: 0 <= i < |s| ==> r[i] == LowerChar(s[i])
  {
    seq(|s|, i requires 0 <= i < |s| => LowerChar(s[i]))
  }

  /** Lower-casing works character by character, so it distributes over
      concatenation. */
  lemma ToLowerConcat(a: string, b: string)
    ensures ToLower(a + b) == ToLower(a) + ToLower(b)
  {
    assert forall i :: 0 <= i < |a + b| ==> ToLower(a + b)[i] == (ToLower(a) + ToLower(b))[i];
  }

  /** String.equalsIgnoreCase, restricted to ASCII letters. */
  predicate EqualsIgnoreCase(a: string, b: string) {
    ToLower(a) == ToLower(b)
  }

  /** Boolean.parseBoolean: true exactly for a non-null "true" in any letter case. */
  predicate ParseBoolean(s: Option<string>) {
    s.Some? && EqualsIgnoreCase(s.value, "true")
  }

  /** Every character is at or below U+0020, the characters String.trim drops. */
  predicate AllBlank(s: string) {
    forall k :: 0 <= k < |s| ==> s[k] <= ' '
  }

  /** `s` without its leading characters at or below U+0020. */
  function TrimStart(s: string): (r: string)
    ensures |r| <= |s| && r == s[|s| - |r|..]
    ensures |r| > 0 ==> r[0] > ' '
    ensures AllBlank(s[..|s| - |r|])
  {
    if |s| > 0 && s[0] <= ' ' then
      var r := TrimStart(s[1..]);
      assert s[..|s| - |r|] == [s[0]] + s[1..][..|s| - 1 - |r|];
      r
    else s
  }

  /** `s` without its trailing characters at or below U+0020. */
  function TrimEnd(s: string): (r: string)
    ensures |r| <= |s| && r == s[..|r|]
    ensures |r| > 0 ==> r[|r| - 1] > ' '
    ensures AllBlank(s[|r|..])
  {
    if |s| > 0 && s[|s| - 1] <= ' ' then
      var r := TrimEnd(s[..|s| - 1]);
      assert s[|r|..] == s[..|s| - 1][|r|..] + [s[|s| - 1]];
      r
    else s
  }

  /** How many leading characters String.trim drops. */
  function TrimOffset(s: string): nat
    ensures TrimOffset(s) <= |s|
  {
    |s| - |TrimStart(s)|
  }

  /** String.trim: drops every leading and trailing character at or below
      U+0020 (TrimIsSlice states exactly which slice remains). */
  function Trim(s: string): (r: string)
    ensures |r| <= |s|
    ensures |r| > 0 ==> r[0] > ' ' && r[|r| - 1] > ' '
  {
    TrimEnd(TrimStart(s))
  }

  /** What Trim keeps is the slice of `s` starting at TrimOffset(s); every
      character outside it is at or below U+0020, so exactly the blank ends
      are dropped. */
  lemma TrimIsSlice(s: string)
    ensures TrimOffset(s) + |Trim(s)| <= |s|
    ensures Trim(s) == s[TrimOffset(s)..TrimOffset(s) + |Trim(s)|]
    ensures AllBlank(s[..TrimOffset(s)])
    ensures AllBlank(s[TrimOffset(s) + |Trim(s)|..])
  {
    PrefixOfSuffix(s, TrimOffset(s), TrimStart(s), Trim(s));
  }

  /** A prefix of a suffix is a slice, and what follows it in the suffix
      follows it in the whole text. */
  lemma PrefixOfSuffix(s: string, o: nat, t: string, r: string)
    requires o <= |s| && t == s[o..] && |r| <= |t| && r == t[..|r|] && AllBlank(t[|r|..])
    ensures o + |r| <= |s| && r == s[o..o + |r|] && AllBlank(s[o + |r|..])
  {
    assert s[o + |r|..] == t[|r|..];
  }

  /** A word with no blank at either end, followed by one blank, trims back to
      the word. */
  lemma TrimOfWordAndBlank(w: string)
    requires |w| > 0 && w[0] > ' ' && w[|w| - 1] > ' '
    ensures Trim(w + " ") == w
  {
    var x := w + " ";
    assert x[0] == w[0];
    assert TrimStart(x) == x;
    assert x[..|x| - 1] == w;
    assert TrimEnd(x) == TrimEnd(w);
    assert TrimEnd(w) == w;
  }

  /** When `whole` begins with `head + p`, `p` sits in `whole` right after `head`. */
  lemma SliceAfterPrefix(whole: string, head: string, p: string)
    requires |head + p| <= |whole| && whole[..|head + p|] == head + p
    ensures |head| + |p| <= |whole| && whole[|head|..|head| + |p|] == p
  {
    assert whole[|head|..|head| + |p|] == (head + p)[|head|..];
  }

  /** The pieces of `s` between occurrences of `d`, empty pieces included. */
  function Pieces(s: string, d: char): (r: seq<string>)
    ensures |r| >= 1
    ensures forall i :: 0 <= i < |r| ==> d !in r[i]
  {
    if |s| == 0 then [""]
    else
      var rest := Pieces(s[1..], d);
      if s[0] == d then [""] + rest else [[s[0]] + rest[0]] + rest[1..]
  }

  /** Joins strings with a delimiter character, the inverse of Pieces. */
  function Join(parts: seq<string>, d: char): string
    requires |parts| >= 1
  {
    if |parts| == 1 then parts[0] else parts[0] + [d] + Join(parts[1..], d)
  }

  lemma {:induction false} JoinPieces(s: string, d: char)
    ensures Join(Pieces(s, d), d) == s
  {
    if |s| > 0 {
      JoinPieces(s[1..], d);
      var rest := Pieces(s[1..], d);
      if s[0] == d {
        assert Pieces(s, d)[1..] == rest;
      } else {
        var r := Pieces(s, d);
        if |rest| == 1 {
          assert Join(r, d) == [s[0]] + rest[0];
        } else {
          assert r[1..] == rest[1..];
          assert Join(rest, d) == rest[0] + [d] + Join(rest[1..], d);
        }
      }
    }
  }

  function DropTrailingEmpty(ps: seq<string>): (r: seq<string>)
    ensures r <= ps
    ensures |r| > 0 ==> r[|r| - 1] != ""
    ensures forall i :: |r| <= i < |ps| ==> ps[i] == ""
  {
    if |ps| > 0 && ps[|ps| - 1] == "" then DropTrailingEmpty(ps[..|ps| - 1]) else ps
  }

  /** String.split on a single literal character: the string itself when the
      delimiter does not occur, otherwise its pieces without the trailing empty ones. */
  function JavaSplit(s: string, d: char): (r: seq<string>)
    ensures forall i :: 0 <= i < |r| ==> d !in r[i]
    ensures d !in s ==> r == [s]
    ensures d in s ==> r <= Pieces(s, d)
    ensures d in s && |r| > 0 ==> r[|r| - 1] != ""
    ensures d in s ==> forall i :: |r| <= i < |Pieces(s, d)| ==> Pieces(s, d)[i] == ""
  {
    if d !in s then [s] else DropTrailingEmpty(Pieces(s, d))
  }

  predicate IsDigit(c: char) {
    '0' <= c <= '9'
  }

  predicate AllDigits(s: string) {
    |s| > 0 && forall i :: 0 <= i < |s| ==> IsDigit(s[i])
  }

  function DigitsValue(s: string): nat
    requires forall i :: 0 <= i < |s| ==> IsDigit(s[i])
  {
    if |s| == 0 then 0
    else
      assert IsDigit(s[|s| - 1]);
      DigitsValue(s[..|s| - 1]) * 10 + (s[|s| - 1] as int - '0' as int)
  }

  const IntMin: int := -2147483648
  const IntMax: int := 2147483647

  /** Integer.parseInt: an optional sign and one or more decimal digits whose
      value fits in 32 bits; anything else is a NumberFormatException (None). */
  function ParseInt(s: string): (r: Option<int>)
    ensures r.Some? ==> IntMin <= r.value <= IntMax
    ensures r.Some? ==> |s| > 0
    ensures r.Some? && |s| > 0 ==>
              (AllDigits(s) && r.value == DigitsValue(s)) ||
              (s[0] == '+' && AllDigits(s[1..]) && r.value == DigitsValue(s[1..])) ||
              (s[0] == '-' && AllDigits(s[1..]) && r.value == 0 - DigitsValue(s[1..]))
    ensures AllDigits(s) && DigitsValue(s) <= IntMax ==> r == Some(DigitsValue(s))
    ensures |s| > 0 && s[0] == '+' && AllDigits(s[1..]) && DigitsValue(s[1..]) <= IntMax ==>
              r == Some(DigitsValue(s[1..]))
    ensures |s| > 0 && s[0] == '-' && AllDigits(s[1..]) && DigitsValue(s[1..]) <= 0 - IntMin ==>
              r == Some(0 - DigitsValue(s[1..]))
  {
    if |s| == 0 then None
    else
      var digits := if s[0] == '-' || s[0] == '+' then s[1..] else s;
      if !AllDigits(digits) then None
      else
        var v: int := if s[0] == '-' then 0 - (DigitsValue(digits) as int) else DigitsValue(digits);
        if IntMin <= v <= IntMax then Some(v) else None
  }

  /** The decimal spelling of a natural number (Integer.toString). */
  function DecimalString(n: nat): (r: string)
    ensures |r| > 0
    ensures forall i :: 0 <= i < |r| ==> IsDigit(r[i])
  {
    if n < 10 then [('0' as int + n) as char]
    else DecimalString(n / 10) + [('0' as int + n % 10) as char]
  }

  lemma {:induction false} DigitsValueOfDecimal(n: nat)
    ensures DigitsValue(DecimalString(n)) == n
  {
    if n >= 10 {
      DigitsValueOfDecimal(n / 10);
      var s := DecimalString(n);
      assert s[..|s| - 1] == DecimalString(n / 10);
    }
  }

  /** ParseInt reads back every non-negative 32-bit number it is given in decimal. */
  lemma ParseIntDecimal(n: nat)
    requires n <= IntMax
    ensures ParseInt(DecimalString(n)) == Some(n)
  {
    DigitsValueOfDecimal(n);
  }

  /** ParseInt reads back every 32-bit number written with an explicit sign:
      "-" down to -2147483648, "+" up to 2147483647. */
  lemma ParseIntSigned(n: nat)
    ensures n <= 0 - IntMin ==> ParseInt("-" + DecimalString(n)) == Some(0 - n)
    ensures n <= IntMax ==> ParseInt("+" + DecimalString(n)) == Some(n)
  {
    DigitsValueOfDecimal(n);
    assert ("-" + DecimalString(n))[1..] == DecimalString(n);
    assert ("+" + DecimalString(n))[1..] == DecimalString(n);
  }
}
