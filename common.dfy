/** Values shared by every part of the pipeline: optional values, the outcome of a
    throwing call, the errors that are thrown, and the few string operations of the
    Swift standard library that the pipeline relies on. */
module Common {

  datatype Option<+T> = None | Some(value: T)

  /** The outcome of a Swift call that `throws`: a value, or the error it threw. */
  datatype Result<+T> = Ok(value: T) | Err(error: Error)

  /** The errors that travel through the pipeline. */
  datatype Error =
    | ValidationError(message: string)   // ArgumentParser's `ValidationError`
    | Failure(errorDescription: string)  // the tool's own `Failure`, a `LocalizedError`
    | Foreign(description: string, localizedDescription: string)
                                         // an `NSError` raised inside a framework (Vision, Foundation):
                                         // its full description and its localized message

  /** What Foundation reports as the `localizedDescription` of an error that is not a
      `LocalizedError`, such as ArgumentParser's `ValidationError`. */
  const GenericValidationDescription: string :=
    "The operation couldn’t be completed. (ArgumentParser.ValidationError error 1.)"

  /** `error.localizedDescription`: the description a `LocalizedError` supplies, the
      framework error's localized message, or Foundation's generic text for a
      `ValidationError`. */
  function LocalizedDescription(e: Error): (r: string)
    ensures e.Failure? ==> r == e.errorDescription
    ensures e.Foreign? ==> r == e.localizedDescription
    ensures e.ValidationError? ==> r == GenericValidationDescription
  {
    match e
    case ValidationError(_) => GenericValidationDescription
    case Failure(d) => d
    case Foreign(_, message) => message
  }

  /** One character as `String.debugDescription` writes it: double and single
      quotes, backslashes and the usual control characters are escaped with a
      backslash. */
  function EscapedChar(c: char): (r: string)
    ensures 1 <= |r| <= 2
    ensures |r| == 2 <==> r[0] == '\\'
  {
    if c == '"' then "\\\"" else if c == '\'' then "\\'" else if c == '\\' then "\\\\"
    else if c == '\n' then "\\n" else if c == '\r' then "\\r"
    else if c == '\t' then "\\t" else if c == '\0' then "\\0"
    else [c]
  }

  /** The inside of `s.debugDescription`: every character escaped. */
  function Escaped(s: string): (r: string)
    ensures |r| >= |s|
  {
    if s == [] then [] else EscapedChar(s[0]) + Escaped(s[1..])
  }

  /** A text with nothing to escape is written as it is. */
  lemma {:induction false} PlainTextUnescaped(s: string)
    requires forall i :: 0 <= i < |s| ==> EscapedChar(s[i]) == [s[i]]
    ensures Escaped(s) == s
  {
    if s != [] {
      assert EscapedChar(s[0]) == [s[0]];
      PlainTextUnescaped(s[1..]);
      assert [s[0]] + s[1..] == s;
    }
  }

  /** Reads an escaped text back. */
  function Unescaped(t: string): string
  {
    if t == [] then []
    else if t[0] == '\\' && |t| >= 2 then [UnescapedChar(t[1])] + Unescaped(t[2..])
    else [t[0]] + Unescaped(t[1..])
  }

  function UnescapedChar(code: char): char
  {
    match code
    case 'n' => '\n'
    case 'r' => '\r'
    case 't' => '\t'
    case '0' => '\0'
    case _ => code
  }

  /** Escaping loses nothing: reading the escaped text back gives the original. */
  lemma {:induction false} UnescapeEscaped(s: string)
    ensures Unescaped(Escaped(s)) == s
  {
    if s != [] {
      assert Escaped(s) == EscapedChar(s[0]) + Escaped(s[1..]);
      UnescapeHead(s[0], Escaped(s[1..]));
      UnescapeEscaped(s[1..]);
      assert [s[0]] + s[1..] == s;
    }
  }

  /** Reading back an escaped character gives that character, and the rest is read
      on its own. */
  lemma UnescapeHead(c: char, rest: string)
    ensures Unescaped(EscapedChar(c) + rest) == [c] + Unescaped(rest)
  {
    var head := EscapedChar(c);
    var t := head + rest;
    if |head| == 2 {
      assert t[0] == '\\' && t[1] == head[1] && t[2..] == rest;
      assert UnescapedChar(head[1]) == c;
    } else {
      assert t[0] == c != '\\' && t[1..] == rest;
    }
  }

  /** `"\(error)"`: the error as string interpolation shows it. A `ValidationError`
      shows its message, a framework error its full `NSError` description. A
      `Failure` is a plain struct, so interpolation prints its reflection, with the
      optional description as its debug description. */
  function Interpolated(e: Error): (r: string)
    ensures e.ValidationError? ==> r == e.message
    ensures e.Foreign? ==> r == e.description
    ensures e.Failure? ==> StartsWith("Failure(errorDescription: Optional(\"", r)
                           && |r| >= |"Failure(errorDescription: Optional(\""| + 3
                           && r[|r| - 3..] == "\"))"
                           && Unescaped(r[|"Failure(errorDescription: Optional(\""|..|r| - 3]) == e.errorDescription
  {
    match e
    case ValidationError(m) => m
    case Failure(d) =>
      var lead := "Failure(errorDescription: Optional(\"";
      var r := lead + Escaped(d) + "\"))";
      assert r[..|lead|] == lead;
      assert r[|lead|..|r| - 3] == Escaped(d);
      assert r[|r| - 3..] == "\"))";
      UnescapeEscaped(d);
      r
    case Foreign(d, _) => d
  }

  /** Appending to text in two steps appends the two parts in order. */
  lemma AppendTwice(s: string, first: string, second: string)
    ensures s + first + second == s + (first + second)
  {
  }

  /** Dropping the last element of `a + b`, for a non-empty `b`, drops the last element of `b`. */
  lemma DropLastOfAppend<T>(a: seq<T>, b: seq<T>)
    requires b != []
    ensures (a + b)[..|a + b| - 1] == a + b[..|b| - 1]
    ensures (a + b)[|a + b| - 1] == b[|b| - 1]
  {
  }

  predicate StartsWith(prefix: string, s: string)
  {
    |prefix| <= |s| && s[..|prefix|] == prefix
  }

  /** `part` occurs inside `whole`, starting at index `k`. */
  predicate InfixAt(part: string, whole: string, k: nat)
  {
    k + |part| <= |whole| && whole[k..k + |part|] == part
  }

  /** `part` occurs somewhere inside `whole`. */
  ghost predicate IsInfix(part: string, whole: string)
  {
    exists k :: InfixAt(part, whole, k)
  }

  lemma InfixOfConcat(part: string, before: string, whole: string, after: string)
    requires IsInfix(part, whole)
    ensures IsInfix(part, before + whole + after)
  {
    var k: nat :| InfixAt(part, whole, k);
    var all := before + whole + after;
    assert all[|before| + k..|before| + k + |part|] == whole[k..k + |part|];
    assert InfixAt(part, all, |before| + k);
  }

  lemma InfixOfAppend(part: string, before: string, whole: string)
    requires IsInfix(part, whole)
    ensures IsInfix(part, before + whole)
  {
    InfixOfConcat(part, before, whole, []);
    assert before + whole + [] == before + whole;
  }

  lemma StartsWithAppend(s: string, more: string)
    ensures StartsWith(s, s + more)
  {
    assert (s + more)[..|s|] == s;
  }

  lemma StartsWithTransitive(a: string, b: string, c: string)
    requires StartsWith(a, b) && StartsWith(b, c)
    ensures StartsWith(a, c)
  {
    assert c[..|a|] == c[..|b|][..|a|];
  }

  lemma PrefixIsInfix(prefix: string, s: string)
    requires StartsWith(prefix, s)
    ensures IsInfix(prefix, s)
  {
    assert InfixAt(prefix, s, 0);
  }

  lemma InfixTransitive(a: string, b: string, c: string)
    requires IsInfix(a, b) && IsInfix(b, c)
    ensures IsInfix(a, c)
  {
    var k: nat :| InfixAt(a, b, k);
    var m: nat :| InfixAt(b, c, m);
    forall i | 0 <= i < |a|
      ensures c[m + k + i] == a[i]
    {
      assert c[m + k + i] == c[m..m + |b|][k + i] == b[k + i];
      assert b[k + i] == b[k..k + |a|][i];
    }
    assert InfixAt(a, c, m + k);
  }

  /** What occurs in a text occurs in every text that starts with it. */
  lemma InfixOfPrefix(part: string, prefix: string, s: string)
    requires IsInfix(part, prefix) && StartsWith(prefix, s)
    ensures IsInfix(part, s)
  {
    PrefixIsInfix(prefix, s);
    InfixTransitive(part, prefix, s);
  }

  /** `parts.joined(separator: separator)`. */
  function Join(parts: seq<string>, separator: string): (joined: string)
    ensures parts == [] ==> joined == ""
    ensures |parts| == 1 ==> joined == parts[0]
  {
    if parts == [] then ""
    else if |parts| == 1 then parts[0]
    else parts[0] + separator + Join(parts[1..], separator)
  }

  /** Every part can be found in the joined string. */
  lemma {:induction false} JoinContainsEach(parts: seq<string>, separator: string, i: nat)
    requires i < |parts|
    ensures IsInfix(parts[i], Join(parts, separator))
  {
    var joined := Join(parts, separator);
    if i == 0 {
      assert joined[0..|parts[0]|] == parts[0];
      assert InfixAt(parts[0], joined, 0);
    } else {
      JoinContainsEach(parts[1..], separator, i - 1);
      var rest := Join(parts[1..], separator);
      InfixOfConcat(parts[i], parts[0] + separator, rest, "");
      assert joined == parts[0] + separator + rest + "";
    }
  }

  /** The index of the last occurrence of `c` among the first `n` characters of `s`. */
  function LastIndexBefore(s: string, c: char, n: nat): (r: Option<nat>)
    requires n <= |s|
    ensures r.None? <==> forall i :: 0 <= i < n ==> s[i] != c
    ensures r.Some? ==> r.value < n && s[r.value] == c
                        && forall i :: r.value < i < n ==> s[i] != c
  {
    if n == 0 then None
    else if s[n - 1] == c then Some(n - 1)
    else LastIndexBefore(s, c, n - 1)
  }

  /** The index of the last occurrence of `c` in `s`. */
  function LastIndexOf(s: string, c: char): (r: Option<nat>)
    ensures r.None? <==> c !in s
    ensures r.Some? ==> r.value < |s| && s[r.value] == c && c !in s[r.value + 1..]
  {
    LastIndexBefore(s, c, |s|)
  }

  /** The last occurrence of `c` is at `j` when `s[j]` is `c` and nothing after it is. */
  lemma LastIndexAt(s: string, c: char, j: nat)
    requires j < |s| && s[j] == c && c !in s[j + 1..]
    ensures LastIndexOf(s, c) == Some(j)
  {
  }

  /** After text ending in `c`, the last `c` is that one as long as nothing appended
      after it holds another. */
  lemma LastIndexAfter(prefix: string, c: char, suffix: string)
    requires |prefix| > 0 && prefix[|prefix| - 1] == c && c !in suffix
    ensures LastIndexOf(prefix + suffix, c) == Some(|prefix| - 1)
  {
    var s := prefix + suffix;
    assert s[|prefix|..] == suffix;
    LastIndexAt(s, c, |prefix| - 1);
  }

  predicate IsDigit(c: char)
  {
    '0' <= c <= '9'
  }

  function DigitChar(d: nat): (c: char)
    requires d < 10
    ensures IsDigit(c)
  {
    ('0' as int + d) as char
  }

  function DigitValue(c: char): (d: nat)
    requires IsDigit(c)
    ensures d < 10 && DigitChar(d) == c
  {
    (c as int - '0' as int) as nat
  }

  /** `"\(n)"` for a non-negative integer: its decimal digits, most significant first. */
  function NatToString(n: nat): (s: string)
    ensures |s| >= 1
    ensures forall i :: 0 <= i < |s| ==> IsDigit(s[i])
  {
    if n < 10 then [DigitChar(n)] else NatToString(n / 10) + [DigitChar(n % 10)]
  }

  /** Reads a string of decimal digits back as a number. */
  function ParseDecimal(s: string): nat
    requires forall i :: 0 <= i < |s| ==> IsDigit(s[i])
  {
    if s == [] then 0 else ParseDecimal(s[..|s| - 1]) * 10 + DigitValue(s[|s| - 1])
  }

  /** Decimal rendering is undone by parsing. */
  lemma {:induction false} ParseNatToString(n: nat)
    ensures ParseDecimal(NatToString(n)) == n
  {
    var s := NatToString(n);
    if n >= 10 {
      ParseNatToString(n / 10);
      assert s[..|s| - 1] == NatToString(n / 10);
    }
  }

  /** Distinct numbers are rendered as distinct strings. */
  lemma NatToStringInjective(m: nat, n: nat)
    requires NatToString(m) == NatToString(n)
    ensures m == n
  {
    ParseNatToString(m);
    ParseNatToString(n);
  }
}
