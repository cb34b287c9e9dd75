/**
 * Shared vocabulary for the model: optional values, results, the outcome of a
 * browser `fetch`, and the handful of JavaScript string operations the
 * application relies on (`join`, `trim`, ASCII case changes, decimal
 * rendering of integers, and the `/([A-Z])/g -> ' $1'` capital spacing used
 * both by the version-history heading and by the backend section names).
 *
 * Strings are sequences of Unicode scalar values; JavaScript's UTF-16
 * `length` is not modelled (see README).
 */
module Common {

  datatype Option<+T> = None | Some(value: T)

  datatype Result<+T, +E> = Success(value: T) | Failure(error: E)

  /** How a `fetch` to the backend ended, as every frontend handler sees it:
      `Ok` when `response.ok && data.success`, `Rejected` when a reply came back
      without success (carrying `data.error` when the body had one), and
      `NetworkError` when the request or the JSON decoding threw. */
  datatype Reply<+T> = Ok(value: T) | Rejected(error: Option<string>) | NetworkError

  // ---------------------------------------------------------------------------
  // Array.prototype.join

  /** `parts.join(sep)`. */
  function Join(parts: seq<string>, sep: string): (r: string)
    ensures parts == [] ==> r == ""
    ensures |parts| == 1 ==> r == parts[0]
    ensures |parts| > 0 ==> |r| >= |parts[0]| && r[..|parts[0]|] == parts[0]
    decreases |parts|
  {
    if parts == [] then ""
    else if |parts| == 1 then parts[0]
    else parts[0] + sep + Join(parts[1..], sep)
  }

  /** Joining parts that are all non-empty gives "" exactly when there are no parts. */
  lemma JoinEmptyIff(parts: seq<string>, sep: string)
    requires forall i :: 0 <= i < |parts| ==> parts[i] != ""
    ensures Join(parts, sep) == "" <==> parts == []
  {
    if parts != [] {
      assert |Join(parts, sep)| >= |parts[0]| > 0;
    }
  }

  /** Joining after appending one part puts exactly one separator before it. */
  lemma {:induction false} JoinSnoc(parts: seq<string>, p: string, sep: string)
    requires parts != []
    ensures Join(parts + [p], sep) == Join(parts, sep) + sep + p
    decreases |parts|
  {
    if |parts| == 1 {
      assert parts + [p] == [parts[0], p];
      assert (parts + [p])[1..] == [p];
    } else {
      assert (parts + [p])[1..] == parts[1..] + [p];
      JoinSnoc(parts[1..], p, sep);
    }
  }

  // ---------------------------------------------------------------------------
  // String.prototype.trim and the regular-expression class \s

  /** The characters JavaScript's `trim` and `\s` treat as white space: the
      WhiteSpace and LineTerminator productions of ECMAScript (TAB, VT, FF,
      SP, NBSP, ZWNBSP, every Zs character, LF, CR, LS, PS). */
  predicate IsSpace(c: char)
  {
    c == '\t' || c == '\n' || c == '\r' || c == '\U{B}' || c == '\U{C}' ||
    c == ' ' || c == '\U{A0}' || c == '\U{1680}' || ('\U{2000}' <= c <= '\U{200A}') ||
    c == '\U{2028}' || c == '\U{2029}' || c == '\U{202F}' || c == '\U{205F}' ||
    c == '\U{3000}' || c == '\U{FEFF}'
  }

  /** True when `s.trim()` is the empty string. */
  predicate IsBlank(s: string)
  {
    forall i :: 0 <= i < |s| ==> IsSpace(s[i])
  }

  function TrimStart(s: string): (r: string)
    ensures |r| <= |s| && r == s[|s| - |r|..]
    ensures r != [] ==> !IsSpace(r[0])
    ensures forall i :: 0 <= i < |s| - |r| ==> IsSpace(s[i])
    decreases |s|
  {
    if s != [] && IsSpace(s[0]) then TrimStart(s[1..]) else s
  }

  function TrimEnd(s: string): (r: string)
    ensures |r| <= |s| && r == s[..|r|]
    ensures r != [] ==> !IsSpace(r[|r| - 1])
    ensures forall i :: |r| <= i < |s| ==> IsSpace(s[i])
    decreases |s|
  {
    if s != [] && IsSpace(s[|s| - 1]) then TrimEnd(s[..|s| - 1]) else s
  }

  /** `s.trim()`: drops white space from both ends and nothing else, so a
      string that already neither starts nor ends with white space is kept. */
  function Trim(s: string): (r: string)
    ensures |r| <= |s|
    ensures r != [] ==> !IsSpace(r[0]) && !IsSpace(r[|r| - 1])
    ensures r == "" <==> IsBlank(s)
    ensures s != [] && !IsSpace(s[0]) && !IsSpace(s[|s| - 1]) ==> r == s
  {
    TrimFacts(s);
    TrimEnd(TrimStart(s))
  }

  /** The facts `Trim` promises, one step at a time. */
  lemma TrimFacts(s: string)
    ensures var r := TrimEnd(TrimStart(s));
      |r| <= |s| &&
      (r != [] ==> !IsSpace(r[0]) && !IsSpace(r[|r| - 1])) &&
      (r == "" <==> IsBlank(s)) &&
      (s != [] && !IsSpace(s[0]) && !IsSpace(s[|s| - 1]) ==> r == s)
  {
    var a := TrimStart(s);
    var r := TrimEnd(a);
    TrimBlank(s);
    if r != [] {
      assert r == a[..|r|];
      assert r[0] == a[0];
    }
    if s != [] && !IsSpace(s[0]) && !IsSpace(s[|s| - 1]) {
      assert a == s;
    }
  }

  lemma TrimBlank(s: string)
    ensures TrimEnd(TrimStart(s)) == "" <==> IsBlank(s)
  {
    var t := TrimStart(s);
    if t != [] {
      assert t[0] == s[|s| - |t|];
    }
  }

  // ---------------------------------------------------------------------------
  // ASCII letter case (String.prototype.toLowerCase / toUpperCase on ASCII)

  predicate IsAsciiUpper(c: char) { 'A' <= c <= 'Z' }

  function LowerChar(c: char): (r: char)
    ensures !IsAsciiUpper(r)
    ensures !IsAsciiUpper(c) ==> r == c
  {
    if IsAsciiUpper(c) then (c as int + 32) as char else c
  }

  function UpperChar(c: char): (r: char)
    ensures 'a' <= c <= 'z' ==> IsAsciiUpper(r)
    ensures LowerChar(r) == LowerChar(c)
  {
    if 'a' <= c <= 'z' then (c as int - 32) as char else c
  }

  /** `s.toLowerCase()` restricted to the ASCII letters. */
  function Lower(s: string): (r: string)
    ensures |r| == |s|
    ensures forall i :: 0 <= i < |s| ==> r[i] == LowerChar(s[i])
  {
    seq(|s|, i requires 0 <= i < |s| => LowerChar(s[i]))
  }

  /** `s.replace(/^./, c => c.toUpperCase())` restricted to ASCII: upper-cases
      the first character unless it is a line terminator (which `.` does not match). */
  function CapitalizeFirst(s: string): (r: string)
    ensures |r| == |s|
    ensures |s| > 0 ==> r[1..] == s[1..]
    ensures |s| > 0 && !IsLineTerminator(s[0]) ==> r[0] == UpperChar(s[0])
    ensures |s| > 0 && IsLineTerminator(s[0]) ==> r == s
    ensures Lower(r) == Lower(s)
  {
    if s == [] then s
    else if IsLineTerminator(s[0]) then s
    else [UpperChar(s[0])] + s[1..]
  }

  /** The characters a regular expression's `.` does not match. */
  predicate IsLineTerminator(c: char)
  {
    c == '\n' || c == '\r' || c == '\U{2028}' || c == '\U{2029}'
  }

  // ---------------------------------------------------------------------------
  // s.replace(/([A-Z])/g, ' $1')

  /** Inserts one space before every ASCII capital letter. */
  function SpaceCapitals(s: string): (r: string)
    ensures |r| >= |s|
    ensures (forall i :: 0 <= i < |s| ==> !IsAsciiUpper(s[i])) ==> r == s
    decreases |s|
  {
    if s == [] then ""
    else (if IsAsciiUpper(s[0]) then [' ', s[0]] else [s[0]]) + SpaceCapitals(s[1..])
  }

  /** A string that does not start with a capital keeps its first character. */
  lemma SpaceCapitalsKeepsFirst(s: string)
    requires |s| > 0 && !IsAsciiUpper(s[0])
    ensures |SpaceCapitals(s)| > 0 && SpaceCapitals(s)[0] == s[0]
  {
    assert SpaceCapitals(s) == [s[0]] + SpaceCapitals(s[1..]);
  }

  /** The inverse of `SpaceCapitals`: drops one space in front of every capital. */
  function UnspaceCapitals(t: string): string
    decreases |t|
  {
    if t == [] then ""
    else if |t| >= 2 && t[0] == ' ' && IsAsciiUpper(t[1]) then [t[1]] + UnspaceCapitals(t[2..])
    else [t[0]] + UnspaceCapitals(t[1..])
  }

  /** No information is lost by the spacing: distinct names give distinct spaced names. */
  lemma {:induction false} UnspaceSpaceCapitals(s: string)
    ensures UnspaceCapitals(SpaceCapitals(s)) == s
    decreases |s|
  {
    if s != [] {
      var rest := SpaceCapitals(s[1..]);
      UnspaceSpaceCapitals(s[1..]);
      if IsAsciiUpper(s[0]) {
        assert SpaceCapitals(s) == [' ', s[0]] + rest;
        assert ([' ', s[0]] + rest)[2..] == rest;
      } else {
        assert SpaceCapitals(s) == [s[0]] + rest;
        assert ([s[0]] + rest)[1..] == rest;
        if |rest| > 0 && s[0] == ' ' {
          // the next spaced character never starts with a capital: it is a space or s[1]
          assert rest[0] == ' ' || rest[0] == s[1];
          if rest[0] == s[1] { assert !IsAsciiUpper(s[1]); }
        }
      }
    }
  }

  /** A lower-case word followed by a capitalised lower-case word gains exactly
      one space, in front of the capital. */
  lemma SpaceCapitalsAt(first: string, second: string)
    requires forall i :: 0 <= i < |first| ==> !IsAsciiUpper(first[i])
    requires |second| > 0 && IsAsciiUpper(second[0])
    requires forall i :: 1 <= i < |second| ==> !IsAsciiUpper(second[i])
    ensures SpaceCapitals(first + second) == first + " " + second
  {
    var rest := second[1..];
    assert second == [second[0]] + rest;
    SpaceCapitalsAppend(first, second);
    assert forall i :: 0 <= i < |rest| ==> !IsAsciiUpper(rest[i]) by {
      forall i | 0 <= i < |rest| ensures !IsAsciiUpper(rest[i]) {
        assert rest[i] == second[i + 1];
      }
    }
    assert SpaceCapitals(rest) == rest;
    assert SpaceCapitals(second) == [' ', second[0]] + rest;
  }

  /** The transform works character by character, so it distributes over concatenation. */
  lemma {:induction false} SpaceCapitalsAppend(a: string, b: string)
    ensures SpaceCapitals(a + b) == SpaceCapitals(a) + SpaceCapitals(b)
    decreases |a|
  {
    if a == [] {
      assert a + b == b;
    } else {
      var head := if IsAsciiUpper(a[0]) then [' ', a[0]] else [a[0]];
      calc {
        SpaceCapitals(a + b);
        { assert (a + b)[0] == a[0]; assert (a + b)[1..] == a[1..] + b; }
        head + SpaceCapitals(a[1..] + b);
        { SpaceCapitalsAppend(a[1..], b); }
        head + (SpaceCapitals(a[1..]) + SpaceCapitals(b));
        (head + SpaceCapitals(a[1..])) + SpaceCapitals(b);
      }
    }
  }

  // ---------------------------------------------------------------------------
  // Small JavaScript idioms

  /** `s || fallback` on strings: the empty string is the only falsy one. */
  function OrElse(s: string, fallback: string): (r: string)
    ensures s != "" ==> r == s
    ensures s == "" ==> r == fallback
    ensures r != "" <==> s != "" || fallback != ""
  {
    if s != "" then s else fallback
  }

  /** `Math.floor((laterMs - earlierMs) / 60000)`: Dafny's division by a
      positive divisor rounds down, as `Math.floor` does, also for a negative
      difference. */
  function WholeMinutes(laterMs: int, earlierMs: int): (m: int)
    ensures m * 60000 <= laterMs - earlierMs < (m + 1) * 60000
  {
    (laterMs - earlierMs) / 60000
  }

  // ---------------------------------------------------------------------------
  // Template-literal rendering of integers: `${n}`

  function DigitChar(d: nat): (c: char)
    requires d < 10
    ensures '0' <= c <= '9'
  {
    ('0' as int + d) as char
  }

  /** Decimal rendering of a natural number, without leading zeros. */
  function NatToString(n: nat): (r: string)
    ensures |r| >= 1
    ensures forall i :: 0 <= i < |r| ==> '0' <= r[i] <= '9'
    ensures |r| > 1 ==> r[0] != '0'
    decreases n
  {
    if n < 10 then [DigitChar(n)] else NatToString(n / 10) + [DigitChar(n % 10)]
  }

  /** Decimal rendering of an integer, with a leading '-' when negative. */
  function IntToString(n: int): (r: string)
    ensures |r| >= 1
    ensures n < 0 <==> r[0] == '-'
  {
    if n < 0 then "-" + NatToString(-n) else NatToString(n)
  }

  /** Reads back the digits `NatToString` writes. */
  function ParseDigits(s: string): nat
    requires forall i :: 0 <= i < |s| ==> '0' <= s[i] <= '9'
    decreases |s|
  {
    if s == [] then 0 else 10 * ParseDigits(s[..|s| - 1]) + (s[|s| - 1] as int - '0' as int)
  }

  lemma {:induction false} ParseNatToString(n: nat)
    ensures ParseDigits(NatToString(n)) == n
    decreases n
  {
    if n >= 10 {
      var r := NatToString(n);
      assert r[..|r| - 1] == NatToString(n / 10);
      ParseNatToString(n / 10);
    }
  }
}
