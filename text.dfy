/** Text helpers shared by the components: the parts of Go's `fmt`,
    `strconv` and `strings` packages that the core relies on. Go strings are
    byte strings; here a string is a `seq<char>` with one char per byte. */
module Text {

  const MaxInt64: int := 0x7fff_ffff_ffff_ffff
  const MinInt64: int := -0x8000_0000_0000_0000

  predicate IsDigit(c: char) {
    '0' <= c <= '9'
  }

  predicate AllDigits(s: string) {
    forall i :: 0 <= i < |s| ==> IsDigit(s[i])
  }

  function DigitChar(d: nat): (c: char)
    requires d < 10
    ensures IsDigit(c) && (c as int) - ('0' as int) == d
  {
    (('0' as int) + d) as char
  }

  function DigitValue(c: char): (d: nat)
    requires IsDigit(c)
    ensures d < 10 && DigitChar(d) == c
  {
    (c as int) - ('0' as int)
  }

  /** `%d` of a non-negative number. */
  function NatToString(n: nat): (s: string)
    decreases n
  {
    if n < 10 then [DigitChar(n)] else NatToString(n / 10) + [DigitChar(n % 10)]
  }

  /** `%d` (and `strconv.Itoa`) of any integer. */
  function IntToString(i: int): string {
    if i < 0 then "-" + NatToString(-i) else NatToString(i)
  }

  /** The value of a run of decimal digits, read from the left. */
  function DigitsValue(s: string): nat
    requires AllDigits(s)
    decreases |s|
  {
    if s == [] then 0 else DigitsValue(s[..|s| - 1]) * 10 + DigitValue(s[|s| - 1])
  }

  lemma {:induction false} NatToStringDigits(n: nat)
    ensures |NatToString(n)| > 0 && AllDigits(NatToString(n))
    decreases n
  {
    if n >= 10 {
      NatToStringDigits(n / 10);
    }
  }

  /** Reading back what `%d` printed gives the number again. */
  lemma {:induction false} NatToStringRoundTrip(n: nat)
    ensures AllDigits(NatToString(n)) && DigitsValue(NatToString(n)) == n
    decreases n
  {
    NatToStringDigits(n);
    if n >= 10 {
      var s := NatToString(n);
      NatToStringRoundTrip(n / 10);
      assert s[..|s| - 1] == NatToString(n / 10);
    }
  }

  function Clamp64(v: int): int {
    if v > MaxInt64 then MaxInt64 else if v < MinInt64 then MinInt64 else v
  }

  /** Whether `strconv.Atoi` accepts `s`: an optional sign, then one or more
      decimal digits and nothing else. */
  predicate AtoiSyntax(s: string) {
    var body := if |s| > 0 && (s[0] == '+' || s[0] == '-') then s[1..] else s;
    |body| > 0 && AllDigits(body)
  }

  /** The int `strconv.Atoi(s)` returns, with its error ignored as the callers
      in this core do: 0 on a syntax error, the value clamped to the 64-bit
      range on a range error, and the parsed value otherwise. */
  function AtoiValue(s: string): (v: int)
    ensures MinInt64 <= v <= MaxInt64
    ensures !AtoiSyntax(s) ==> v == 0
  {
    if !AtoiSyntax(s) then 0
    else if s[0] == '-' then Clamp64(-(DigitsValue(s[1..]) as int))
    else if s[0] == '+' then Clamp64(DigitsValue(s[1..]))
    else Clamp64(DigitsValue(s))
  }

  lemma AtoiOfPrinted(n: nat)
    requires n <= MaxInt64
    ensures AtoiValue(NatToString(n)) == n
  {
    NatToStringRoundTrip(n);
    NatToStringDigits(n);
    var s := NatToString(n);
    assert IsDigit(s[0]);
  }

  /** `strings.Split(s, sep)` for a one-character separator. Like Go, the
      empty string splits into one empty piece. */
  function Split(s: string, sep: char): (parts: seq<string>)
    ensures |parts| > 0
    decreases |s|
  {
    if s == [] then [[]]
    else
      var rest := Split(s[1..], sep);
      if s[0] == sep then [[]] + rest else [[s[0]] + rest[0]] + rest[1..]
  }

  /** `strings.Join(parts, sep)`. */
  function Join(parts: seq<string>, sep: string): string
    decreases |parts|
  {
    if parts == [] then []
    else if |parts| == 1 then parts[0]
    else parts[0] + sep + Join(parts[1..], sep)
  }

  lemma JoinCons(p: string, parts: seq<string>, sep: string)
    requires parts != []
    ensures Join([p] + parts, sep) == p + sep + Join(parts, sep)
  {
    assert ([p] + parts)[1..] == parts;
  }

  /** Joining one more piece appends the separator and the piece. */
  lemma {:induction false} JoinSnoc(parts: seq<string>, p: string, sep: string)
    requires parts != []
    ensures Join(parts + [p], sep) == Join(parts, sep) + sep + p
    decreases |parts|
  {
    if |parts| == 1 {
      assert parts + [p] == [parts[0]] + [p];
      JoinCons(parts[0], [p], sep);
    } else {
      var tail := parts[1..];
      assert parts + [p] == [parts[0]] + (tail + [p]);
      JoinCons(parts[0], tail + [p], sep);
      JoinSnoc(tail, p, sep);
      assert parts == [parts[0]] + tail;
      JoinCons(parts[0], tail, sep);
    }
  }

  /** Splitting and joining again give back the input, and no piece holds
      the separator. */
  lemma {:induction false} SplitJoin(s: string, sep: char)
    ensures Join(Split(s, sep), [sep]) == s
    ensures forall k :: 0 <= k < |Split(s, sep)| ==> sep !in Split(s, sep)[k]
    decreases |s|
  {
    if s != [] {
      var rest := Split(s[1..], sep);
      SplitJoin(s[1..], sep);
      if s[0] == sep {
        JoinCons([], rest, [sep]);
        assert s == [s[0]] + s[1..];
      } else {
        var ps := [[s[0]] + rest[0]] + rest[1..];
        if |rest| == 1 {
          assert Join(ps, [sep]) == [s[0]] + rest[0];
        } else {
          JoinCons([s[0]] + rest[0], rest[1..], [sep]);
          JoinCons(rest[0], rest[1..], [sep]);
          assert rest == [rest[0]] + rest[1..];
        }
        assert s == [s[0]] + s[1..];
        forall k | 0 <= k < |ps| ensures sep !in ps[k] {
          if k == 0 {
            assert sep !in rest[0];
          } else {
            assert ps[k] == rest[k];
          }
        }
      }
    }
  }

  /** A string without the separator is one piece. */
  lemma {:induction false} SplitNoSep(s: string, sep: char)
    requires sep !in s
    ensures Split(s, sep) == [s]
    decreases |s|
  {
    if s != [] {
      SplitNoSep(s[1..], sep);
      assert [s[0]] + s[1..] == s;
    }
  }

  /** A separator and a piece without it add one piece at the end. */
  lemma {:induction false} SplitSnoc(s: string, sep: char, piece: string)
    requires sep !in piece
    ensures Split(s + [sep] + piece, sep) == Split(s, sep) + [piece]
    decreases |s|
  {
    if s == [] {
      assert s + [sep] + piece == [sep] + piece;
      assert ([sep] + piece)[1..] == piece;
      SplitNoSep(piece, sep);
    } else {
      assert (s + [sep] + piece)[1..] == s[1..] + [sep] + piece;
      assert (s + [sep] + piece)[0] == s[0];
      SplitSnoc(s[1..], sep, piece);
      var rest := Split(s[1..], sep);
      assert (rest + [piece])[0] == rest[0];
      assert (rest + [piece])[1..] == rest[1..] + [piece];
    }
  }

  /** The characters `strings.TrimSpace` removes from both ends (its ASCII
      subset). */
  predicate IsSpace(c: char) {
    c == ' ' || c == '\t' || c == '\n' || c == '\r' || c == '\U{0B}' || c == '\U{0C}'
  }

  function TrimLeft(s: string): (r: string)
    ensures |r| <= |s| && r == s[|s| - |r|..]
    ensures r == [] || !IsSpace(r[0])
    decreases |s|
  {
    if s != [] && IsSpace(s[0]) then TrimLeft(s[1..]) else s
  }

  function TrimRight(s: string): (r: string)
    ensures |r| <= |s| && r == s[..|r|]
    ensures r == [] || !IsSpace(r[|r| - 1])
    decreases |s|
  {
    if s != [] && IsSpace(s[|s| - 1]) then TrimRight(s[..|s| - 1]) else s
  }

  /** `strings.TrimSpace`. */
  function TrimSpace(s: string): string {
    TrimRight(TrimLeft(s))
  }

  predicate HasPrefix(s: string, prefix: string) {
    |prefix| <= |s| && s[..|prefix|] == prefix
  }
}
