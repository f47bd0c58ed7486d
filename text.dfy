/** String helpers with the semantics of the Python built-ins the source
    relies on: decimal rendering of ids (`f"{n}"`), `str.rstrip`,
    `str.lstrip` and `str.split` with a one-character separator. */
module Text {

  function DigitChar(d: nat): (c: char)
    requires d < 10
    ensures '0' <= c <= '9'
  {
    (d + '0' as int) as char
  }

  /** Decimal rendering of a natural number, as `str(n)` gives it. */
  function NatToString(n: nat): (s: string)
    ensures |s| >= 1
    ensures forall i | 0 <= i < |s| :: '0' <= s[i] <= '9'
    ensures s[0] == '0' ==> n == 0
    decreases n
  {
    if n < 10 then [DigitChar(n)] else NatToString(n / 10) + [DigitChar(n % 10)]
  }

  /** The value of a string of decimal digits, as `int(s)` reads it. */
  function DecimalValue(s: string): nat
    requires forall i | 0 <= i < |s| :: '0' <= s[i] <= '9'
  {
    if s == [] then 0
    else DecimalValue(s[..|s| - 1]) * 10 + (s[|s| - 1] as int - '0' as int)
  }

  /** Reading back a rendered number gives the number. */
  lemma {:induction false} DecimalRoundTrip(n: nat)
    ensures DecimalValue(NatToString(n)) == n
    decreases n
  {
    var s := NatToString(n);
    if n >= 10 {
      assert s[..|s| - 1] == NatToString(n / 10);
      DecimalRoundTrip(n / 10);
    }
  }

  /** Distinct numbers render to distinct strings. */
  lemma NatToStringInjective(a: nat, b: nat)
    ensures NatToString(a) == NatToString(b) ==> a == b
  {
    DecimalRoundTrip(a);
    DecimalRoundTrip(b);
  }

  /** Distinct numbers give distinct strings behind a common prefix. */
  lemma PrefixedNumberInjective(prefix: string, a: nat, b: nat)
    ensures prefix + NatToString(a) == prefix + NatToString(b) ==> a == b
  {
    if prefix + NatToString(a) == prefix + NatToString(b) {
      assert NatToString(a) == (prefix + NatToString(a))[|prefix|..];
      assert NatToString(b) == (prefix + NatToString(b))[|prefix|..];
      NatToStringInjective(a, b);
    }
  }

  predicate EndsWith(s: string, suffix: string) {
    |suffix| <= |s| && s[|s| - |suffix|..] == suffix
  }

  /** `s.rstrip(c)`: drops every trailing `c`. */
  function RStrip(s: string, c: char): (r: string)
    ensures r <= s
    ensures r == [] || r[|r| - 1] != c
    ensures forall i | |r| <= i < |s| :: s[i] == c
  {
    if |s| > 0 && s[|s| - 1] == c then RStrip(s[..|s| - 1], c) else s
  }

  /** `s.lstrip(c)`: drops every leading `c`. */
  function LStrip(s: string, c: char): (r: string)
    ensures EndsWith(s, r)
    ensures r == [] || r[0] != c
    ensures forall i | 0 <= i < |s| - |r| :: s[i] == c
  {
    if |s| > 0 && s[0] == c then LStrip(s[1..], c) else s
  }

  /** A text that does not end with the character is kept as it is. */
  lemma RStripNothing(s: string, c: char)
    requires s == [] || s[|s| - 1] != c
    ensures RStrip(s, c) == s
  {
  }

  /** A text that does not start with the character is kept as it is. */
  lemma LStripNothing(s: string, c: char)
    requires s == [] || s[0] != c
    ensures LStrip(s, c) == s
  {
  }

  /** Padding a string with extra copies of `c` on the right does not change
      what `rstrip` leaves. */
  lemma {:induction false} RStripPadded(s: string, pad: string, c: char)
    requires forall i | 0 <= i < |pad| :: pad[i] == c
    ensures RStrip(s + pad, c) == RStrip(s, c)
    decreases |pad|
  {
    if pad != [] {
      var shorter := pad[..|pad| - 1];
      assert (s + pad)[..|s + pad| - 1] == s + shorter;
      RStripPadded(s, shorter, c);
    } else {
      assert s + pad == s;
    }
  }

  /** Padding a string with extra copies of `c` on the left does not change
      what `lstrip` leaves. */
  lemma {:induction false} LStripPadded(pad: string, s: string, c: char)
    requires forall i | 0 <= i < |pad| :: pad[i] == c
    ensures LStrip(pad + s, c) == LStrip(s, c)
    decreases |pad|
  {
    if pad != [] {
      assert (pad + s)[1..] == pad[1..] + s;
      LStripPadded(pad[1..], s, c);
    } else {
      assert pad + s == s;
    }
  }

  function Count(s: string, c: char): nat {
    if s == [] then 0 else (if s[0] == c then 1 else 0) + Count(s[1..], c)
  }

  /** `s.split(sep)` for a one-character separator: the pieces between the
      occurrences of `sep`, empty pieces included. */
  function Split(s: string, sep: char): (parts: seq<string>)
    ensures |parts| == Count(s, sep) + 1
    ensures forall k | 0 <= k < |parts| :: sep !in parts[k]
  {
    if s == [] then [[]]
    else if s[0] == sep then [[]] + Split(s[1..], sep)
    else
      var rest := Split(s[1..], sep);
      [[s[0]] + rest[0]] + rest[1..]
  }

  /** `sep.join(parts)`. */
  function Join(parts: seq<string>, sep: char): string
    requires |parts| >= 1
  {
    if |parts| == 1 then parts[0] else parts[0] + [sep] + Join(parts[1..], sep)
  }

  /** Joining the pieces of a split gives back the string. */
  lemma {:induction false} JoinSplit(s: string, sep: char)
    ensures Join(Split(s, sep), sep) == s
  {
    if s != [] {
      JoinSplit(s[1..], sep);
      var rest := Split(s[1..], sep);
      if s[0] == sep {
        assert Split(s, sep)[1..] == rest;
      } else {
        var parts := Split(s, sep);
        assert parts[0] == [s[0]] + rest[0];
        assert parts[1..] == rest[1..];
        if |rest| > 1 {
          assert Join(parts, sep) == [s[0]] + rest[0] + [sep] + Join(rest[1..], sep);
        }
        assert Join(parts, sep) == [s[0]] + Join(rest, sep);
      }
    }
  }

  /** Splitting text that holds no separator gives that text alone. */
  lemma {:induction false} SplitNoSeparator(s: string, sep: char)
    requires sep !in s
    ensures Split(s, sep) == [s]
  {
    if s != [] {
      assert sep !in s[1..];
      SplitNoSeparator(s[1..], sep);
      assert [s[0]] + s[1..] == s;
    }
  }

  /** Splitting `a + sep + b`, where `a` holds no separator, yields `a`
      and then the pieces of `b`. */
  lemma {:induction false} SplitAfterPiece(a: string, b: string, sep: char)
    requires sep !in a
    ensures Split(a + [sep] + b, sep) == [a] + Split(b, sep)
  {
    if a == [] {
      assert a + [sep] + b == [sep] + b;
      assert ([sep] + b)[1..] == b;
    } else {
      var s := a + [sep] + b;
      assert s[0] == a[0];
      assert s[1..] == a[1..] + [sep] + b;
      assert sep !in a[1..];
      SplitAfterPiece(a[1..], b, sep);
      assert [a[0]] + a[1..] == a;
    }
  }

  /** Splitting a join of separator-free pieces gives back the pieces. */
  lemma {:induction false} SplitJoin(parts: seq<string>, sep: char)
    requires |parts| >= 1
    requires forall k | 0 <= k < |parts| :: sep !in parts[k]
    ensures Split(Join(parts, sep), sep) == parts
    decreases |parts|
  {
    if |parts| == 1 {
      SplitNoSeparator(parts[0], sep);
    } else {
      SplitJoin(parts[1..], sep);
      SplitAfterPiece(parts[0], Join(parts[1..], sep), sep);
      assert [parts[0]] + parts[1..] == parts;
    }
  }

  /** The segments of `a/b` for slash-free pieces. */
  lemma TwoSegments(a: string, b: string)
    requires '/' !in a && '/' !in b
    ensures Split(a + "/" + b, '/') == [a, b]
    ensures '/' in a + "/" + b
  {
    assert (a + "/" + b)[|a|] == '/';
    SplitNoSeparator(b, '/');
    SplitAfterPiece(a, b, '/');
  }

  /** The segments of `a/b/c` for slash-free pieces. */
  lemma ThreeSegments(a: string, b: string, c: string)
    requires '/' !in a && '/' !in b && '/' !in c
    ensures Split(a + "/" + b + "/" + c, '/') == [a, b, c]
    ensures '/' in a + "/" + b + "/" + c
  {
    assert (a + "/" + b + "/" + c)[|a|] == '/';
    TwoSegments(b, c);
    assert a + "/" + b + "/" + c == a + ['/'] + (b + "/" + c);
    SplitAfterPiece(a, b + "/" + c, '/');
  }

  // ---------------------------------------------------------------------
  // repr() of a str

  function HexDigit(d: nat): char
    requires d < 16
  {
    "0123456789abcdef"[d]
  }

  /** A character `repr` writes as a `\xhh` escape: the ASCII controls and
      DEL, the C1 controls, the no-break space and the soft hyphen. */
  predicate HexEscaped(c: char) {
    c < ' ' || 0x7f <= c as int <= 0xa0 || c as int == 0xad
  }

  /** How `repr` writes one character between quotes `q`. */
  function EscapeChar(c: char, q: char): (r: string)
    ensures !(c == '\\' || c == q || HexEscaped(c)) ==> r == [c]
    ensures c == '\\' || c == q || HexEscaped(c) ==> |r| >= 2 && r[0] == '\\'
  {
    if c == '\\' || c == q || HexEscaped(c) then EscapeSequence(c, q) else [c]
  }

  /** The backslash escape of a character that needs one. */
  function EscapeSequence(c: char, q: char): (r: string)
    ensures |r| >= 2 && r[0] == '\\'
  {
    if c == '\\' || c == q then ['\\', c]
    else if c == '\n' then "\\n"
    else if c == '\r' then "\\r"
    else if c == '\t' then "\\t"
    else ['\\', 'x', HexDigit(c as int / 16 % 16), HexDigit(c as int % 16)]
  }

  /** The pieces written one after the other. */
  function Concat(parts: seq<string>): string
    decreases |parts|
  {
    if parts == [] then [] else parts[0] + Concat(parts[1..])
  }

  /** The escaped text: each character written as `EscapeChar` says. */
  function Escape(s: string, q: char): string {
    Concat(seq(|s|, i requires 0 <= i < |s| => EscapeChar(s[i], q)))
  }

  /** Escaping starts with the first character's escape. */
  lemma EscapeFirst(s: string, q: char)
    requires s != []
    ensures Escape(s, q) == EscapeChar(s[0], q) + Escape(s[1..], q)
  {
    var parts := seq(|s|, i requires 0 <= i < |s| => EscapeChar(s[i], q));
    assert parts[1..] == seq(|s| - 1, i requires 0 <= i < |s| - 1 => EscapeChar(s[1..][i], q));
  }

  /** `repr(s)`: double quotes when the text holds a single quote and no
      double quote, single quotes otherwise, with the content escaped. */
  function Repr(s: string): (r: string)
    ensures |r| >= 2 && r[0] == r[|r| - 1]
    ensures r[0] == (if '\'' in s && '"' !in s then '"' else '\'')
  {
    var q := if '\'' in s && '"' !in s then '"' else '\'';
    [q] + Escape(s, q) + [q]
  }

  /** Escaping leaves alone every character that needs no escape. */
  lemma {:induction false} EscapePlain(s: string, q: char)
    requires forall i | 0 <= i < |s| :: !(s[i] == '\\' || s[i] == q || HexEscaped(s[i]))
    ensures Escape(s, q) == s
    decreases |s|
  {
    if s != [] {
      EscapeFirst(s, q);
      assert EscapeChar(s[0], q) == [s[0]];
      EscapePlain(s[1..], q);
      assert [s[0]] + s[1..] == s;
    }
  }

  /** Characters that are escaped gain a backslash. */
  lemma {:induction false} EscapeLonger(s: string, q: char)
    requires exists i | 0 <= i < |s| :: s[i] == '\\' || s[i] == q || HexEscaped(s[i])
    ensures |Escape(s, q)| > |s|
    decreases |s|
  {
    var c := s[0];
    EscapeFirst(s, q);
    if c == '\\' || c == q || HexEscaped(c) {
      assert |EscapeChar(c, q)| >= 2;
      EscapeAtLeast(s[1..], q);
    } else {
      assert exists i | 0 <= i < |s[1..]| :: s[1..][i] == '\\' || s[1..][i] == q || HexEscaped(s[1..][i]) by {
        var i :| 0 <= i < |s| && (s[i] == '\\' || s[i] == q || HexEscaped(s[i]));
        assert i > 0 && s[1..][i - 1] == s[i];
      }
      EscapeLonger(s[1..], q);
    }
  }

  lemma {:induction false} EscapeAtLeast(s: string, q: char)
    ensures |Escape(s, q)| >= |s|
    decreases |s|
  {
    if s != [] {
      EscapeFirst(s, q);
      EscapeAtLeast(s[1..], q);
    }
  }

  /** A text of plain printable characters without quote or backslash is
      shown quoted as it is; any other text that keeps single quotes is
      shown changed. */
  lemma ReprPlain(s: string)
    ensures (forall i | 0 <= i < |s| :: !(s[i] == '\\' || s[i] == '\'' || HexEscaped(s[i]))) <==>
            Repr(s) == "'" + s + "'"
  {
    if forall i | 0 <= i < |s| :: !(s[i] == '\\' || s[i] == '\'' || HexEscaped(s[i])) {
      assert '\'' !in s;
      EscapePlain(s, '\'');
    } else if Repr(s)[0] == '\'' {
      EscapeLonger(s, '\'');
    }
  }
}
