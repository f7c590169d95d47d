/** The few pieces of JavaScript string semantics the handlers and forms rely
    on: truthiness of an optional string, `trim`, `split` and `join` on one
    separator character, `startsWith`, and `Number.prototype.toString` on
    integers. */
module JsStrings {
  import opened Wrappers

  /** `!!v` for a value that is a string or undefined: the empty string is
      falsy, exactly like a missing value. */
  predicate Truthy(v: Option<string>) {
    v.Some? && v.value != ""
  }

  /** The characters JavaScript's `trim` removes and its `\s` class matches:
      WhiteSpace (tab, vertical tab, form feed, space, no-break space, the
      byte-order mark and the Zs separators) and LineTerminator (line feed,
      carriage return, line and paragraph separators). */
  predicate IsSpace(c: char) {
    var n := c as int;
    n == 0x09 || n == 0x0A || n == 0x0B || n == 0x0C || n == 0x0D || n == 0x20 ||
    n == 0xA0 || n == 0x1680 || (0x2000 <= n <= 0x200A) || n == 0x2028 ||
    n == 0x2029 || n == 0x202F || n == 0x205F || n == 0x3000 || n == 0xFEFF
  }

  predicate AllSpace(s: string) {
    forall i | 0 <= i < |s| :: IsSpace(s[i])
  }

  /** Drops the leading whitespace: what is dropped is all whitespace, and
      what is kept is a suffix that starts with a non-whitespace character. */
  function TrimStart(s: string): (r: string)
    ensures |r| <= |s| && r == s[|s| - |r|..]
    ensures AllSpace(s[..|s| - |r|])
    ensures r != [] ==> !IsSpace(r[0])
  {
    if s != [] && IsSpace(s[0]) then TrimStart(s[1..]) else s
  }

  /** Drops the trailing whitespace: the mirror image of TrimStart. */
  function TrimEnd(s: string): (r: string)
    ensures |r| <= |s| && r == s[..|r|]
    ensures AllSpace(s[|r|..])
    ensures r != [] ==> !IsSpace(r[|r| - 1])
  {
    if s != [] && IsSpace(s[|s| - 1]) then TrimEnd(s[..|s| - 1]) else s
  }

  /** `s.trim()`. */
  function Trim(s: string): string {
    TrimEnd(TrimStart(s))
  }

  /** A blank string: every character of it is whitespace. */
  predicate IsBlank(s: string) {
    AllSpace(s)
  }

  /** `!s.trim()` holds exactly of the blank strings. */
  lemma BlankIffTrimEmpty(s: string)
    ensures Trim(s) == "" <==> IsBlank(s)
  {
    var t := TrimStart(s);
    assert t != [] ==> t[0] == s[|s| - |t|];
    if Trim(s) == "" {
      assert t[|TrimEnd(t)|..] == t;
      assert t == [];
      assert s[..|s| - |t|] == s;
    }
  }

  /** `s.trim() === ''`, computed with Trim. */
  method TrimsToEmpty(s: string) returns (empty: bool)
    ensures empty <==> IsBlank(s)
  {
    empty := Trim(s) == "";
    BlankIffTrimEmpty(s);
  }

  /** `s.startsWith(p)`. */
  predicate StartsWith(s: string, p: string) {
    |p| <= |s| && s[..|p|] == p
  }

  /** `s.split(sep)` for a one-character separator: the pieces between
      separators, in order; the empty string splits into one empty piece. */
  function Split(s: string, sep: char): (parts: seq<string>)
    ensures |parts| >= 1
    ensures forall i | 0 <= i < |parts| :: sep !in parts[i]
  {
    if s == [] then [""]
    else
      var rest := Split(s[1..], sep);
      if s[0] == sep then [""] + rest
      else [[s[0]] + rest[0]] + rest[1..]
  }

  /** `xs.join(sep)` for a one-character separator. */
  function Join(xs: seq<string>, sep: char): string {
    if xs == [] then ""
    else if |xs| == 1 then xs[0]
    else xs[0] + [sep] + Join(xs[1..], sep)
  }

  /** A piece without the separator splits to itself. */
  lemma {:induction false} SplitWithoutSep(a: string, sep: char)
    requires sep !in a
    ensures Split(a, sep) == [a]
  {
    if a != [] {
      SplitWithoutSep(a[1..], sep);
      assert [a[0]] + a[1..] == a;
    }
  }

  /** Splitting `a + sep + b` yields `a` and then the pieces of `b`. */
  lemma {:induction false} SplitAtFirstSep(a: string, b: string, sep: char)
    requires sep !in a
    ensures Split(a + [sep] + b, sep) == [a] + Split(b, sep)
  {
    var s := a + [sep] + b;
    if a == [] {
      assert s[0] == sep && s[1..] == b;
    } else {
      assert s[0] == a[0] && s[1..] == a[1..] + [sep] + b;
      SplitAtFirstSep(a[1..], b, sep);
      assert [a[0]] + a[1..] == a;
    }
  }

  /** Splitting undoes joining, provided the list is not empty and no item
      holds the separator. */
  lemma {:induction false} SplitJoin(xs: seq<string>, sep: char)
    requires |xs| >= 1
    requires forall i | 0 <= i < |xs| :: sep !in xs[i]
    ensures Split(Join(xs, sep), sep) == xs
  {
    if |xs| == 1 {
      SplitWithoutSep(xs[0], sep);
    } else {
      SplitJoin(xs[1..], sep);
      SplitAtFirstSep(xs[0], Join(xs[1..], sep), sep);
    }
  }

  /** Joining undoes splitting, for every string. */
  lemma {:induction false} JoinSplit(s: string, sep: char)
    ensures Join(Split(s, sep), sep) == s
  {
    if s != [] {
      JoinSplit(s[1..], sep);
      var rest := Split(s[1..], sep);
      if s[0] == sep {
        assert Split(s, sep) == [""] + rest;
        assert ([""] + rest)[1..] == rest;
        assert s == [sep] + s[1..];
      } else {
        var parts := Split(s, sep);
        assert parts == [[s[0]] + rest[0]] + rest[1..];
        if |rest| == 1 {
          assert s == [s[0]] + rest[0];
        } else {
          assert parts[1..] == rest[1..];
          assert Join(rest, sep) == rest[0] + [sep] + Join(rest[1..], sep);
          assert s == [s[0]] + s[1..];
        }
      }
    }
  }

  /** `lines.filter(l => l.trim() !== '')`: the non-blank lines, in order. */
  function NonBlank(lines: seq<string>): (r: seq<string>)
    ensures |r| <= |lines|
    ensures forall x | x in r :: x in lines && !IsBlank(x)
  {
    if lines == [] then []
    else if IsBlank(lines[0]) then NonBlank(lines[1..])
    else [lines[0]] + NonBlank(lines[1..])
  }

  /** Filtering distributes over concatenation, so it keeps the order of the
      lines it keeps. */
  lemma {:induction false} NonBlankAppend(a: seq<string>, b: seq<string>)
    ensures NonBlank(a + b) == NonBlank(a) + NonBlank(b)
  {
    if a == [] {
      assert a + b == b;
    } else {
      var ab := a + b;
      assert ab[0] == a[0] && ab[1..] == a[1..] + b;
      NonBlankAppend(a[1..], b);
      if IsBlank(a[0]) {
        assert NonBlank(ab) == NonBlank(ab[1..]);
        assert NonBlank(a) == NonBlank(a[1..]);
      } else {
        assert NonBlank(ab) == [a[0]] + NonBlank(ab[1..]);
        assert NonBlank(a) == [a[0]] + NonBlank(a[1..]);
      }
    }
  }

  /** Filtering keeps every line when none is blank. */
  lemma {:induction false} NonBlankKeepsAll(lines: seq<string>)
    requires forall i | 0 <= i < |lines| :: !IsBlank(lines[i])
    ensures NonBlank(lines) == lines
  {
    if lines != [] {
      NonBlankKeepsAll(lines[1..]);
    }
  }

  /** A string with a non-whitespace character, split on a whitespace
      separator, keeps at least one non-blank piece. */
  lemma {:induction false} NonBlankPiecesOfNonBlank(s: string, sep: char)
    requires IsSpace(sep) && !IsBlank(s)
    ensures NonBlank(Split(s, sep)) != []
  {
    var rest := Split(s[1..], sep);
    if IsSpace(s[0]) {
      assert !IsBlank(s[1..]) by {
        var k :| 0 <= k < |s| && !IsSpace(s[k]);
        assert s[1..][k - 1] == s[k];
      }
      NonBlankPiecesOfNonBlank(s[1..], sep);
      if s[0] == sep {
        assert Split(s, sep) == [""] + rest;
        NonBlankAppend([""], rest);
      } else {
        var head := [s[0]] + rest[0];
        assert Split(s, sep) == [head] + rest[1..];
        NonBlankAppend([head], rest[1..]);
        NonBlankAppend([rest[0]], rest[1..]);
        assert [rest[0]] + rest[1..] == rest;
        if IsBlank(rest[0]) {
          assert NonBlank(rest) == NonBlank(rest[1..]);
        } else {
          var k :| 0 <= k < |rest[0]| && !IsSpace(rest[0][k]);
          assert head[k + 1] == rest[0][k];
        }
      }
    } else {
      var head := if s[0] == sep then "" else [s[0]] + rest[0];
      assert s[0] != sep;
      assert Split(s, sep) == [head] + rest[1..];
      assert head[0] == s[0];
      NonBlankAppend([head], rest[1..]);
    }
  }

  /** A list whose first item is not blank joins to a string that is not
      blank. */
  lemma JoinNotBlank(xs: seq<string>, sep: char)
    requires xs != [] && !IsBlank(xs[0])
    ensures !IsBlank(Join(xs, sep))
  {
    var k :| 0 <= k < |xs[0]| && !IsSpace(xs[0][k]);
    if |xs| > 1 {
      assert Join(xs, sep) == xs[0] + [sep] + Join(xs[1..], sep);
    }
    assert Join(xs, sep)[k] == xs[0][k];
  }

  /** Split on `sep`, then drop the blank pieces. */
  function NonBlankPieces(s: string, sep: char): seq<string> {
    NonBlank(Split(s, sep))
  }

  /** Joining a list with `sep` and then splitting and dropping blank pieces
      gives the list back, provided no item is blank or holds `sep`; this
      holds for the empty list too. */
  lemma JoinThenNonBlankPieces(xs: seq<string>, sep: char)
    requires forall i | 0 <= i < |xs| :: sep !in xs[i] && !IsBlank(xs[i])
    ensures NonBlankPieces(Join(xs, sep), sep) == xs
  {
    if xs == [] {
      assert Split("", sep) == [""];
    } else {
      SplitJoin(xs, sep);
      NonBlankKeepsAll(xs);
    }
  }

  function DigitChar(d: nat): char
    requires d < 10
  {
    ('0' as int + d) as char
  }

  function DigitValue(c: char): int {
    if '0' <= c <= '9' then c as int - '0' as int else -1
  }

  /** `n.toString()` for a natural number: its decimal digits, most
      significant first, without leading zeros. */
  function NatToDecimal(n: nat): (r: string)
    ensures |r| >= 1
    ensures forall i | 0 <= i < |r| :: 0 <= DigitValue(r[i]) < 10
    ensures n >= 10 ==> r[0] != '0'
  {
    if n < 10 then [DigitChar(n)] else NatToDecimal(n / 10) + [DigitChar(n % 10)]
  }

  /** `n.toString()` for an integer: a minus sign before the digits of a
      negative number. */
  function IntToDecimal(n: int): string {
    if n < 0 then "-" + NatToDecimal(-n) else NatToDecimal(n)
  }

  /** The value of a string of decimal digits. */
  function DecimalValue(s: string): int
    decreases |s|
  {
    if s == [] then 0 else 10 * DecimalValue(s[..|s| - 1]) + DigitValue(s[|s| - 1])
  }

  /** Reading the digits back gives the number. */
  lemma {:induction false} DecimalRoundTrip(n: nat)
    ensures DecimalValue(NatToDecimal(n)) == n
  {
    if n >= 10 {
      DecimalRoundTrip(n / 10);
      var s := NatToDecimal(n);
      assert s == NatToDecimal(n / 10) + [DigitChar(n % 10)];
      assert s[..|s| - 1] == NatToDecimal(n / 10);
      assert DigitValue(s[|s| - 1]) == n % 10;
    }
  }

  /** The integer a string of the form IntToDecimal produces stands for. */
  function DecimalIntValue(s: string): int {
    if s != [] && s[0] == '-' then -DecimalValue(s[1..]) else DecimalValue(s)
  }

  /** Reading a printed integer back gives the integer, so two integers print
      the same only if they are equal. */
  lemma IntDecimalRoundTrip(n: int)
    ensures DecimalIntValue(IntToDecimal(n)) == n
  {
    if n < 0 {
      var digits := NatToDecimal(-n);
      DecimalRoundTrip(-n);
      assert IntToDecimal(n) == "-" + digits;
      assert ("-" + digits)[0] == '-' && ("-" + digits)[1..] == digits;
    } else {
      var digits := NatToDecimal(n);
      DecimalRoundTrip(n);
      assert IntToDecimal(n) == digits;
      assert digits[0] != '-' by {
        assert 0 <= DigitValue(digits[0]);
      }
    }
  }

  /** No value of the list is truthy. */
  predicate NoneTruthy(vs: seq<Option<string>>) {
    forall j | 0 <= j < |vs| :: !Truthy(vs[j])
  }

  /** `vs[0] || vs[1] || ...` read as a truthy value: the first truthy value
      of the list, or None when there is none. */
  function FirstTruthy(vs: seq<Option<string>>): (r: Option<string>)
    ensures r.None? <==> NoneTruthy(vs)
    ensures r.Some? ==> Truthy(r) && exists i | 0 <= i < |vs| :: vs[i] == r && NoneTruthy(vs[..i])
  {
    if vs == [] then None
    else if Truthy(vs[0]) then
      assert NoneTruthy(vs[..0]);
      vs[0]
    else
      var r := FirstTruthy(vs[1..]);
      if r.Some? then
        var i :| 0 <= i < |vs[1..]| && vs[1..][i] == r && NoneTruthy(vs[1..][..i]);
        assert vs[1 + i] == r;
        assert NoneTruthy(vs[..1 + i]) by {
          forall j | 0 <= j < 1 + i ensures !Truthy(vs[j]) {
            if j > 0 {
              assert vs[j] == vs[1..][..i][j - 1];
            }
          }
        }
        r
      else
        r
  }

  /** The chain continues into the second list only when the first has no
      truthy value. */
  lemma {:induction false} FirstTruthyAppend(a: seq<Option<string>>, b: seq<Option<string>>)
    ensures FirstTruthy(a + b) == if FirstTruthy(a).Some? then FirstTruthy(a) else FirstTruthy(b)
  {
    if a == [] {
      assert a + b == b;
    } else {
      assert (a + b)[0] == a[0] && (a + b)[1..] == a[1..] + b;
      FirstTruthyAppend(a[1..], b);
    }
  }
}
