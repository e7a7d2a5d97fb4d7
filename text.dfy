/** The string operations the TypeScript code relies on: case mapping,
    `trim`, `includes`, `split`/`join` on a one-character separator, string
    comparison (used on ISO dates), decimal rendering and `padStart`. */
module Text {

  /** The characters `String.prototype.trim` removes: the Unicode space
      separators plus tab, vertical tab, form feed, byte-order mark and the
      four line terminators. */
  predicate IsWhiteSpace(c: char)
  {
    var n := c as int;
    n == 0x09 || n == 0x0A || n == 0x0B || n == 0x0C || n == 0x0D || n == 0x20
    || n == 0xA0 || n == 0x1680 || (0x2000 <= n <= 0x200A) || n == 0x2028
    || n == 0x2029 || n == 0x202F || n == 0x205F || n == 0x3000 || n == 0xFEFF
  }

  function TrimStart(s: string): (r: string)
    ensures |r| <= |s| && r == s[|s| - |r|..]
    ensures r != [] ==> !IsWhiteSpace(r[0])
    ensures forall i :: 0 <= i < |s| - |r| ==> IsWhiteSpace(s[i])
  {
    if s != [] && IsWhiteSpace(s[0]) then TrimStart(s[1..]) else s
  }

  function TrimEnd(s: string): (r: string)
    ensures |r| <= |s| && r == s[..|r|]
    ensures r != [] ==> !IsWhiteSpace(r[|r| - 1])
    ensures forall i :: |r| <= i < |s| ==> IsWhiteSpace(s[i])
  {
    if s != [] && IsWhiteSpace(s[|s| - 1]) then TrimEnd(s[..|s| - 1]) else s
  }

  /** `sub` occurs in `s` starting at position `i`. */
  predicate OccursAt(s: string, sub: string, i: int)
  {
    0 <= i <= |s| - |sub| && s[i..i + |sub|] == sub
  }

  /** `r` is `s` with the white space before position `i` and after
      `r` dropped, and nothing else. */
  predicate StripsTo(s: string, r: string, i: int)
  {
    OccursAt(s, r, i)
    && (forall j :: 0 <= j < i ==> IsWhiteSpace(s[j]))
    && (forall j :: i + |r| <= j < |s| ==> IsWhiteSpace(s[j]))
  }

  /** `s.trim()`: a contiguous slice of `s` with no white space at either
      end, obtained by dropping only white space. */
  function Trim(s: string): (r: string)
    ensures exists i :: StripsTo(s, r, i)
    ensures r != [] ==> !IsWhiteSpace(r[0]) && !IsWhiteSpace(r[|r| - 1])
    ensures s != [] && !IsWhiteSpace(s[0]) && !IsWhiteSpace(s[|s| - 1]) ==> r == s
  {
    var e := TrimEnd(s);
    StripsInTwoSteps(s, e, TrimStart(e));
    TrimStart(e)
  }

  /** Dropping white space from the end of `s`, giving `e`, and then from
      the start of `e`, giving `r`, strips `s` to `r`. */
  lemma StripsInTwoSteps(s: string, e: string, r: string)
    requires |e| <= |s| && e == s[..|e|]
    requires forall j :: |e| <= j < |s| ==> IsWhiteSpace(s[j])
    requires |r| <= |e| && r == e[|e| - |r|..]
    requires forall j :: 0 <= j < |e| - |r| ==> IsWhiteSpace(e[j])
    ensures StripsTo(s, r, |e| - |r|)
  {
    var i := |e| - |r|;
    assert OccursAt(s, r, i) by {
      assert s[i..i + |r|] == e[i..];
    }
    forall j | 0 <= j < i
      ensures IsWhiteSpace(s[j])
    {
      assert s[j] == e[j];
    }
  }

  /** Upper-case mapping of one character (`toUpperCase`) for the ASCII and
      Latin-1 letters; every other character is left as it is. */
  function UpperChar(c: char): char
  {
    var n := c as int;
    if 0x61 <= n <= 0x7A || (0xE0 <= n <= 0xFE && n != 0xF7) then (n - 0x20) as char
    else if n == 0xFF then 0x178 as char
    else c
  }

  /** Lower-case mapping of one character (`toLowerCase`), same coverage. */
  function LowerChar(c: char): char
  {
    var n := c as int;
    if 0x41 <= n <= 0x5A || (0xC0 <= n <= 0xDE && n != 0xD7) then (n + 0x20) as char
    else c
  }

  function ToUpper(s: string): (r: string)
    ensures |r| == |s|
    ensures forall i :: 0 <= i < |s| ==> r[i] == UpperChar(s[i])
  {
    if s == [] then [] else [UpperChar(s[0])] + ToUpper(s[1..])
  }

  function ToLower(s: string): (r: string)
    ensures |r| == |s|
    ensures forall i :: 0 <= i < |s| ==> r[i] == LowerChar(s[i])
  {
    if s == [] then [] else [LowerChar(s[0])] + ToLower(s[1..])
  }

  /** Upper-casing a string of capital ASCII letters changes nothing. */
  lemma ToUpperOfUpper(s: string)
    requires forall i :: 0 <= i < |s| ==> 'A' <= s[i] <= 'Z'
    ensures ToUpper(s) == s
  {
  }

  /** Upper-casing a string that is already upper case changes nothing. */
  lemma ToUpperIdempotent(s: string)
    ensures ToUpper(ToUpper(s)) == ToUpper(s)
  {
    assert forall i :: 0 <= i < |s| ==> UpperChar(UpperChar(s[i])) == UpperChar(s[i]);
  }

  predicate StartsWith(s: string, prefix: string)
  {
    |prefix| <= |s| && s[..|prefix|] == prefix
  }

  /** `s.includes(sub)`: `sub` occurs at some position of `s`. */
  function Contains(s: string, sub: string): (r: bool)
    ensures r <==> exists i :: OccursAt(s, sub, i)
  {
    if StartsWith(s, sub) then
      assert OccursAt(s, sub, 0);
      true
    else if s == [] then
      false
    else
      var r := Contains(s[1..], sub);
      if r then
        var i :| OccursAt(s[1..], sub, i);
        assert s[i + 1..i + 1 + |sub|] == s[1..][i..i + |sub|];
        assert OccursAt(s, sub, i + 1);
        true
      else
        assert forall i :: OccursAt(s, sub, i) ==> i == 0 || OccursAt(s[1..], sub, i - 1) by {
          forall i | OccursAt(s, sub, i) && i != 0 ensures OccursAt(s[1..], sub, i - 1) {
            assert s[1..][i - 1..i - 1 + |sub|] == s[i..i + |sub|];
          }
        }
        assert !OccursAt(s, sub, 0);
        false
  }

  /** The empty string occurs in every string: an empty search query
      matches everything. */
  lemma ContainsEmpty(s: string)
    ensures Contains(s, "")
  {
  }

  /** A string never contains a pattern one of whose characters it lacks. */
  lemma MissingCharNotContained(s: string, sub: string, k: int)
    requires 0 <= k < |sub| && sub[k] !in s
    ensures !Contains(s, sub)
  {
  }

  /** Every string contains itself. */
  lemma ContainsSelf(s: string)
    ensures Contains(s, s)
  {
    assert OccursAt(s, s, 0);
  }

  /** `s.split(c)` for a one-character separator `c`: the pieces between
      consecutive separators; there is always at least one piece. */
  function Split(s: string, c: char): (r: seq<string>)
    ensures |r| >= 1
  {
    if s == [] then [""]
    else if s[0] == c then [""] + Split(s[1..], c)
    else
      var rest := Split(s[1..], c);
      [[s[0]] + rest[0]] + rest[1..]
  }

  /** `parts.join(c)`; the join of no parts is the empty string. */
  function Join(parts: seq<string>, c: char): string
  {
    if parts == [] then ""
    else if |parts| == 1 then parts[0]
    else parts[0] + [c] + Join(parts[1..], c)
  }

  /** No piece of a split contains the separator. */
  lemma {:induction false} SplitPiecesFree(s: string, c: char)
    ensures forall p :: p in Split(s, c) ==> c !in p
  {
    if s != [] {
      SplitPiecesFree(s[1..], c);
      if s[0] != c {
        var rest := Split(s[1..], c);
        assert Split(s, c) == [[s[0]] + rest[0]] + rest[1..];
        assert forall p :: p in rest[1..] ==> p in rest;
      }
    }
  }

  /** Joining the pieces of a split gives back the string. */
  lemma {:induction false} JoinSplit(s: string, c: char)
    ensures Join(Split(s, c), c) == s
  {
    if s != [] {
      JoinSplit(s[1..], c);
      var rest := Split(s[1..], c);
      assert s == [s[0]] + s[1..];
      if s[0] == c {
        assert Split(s, c) == [""] + rest;
        assert ([""] + rest)[1..] == rest;
      } else {
        assert rest == [rest[0]] + rest[1..];
        JoinPrependFirst(s[0], rest[0], rest[1..], c);
      }
    }
  }

  /** Prepending a character to the first piece prepends it to the join. */
  lemma JoinPrependFirst(x: char, p: string, rest: seq<string>, c: char)
    ensures Join([[x] + p] + rest, c) == [x] + Join([p] + rest, c)
  {
    if rest != [] {
      assert ([[x] + p] + rest)[1..] == rest;
      assert ([p] + rest)[1..] == rest;
    }
  }

  /** A string splits into more than one piece exactly when it contains the
      separator. */
  lemma {:induction false} SplitSingle(s: string, c: char)
    ensures |Split(s, c)| == 1 <==> c !in s
    ensures c !in s ==> Split(s, c) == [s]
  {
    if s != [] {
      SplitSingle(s[1..], c);
      assert s == [s[0]] + s[1..];
    }
  }

  /** A leading word free of the separator is the first piece; the rest of
      the pieces are those of the remainder. */
  lemma {:induction false} SplitAfterWord(w: string, c: char, m: string)
    requires c !in w
    ensures Split(w + [c] + m, c) == [w] + Split(m, c)
  {
    if w == [] {
      assert w + [c] + m == [c] + m;
      assert ([c] + m)[1..] == m;
    } else {
      var s := w + [c] + m;
      assert s[0] == w[0] && s[1..] == w[1..] + [c] + m;
      SplitAfterWord(w[1..], c, m);
      var rest := Split(s[1..], c);
      assert rest == [w[1..]] + Split(m, c);
      assert rest[0] == w[1..] && rest[1..] == Split(m, c);
      assert [w[0]] + w[1..] == w;
    }
  }

  /** Joining parts with one more part at the end puts the separator before
      it. */
  lemma {:induction false} JoinSnoc(parts: seq<string>, p: string, c: char)
    requires parts != []
    ensures Join(parts + [p], c) == Join(parts, c) + [c] + p
  {
    if |parts| == 1 {
      assert parts + [p] == [parts[0], p];
    } else {
      assert (parts + [p])[1..] == parts[1..] + [p];
      JoinSnoc(parts[1..], p, c);
    }
  }

  /** JavaScript's `a <= b` on strings: code-unit by code-unit, a proper
      prefix being smaller. On fixed-format ISO dates (`YYYY-MM-DD`) this is
      chronological order. */
  predicate LexLe(a: string, b: string)
  {
    a == [] || (b != [] && (a[0] < b[0] || (a[0] == b[0] && LexLe(a[1..], b[1..]))))
  }

  lemma {:induction false} LexLeRefl(a: string)
    ensures LexLe(a, a)
  {
    if a != [] {
      LexLeRefl(a[1..]);
    }
  }

  lemma {:induction false} LexLeTotal(a: string, b: string)
    ensures LexLe(a, b) || LexLe(b, a)
  {
    if a != [] && b != [] && a[0] == b[0] {
      LexLeTotal(a[1..], b[1..]);
    }
  }

  lemma {:induction false} LexLeTrans(a: string, b: string, c: string)
    requires LexLe(a, b) && LexLe(b, c)
    ensures LexLe(a, c)
  {
    if a != [] && b != [] && c != [] && a[0] == b[0] && b[0] == c[0] {
      LexLeTrans(a[1..], b[1..], c[1..]);
    }
  }

  lemma {:induction false} LexLeAntisym(a: string, b: string)
    requires LexLe(a, b) && LexLe(b, a)
    ensures a == b
  {
    if a != [] && b != [] {
      LexLeAntisym(a[1..], b[1..]);
      assert a == [a[0]] + a[1..] && b == [b[0]] + b[1..];
    }
  }

  predicate IsDigit(c: char)
  {
    '0' <= c <= '9'
  }

  /** `String(n)` for a natural number: its decimal digits, with no leading
      zero except for 0 itself. */
  function Decimal(n: nat): (r: string)
    ensures |r| >= 1
    ensures forall i :: 0 <= i < |r| ==> IsDigit(r[i])
    ensures r[0] == '0' <==> n == 0
  {
    var d := ((n % 10) + ('0' as int)) as char;
    if n < 10 then [d] else Decimal(n / 10) + [d]
  }

  /** The number a string of decimal digits denotes, read left to right. */
  function DecimalValue(s: string): nat
    requires forall i :: 0 <= i < |s| ==> IsDigit(s[i])
  {
    if s == [] then 0
    else
      assert IsDigit(s[|s| - 1]);
      DecimalValue(s[..|s| - 1]) * 10 + ((s[|s| - 1] as int) - ('0' as int))
  }

  /** Reading back the decimal writing of a number gives the number. */
  lemma {:induction false} DecimalRoundTrip(n: nat)
    ensures DecimalValue(Decimal(n)) == n
  {
    if n >= 10 {
      DecimalRoundTrip(n / 10);
      var r := Decimal(n);
      assert r[..|r| - 1] == Decimal(n / 10);
    }
  }

  /** `s.padStart(width, pad)`: `s` preceded by as many `pad` characters as
      needed to reach `width`. */
  function PadStart(s: string, width: nat, pad: char): (r: string)
    ensures |r| == if |s| >= width then |s| else width
    ensures r[|r| - |s|..] == s
    ensures forall i :: 0 <= i < |r| - |s| ==> r[i] == pad
  {
    if |s| >= width then s else [pad] + PadStart(s, width - 1, pad)
  }
}
