/** The text primitives behind the configuration tables: trimming, splitting, decimal numbers. */
module RuleText {
  import opened Schema

  /** White space as Go's unicode.IsSpace sees it. */
  predicate IsSpace(c: char) {
    var n := c as int;
    || 9 <= n <= 13 || n == 32 || n == 0x85 || n == 0xA0 || n == 0x1680 || 0x2000 <= n <= 0x200A
    || n == 0x2028 || n == 0x2029 || n == 0x202F || n == 0x205F || n == 0x3000
  }

  function TrimLeft(s: string): string {
    if s != [] && IsSpace(s[0]) then TrimLeft(s[1..]) else s
  }

  function TrimRight(s: string): string {
    if s != [] && IsSpace(s[|s| - 1]) then TrimRight(s[..|s| - 1]) else s
  }

  function Trim(s: string): string {
    TrimRight(TrimLeft(s))
  }

  /** No white space at either end. */
  predicate Trimmed(s: string) {
    s != [] ==> !IsSpace(s[0]) && !IsSpace(s[|s| - 1])
  }

  lemma TrimTrimmed(s: string)
    requires Trimmed(s)
    ensures Trim(s) == s
  {
  }

  lemma {:induction false} TrimLeftBare(s: string)
    ensures TrimLeft(s) == [] || !IsSpace(TrimLeft(s)[0])
  {
    if s != [] && IsSpace(s[0]) { TrimLeftBare(s[1..]); }
  }

  lemma {:induction false} TrimRightBare(s: string)
    ensures TrimRight(s) <= s && (TrimRight(s) == [] || !IsSpace(TrimRight(s)[|TrimRight(s)| - 1]))
  {
    if s != [] && IsSpace(s[|s| - 1]) { TrimRightBare(s[..|s| - 1]); }
  }

  /** Trimming leaves trimmed text. */
  lemma TrimIsTrimmed(s: string)
    ensures Trimmed(Trim(s))
  {
    TrimLeftBare(s);
    TrimRightBare(TrimLeft(s));
  }

  /** strings.Split on one character: always at least one part. */
  function Split(s: string, sep: char): (parts: seq<string>)
    ensures parts != []
  {
    if s == [] then [[]] else
    var rest := Split(s[1..], sep);
    if s[0] == sep then [[]] + rest else [[s[0]] + rest[0]] + rest[1..]
  }

  /** strings.SplitN(s, sep, 2): the two sides of the first separator, if there is one. */
  function Cut(s: string, sep: char): Option<(string, string)> {
    if s == [] then None
    else if s[0] == sep then Some(([], s[1..]))
    else match Cut(s[1..], sep)
      case None => None
      case Some((a, b)) => Some(([s[0]] + a, b))
  }

  function Join(parts: seq<string>, sep: char): string {
    if parts == [] then [] else if |parts| == 1 then parts[0] else parts[0] + [sep] + Join(parts[1..], sep)
  }

  lemma {:induction false} SplitNone(s: string, sep: char)
    requires sep !in s
    ensures Split(s, sep) == [s]
  {
    if s != [] {
      SplitNone(s[1..], sep);
      assert [s[0]] + s[1..] == s;
    }
  }

  lemma {:induction false} SplitFirst(a: string, sep: char, rest: string)
    requires sep !in a
    ensures Split(a + [sep] + rest, sep) == [a] + Split(rest, sep)
  {
    var s := a + [sep] + rest;
    if a == [] {
      assert s[0] == sep && s[1..] == rest;
    } else {
      SplitFirst(a[1..], sep, rest);
      assert s[1..] == a[1..] + [sep] + rest;
      assert [a[0]] + a[1..] == a;
    }
  }

  /** Splitting undoes joining, for parts free of the separator. */
  lemma {:induction false} SplitJoin(parts: seq<string>, sep: char)
    requires parts != [] && forall i :: 0 <= i < |parts| ==> sep !in parts[i]
    ensures Split(Join(parts, sep), sep) == parts
  {
    if |parts| == 1 {
      SplitNone(parts[0], sep);
    } else {
      SplitJoin(parts[1..], sep);
      SplitFirst(parts[0], sep, Join(parts[1..], sep));
    }
  }

  lemma {:induction false} CutFirst(a: string, sep: char, b: string)
    requires sep !in a
    ensures Cut(a + [sep] + b, sep) == Some((a, b))
  {
    var s := a + [sep] + b;
    if a == [] {
      assert s[0] == sep && s[1..] == b;
    } else {
      CutFirst(a[1..], sep, b);
      assert s[1..] == a[1..] + [sep] + b;
      assert [a[0]] + a[1..] == a;
    }
  }

  lemma ConcatEnds(a: string, b: string)
    requires a != [] && b != []
    ensures a + b != [] && (a + b)[0] == a[0] && (a + b)[|a + b| - 1] == b[|b| - 1]
  {
  }

  /** The ends of a joined text are the ends of its first and last part. */
  lemma {:induction false} JoinEnds(parts: seq<string>, sep: char)
    requires parts != [] && forall i :: 0 <= i < |parts| ==> parts[i] != []
    ensures Join(parts, sep) != [] && Join(parts, sep)[0] == parts[0][0]
    ensures var last := parts[|parts| - 1]; Join(parts, sep)[|Join(parts, sep)| - 1] == last[|last| - 1]
  {
    if |parts| > 1 {
      var rest := parts[1..];
      assert rest[|rest| - 1] == parts[|parts| - 1];
      JoinEnds(rest, sep);
      ConcatEnds(parts[0] + [sep], Join(rest, sep));
    }
  }

  /** The parts of a list setting: split, trimmed, empty ones dropped. */
  function Kept(parts: seq<string>): seq<string> {
    if parts == [] then [] else
    Kept(parts[..|parts| - 1]) + if Trim(parts[|parts| - 1]) == [] then [] else [Trim(parts[|parts| - 1])]
  }

  predicate Item(s: string, sep: char) {
    s != [] && Trimmed(s) && sep !in s
  }

  lemma {:induction false} KeptAll(parts: seq<string>)
    requires forall i :: 0 <= i < |parts| ==> parts[i] != [] && Trimmed(parts[i])
    ensures Kept(parts) == parts
  {
    if parts != [] {
      KeptAll(parts[..|parts| - 1]);
      TrimTrimmed(parts[|parts| - 1]);
    }
  }

  // ---------- decimal numbers ----------

  const MIN_INT: int := -0x8000_0000_0000_0000
  const MAX_INT: int := 0x7FFF_FFFF_FFFF_FFFF

  predicate IsDigit(c: char) {
    '0' <= c <= '9'
  }

  predicate AllDigits(s: string) {
    forall i :: 0 <= i < |s| ==> IsDigit(s[i])
  }

  function Value(s: string): (v: int)
    requires AllDigits(s)
    ensures v >= 0
  {
    if s == [] then 0 else Value(s[..|s| - 1]) * 10 + (s[|s| - 1] as int - '0' as int)
  }

  /** strconv.Atoi on a 64-bit platform, and strconv.ParseInt(s, 10, 64). */
  function Atoi(s: string): Option<int> {
    var signed := s != [] && (s[0] == '-' || s[0] == '+');
    var digits := if signed then s[1..] else s;
    if digits == [] || !AllDigits(digits) then None else
    var n: int := if signed && s[0] == '-' then -Value(digits) else Value(digits);
    if MIN_INT <= n <= MAX_INT then Some(n) else None
  }

  function Digit(d: nat): char
    requires d < 10
  {
    ('0' as int + d) as char
  }

  function Digits(n: nat): string {
    if n < 10 then [Digit(n)] else Digits(n / 10) + [Digit(n % 10)]
  }

  function Itoa(n: int): string {
    if n < 0 then ['-'] + Digits(-n) else Digits(n)
  }

  lemma {:induction false} DigitsRoundTrip(n: nat)
    ensures Digits(n) != [] && AllDigits(Digits(n)) && Value(Digits(n)) == n
  {
    if n < 10 {
      assert [Digit(n)][..0] == [];
    } else {
      DigitsRoundTrip(n / 10);
      var s := Digits(n);
      assert s[..|s| - 1] == Digits(n / 10);
    }
  }

  /** Reading a printed number gives the number back. */
  lemma AtoiItoa(n: int)
    requires MIN_INT <= n <= MAX_INT
    ensures Atoi(Itoa(n)) == Some(n)
  {
    if n < 0 {
      DigitsRoundTrip(-n);
      AtoiOf(['-'] + Digits(-n), Digits(-n));
    } else {
      DigitsRoundTrip(n);
      AtoiOf(Digits(n), Digits(n));
    }
  }

  /** Reading a number with or without a minus sign. */
  lemma AtoiOf(s: string, digits: string)
    requires digits != [] && AllDigits(digits) && (s == digits || s == ['-'] + digits)
    ensures var n: int := if s == digits then Value(digits) else -Value(digits);
            Atoi(s) == if MIN_INT <= n <= MAX_INT then Some(n) else None
  {
    assert IsDigit(digits[0]);
    if s != digits { assert s[1..] == digits; }
  }

  /** A printed number is bare text made of digits and perhaps a sign. */
  lemma ItoaText(n: int)
    ensures Itoa(n) != [] && Trimmed(Itoa(n))
    ensures forall c :: c in Itoa(n) ==> IsDigit(c) || c == '-'
    ensures n >= 0 ==> forall c :: c in Itoa(n) ==> IsDigit(c)
  {
    DigitsRoundTrip(if n < 0 then -n else n);
    var d := Digits(if n < 0 then -n else n);
    assert IsDigit(d[0]) && IsDigit(d[|d| - 1]);
    if n < 0 { assert Itoa(n)[|Itoa(n)| - 1] == d[|d| - 1]; }
  }

  // ---------- what the primitives accept, both ways ----------

  predicate Blank(s: string) {
    forall i :: 0 <= i < |s| ==> IsSpace(s[i])
  }

  predicate Framed(s: string, a: string, core: string, b: string) {
    Blank(a) && Blank(b) && s == a + core + b
  }

  /** The text is this bare text with white space around it. */
  ghost predicate Bare(s: string, core: string) {
    Trimmed(core) && exists a, b :: Framed(s, a, core, b)
  }

  lemma {:induction false} TrimLeftParts(s: string) returns (a: string)
    ensures Blank(a) && s == a + TrimLeft(s)
  {
    if s != [] && IsSpace(s[0]) {
      var a' := TrimLeftParts(s[1..]);
      a := [s[0]] + a';
    } else {
      a := [];
    }
  }

  lemma {:induction false} TrimRightParts(s: string) returns (b: string)
    ensures Blank(b) && s == TrimRight(s) + b
  {
    if s != [] && IsSpace(s[|s| - 1]) {
      var b' := TrimRightParts(s[..|s| - 1]);
      b := b' + [s[|s| - 1]];
    } else {
      b := [];
    }
  }

  lemma {:induction false} TrimLeftDrops(a: string, s: string)
    requires Blank(a) && (s == [] || !IsSpace(s[0]))
    ensures TrimLeft(a + s) == s
  {
    if a == [] {
      assert a + s == s;
    } else {
      assert (a + s)[1..] == a[1..] + s;
      TrimLeftDrops(a[1..], s);
    }
  }

  lemma {:induction false} TrimRightDrops(s: string, b: string)
    requires Blank(b) && (s == [] || !IsSpace(s[|s| - 1]))
    ensures TrimRight(s + b) == s
  {
    if b == [] {
      assert s + b == s;
    } else {
      assert (s + b)[..|s + b| - 1] == s + b[..|b| - 1];
      TrimRightDrops(s, b[..|b| - 1]);
    }
  }

  lemma TrimFrames(s: string) returns (a: string, b: string)
    ensures Framed(s, a, Trim(s), b)
  {
    a := TrimLeftParts(s);
    b := TrimRightParts(TrimLeft(s));
    assert a + (Trim(s) + b) == a + Trim(s) + b;
  }

  lemma FramedTrims(s: string, a: string, core: string, b: string)
    requires Framed(s, a, core, b) && Trimmed(core)
    ensures Trim(s) == core
  {
    if core == [] {
      assert Blank(s) && s + [] == s;
      TrimLeftDrops(s, []);
    } else {
      assert s == a + (core + b);
      TrimLeftDrops(a, core + b);
      TrimRightDrops(core, b);
    }
  }

  /** Trimming gives exactly the bare text inside the white space. */
  lemma TrimExact(s: string, core: string)
    ensures Trim(s) == core <==> Bare(s, core)
  {
    TrimIsTrimmed(s);
    var a, b := TrimFrames(s);
    if Bare(s, core) {
      var x, y :| Framed(s, x, core, y);
      FramedTrims(s, x, core, y);
    }
  }

  /** Cutting gives exactly the two sides of the first separator. */
  lemma {:induction false} CutExact(s: string, sep: char)
    ensures Cut(s, sep).None? <==> sep !in s
    ensures Cut(s, sep).Some? ==> var (a, b) := Cut(s, sep).value; sep !in a && s == a + [sep] + b
  {
    if s != [] && s[0] != sep {
      CutExact(s[1..], sep);
      assert s == [s[0]] + s[1..];
    }
  }

  /** Splitting gives exactly the separator-free parts that join to the text. */
  lemma {:induction false} SplitExact(s: string, sep: char)
    ensures Join(Split(s, sep), sep) == s
    ensures forall i :: 0 <= i < |Split(s, sep)| ==> sep !in Split(s, sep)[i]
  {
    if s != [] {
      SplitExact(s[1..], sep);
      var rest := Split(s[1..], sep);
      assert s == [s[0]] + s[1..];
      if s[0] == sep {
        assert ([[]] + rest)[1..] == rest;
      } else {
        var parts := [[s[0]] + rest[0]] + rest[1..];
        assert parts[1..] == rest[1..];
        if |rest| > 1 {
          assert Join(parts, sep) == [s[0]] + rest[0] + [sep] + Join(rest[1..], sep);
        }
      }
    }
  }

  /** A decimal number within 64 bits: an optional sign and digits. */
  predicate DecimalForm(s: string, n: int, sign: string, digits: string) {
    && (sign == "" || sign == "-" || sign == "+") && digits != [] && AllDigits(digits) && s == sign + digits
    && n == (if sign == "-" then -Value(digits) else Value(digits)) && MIN_INT <= n <= MAX_INT
  }

  ghost predicate Decimal(s: string, n: int) {
    exists sign, digits :: DecimalForm(s, n, sign, digits)
  }

  lemma AtoiReads(s: string, n: int) returns (sign: string, digits: string)
    requires Atoi(s) == Some(n)
    ensures DecimalForm(s, n, sign, digits)
  {
    if s[0] == '-' || s[0] == '+' {
      sign, digits := [s[0]], s[1..];
    } else {
      sign, digits := "", s;
    }
  }

  lemma SignRead(s: string, n: int, sign: string, digits: string)
    requires DecimalForm(s, n, sign, digits)
    ensures Atoi(s) == Some(n)
  {
    assert IsDigit(digits[0]);
    if sign == "" {
      assert s == digits;
    } else {
      assert s[0] == sign[0] && s[1..] == digits;
    }
  }

  lemma AtoiExact(s: string, n: int)
    ensures Atoi(s) == Some(n) <==> Decimal(s, n)
  {
    if Atoi(s) == Some(n) {
      var sign, digits := AtoiReads(s, n);
    }
    if sign, digits :| DecimalForm(s, n, sign, digits) {
      SignRead(s, n, sign, digits);
    }
  }

  /** The items are the parts without their white space, in order, the blank parts left out. */
  ghost predicate Picks(parts: seq<string>, items: seq<string>) {
    if parts == [] then items == [] else
    var n, m := |parts| - 1, |items| - 1;
    || (Bare(parts[n], []) && Picks(parts[..n], items))
    || (m >= 0 && items[m] != [] && Bare(parts[n], items[m]) && Picks(parts[..n], items[..m]))
  }

  lemma {:induction false} KeptExact(parts: seq<string>, items: seq<string>)
    ensures Kept(parts) == items <==> Picks(parts, items)
  {
    if parts != [] {
      var n, m := |parts| - 1, |items| - 1;
      TrimExact(parts[n], []);
      KeptExact(parts[..n], items);
      if m >= 0 {
        TrimExact(parts[n], items[m]);
        KeptExact(parts[..n], items[..m]);
        assert items == items[..m] + [items[m]];
      }
    }
  }
}
