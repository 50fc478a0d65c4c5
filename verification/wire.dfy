/**
 The text of the trace file: one newline-terminated line per record, whose first
 word says what the record is.

 How `%p` prints an address is left to the C library, so the address text is a
 parameter `hex`. The process id is printed with `%ld`, which is rendered here
 in full, with its inverse.
 */
module Wire {
  import opened Records

  const REFERENCE_OFFSET: string := "REFERENCE:"
  const FUNCTION_ENTRY: string := "enter"
  const FUNCTION_EXIT: string := "exit"
  const END_TRACE: string := "EXIT"

  /** The text a hook call is tagged with. */
  function Tag(k: Kind): string
  {
    match k
    case Enter => FUNCTION_ENTRY
    case Exit => FUNCTION_EXIT
  }

  /** The first word of a record's line. */
  function Keyword(r: Record): string
  {
    match r
    case Reference(_, _) => REFERENCE_OFFSET
    case Event(k, _) => Tag(k)
    case End(_) => END_TRACE
  }

  /** Two records have the same kind of line: both references, both ends, or events with the same tag. */
  predicate SameKind(r1: Record, r2: Record)
  {
    || (r1.Reference? && r2.Reference?)
    || (r1.End? && r2.End?)
    || (r1.Event? && r2.Event? && r1.kind == r2.kind)
  }

  /** The four keywords are distinct, so the first word of a line tells its kind (and the tag is case-sensitive). */
  lemma KeywordIdentifiesKind(r1: Record, r2: Record)
    ensures Keyword(r1) == Keyword(r2) <==> SameKind(r1, r2)
  {
    assert FUNCTION_EXIT[0] != END_TRACE[0];
  }

  /** The decimal digits of `n`, most significant first. */
  function Digits(n: nat): string
  {
    if n < 10 then [DigitChar(n)] else Digits(n / 10) + [DigitChar(n % 10)]
  }

  function DigitChar(d: nat): char
    requires d < 10
  {
    ('0' as int + d) as char
  }

  /** `%ld`: an optional minus sign, then the decimal digits. */
  function Decimal(n: int): string
  {
    if n < 0 then "-" + Digits(-n) else Digits(n)
  }

  function DigitValue(c: char): nat
  {
    if '0' <= c <= '9' then (c - '0') as nat else 0
  }

  function ParseDigits(s: string): nat
  {
    if s == [] then 0 else ParseDigits(s[..|s| - 1]) * 10 + DigitValue(s[|s| - 1])
  }

  /** How a reader turns a `%ld` field back into a number. */
  function ParseDecimal(s: string): int
  {
    if s != [] && s[0] == '-' then -(ParseDigits(s[1..]) as int) else ParseDigits(s)
  }

  lemma ParseDigitsSnoc(s: string, c: char)
    ensures ParseDigits(s + [c]) == ParseDigits(s) * 10 + DigitValue(c)
  {
    assert (s + [c])[..|s|] == s;
  }

  lemma {:induction false} DigitsRoundTrip(n: nat)
    ensures |Digits(n)| > 0 && Digits(n)[0] != '-' && ' ' !in Digits(n)
    ensures ParseDigits(Digits(n)) == n
  {
    if n >= 10 {
      var q, d := n / 10, n % 10;
      DigitsRoundTrip(q);
      var c := DigitChar(d);
      assert Digits(n) == Digits(q) + [c];
      ParseDigitsSnoc(Digits(q), c);
      assert DigitValue(c) == d;
      assert q * 10 + d == n;
    }
  }

  /** Round trip of the `EXIT` line's process id. */
  lemma DecimalRoundTrip(n: int)
    ensures ' ' !in Decimal(n)
    ensures ParseDecimal(Decimal(n)) == n
  {
    if n < 0 {
      var d := Digits(-n);
      DigitsRoundTrip(-n);
      var s := ['-'] + d;
      assert Decimal(n) == s;
      assert s[0] == '-' && s[1..] == d;
    } else {
      DigitsRoundTrip(n);
    }
  }

  /** What follows the keyword on a record's line. */
  function Fields(r: Record, hex: Addr -> string): string
  {
    match r
    case Reference(name, a) => name + " " + hex(a)
    case Event(_, a) => hex(a)
    case End(pid) => Decimal(pid)
  }

  /** The line `fprintf` writes for a record. */
  function Line(r: Record, hex: Addr -> string): string
  {
    Keyword(r) + " " + Fields(r, hex) + "\n"
  }

  /** The lines of a log, one per record. */
  function Lines(log: seq<Record>, hex: Addr -> string): (ls: seq<string>)
    ensures |ls| == |log|
  {
    seq(|log|, i requires 0 <= i < |log| => Line(log[i], hex))
  }

  function Concat(ls: seq<string>): string
  {
    if ls == [] then [] else Concat(ls[..|ls| - 1]) + ls[|ls| - 1]
  }

  lemma ConcatSnoc(ls: seq<string>, l: string)
    ensures Concat(ls + [l]) == Concat(ls) + l
  {
    assert (ls + [l])[..|ls|] == ls;
  }

  lemma {:induction false} ConcatAppend(a: seq<string>, b: seq<string>)
    ensures Concat(a + b) == Concat(a) + Concat(b)
  {
    if b == [] {
      assert a + b == a;
    } else {
      var b', l := b[..|b| - 1], b[|b| - 1];
      assert b == b' + [l];
      calc {
        Concat(a + b);
        { assert a + b == (a + b') + [l]; ConcatSnoc(a + b', l); }
        Concat(a + b') + l;
        { ConcatAppend(a, b'); }
        Concat(a) + Concat(b') + l;
        { ConcatSnoc(b', l); }
        Concat(a) + Concat(b);
      }
    }
  }

  /** The text of a whole log. */
  function Text(log: seq<Record>, hex: Addr -> string): string
  {
    Concat(Lines(log, hex))
  }

  lemma LinesAppend(a: seq<Record>, b: seq<Record>, hex: Addr -> string)
    ensures Lines(a + b, hex) == Lines(a, hex) + Lines(b, hex)
  {
  }

  lemma TextAppend(a: seq<Record>, b: seq<Record>, hex: Addr -> string)
    ensures Text(a + b, hex) == Text(a, hex) + Text(b, hex)
  {
    LinesAppend(a, b, hex);
    ConcatAppend(Lines(a, hex), Lines(b, hex));
  }

  lemma TextOne(r: Record, hex: Addr -> string)
    ensures Text([r], hex) == Line(r, hex)
  {
    var ls := Lines([r], hex);
    assert ls == [Line(r, hex)];
    assert ls[..0] == [];
    assert Concat(ls) == Concat([]) + Line(r, hex);
  }

  /**
   In the file a session writes, the reference line, when configured, is the
   first line, and the `EXIT` line, once written, is the last.
   */
  lemma SessionText(reference: Option<RefFunction>, calls: seq<Call>, offset: Addr, ended: Option<int>, hex: Addr -> string)
    ensures var t := Text(Session(reference, calls, offset, ended), hex);
      && (reference.Some? ==> Line(Reference(reference.value.name, reference.value.addr), hex) <= t)
      && (ended.Some? ==> var e := Line(End(ended.value), hex); |e| <= |t| && t[|t| - |e|..] == e)
  {
    var h, m, f := Header(reference), Trace(calls, offset), Footer(ended);
    TextAppend(h + m, f, hex);
    TextAppend(h, m, hex);
    var t := Text(h, hex) + Text(m, hex) + Text(f, hex);
    if reference.Some? {
      TextOne(h[0], hex);
    } else {
      assert Text(h, hex) == [];
    }
    if ended.Some? {
      TextOne(f[0], hex);
      var e := Line(End(ended.value), hex);
      assert t[|t| - |e|..] == e;
    } else {
      assert Text(f, hex) == [];
    }
  }

  /** The characters before the first space. */
  function FirstWord(s: string): string
  {
    if s == [] || s[0] == ' ' then [] else [s[0]] + FirstWord(s[1..])
  }

  lemma {:induction false} FirstWordOf(w: string, rest: string)
    requires ' ' !in w
    ensures FirstWord(w + " " + rest) == w
  {
    if w != [] {
      FirstWordOf(w[1..], rest);
      assert (w + " " + rest)[1..] == w[1..] + " " + rest;
    }
  }

  /** A line starts with its record's keyword, whatever the address text and the name are. */
  lemma LineKeyword(r: Record, hex: Addr -> string)
    ensures FirstWord(Line(r, hex)) == Keyword(r)
  {
    FirstWordOf(Keyword(r), Fields(r, hex) + "\n");
    assert Line(r, hex) == Keyword(r) + " " + (Fields(r, hex) + "\n");
  }
}
