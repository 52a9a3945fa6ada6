// The self-delimiting lines of a canonical configuration text, and the reader
// that recovers them (control_link_contract/src/config_identity.cpp,
// CanonicalWriter). Characters stand for bytes.
module CanonicalText {
  import opened Common
  import opened Messages

  datatype Token =
    | StrTok(name: string, text: string)
    | UintTok(name: string, number: nat)
    | BoolTok(name: string, flag: bool)

  // ------------------------------------------------------------- numbers

  predicate IsDigit(c: char) {
    '0' <= c <= '9'
  }

  function DigitChar(d: nat): (c: char)
    requires d < 10
    ensures IsDigit(c)
  {
    ('0' as int + d) as char
  }

  function DigitValue(c: char): (d: nat)
    requires IsDigit(c)
    ensures d < 10
  {
    c as int - '0' as int
  }

  lemma DigitRoundTrip(d: nat)
    requires d < 10
    ensures DigitValue(DigitChar(d)) == d
  {
  }

  // A number in the given base: all digits but the last, and the last.
  function Quotient(n: nat, base: nat): nat
    requires base > 1
  {
    n / base
  }

  function LastDigit(n: nat, base: nat): nat
    requires base > 1
  {
    n % base
  }

  lemma Digits(n: nat, base: nat)
    requires base > 1
    ensures n == Quotient(n, base) * base + LastDigit(n, base) && LastDigit(n, base) < base
    ensures n >= base ==> Quotient(n, base) < n
  {
    Grows(Quotient(n, base), base);
  }

  lemma Grows(q: nat, base: nat)
    requires base > 1
    ensures q > 0 ==> q < q * base
  {
  }

  // std::to_string of an unsigned number.
  function Decimal(n: nat): (s: string)
    ensures s != "" && forall i :: 0 <= i < |s| ==> IsDigit(s[i])
  {
    Digits(n, 10);
    if n < 10 then [DigitChar(n)] else Decimal(Quotient(n, 10)) + [DigitChar(LastDigit(n, 10))]
  }

  predicate AllDigits(s: string) {
    forall i :: 0 <= i < |s| ==> IsDigit(s[i])
  }

  function DecimalValue(s: string): nat
    requires AllDigits(s)
  {
    if s == "" then 0 else DecimalValue(s[..|s| - 1]) * 10 + DigitValue(s[|s| - 1])
  }

  lemma {:induction false} DecimalRoundTrip(n: nat)
    ensures DecimalValue(Decimal(n)) == n
  {
    Digits(n, 10);
    if n < 10 {
      LastOf("", DigitChar(n));
      DigitRoundTrip(n);
    } else {
      DecimalRoundTrip(Quotient(n, 10));
      LastOf(Decimal(Quotient(n, 10)), DigitChar(LastDigit(n, 10)));
      DigitRoundTrip(LastDigit(n, 10));
    }
  }

  lemma LastOf(s: string, c: char)
    requires AllDigits(s) && IsDigit(c)
    ensures DecimalValue(s + [c]) == DecimalValue(s) * 10 + DigitValue(c)
  {
    assert (s + [c])[..|s|] == s;
  }

  // A double is its 64-bit pattern; negative zero is printed as zero.
  const NEGATIVE_ZERO: uint64 := 0x8000_0000_0000_0000

  function CanonicalBits(bits: uint64): uint64 {
    if bits == NEGATIVE_ZERO then 0 else bits
  }

  function HexChar(d: nat): char
    requires d < 16
  {
    if d < 10 then DigitChar(d) else ('a' as int + (d - 10)) as char
  }

  function HexValue(c: char): Option<nat> {
    if IsDigit(c) then Some(DigitValue(c))
    else if 'a' <= c <= 'f' then Some(c as int - 'a' as int + 10)
    else None
  }

  lemma HexDigitRoundTrip(d: nat)
    requires d < 16
    ensures HexValue(HexChar(d)) == Some(d)
  {
  }

  // The low `width` hexadecimal digits, leading zeros included.
  function Hex(n: nat, width: nat): (s: string)
    ensures |s| == width
  {
    if width == 0 then ""
    else
      Digits(n, 16);
      Hex(Quotient(n, 16), width - 1) + [HexChar(LastDigit(n, 16))]
  }

  function ParseHex(s: string): Option<nat> {
    if s == "" then Some(0)
    else
      var n := |s| - 1;
      var before := ParseHex(s[..n]);
      var digit := HexValue(s[n]);
      if before.None? || digit.None? then None else Some(before.value * 16 + digit.value)
  }

  function Power16(width: nat): nat {
    if width == 0 then 1 else 16 * Power16(width - 1)
  }

  lemma {:induction false} HexRoundTrip(n: nat, width: nat)
    requires n < Power16(width)
    ensures ParseHex(Hex(n, width)) == Some(n)
  {
    if width > 0 {
      var q, d := HexSplits(n, width);
      HexRoundTrip(q, width - 1);
      HexStep(q, d, Hex(q, width - 1));
    }
  }

  // All digits but the last, and the last.
  lemma HexSplits(n: nat, width: nat) returns (q: nat, d: nat)
    requires width > 0 && n < Power16(width)
    ensures d < 16 && n == q * 16 + d && q < Power16(width - 1)
    ensures Hex(n, width) == Hex(q, width - 1) + [HexChar(d)]
  {
    Digits(n, 16);
    QuotientBelow(n, Power16(width - 1));
    q, d := Quotient(n, 16), LastDigit(n, 16);
  }

  lemma HexStep(q: nat, d: nat, s: string)
    requires d < 16 && ParseHex(s) == Some(q)
    ensures ParseHex(s + [HexChar(d)]) == Some(q * 16 + d)
  {
    HexDigitRoundTrip(d);
    LastHex(s, HexChar(d));
  }

  lemma QuotientBelow(n: nat, bound: nat)
    requires n < 16 * bound
    ensures Quotient(n, 16) < bound
  {
  }

  lemma LastHex(s: string, c: char)
    requires ParseHex(s).Some? && HexValue(c).Some?
    ensures ParseHex(s + [c]) == Some(ParseHex(s).value * 16 + HexValue(c).value)
  {
    assert (s + [c])[..|s|] == s;
  }

  function BitsText(bits: uint64): string {
    Hex(CanonicalBits(bits), 16)
  }

  lemma Power16Of16()
    ensures Power16(16) == MAX_UINT64 + 1
  {
    assert Power16(4) == 0x1_0000;
    assert Power16(8) == 0x1_0000_0000;
    assert Power16(12) == 0x1_0000_0000_0000;
  }

  lemma BitsRoundTrip(bits: uint64)
    ensures ParseHex(BitsText(bits)) == Some(CanonicalBits(bits))
  {
    Power16Of16();
    HexRoundTrip(CanonicalBits(bits), 16);
  }

  // ------------------------------------------------------------- printing

  function Print(t: Token): string {
    match t
    case StrTok(name, text) => name + "|string|" + Decimal(|text|) + "|" + text + "\n"
    case UintTok(name, number) => name + "|uint|" + Decimal(number) + "\n"
    case BoolTok(name, flag) => name + (if flag then "|bool|1\n" else "|bool|0\n")
  }

  function PrintAll(ts: seq<Token>): string {
    if ts == [] then "" else Print(ts[0]) + PrintAll(ts[1..])
  }

  lemma {:induction false} PrintAppend(a: seq<Token>, b: seq<Token>)
    ensures PrintAll(a + b) == PrintAll(a) + PrintAll(b)
  {
    if a == [] {
      assert a + b == b;
    } else {
      PrintAppend(a[1..], b);
      FrontOf(a, b);
      Associative(Print(a[0]), PrintAll(a[1..]), PrintAll(b));
    }
  }

  lemma FrontOf(a: seq<Token>, b: seq<Token>)
    requires a != []
    ensures (a + b)[0] == a[0] && (a + b)[1..] == a[1..] + b
  {
  }

  lemma Associative(x: string, y: string, z: string)
    ensures (x + y) + z == x + (y + z)
  {
  }

  lemma PrintOne(ts: seq<Token>, t: Token)
    ensures PrintAll(ts + [t]) == PrintAll(ts) + Print(t)
  {
    PrintAppend(ts, [t]);
    assert PrintAll([t]) == Print(t) + PrintAll([]);
  }

  // ------------------------------------------------------------- reading

  // The text before the first `c`, and the text after it.
  function SplitAt(text: string, c: char): Option<(string, string)> {
    if text == "" then None
    else if text[0] == c then Some(("", text[1..]))
    else
      var (before, after) :- SplitAt(text[1..], c);
      Some(([text[0]] + before, after))
  }

  lemma {:induction false} SplitFirst(before: string, c: char, after: string)
    requires c !in before
    ensures SplitAt(before + [c] + after, c) == Some((before, after))
  {
    var text := before + [c] + after;
    if before == "" {
      assert text == [c] + after;
    } else {
      SplitFirst(before[1..], c, after);
      assert text[0] == before[0] && text[1..] == before[1..] + [c] + after;
      assert [before[0]] + before[1..] == before;
    }
  }

  function AfterPrefix(prefix: string, text: string): Option<string> {
    if prefix <= text then Some(text[|prefix|..]) else None
  }

  lemma PrefixBack(prefix: string, after: string)
    ensures AfterPrefix(prefix, prefix + after) == Some(after)
  {
  }

  function ReadNumber(text: string, end: char): Option<(nat, string)> {
    var (digits, rest) :- SplitAt(text, end);
    if digits == "" || !AllDigits(digits) then None else Some((DecimalValue(digits), rest))
  }

  lemma ReadNumberBack(n: nat, end: char, after: string)
    requires !IsDigit(end)
    ensures ReadNumber(Decimal(n) + [end] + after, end) == Some((n, after))
  {
    SplitFirst(Decimal(n), end, after);
    DecimalRoundTrip(n);
  }

  // The value of the line with the given name at the front of a text, and the
  // text after the line.
  function ReadStr(name: string, text: string): Option<(string, string)> {
    var line :- AfterPrefix(name + "|string|", text);
    var (n, rest) :- ReadNumber(line, '|');
    if |rest| <= n || rest[n] != '\n' then None else Some((rest[..n], rest[n + 1..]))
  }

  function ReadUint(name: string, text: string): Option<(nat, string)> {
    var line :- AfterPrefix(name + "|uint|", text);
    ReadNumber(line, '\n')
  }

  function ReadBool(name: string, text: string): Option<(bool, string)> {
    var line :- AfterPrefix(name + "|bool|", text);
    if |line| < 2 || line[1] != '\n' || (line[0] != '0' && line[0] != '1') then None
    else Some((line[0] == '1', line[2..]))
  }

  // Reading a printed line gives its value back, whatever the value contains
  // and whatever follows.
  lemma ReadStrBack(name: string, text: string, after: string)
    ensures ReadStr(name, Print(StrTok(name, text)) + after) == Some((text, after))
  {
    var rest := ['\n'] + after;
    var tail := text + rest;
    var line := Decimal(|text|) + ['|'] + tail;
    assert Print(StrTok(name, text)) + after == (name + "|string|") + line;
    PrefixBack(name + "|string|", line);
    ReadNumberBack(|text|, '|', tail);
    SliceBack(text, '\n', after);
  }

  lemma SliceBack(text: string, end: char, after: string)
    ensures var tail := text + ([end] + after);
            tail[|text|] == end && tail[..|text|] == text && tail[|text| + 1..] == after
  {
    var rest := [end] + after;
    var tail := text + rest;
    assert tail[|text| + 1..] == rest[1..];
    assert rest[1..] == after;
  }

  lemma ReadUintBack(name: string, number: nat, after: string)
    ensures ReadUint(name, Print(UintTok(name, number)) + after) == Some((number, after))
  {
    var line := Decimal(number) + ['\n'] + after;
    assert Print(UintTok(name, number)) + after == (name + "|uint|") + line;
    PrefixBack(name + "|uint|", line);
    ReadNumberBack(number, '\n', after);
  }

  lemma ReadBoolBack(name: string, flag: bool, after: string)
    ensures ReadBool(name, Print(BoolTok(name, flag)) + after) == Some((flag, after))
  {
    var digit := if flag then '1' else '0';
    var line := [digit, '\n'] + after;
    assert Print(BoolTok(name, flag)) + after == (name + "|bool|") + line;
    PrefixBack(name + "|bool|", line);
    assert line[2..] == after;
  }

  // ----------------------------------------------- lines of the same shape

  predicate SameField(a: Token, b: Token) {
    a.name == b.name && a.StrTok? == b.StrTok? && a.UintTok? == b.UintTok?
  }

  predicate SameShape(a: seq<Token>, b: seq<Token>) {
    |a| == |b| && forall i :: 0 <= i < |a| ==> SameField(a[i], b[i])
  }

  lemma SameFieldCancels(a: Token, b: Token, afterA: string, afterB: string)
    requires SameField(a, b) && Print(a) + afterA == Print(b) + afterB
    ensures a == b && afterA == afterB
  {
    match a
    case StrTok(name, text) =>
      ReadStrBack(name, text, afterA);
      ReadStrBack(name, b.text, afterB);
    case UintTok(name, number) =>
      ReadUintBack(name, number, afterA);
      ReadUintBack(name, b.number, afterB);
    case BoolTok(name, flag) =>
      ReadBoolBack(name, flag, afterA);
      ReadBoolBack(name, b.flag, afterB);
  }

  // Texts that begin with lines of the same fields agree on those lines and on
  // what follows.
  lemma {:induction false} SameShapeCancels(a: seq<Token>, b: seq<Token>, afterA: string, afterB: string)
    requires SameShape(a, b) && PrintAll(a) + afterA == PrintAll(b) + afterB
    ensures a == b && afterA == afterB
  {
    if a == [] {
      assert PrintAll(a) + afterA == afterA && PrintAll(b) + afterB == afterB;
    } else {
      FirstCancels(a, b, afterA, afterB);
      SameShapeCancels(a[1..], b[1..], afterA, afterB);
      assert a == [a[0]] + a[1..] && b == [b[0]] + b[1..];
    }
  }

  lemma FirstCancels(a: seq<Token>, b: seq<Token>, afterA: string, afterB: string)
    requires a != [] && SameShape(a, b) && PrintAll(a) + afterA == PrintAll(b) + afterB
    ensures a[0] == b[0] && PrintAll(a[1..]) + afterA == PrintAll(b[1..]) + afterB
  {
    Associative(Print(a[0]), PrintAll(a[1..]), afterA);
    Associative(Print(b[0]), PrintAll(b[1..]), afterB);
    SameFieldCancels(a[0], b[0], PrintAll(a[1..]) + afterA, PrintAll(b[1..]) + afterB);
  }

  // ------------------------------------------------------------- fields

  // One field of a record: a line, or a presence flag and, if it is set, a
  // line with the value.
  datatype Field =
    | Line(line: Token)
    | MaybeUint(present: string, uintName: string, number: Option<nat>)
    | MaybeStr(present: string, strName: string, text: Option<string>)

  function FieldLines(f: Field): seq<Token> {
    match f
    case Line(line) => [line]
    case MaybeUint(present, name, v) =>
      [BoolTok(present, v.Some?)] + (if v.Some? then [UintTok(name, v.value)] else [])
    case MaybeStr(present, name, v) =>
      [BoolTok(present, v.Some?)] + (if v.Some? then [StrTok(name, v.value)] else [])
  }

  // The lines of a list, one element after the other.
  function ListLines<T>(linesOf: T -> seq<Token>, xs: seq<T>): seq<Token> {
    if xs == [] then [] else linesOf(xs[0]) + ListLines(linesOf, xs[1..])
  }

  predicate SameKind(a: Field, b: Field) {
    match (a, b)
    case (Line(x), Line(y)) => SameField(x, y)
    case (MaybeUint(p, n, _), MaybeUint(q, m, _)) => p == q && n == m
    case (MaybeStr(p, n, _), MaybeStr(q, m, _)) => p == q && n == m
    case _ => false
  }

  predicate SameSchema(a: seq<Field>, b: seq<Field>) {
    |a| == |b| && forall i :: 0 <= i < |a| ==> SameKind(a[i], b[i])
  }

  // Reads a field of the same kind as the given one.
  function ReadField(like: Field, text: string): (r: Option<(Field, string)>)
    ensures r.Some? ==> SameKind(like, r.value.0)
  {
    match like
    case Line(StrTok(name, _)) =>
      var (value, rest) :- ReadStr(name, text);
      Some((Line(StrTok(name, value)), rest))
    case Line(UintTok(name, _)) =>
      var (value, rest) :- ReadUint(name, text);
      Some((Line(UintTok(name, value)), rest))
    case Line(BoolTok(name, _)) =>
      var (value, rest) :- ReadBool(name, text);
      Some((Line(BoolTok(name, value)), rest))
    case MaybeUint(present, name, _) =>
      var (here, rest) :- ReadBool(present, text);
      if !here then Some((MaybeUint(present, name, None), rest))
      else
        var (value, after) :- ReadUint(name, rest);
        Some((MaybeUint(present, name, Some(value)), after))
    case MaybeStr(present, name, _) =>
      var (here, rest) :- ReadBool(present, text);
      if !here then Some((MaybeStr(present, name, None), rest))
      else
        var (value, after) :- ReadStr(name, rest);
        Some((MaybeStr(present, name, Some(value)), after))
  }

  function ReadFields(template: seq<Field>, text: string): (r: Option<(seq<Field>, string)>)
    ensures r.Some? ==> SameSchema(template, r.value.0)
  {
    if template == [] then Some(([], text))
    else
      var (first, rest) :- ReadField(template[0], text);
      var (others, after) :- ReadFields(template[1..], rest);
      Some(([first] + others, after))
  }

  lemma PrintSingle(a: Token)
    ensures PrintAll([a]) == Print(a)
  {
    PrintOne([], a);
    assert [] + [a] == [a] && "" + Print(a) == Print(a);
  }

  lemma PrintTwo(a: Token, b: Token, after: string)
    ensures PrintAll([a, b]) + after == Print(a) + (Print(b) + after)
    ensures PrintAll([a]) + after == Print(a) + after
  {
    PrintSingle(a);
    PrintOne([a], b);
    assert [a] + [b] == [a, b];
    Associative(Print(a), Print(b), after);
  }

  lemma ReadFieldBack(like: Field, f: Field, after: string)
    requires SameKind(like, f)
    ensures ReadField(like, PrintAll(FieldLines(f)) + after) == Some((f, after))
  {
    match f
    case Line(line) =>
      PrintTwo(line, line, after);
      ReadLineBack(line, after);
    case MaybeUint(present, name, v) =>
      var value := UintTok(name, if v.Some? then v.value else 0);
      PrintTwo(BoolTok(present, v.Some?), value, after);
      assert FieldLines(f) == if v.Some? then [BoolTok(present, v.Some?), value] else [BoolTok(present, v.Some?)];
      ReadBoolBack(present, v.Some?, if v.Some? then Print(value) + after else after);
      ReadUintBack(name, value.number, after);
    case MaybeStr(present, name, v) =>
      var value := StrTok(name, if v.Some? then v.value else "");
      PrintTwo(BoolTok(present, v.Some?), value, after);
      assert FieldLines(f) == if v.Some? then [BoolTok(present, v.Some?), value] else [BoolTok(present, v.Some?)];
      ReadBoolBack(present, v.Some?, if v.Some? then Print(value) + after else after);
      ReadStrBack(name, value.text, after);
  }

  lemma ReadLineBack(line: Token, after: string)
    ensures match line
            case StrTok(name, text) => ReadStr(name, Print(line) + after) == Some((text, after))
            case UintTok(name, number) => ReadUint(name, Print(line) + after) == Some((number, after))
            case BoolTok(name, flag) => ReadBool(name, Print(line) + after) == Some((flag, after))
  {
    match line
    case StrTok(name, text) => ReadStrBack(name, text, after);
    case UintTok(name, number) => ReadUintBack(name, number, after);
    case BoolTok(name, flag) => ReadBoolBack(name, flag, after);
  }

  // Fields read back from their text with any template of the same schema,
  // whatever their values are.
  lemma {:induction false} ReadFieldsBack(template: seq<Field>, fs: seq<Field>, after: string)
    requires SameSchema(template, fs)
    ensures ReadFields(template, PrintAll(ListLines(FieldLines, fs)) + after) == Some((fs, after))
  {
    if fs == [] {
      assert PrintAll(ListLines(FieldLines, fs)) + after == after;
    } else {
      var head, tail := FieldLines(fs[0]), ListLines(FieldLines, fs[1..]);
      PrintAppend(head, tail);
      Associative(PrintAll(head), PrintAll(tail), after);
      ReadFieldBack(template[0], fs[0], PrintAll(tail) + after);
      ReadFieldsBack(template[1..], fs[1..], after);
      assert [fs[0]] + fs[1..] == fs;
    }
  }

  // A list of n records of one schema.
  function ReadRecords<T>(n: nat, template: seq<Field>, recordOf: seq<Field> -> Option<T>, text: string)
    : Option<(seq<T>, string)>
  {
    if n == 0 then Some(([], text))
    else
      var (fields, rest) :- ReadFields(template, text);
      var first :- recordOf(fields);
      var (others, after) :- ReadRecords(n - 1, template, recordOf, rest);
      Some(([first] + others, after))
  }

  function Mapped<T, U>(f: T -> U, xs: seq<T>): (r: seq<U>)
    ensures |r| == |xs| && forall i :: 0 <= i < |xs| ==> r[i] == f(xs[i])
  {
    seq(|xs|, i requires 0 <= i < |xs| => f(xs[i]))
  }

  // How a type of records is printed and what its text says.
  ghost predicate Readable<T(!new)>(template: seq<Field>, linesOf: T -> seq<Token>, fieldsOf: T -> seq<Field>,
                                    recordOf: seq<Field> -> Option<T>, normal: T -> T)
  {
    forall x :: && SameSchema(template, fieldsOf(x)) && linesOf(x) == ListLines(FieldLines, fieldsOf(x))
                && recordOf(fieldsOf(x)) == Some(normal(x))
  }

  lemma FirstRecord<T(!new)>(
    template: seq<Field>, linesOf: T -> seq<Token>, fieldsOf: T -> seq<Field>,
    recordOf: seq<Field> -> Option<T>, normal: T -> T, x: T, after: string)
    requires Readable(template, linesOf, fieldsOf, recordOf, normal)
    ensures ReadFields(template, PrintAll(linesOf(x)) + after) == Some((fieldsOf(x), after))
    ensures recordOf(fieldsOf(x)) == Some(normal(x))
  {
    ReadFieldsBack(template, fieldsOf(x), after);
  }

  lemma FirstMapped<T>(f: T -> T, xs: seq<T>)
    requires xs != []
    ensures [f(xs[0])] + Mapped(f, xs[1..]) == Mapped(f, xs)
  {
  }

  lemma {:induction false} ReadRecordsBack<T(!new)>(
    template: seq<Field>, linesOf: T -> seq<Token>, fieldsOf: T -> seq<Field>,
    recordOf: seq<Field> -> Option<T>, normal: T -> T, xs: seq<T>, after: string)
    requires Readable(template, linesOf, fieldsOf, recordOf, normal)
    ensures ReadRecords(|xs|, template, recordOf, PrintAll(ListLines(linesOf, xs)) + after) ==
            Some((Mapped(normal, xs), after))
  {
    if xs == [] {
      assert PrintAll(ListLines(linesOf, xs)) + after == after;
    } else {
      var head, tail := linesOf(xs[0]), ListLines(linesOf, xs[1..]);
      PrintAppend(head, tail);
      Associative(PrintAll(head), PrintAll(tail), after);
      FirstRecord(template, linesOf, fieldsOf, recordOf, normal, xs[0], PrintAll(tail) + after);
      ReadRecordsBack(template, linesOf, fieldsOf, recordOf, normal, xs[1..], after);
      FirstMapped(normal, xs);
    }
  }

  // ------------------------------------------------------------ the object

  class CanonicalWriter {
    var buffer: string
    // The lines written so far.
    ghost var lines: seq<Token>

    ghost predicate Valid()
      reads this
    {
      buffer == PrintAll(lines)
    }

    constructor ()
      ensures Valid() && lines == []
    {
      buffer := "";
      lines := [];
    }

    method String(name: string, text: string)
      requires Valid()
      modifies this
      ensures Valid() && lines == old(lines) + [StrTok(name, text)]
    {
      ghost var t := StrTok(name, text);
      PrintOne(lines, t);
      lines := lines + [t];
      var line := name;
      line := line + "|string|";
      line := line + Decimal(|text|);
      line := line + "|";
      line := line + text;
      line := line + "\n";
      buffer := buffer + line;
    }

    method UnsignedInteger(name: string, number: nat)
      requires Valid()
      modifies this
      ensures Valid() && lines == old(lines) + [UintTok(name, number)]
    {
      PrintOne(lines, UintTok(name, number));
      lines := lines + [UintTok(name, number)];
      buffer := buffer + (name + "|uint|" + Decimal(number) + "\n");
    }

    method Boolean(name: string, flag: bool)
      requires Valid()
      modifies this
      ensures Valid() && lines == old(lines) + [BoolTok(name, flag)]
    {
      PrintOne(lines, BoolTok(name, flag));
      lines := lines + [BoolTok(name, flag)];
      buffer := buffer + (name + (if flag then "|bool|1\n" else "|bool|0\n"));
    }

    method FloatingPoint(name: string, bits: uint64)
      requires Valid()
      modifies this
      ensures Valid() && lines == old(lines) + [StrTok(name, BitsText(bits))]
    {
      var canonical := bits;
      if canonical == NEGATIVE_ZERO {
        canonical := 0;
      }
      String(name, Hex(canonical, 16));
    }
  }

  // ------------------------------------------------------------- examples

  lemma DecimalOf(n: nat, q: nat, d: nat)
    requires n == 10 * q + d && d < 10 && q > 0
    ensures Decimal(n) == Decimal(q) + [DigitChar(d)]
  {
    Digits(n, 10);
    assert Quotient(n, 10) == q && LastDigit(n, 10) == d;
  }

  lemma HexOf(n: nat, q: nat, d: nat, width: nat)
    requires n == 16 * q + d && d < 16 && width > 0
    ensures Hex(n, width) == Hex(q, width - 1) + [HexChar(d)]
  {
    Digits(n, 16);
    assert Quotient(n, 16) == q && LastDigit(n, 16) == d;
  }

  // Numbers are written most significant digit first, without leading zeros in
  // decimal and with all sixteen digits in hexadecimal.
  lemma PrintedNumbers()
    ensures Decimal(105) == "105" && Hex(0xA3, 3) == "0a3"
  {
    DecimalOf(105, 10, 5);
    DecimalOf(10, 1, 0);
    HexOf(0xA3, 0xA, 3, 3);
    HexOf(0xA, 0, 0xA, 2);
    HexOf(0, 0, 0, 1);
  }

  // One line of each kind.
  lemma PrintedLines()
    ensures Print(StrTok("topic", "/cmd")) == "topic|string|4|/cmd\n"
    ensures Print(UintTok("depth", 105)) == "depth|uint|105\n"
    ensures Print(BoolTok("flag", true)) == "flag|bool|1\n" && Print(BoolTok("flag", false)) == "flag|bool|0\n"
  {
    PrintedNumbers();
    assert Decimal(4) == "4";
  }
}
