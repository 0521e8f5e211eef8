/** The textual form of port mappings: `name:port:host:port`, separated by commas. */
module PortMappings {
  import opened Common
  import opened Messages

  /** Characters with the Unicode White_Space property. */
  predicate IsWhitespace(c: char) {
    || c == ' ' || '\t' <= c <= '\r' || c == '\U{85}' || c == '\U{A0}' || c == '\U{1680}'
    || '\U{2000}' <= c <= '\U{200A}' || c == '\U{2028}' || c == '\U{2029}' || c == '\U{202F}'
    || c == '\U{205F}' || c == '\U{3000}'
  }

  /** The same by code point. */
  lemma WhitespaceCodes(c: char)
    ensures var n := c as int;
            IsWhitespace(c) <==> n in {9, 10, 11, 12, 13, 32, 133, 160, 5760, 8232, 8233, 8239, 8287, 12288} || 8192 <= n <= 8202
  {
  }

  function TrimStart(s: string): string {
    if s != [] && IsWhitespace(s[0]) then TrimStart(s[1..]) else s
  }

  function TrimEnd(s: string): string {
    if s != [] && IsWhitespace(s[|s| - 1]) then TrimEnd(s[..|s| - 1]) else s
  }

  function Trim(s: string): string { TrimEnd(TrimStart(s)) }

  /** The pieces between separators; there is always one more piece than separators. */
  function Split(s: string, sep: char): (r: seq<string>)
    ensures |r| >= 1
  {
    if s == [] then [[]]
    else
      var r := Split(s[1..], sep);
      if s[0] == sep then [[]] + r else [[s[0]] + r[0]] + r[1..]
  }

  predicate IsDigit(c: char) { '0' <= c <= '9' }

  function DigitValue(c: char): nat
    requires IsDigit(c)
  {
    c as int - '0' as int
  }

  function Digits(s: string): Option<nat> {
    if s == [] then Some(0)
    else
      var r := Digits(s[..|s| - 1]);
      if r.None? || !IsDigit(s[|s| - 1]) then None else Some(10 * r.value + DigitValue(s[|s| - 1]))
  }

  /** A plus sign may precede the digits; there is no other sign and at least one digit. */
  function ParsePort(s: string): Option<Port> {
    var digits := if |s| > 1 && s[0] == '+' then s[1..] else s;
    var r := Digits(digits);
    if digits == [] || r.None? || r.value >= 0x1_0000 then None else Some(r.value)
  }

  /** One item: exactly four parts with a port in second and fourth place, or nothing. */
  function ParseItem(item: string): seq<PortMapping> {
    var parts := Split(Trim(item), ':');
    if |parts| != 4 then []
    else
      var remote, local := ParsePort(parts[1]), ParsePort(parts[3]);
      if remote.None? || local.None? then [] else [PortMapping(parts[0], remote.value, parts[2], local.value)]
  }

  function ParseItems(items: seq<string>): seq<PortMapping> {
    if items == [] then [] else ParseItem(items[0]) + ParseItems(items[1..])
  }

  function ParseMappings(s: string): seq<PortMapping> { ParseItems(Split(s, ',')) }

  // ---------- items do not affect each other ----------

  lemma {:induction false} SplitSum(a: string, b: string, sep: char)
    ensures Split(a + [sep] + b, sep) == Split(a, sep) + Split(b, sep)
  {
    var s := a + [sep] + b;
    if a == [] {
      assert s == [sep] + b;
      assert s[1..] == b;
    } else {
      assert s[1..] == a[1..] + [sep] + b && s[0] == a[0];
      SplitSum(a[1..], b, sep);
    }
  }

  lemma {:induction false} ItemsSum(a: seq<string>, b: seq<string>)
    ensures ParseItems(a + b) == ParseItems(a) + ParseItems(b)
  {
    if a == [] {
      assert a + b == b;
    } else {
      assert (a + b)[1..] == a[1..] + b;
      ItemsSum(a[1..], b);
    }
  }

  /** Each side of a comma parses as if the other were not there. */
  lemma ParseSum(a: string, b: string)
    ensures ParseMappings(a + "," + b) == ParseMappings(a) + ParseMappings(b)
  {
    SplitSum(a, b, ',');
    ItemsSum(Split(a, ','), Split(b, ','));
  }

  // ---------- writing and reading back ----------

  function DigitOf(d: nat): char
    requires d < 10
  {
    ('0' as int + d) as char
  }

  function Decimal(n: nat): string {
    (if n < 10 then [] else Decimal(n / 10)) + [DigitOf(n % 10)]
  }

  function Write(m: PortMapping): string {
    m.name + ":" + Decimal(m.remotePort) + ":" + m.localHost + ":" + Decimal(m.localPort)
  }

  function WriteAll(ms: seq<PortMapping>): string {
    if ms == [] then [] else if |ms| == 1 then Write(ms[0]) else Write(ms[0]) + "," + WriteAll(ms[1..])
  }

  /** No comma, no colon. */
  predicate Plain(s: string) { ',' !in s && ':' !in s }

  predicate Writable(m: PortMapping) {
    Plain(m.name) && Plain(m.localHost) && (m.name != [] ==> !IsWhitespace(m.name[0]))
  }

  predicate AllDigits(s: string) { forall i :: 0 <= i < |s| ==> IsDigit(s[i]) }

  lemma DigitBack(d: nat)
    requires d < 10
    ensures IsDigit(DigitOf(d)) && DigitValue(DigitOf(d)) == d
  {
  }

  lemma DigitsPush(s: string, c: char)
    requires Digits(s).Some? && IsDigit(c)
    ensures Digits(s + [c]) == Some(10 * Digits(s).value + DigitValue(c))
  {
    assert (s + [c])[..|s|] == s;
  }

  lemma {:induction false} DecimalDigits(n: nat)
    ensures AllDigits(Decimal(n)) && Decimal(n) != [] && Digits(Decimal(n)) == Some(n)
  {
    var front := if n < 10 then [] else Decimal(n / 10);
    DigitBack(n % 10);
    if n >= 10 { DecimalDigits(n / 10); }
    DigitsPush(front, DigitOf(n % 10));
    assert Decimal(n) == front + [DigitOf(n % 10)];
  }

  lemma ReadsDecimal(p: Port)
    ensures ParsePort(Decimal(p)) == Some(p)
  {
    DecimalDigits(p);
  }

  lemma {:induction false} SplitPlain(s: string, sep: char)
    requires sep !in s
    ensures Split(s, sep) == [s]
  {
    if s != [] {
      assert forall c :: c in s[1..] ==> c in s;
      SplitPlain(s[1..], sep);
      assert [s[0]] + s[1..] == s;
    }
  }

  lemma {:induction false} TrimNothing(s: string)
    requires s != [] ==> !IsWhitespace(s[0]) && !IsWhitespace(s[|s| - 1])
    ensures Trim(s) == s
  {
  }

  lemma DecimalPlain(n: nat)
    ensures Plain(Decimal(n)) && Decimal(n) != []
    ensures !IsWhitespace(Decimal(n)[|Decimal(n)| - 1])
  {
    DecimalDigits(n);
  }

  /** A plain head, a colon and the rest. */
  lemma SplitHead(head: string, rest: string)
    requires Plain(head)
    ensures Split(head + ":" + rest, ':') == [head] + Split(rest, ':')
  {
    SplitSum(head, rest, ':');
    SplitPlain(head, ':');
  }

  lemma WriteParts(m: PortMapping)
    requires Writable(m)
    ensures Split(Write(m), ':') == [m.name, Decimal(m.remotePort), m.localHost, Decimal(m.localPort)]
  {
    var r, l := Decimal(m.remotePort), Decimal(m.localPort);
    DecimalPlain(m.remotePort);
    DecimalPlain(m.localPort);
    SplitPlain(l, ':');
    SplitHead(m.localHost, l);
    SplitHead(r, m.localHost + ":" + l);
    SplitHead(m.name, r + ":" + (m.localHost + ":" + l));
    ColonsAssociate(m.name, r, m.localHost, l);
  }

  lemma ColonsAssociate(a: string, b: string, c: string, d: string)
    ensures a + ":" + b + ":" + c + ":" + d == a + ":" + (b + ":" + (c + ":" + d))
  {
  }

  lemma WriteTrimmed(m: PortMapping)
    requires Writable(m)
    ensures ',' !in Write(m) && Trim(Write(m)) == Write(m)
  {
    var l := Decimal(m.localPort);
    var front := m.name + ":" + Decimal(m.remotePort) + ":" + m.localHost + ":";
    DecimalPlain(m.remotePort);
    DecimalPlain(m.localPort);
    assert Write(m) == front + l;
    assert Write(m)[|Write(m)| - 1] == l[|l| - 1];
    assert Write(m)[0] == if m.name == [] then ':' else m.name[0];
    TrimNothing(Write(m));
  }

  lemma ReadsItem(m: PortMapping)
    requires Writable(m)
    ensures ParseMappings(Write(m)) == [m]
  {
    WriteParts(m);
    WriteTrimmed(m);
    SplitPlain(Write(m), ',');
    ReadsDecimal(m.remotePort);
    ReadsDecimal(m.localPort);
    assert ParseItem(Write(m)) == [m];
    assert Split(Write(m), ',') == [Write(m)];
    assert [Write(m)][1..] == [];
    assert ParseItems([]) == [];
  }

  lemma {:induction false} ReadsAll(ms: seq<PortMapping>)
    requires forall m :: m in ms ==> Writable(m)
    ensures ParseMappings(WriteAll(ms)) == ms
  {
    if ms == [] {
      assert Split([], ',')[1..] == [];
    } else {
      ReadsItem(ms[0]);
      if |ms| > 1 {
        ReadsAll(ms[1..]);
        ParseSum(Write(ms[0]), WriteAll(ms[1..]));
      }
    }
  }

  // ---------- what can be read at all ----------

  lemma {:induction false} SplitPieces(s: string, sep: char)
    ensures forall p :: p in Split(s, sep) ==> sep !in p && forall c :: c in p ==> c in s
  {
    if s != [] { SplitPieces(s[1..], sep); }
  }

  lemma {:induction false} TrimStartIs(s: string)
    ensures TrimStart(s) != [] ==> !IsWhitespace(TrimStart(s)[0])
    ensures forall c :: c in TrimStart(s) ==> c in s
  {
    if s != [] && IsWhitespace(s[0]) { TrimStartIs(s[1..]); }
  }

  lemma {:induction false} TrimEndIs(s: string)
    ensures Prefix(TrimEnd(s), s)
  {
    if s != [] && IsWhitespace(s[|s| - 1]) { TrimEndIs(s[..|s| - 1]); }
  }

  predicate AllWhite(s: string) { forall i :: 0 <= i < |s| ==> IsWhitespace(s[i]) }

  /** A text that neither begins nor ends with whitespace. */
  predicate Trimmed(s: string) { s != [] ==> !IsWhitespace(s[0]) && !IsWhitespace(s[|s| - 1]) }

  lemma {:induction false} TrimStartAll(a: string, s: string)
    requires AllWhite(a) && (s != [] ==> !IsWhitespace(s[0]))
    ensures TrimStart(a + s) == s
  {
    if a == [] {
      assert a + s == s;
    } else {
      assert (a + s)[1..] == a[1..] + s && (a + s)[0] == a[0];
      TrimStartAll(a[1..], s);
    }
  }

  lemma {:induction false} TrimEndAll(s: string, b: string)
    requires AllWhite(b) && (s != [] ==> !IsWhitespace(s[|s| - 1]))
    ensures TrimEnd(s + b) == s
  {
    if b == [] {
      assert s + b == s;
    } else {
      var n := |b| - 1;
      assert (s + b)[..|s + b| - 1] == s + b[..n] && (s + b)[|s + b| - 1] == b[n];
      TrimEndAll(s, b[..n]);
    }
  }

  /** Trimming takes the whitespace at both ends and nothing else. */
  lemma TrimBoth(a: string, s: string, b: string)
    requires AllWhite(a) && AllWhite(b) && Trimmed(s)
    ensures Trim(a + s + b) == s
  {
    if s == [] {
      assert a + s + b == (a + b) + [];
      TrimStartAll(a + b, []);
    } else {
      assert a + s + b == a + (s + b);
      TrimStartAll(a, s + b);
      TrimEndAll(s, b);
    }
  }

  lemma TrimIs(s: string)
    ensures Trim(s) != [] ==> !IsWhitespace(Trim(s)[0])
    ensures forall c :: c in Trim(s) ==> c in s
  {
    TrimStartIs(s);
    TrimEndIs(TrimStart(s));
  }

  /** The first piece begins as the text does, unless it is empty. */
  lemma SplitFirst(s: string, sep: char)
    ensures Split(s, sep)[0] != [] ==> s != [] && Split(s, sep)[0][0] == s[0]
  {
  }

  lemma ItemWritable(item: string)
    requires ',' !in item
    ensures forall m :: m in ParseItem(item) ==> Writable(m)
  {
    var parts := Split(Trim(item), ':');
    TrimIs(item);
    SplitPieces(Trim(item), ':');
    SplitFirst(Trim(item), ':');
    forall i | 0 <= i < |parts| ensures Plain(parts[i]) { assert parts[i] in parts; }
  }

  lemma {:induction false} ItemsWritable(items: seq<string>)
    requires forall i :: i in items ==> ',' !in i
    ensures forall m :: m in ParseItems(items) ==> Writable(m)
  {
    if items != [] {
      ItemWritable(items[0]);
      ItemsWritable(items[1..]);
    }
  }

  lemma ParsedWritable(s: string)
    ensures forall m :: m in ParseMappings(s) ==> Writable(m)
  {
    SplitPieces(s, ',');
    ItemsWritable(Split(s, ','));
  }

  /**
   A list survives writing and reading exactly when no name or host holds a separator and no name
   starts with whitespace.
   */
  lemma RoundTrip(ms: seq<PortMapping>)
    ensures ParseMappings(WriteAll(ms)) == ms <==> forall m :: m in ms ==> Writable(m)
  {
    ParsedWritable(WriteAll(ms));
    if forall m :: m in ms ==> Writable(m) { ReadsAll(ms); }
  }

  /** Whatever the text, what was read from it can be written and read again. */
  lemma Stable(s: string)
    ensures ParseMappings(WriteAll(ParseMappings(s))) == ParseMappings(s)
  {
    ParsedWritable(s);
    ReadsAll(ParseMappings(s));
  }

  // ---------- exactly which texts are read ----------

  function Zeros(n: nat): string { if n == 0 then [] else "0" + Zeros(n - 1) }

  lemma DigitForth(c: char)
    requires IsDigit(c)
    ensures DigitValue(c) < 10 && DigitOf(DigitValue(c)) == c
  {
  }

  lemma {:induction false} ZerosPush(n: nat)
    ensures Zeros(n) + "0" == Zeros(n + 1)
  {
    if n > 0 {
      ZerosPush(n - 1);
      assert Zeros(n) + "0" == "0" + (Zeros(n - 1) + "0");
    }
  }

  lemma {:induction false} ZerosDigits(n: nat)
    ensures Digits(Zeros(n)) == Some(0)
  {
    if n > 0 {
      ZerosDigits(n - 1);
      ZerosPush(n - 1);
      DigitsPush(Zeros(n - 1), '0');
    }
  }

  lemma {:induction false} LeadingZeros(n: nat, s: string)
    requires Digits(s).Some?
    ensures Digits(Zeros(n) + s) == Digits(s)
  {
    if s == [] {
      assert Zeros(n) + s == Zeros(n);
      ZerosDigits(n);
    } else {
      var front, last := s[..|s| - 1], s[|s| - 1];
      LeadingZeros(n, front);
      assert Zeros(n) + s == (Zeros(n) + front) + [last];
      DigitsPush(Zeros(n) + front, last);
    }
  }

  /** Zeros and then the number in decimal. */
  ghost predicate Padded(s: string, n: nat) { exists zeros: nat :: s == Zeros(zeros) + Decimal(n) }

  lemma PaddedPush(s: string, v: nat, c: char)
    requires Padded(s, v) && IsDigit(c)
    ensures Padded(s + [c], 10 * v + DigitValue(c))
  {
    var n: nat :| s == Zeros(n) + Decimal(v);
    DigitForth(c);
    if v == 0 {
      ZerosPush(n);
      assert s + [c] == Zeros(n + 1) + Decimal(DigitValue(c));
    } else {
      assert Decimal(10 * v + DigitValue(c)) == Decimal(v) + [c];
      assert s + [c] == Zeros(n) + (Decimal(v) + [c]);
    }
  }

  /** A text of digits is zeros and then the number it stands for. */
  lemma {:induction false} DigitsAre(s: string)
    requires s != [] && Digits(s).Some?
    ensures Padded(s, Digits(s).value)
  {
    var front, last := s[..|s| - 1], s[|s| - 1];
    if front == [] {
      DigitForth(last);
      assert s == Zeros(0) + Decimal(Digits(s).value);
    } else {
      DigitsAre(front);
      PaddedPush(front, Digits(front).value, last);
      assert s == front + [last];
    }
  }

  lemma PaddedDigits(s: string, n: nat)
    requires Padded(s, n)
    ensures s != [] && Digits(s) == Some(n) && IsDigit(s[0])
  {
    var zeros: nat :| s == Zeros(zeros) + Decimal(n);
    DecimalDigits(n);
    LeadingZeros(zeros, Decimal(n));
  }

  /** The number in decimal, perhaps after zeros and a plus sign. */
  ghost predicate WritesNumber(s: string, n: nat) {
    Padded(s, n) || (s != [] && s[0] == '+' && Padded(s[1..], n))
  }

  /** Exactly the texts that write a port are read, and as that port. */
  lemma PortReads(s: string, p: Port)
    ensures ParsePort(s) == Some(p) <==> WritesNumber(s, p)
  {
    if ParsePort(s) == Some(p) { DigitsAre(if |s| > 1 && s[0] == '+' then s[1..] else s); }
    if Padded(s, p) { PaddedDigits(s, p); }
    if s != [] && Padded(s[1..], p) { PaddedDigits(s[1..], p); }
  }

  function Join(parts: seq<string>, sep: char): string
    requires parts != []
  {
    if |parts| == 1 then parts[0] else parts[0] + [sep] + Join(parts[1..], sep)
  }

  lemma JoinPush(c: char, parts: seq<string>, sep: char)
    requires parts != []
    ensures Join([[c] + parts[0]] + parts[1..], sep) == [c] + Join(parts, sep)
  {
    assert ([[c] + parts[0]] + parts[1..])[1..] == parts[1..];
  }

  lemma {:induction false} JoinSplit(s: string, sep: char)
    ensures Join(Split(s, sep), sep) == s
  {
    if s != [] {
      JoinSplit(s[1..], sep);
      var rest := Split(s[1..], sep);
      if s[0] == sep {
        assert ([[]] + rest)[1..] == rest;
        assert Join([[]] + rest, sep) == [] + [sep] + Join(rest, sep);
      } else {
        JoinPush(s[0], rest, sep);
      }
    }
  }

  lemma {:induction false} TrimStartParts(s: string) returns (a: string)
    ensures AllWhite(a) && s == a + TrimStart(s)
  {
    a := [];
    if s != [] && IsWhitespace(s[0]) {
      var a' := TrimStartParts(s[1..]);
      a := [s[0]] + a';
    }
  }

  lemma {:induction false} TrimEndParts(s: string) returns (b: string)
    ensures AllWhite(b) && s == TrimEnd(s) + b
    ensures TrimEnd(s) != [] ==> !IsWhitespace(TrimEnd(s)[|TrimEnd(s)| - 1])
  {
    b := [];
    if s != [] && IsWhitespace(s[|s| - 1]) {
      var b' := TrimEndParts(s[..|s| - 1]);
      b := b' + [s[|s| - 1]];
    }
  }

  /** Every text is its trimmed form with whitespace around it. */
  lemma TrimParts(s: string) returns (a: string, b: string)
    ensures AllWhite(a) && AllWhite(b) && s == a + Trim(s) + b && Trimmed(Trim(s))
  {
    a := TrimStartParts(s);
    b := TrimEndParts(TrimStart(s));
    TrimIs(s);
    assert s == a + (Trim(s) + b);
  }

  /** The text without surrounding whitespace is the four parts of the mapping, the ports in any way they can be written. */
  ghost predicate WritesMapping(item: string, m: PortMapping, a: string, remote: string, local: string, b: string) {
    var core := m.name + ":" + remote + ":" + m.localHost + ":" + local;
    && item == a + core + b && AllWhite(a) && AllWhite(b) && Trimmed(core)
    && ':' !in m.name && ':' !in m.localHost && WritesNumber(remote, m.remotePort) && WritesNumber(local, m.localPort)
  }

  lemma PaddedPlain(s: string, n: nat)
    requires Padded(s, n)
    ensures ':' !in s
  {
    var zeros: nat :| s == Zeros(zeros) + Decimal(n);
    DecimalDigits(n);
    ZerosPlain(zeros);
  }

  lemma NumberPlain(s: string, n: nat)
    requires WritesNumber(s, n)
    ensures ':' !in s
  {
    if Padded(s, n) {
      PaddedPlain(s, n);
    } else {
      PaddedPlain(s[1..], n);
      assert s == [s[0]] + s[1..];
    }
  }

  lemma {:induction false} ZerosPlain(n: nat)
    ensures forall c :: c in Zeros(n) ==> c == '0'
  {
    if n > 0 { ZerosPlain(n - 1); }
  }

  lemma FourParts(a: string, b: string, c: string, d: string)
    requires ':' !in a && ':' !in b && ':' !in c && ':' !in d
    ensures Split(a + ":" + b + ":" + c + ":" + d, ':') == [a, b, c, d]
  {
    ColonsAssociate(a, b, c, d);
    SplitSum(a, b + ":" + (c + ":" + d), ':');
    SplitSum(b, c + ":" + d, ':');
    SplitSum(c, d, ':');
    SplitPlain(a, ':');
    SplitPlain(b, ':');
    SplitPlain(c, ':');
    SplitPlain(d, ':');
  }

  /** Exactly the texts that write a mapping are read, and as that mapping; any other text is skipped. */
  lemma ItemReads(item: string, m: PortMapping)
    ensures ParseItem(item) == [m] <==> exists a, remote, local, b :: WritesMapping(item, m, a, remote, local, b)
    ensures |ParseItem(item)| <= 1
  {
    if a, remote, local, b :| WritesMapping(item, m, a, remote, local, b) {
      WrittenItem(item, m, a, remote, local, b);
    }
    if ParseItem(item) == [m] { ReadItem(item, m); }
  }

  lemma WrittenItem(item: string, m: PortMapping, a: string, remote: string, local: string, b: string)
    requires WritesMapping(item, m, a, remote, local, b)
    ensures ParseItem(item) == [m]
  {
    TrimBoth(a, m.name + ":" + remote + ":" + m.localHost + ":" + local, b);
    NumberPlain(remote, m.remotePort);
    NumberPlain(local, m.localPort);
    FourParts(m.name, remote, m.localHost, local);
    PortReads(remote, m.remotePort);
    PortReads(local, m.localPort);
  }

  lemma ReadItem(item: string, m: PortMapping)
    requires ParseItem(item) == [m]
    ensures exists a, remote, local, b :: WritesMapping(item, m, a, remote, local, b)
  {
    var parts := Split(Trim(item), ':');
    var a, b := TrimParts(item);
    JoinSplit(Trim(item), ':');
    JoinFour(parts);
    SplitPieces(Trim(item), ':');
    assert parts[0] in parts && parts[2] in parts;
    PortReads(parts[1], m.remotePort);
    PortReads(parts[3], m.localPort);
    assert WritesMapping(item, m, a, parts[1], parts[3], b);
  }

  lemma JoinFour(parts: seq<string>)
    requires |parts| == 4
    ensures Join(parts, ':') == parts[0] + ":" + parts[1] + ":" + parts[2] + ":" + parts[3]
  {
    assert Join(parts[1..][1..][1..], ':') == parts[3];
    assert Join(parts[1..][1..], ':') == parts[2] + ":" + parts[3];
    assert Join(parts[1..], ':') == parts[1] + ":" + (parts[2] + ":" + parts[3]);
    ColonsAssociate(parts[0], parts[1], parts[2], parts[3]);
  }

  /** A text without a comma is one item. */
  lemma ParseOne(item: string)
    requires ',' !in item
    ensures ParseMappings(item) == ParseItem(item)
  {
    SplitPlain(item, ',');
    assert ParseItems([item][1..]) == [];
    assert ParseItem(item) + [] == ParseItem(item);
  }
}
