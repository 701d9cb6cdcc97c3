/** Dedup keys (internal/reconcile/key.go). A Go string is the sequence of its bytes,
    each one char; the digest (SHA-256 in hexadecimal) is a parameter. */
module Key {
  import opened Wrappers

  datatype Meta = Meta(messageId: string, from: string, subject: string, unix: int, size: int)

  const SYNTH_PREFIX := "synth-sha256:"

  // ------------------------------------------------------------ TrimSpace

  predicate IsSpace(c: char) {
    c in "\t\n\r " || c == 11 as char || c == 12 as char
  }

  function TrimStart(s: string): string {
    if s != "" && IsSpace(s[0]) then TrimStart(s[1..]) else s
  }

  function TrimEnd(s: string): string {
    if s != "" && IsSpace(s[|s| - 1]) then TrimEnd(s[..|s| - 1]) else s
  }

  function TrimSpace(s: string): string { TrimEnd(TrimStart(s)) }

  // ------------------------------------------------------- decimal numbers

  function Digit(d: nat): char
    requires d < 10
  {
    '0' + d as char
  }

  function Digits(n: nat): string {
    if n < 10 then [Digit(n)] else Digits(n / 10) + [Digit(n % 10)]
  }

  function Decimal(n: int): string {
    if n < 0 then "-" + Digits(-n) else Digits(n)
  }

  predicate IsDigit(c: char) { '0' <= c <= '9' }

  function DigitsValue(s: string): nat {
    if s == "" then 0
    else
      var c := s[|s| - 1];
      10 * DigitsValue(s[..|s| - 1]) + if IsDigit(c) then (c - '0') as nat else 0
  }

  function DecimalValue(s: string): int {
    if s != "" && s[0] == '-' then 0 - DigitsValue(s[1..]) else DigitsValue(s)
  }

  lemma {:induction false} DigitsRoundTrip(n: nat)
    ensures DigitsValue(Digits(n)) == n
    ensures Digits(n) != "" && forall c :: c in Digits(n) ==> IsDigit(c)
  {
    if n < 10 {
      assert [Digit(n)][..0] == "";
      assert DigitsValue("") == 0;
    } else {
      DigitsRoundTrip(n / 10);
      assert Digits(n)[..|Digits(n)| - 1] == Digits(n / 10);
    }
  }

  lemma DecimalRoundTrip(n: int)
    ensures DecimalValue(Decimal(n)) == n
    ensures forall c :: c in Decimal(n) ==> c == '-' || IsDigit(c)
  {
    DigitsRoundTrip(if n < 0 then -n else n);
    if n < 0 {
      assert Decimal(n)[1..] == Digits(-n);
    } else {
      assert Decimal(n)[0] in Digits(n);
    }
  }

  // -------------------------------------------------------------- preimage

  function Preimage(m: Meta): string {
    Decimal(m.unix) + "|"
    + Digits(|m.from|) + ":" + m.from + "|"
    + Digits(|m.subject|) + ":" + m.subject + "|"
    + Decimal(m.size)
  }

  /** Text before and after the first sep; None when there is no sep. */
  function Split(s: string, sep: char): Option<(string, string)> {
    if s == "" then None
    else if s[0] == sep then Some(("", s[1..]))
    else match Split(s[1..], sep)
      case None => None
      case Some((a, b)) => Some(([s[0]] + a, b))
  }

  lemma {:induction false} SplitAt(a: string, sep: char, b: string)
    requires sep !in a
    ensures Split(a + [sep] + b, sep) == Some((a, b))
  {
    if a == "" {
      assert a + [sep] + b == [sep] + b;
    } else {
      SplitAt(a[1..], sep, b);
      assert (a + [sep] + b)[1..] == a[1..] + [sep] + b;
      assert [a[0]] + a[1..] == a;
    }
  }

  /** A length-prefixed field, its closing bar and what follows. */
  function TakeField(s: string): Option<(string, string)> {
    match Split(s, ':')
    case None => None
    case Some((len, rest)) =>
      var n := DigitsValue(len);
      if n < |rest| && rest[n] == '|' then Some((rest[..n], rest[n + 1..])) else None
  }

  lemma TakeFieldAt(len: string, field: string, rest: string)
    requires ':' !in len && DigitsValue(len) == |field|
    ensures TakeField(len + ":" + field + "|" + rest) == Some((field, rest))
  {
    var tail := field + "|" + rest;
    SplitAt(len, ':', tail);
    assert len + ":" + field + "|" + rest == len + [':'] + tail;
    assert tail[..|field|] == field && tail[|field|] == '|' && tail[|field| + 1..] == rest;
  }

  lemma TakeFieldOf(field: string, rest: string)
    ensures TakeField(Digits(|field|) + ":" + field + "|" + rest) == Some((field, rest))
  {
    DigitsRoundTrip(|field|);
    TakeFieldAt(Digits(|field|), field, rest);
  }

  /** The inverse of Preimage: (unix time, From, Subject, size). */
  function Parse(p: string): Option<(int, string, string, int)> {
    match Split(p, '|')
    case None => None
    case Some((unix, p1)) =>
      match TakeField(p1)
      case None => None
      case Some((from, p2)) =>
        match TakeField(p2)
        case None => None
        case Some((subject, size)) => Some((DecimalValue(unix), from, subject, DecimalValue(size)))
  }

  /** The hashed text determines all four fields, whatever bytes From and Subject hold. */
  lemma PreimageRoundTrip(m: Meta)
    ensures Parse(Preimage(m)) == Some((m.unix, m.from, m.subject, m.size))
  {
    DecimalRoundTrip(m.unix);
    DecimalRoundTrip(m.size);
    var p2 := Digits(|m.subject|) + ":" + m.subject + "|" + Decimal(m.size);
    var p1 := Digits(|m.from|) + ":" + m.from + "|" + p2;
    assert Preimage(m) == Decimal(m.unix) + ['|'] + p1;
    SplitAt(Decimal(m.unix), '|', p1);
    TakeFieldOf(m.from, p2);
    TakeFieldOf(m.subject, Decimal(m.size));
  }

  // ------------------------------------------------------------- dedup key

  function DedupKey(m: Meta, digest: string -> string): string {
    var id := TrimSpace(m.messageId);
    if id != "" then id else SYNTH_PREFIX + digest(Preimage(m))
  }

  lemma DedupKeyNotEmpty(m: Meta, digest: string -> string)
    ensures DedupKey(m, digest) != ""
  {
  }

  predicate IsRealMessageID(key: string) {
    !(SYNTH_PREFIX <= key)
  }

  ghost predicate Injective(digest: string -> string) {
    forall a, b :: digest(a) == digest(b) ==> a == b
  }

  /** Two messages without Message-ID share a key exactly when all four hashed fields agree. */
  lemma SynthesizedKeysIff(m: Meta, n: Meta, digest: string -> string)
    requires TrimSpace(m.messageId) == "" && TrimSpace(n.messageId) == ""
    requires Injective(digest)
    ensures DedupKey(m, digest) == DedupKey(n, digest) <==>
            m.unix == n.unix && m.from == n.from && m.subject == n.subject && m.size == n.size
  {
    PreimageRoundTrip(m);
    PreimageRoundTrip(n);
    var k, l := DedupKey(m, digest), DedupKey(n, digest);
    assert k[|SYNTH_PREFIX|..] == digest(Preimage(m));
    assert l[|SYNTH_PREFIX|..] == digest(Preimage(n));
  }

  /** A key is searchable exactly when the message has a Message-ID that does not itself
      begin with the reserved prefix. */
  lemma RealKeyIff(m: Meta, digest: string -> string)
    ensures IsRealMessageID(DedupKey(m, digest)) <==>
            TrimSpace(m.messageId) != "" && !(SYNTH_PREFIX <= TrimSpace(m.messageId))
  {
  }

  /** A message with a searchable key is never confused with one that has none. */
  lemma RealKeysApart(m: Meta, n: Meta, digest: string -> string)
    requires IsRealMessageID(DedupKey(m, digest))
    ensures DedupKey(m, digest) == DedupKey(n, digest) <==>
            TrimSpace(n.messageId) == TrimSpace(m.messageId)
  {
    RealKeyIff(m, digest);
    RealKeyIff(n, digest);
  }
}
