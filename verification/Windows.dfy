/** The UID windows of scanWindows (internal/reconcile/reconcile.go) in the 32-bit unsigned
    arithmetic of the program. */
module Windows {

  const M := 0x1_0000_0000

  type u32 = n: nat | n < M

  function Add32(a: u32, b: u32): u32 { if a + b < M then a + b else a + b - M }

  function Sub32(a: u32, b: u32): u32 { if b <= a then a - b else a - b + M }

  function Min(a: nat, b: nat): nat { if a < b then a else b }

  datatype Span = Span(start: nat, stop: nat)

  /** One pass of the loop body: the window that begins at start. */
  function Window32(start: u32, uidNext: u32, batch: u32): Span {
    Span(start, Min(Sub32(Add32(start, batch), 1), Sub32(uidNext, 1)))
  }

  /** The windows of at most n passes of the loop, wrap-around included. */
  function Passes(start: u32, uidNext: u32, batch: u32, n: nat): seq<Span>
    decreases n
  {
    if n == 0 || start >= uidNext then []
    else [Window32(start, uidNext, batch)] + Passes(Add32(start, batch), uidNext, batch, n - 1)
  }

  /** The windows meant: [first, uidNext - 1] cut every batch UIDs. */
  function Spans(first: nat, uidNext: nat, batch: nat): seq<Span>
    requires 1 <= batch
    decreases uidNext - first
  {
    if first >= uidNext then []
    else [Span(first, Min(first + batch - 1, uidNext - 1))] + Spans(first + batch, uidNext, batch)
  }

  /** Where the loop variable would stop without wrap-around: first, and a batch for each window. */
  function End(first: nat, uidNext: nat, batch: nat): nat
    requires 1 <= batch
  {
    if first >= uidNext then first else first + batch * ((uidNext - first + batch - 1) / batch)
  }

  lemma Multiples(d: nat, p: nat, q: nat)
    requires p < q
    ensures d * q == d * p + d * (q - p) && d * (q - p) >= d
  {
    var n := q - p;
    assert d * (p + n) == d * p + d * n;
    assert d * ((n - 1) + 1) == d * (n - 1) + d;
    assert d * (n - 1) >= 0;
  }

  /** A quotient is known by its remainder. */
  lemma SameQuotient(d: nat, p: nat, s: nat, q: nat, r: nat)
    requires s < d && r < d && d * p + s == d * q + r
    ensures p == q
  {
    if p < q { Multiples(d, p, q); }
    if q < p { Multiples(d, q, p); }
  }

  lemma Quotient(x: nat, d: nat, q: nat, r: nat)
    requires r < d && x == d * q + r
    ensures x / d == q
  {
    SameQuotient(d, x / d, x % d, q, r);
  }

  /** Each window takes the variable one batch further. */
  lemma EndStep(first: nat, uidNext: nat, batch: nat)
    requires 1 <= batch && first < uidNext
    ensures End(first, uidNext, batch) == End(first + batch, uidNext, batch)
    ensures End(first, uidNext, batch) >= first + batch
  {
    var x := uidNext - first + batch - 1;
    if first + batch >= uidNext {
      Quotient(x, batch, 1, x - batch);
    } else {
      var q, r := (x - batch) / batch, (x - batch) % batch;
      assert x - batch == batch * q + r;
      assert batch * (q + 1) == batch * q + batch;
      Quotient(x, batch, q + 1, r);
    }
  }

  lemma {:induction false} EndBounds(first: nat, uidNext: nat, batch: nat)
    requires 1 <= batch
    ensures End(first, uidNext, batch) >= first
    ensures first < uidNext ==> uidNext <= End(first, uidNext, batch) < uidNext + batch
    decreases uidNext - first
  {
    if first < uidNext {
      EndBounds(first + batch, uidNext, batch);
      EndStep(first, uidNext, batch);
    }
  }

  /** Consecutive windows, each at most batch wide, that cover exactly first .. uidNext - 1. */
  lemma {:induction false} SpansCover(first: nat, uidNext: nat, batch: nat)
    requires 1 <= batch
    ensures Consecutive(Spans(first, uidNext, batch), first, uidNext, batch)
    decreases uidNext - first
  {
    if first < uidNext {
      SpansCover(first + batch, uidNext, batch);
      var rest := Spans(first + batch, uidNext, batch);
      var span := Span(first, Min(first + batch - 1, uidNext - 1));
      assert Spans(first, uidNext, batch) == [span] + rest;
      Prepended(span, rest, uidNext, batch);
    }
  }

  lemma Prepended(span: Span, rest: seq<Span>, uidNext: nat, batch: nat)
    requires 1 <= batch && span.start < uidNext && span.stop == Min(span.start + batch - 1, uidNext - 1)
    requires Consecutive(rest, span.start + batch, uidNext, batch)
    ensures Consecutive([span] + rest, span.start, uidNext, batch)
  {
    var w := [span] + rest;
    forall i | 0 <= i < |w|
      ensures span.start <= w[i].start <= w[i].stop < uidNext && w[i].stop - w[i].start < batch
    {
      if i > 0 { assert w[i] == rest[i - 1]; }
    }
    forall i | 0 <= i < |w| - 1 ensures w[i + 1].start == w[i].stop + 1 {
      assert w[i + 1] == rest[i];
      if i > 0 { assert w[i] == rest[i - 1]; }
    }
    if rest != [] { assert w[|w| - 1] == rest[|rest| - 1]; }
  }

  /** The windows w follow one another, are at most batch wide, and cover first .. uidNext - 1. */
  ghost predicate Consecutive(w: seq<Span>, first: nat, uidNext: nat, batch: nat) {
    && (w == [] <==> first >= uidNext)
    && (w != [] ==> w[0].start == first && w[|w| - 1].stop == uidNext - 1)
    && (forall i :: 0 <= i < |w| ==> first <= w[i].start <= w[i].stop < uidNext)
    && (forall i :: 0 <= i < |w| ==> w[i].stop - w[i].start < batch)
    && (forall i :: 0 <= i < |w| - 1 ==> w[i + 1].start == w[i].stop + 1)
  }

  /** The loop runs exactly the windows meant, and then ends, if and only if the loop
      variable reaches UIDNEXT without wrapping around. */
  lemma {:induction false} PassesIff(first: u32, uidNext: u32, batch: u32)
    requires 1 <= batch
    ensures Passes(first, uidNext, batch, |Spans(first, uidNext, batch)| + 1) == Spans(first, uidNext, batch)
            <==> End(first, uidNext, batch) < M
    decreases uidNext - first
  {
    if first < uidNext {
      EndStep(first, uidNext, batch);
      if first + batch < M {
        PassesIff(first + batch, uidNext, batch);
        PassesStep(first, uidNext, batch, |Spans(first, uidNext, batch)|);
      } else {
        PassesWrap(first, uidNext, batch);
      }
    }
  }

  lemma PassesStep(first: u32, uidNext: u32, batch: u32, n: nat)
    requires 1 <= batch && first < uidNext && first + batch < M
    ensures Passes(first, uidNext, batch, n + 1) == Spans(first, uidNext, batch)
            <==> Passes(first + batch, uidNext, batch, n) == Spans(first + batch, uidNext, batch)
  {
    var p, w := Passes(first, uidNext, batch, n + 1), Spans(first, uidNext, batch);
    var p', w' := Passes(first + batch, uidNext, batch, n), Spans(first + batch, uidNext, batch);
    assert Window32(first, uidNext, batch) == w[0];
    assert p == [w[0]] + p' && w == [w[0]] + w';
    assert p[1..] == p' && w[1..] == w';
  }

  /** At the last window the variable comes round, and the loop starts over. */
  lemma PassesWrap(first: u32, uidNext: u32, batch: u32)
    requires 1 <= batch && first < uidNext && first + batch >= M
    ensures Passes(first, uidNext, batch, |Spans(first, uidNext, batch)| + 1) != Spans(first, uidNext, batch)
    ensures End(first, uidNext, batch) >= M
  {
    EndStep(first, uidNext, batch);
    assert Spans(first + batch, uidNext, batch) == [];
    assert |Spans(first, uidNext, batch)| == 1;
    var again := Add32(first, batch);
    assert again < uidNext;
    assert |Passes(again, uidNext, batch, 1)| == 1;
    assert |Passes(first, uidNext, batch, 2)| == 2;
  }

  /** Room for one more window above UIDNEXT is enough. */
  lemma RoomIsEnough(first: nat, uidNext: nat, batch: nat)
    requires 1 <= batch && first <= uidNext && uidNext + batch <= M
    ensures End(first, uidNext, batch) < M
  {
    EndBounds(first, uidNext, batch);
  }

  method ScanWindows(first: u32, uidNext: u32, batch: u32) returns (spans: seq<Span>)
    requires 1 <= batch && End(first, uidNext, batch) < M
    ensures spans == Spans(first, uidNext, batch)
  {
    spans := [];
    var start := first;
    while start < uidNext
      invariant spans + Spans(start, uidNext, batch) == Spans(first, uidNext, batch)
      invariant End(start, uidNext, batch) == End(first, uidNext, batch)
      decreases uidNext - start
    {
      EndStep(start, uidNext, batch);
      var stop := Min(Sub32(Add32(start, batch), 1), Sub32(uidNext, 1));
      SpansUnfold(start, uidNext, batch, stop, spans);
      spans := spans + [Span(start, stop)];
      start := Add32(start, batch);
    }
  }

  lemma SpansUnfold(start: u32, uidNext: u32, batch: u32, stop: nat, done: seq<Span>)
    requires 1 <= batch && start < uidNext && start + batch < M
    requires stop == Min(Sub32(Add32(start, batch), 1), Sub32(uidNext, 1))
    ensures done + Spans(start, uidNext, batch) == done + [Span(start, stop)] + Spans(start + batch, uidNext, batch)
  {
    assert Spans(start, uidNext, batch) == [Span(start, stop)] + Spans(start + batch, uidNext, batch);
  }
}
