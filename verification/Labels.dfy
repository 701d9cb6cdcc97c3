/** Label folder names as IMAP keywords (internal/reconcile/labels.go). */
module Labels {

  predicate IsLower(c: char) { 'a' <= c <= 'z' }

  predicate IsUpper(c: char) { 'A' <= c <= 'Z' }

  /** The characters a slug keeps: ASCII letters and digits, '-' and '_'. */
  predicate Keep(c: char) {
    IsLower(c) || IsUpper(c) || '0' <= c <= '9' || c == '-' || c == '_'
  }

  /** The characters of a finished slug, all of them legal in an atom of RFC 3501, section 9. */
  predicate SlugChar(c: char) { Keep(c) && !IsUpper(c) }

  predicate Slugged(s: string) { forall c :: c in s ==> SlugChar(c) }

  function LowerChar(c: char): char {
    if IsUpper(c) then c - 'A' + 'a' else c
  }

  function Lower(s: string): string {
    seq(|s|, i requires 0 <= i < |s| => LowerChar(s[i]))
  }

  function Replacement(repl: string): char {
    if repl == "" then '_' else repl[0]
  }

  // The scan: kept runes are copied, each run of other runes becomes one rc.

  predicate EndsReplaced(name: string) {
    name != "" && !Keep(name[|name| - 1])
  }

  function Scan(name: string, rc: char): string {
    if name == "" then ""
    else
      var init, c := name[..|name| - 1], name[|name| - 1];
      if Keep(c) then Scan(init, rc) + [c]
      else if EndsReplaced(init) then Scan(init, rc)
      else Scan(init, rc) + [rc]
  }

  function TrimLeft(s: string, rc: char): string {
    if s != "" && s[0] == rc then TrimLeft(s[1..], rc) else s
  }

  function TrimRight(s: string, rc: char): string {
    if s != "" && s[|s| - 1] == rc then TrimRight(s[..|s| - 1], rc) else s
  }

  function Slug(name: string, repl: string): string {
    var rc := Replacement(repl);
    Lower(TrimRight(TrimLeft(Scan(name, rc), rc), rc))
  }

  method KeywordFor(name: string, repl: string) returns (slug: string)
    ensures slug == Slug(name, repl)
  {
    var rc := '_';
    if |repl| > 0 { rc := repl[0]; }
    var b := "";
    var lastRepl := false;
    for i := 0 to |name|
      invariant b == Scan(name[..i], rc)
      invariant lastRepl == EndsReplaced(name[..i])
    {
      assert name[..i + 1][..i] == name[..i];
      var r := name[i];
      if Keep(r) {
        b := b + [r];
        lastRepl := false;
      } else {
        if !lastRepl { b := b + [rc]; }
        lastRepl := true;
      }
    }
    assert name[..|name|] == name;
    slug := Lower(TrimRight(TrimLeft(b, rc), rc));
  }

  // ------------------------------------------------------------- properties

  predicate OnlyFrom(s: string, name: string, rc: char) {
    forall c :: c in s ==> c == rc || (c in name && Keep(c))
  }

  lemma {:induction false} ScanFrom(name: string, rc: char)
    ensures OnlyFrom(Scan(name, rc), name, rc)
    ensures forall c :: c in name && Keep(c) ==> c in Scan(name, rc)
  {
    if name != "" {
      var init := name[..|name| - 1];
      ScanFrom(init, rc);
      assert name == init + [name[|name| - 1]];
    }
  }

  lemma {:induction false} TrimLeftIs(s: string, rc: char)
    ensures var t := TrimLeft(s, rc);
            && |t| <= |s| && t == s[|s| - |t|..]
            && (forall i :: 0 <= i < |s| - |t| ==> s[i] == rc)
            && (t != "" ==> t[0] != rc)
  {
    if s != "" && s[0] == rc {
      var rest, t := s[1..], TrimLeft(s[1..], rc);
      TrimLeftIs(rest, rc);
      assert TrimLeft(s, rc) == t;
      assert t == rest[|rest| - |t|..] == s[|s| - |t|..];
      forall i | 0 <= i < |s| - |t| ensures s[i] == rc {
        if i > 0 { assert s[i] == rest[i - 1]; }
      }
    }
  }

  lemma {:induction false} TrimRightIs(s: string, rc: char)
    ensures var t := TrimRight(s, rc);
            && |t| <= |s| && t == s[..|t|]
            && (forall i :: |t| <= i < |s| ==> s[i] == rc)
            && (t != "" ==> t[|t| - 1] != rc)
  {
    if s != "" && s[|s| - 1] == rc {
      var rest, t := s[..|s| - 1], TrimRight(s[..|s| - 1], rc);
      TrimRightIs(rest, rc);
      assert TrimRight(s, rc) == t;
      assert t == rest[..|t|] == s[..|t|];
      forall i | |t| <= i < |s| ensures s[i] == rc {
        if i < |s| - 1 { assert s[i] == rest[i]; }
      }
    }
  }

  /** Trimming removes only rc, at the two ends, and leaves neither end an rc. */
  lemma TrimmedIs(s: string, rc: char) returns (t: string)
    ensures t == TrimRight(TrimLeft(s, rc), rc)
    ensures t != "" ==> t[0] != rc && t[|t| - 1] != rc
    ensures forall c :: c in s && c != rc ==> c in t
    ensures forall c :: c in t ==> c in s
  {
    var l := TrimLeft(s, rc);
    TrimLeftIs(s, rc);
    TrimRightIs(l, rc);
    t := TrimRight(l, rc);
    assert t == l[..|t|];
    forall c | c in s && c != rc ensures c in t {
      var i :| 0 <= i < |s| && s[i] == c;
      assert s[i] == l[i - (|s| - |l|)] == t[i - (|s| - |l|)];
    }
    forall c | c in t ensures c in s {
      var i :| 0 <= i < |t| && t[i] == c;
      assert t[i] == l[i] == s[i + (|s| - |l|)];
    }
  }

  /** With a configured replacement, a keyword is made of [a-z0-9_-] only. */
  lemma SlugIsAtom(name: string, repl: string)
    requires Keep(Replacement(repl))
    ensures Slugged(Slug(name, repl))
  {
    var rc := Replacement(repl);
    ScanFrom(name, rc);
    var t := TrimmedIs(Scan(name, rc), rc);
    forall c | c in Lower(t) ensures SlugChar(c) {
      var i :| 0 <= i < |t| && Lower(t)[i] == c;
      assert t[i] in t && t[i] in Scan(name, rc);
    }
  }

  /** Nothing survives exactly when every rune is disallowed or the replacement itself. */
  lemma SlugEmptyIff(name: string, repl: string)
    ensures Slug(name, repl) == "" <==> forall c :: c in name ==> !Keep(c) || c == Replacement(repl)
  {
    var rc := Replacement(repl);
    var s := Scan(name, rc);
    ScanFrom(name, rc);
    var t := TrimmedIs(s, rc);
    if t != "" {
      assert t[0] in t && t[0] in s && t[0] != rc;
    }
  }

  lemma {:induction false} ScanKeeps(s: string, rc: char)
    requires forall c :: c in s ==> Keep(c)
    ensures Scan(s, rc) == s
  {
    if s != "" {
      var init := s[..|s| - 1];
      assert s == init + [s[|s| - 1]];
      assert forall c :: c in init ==> c in s;
      ScanKeeps(init, rc);
    }
  }

  predicate NoEdge(s: string, rc: char) { s != "" ==> s[0] != rc && s[|s| - 1] != rc }

  lemma LowerFixes(s: string)
    requires Slugged(s)
    ensures Lower(s) == s
  {
    forall i | 0 <= i < |s| ensures Lower(s)[i] == s[i] {
      assert s[i] in s;
    }
  }

  /** Trimming leaves a string alone exactly when neither edge is rc, and else shortens it. */
  lemma TrimKeepsIff(s: string, rc: char)
    ensures TrimRight(TrimLeft(s, rc), rc) == s <==> NoEdge(s, rc)
    ensures !NoEdge(s, rc) ==> |TrimRight(TrimLeft(s, rc), rc)| < |s|
  {
    if NoEdge(s, rc) {
      assert TrimLeft(s, rc) == s;
    } else {
      TrimShortens(s, rc);
    }
  }

  lemma TrimShortens(s: string, rc: char)
    requires !NoEdge(s, rc)
    ensures |TrimRight(TrimLeft(s, rc), rc)| < |s|
  {
    var l := TrimLeft(s, rc);
    Shorter(s, rc);
    Shorter(l, rc);
    if s[0] != rc {
      assert l == s;
    } else {
      assert |TrimLeft(s[1..], rc)| <= |s[1..]| by { Shorter(s[1..], rc); }
    }
    if s[|s| - 1] == rc {
      assert |TrimRight(s[..|s| - 1], rc)| <= |s| - 1 by { Shorter(s[..|s| - 1], rc); }
    }
  }

  lemma Shorter(s: string, rc: char)
    ensures |TrimLeft(s, rc)| <= |s| && |TrimRight(s, rc)| <= |s|
  {
    var l, r := |TrimLeft(s, rc)|, |TrimRight(s, rc)|;
    TrimLeftIs(s, rc);
    TrimRightIs(s, rc);
  }

  lemma LowerKeepsLength(s: string)
    ensures |Lower(s)| == |s|
  {
  }

  lemma SlugOfSlugged(s: string, repl: string)
    requires Slugged(s)
    ensures Slug(s, repl) == s <==> NoEdge(s, Replacement(repl))
  {
    var rc := Replacement(repl);
    ScanKeeps(s, rc);
    TrimKeepsIff(s, rc);
    LowerFixes(s);
    LowerKeepsLength(TrimRight(TrimLeft(s, rc), rc));
  }

  /** The keywords a name maps to itself: slug characters, with no replacement at either end. */
  lemma SlugFixedIff(s: string, repl: string)
    requires Keep(Replacement(repl))
    ensures Slug(s, repl) == s <==> Slugged(s) && NoEdge(s, Replacement(repl))
  {
    SlugIsAtom(s, repl);
    if Slugged(s) { SlugOfSlugged(s, repl); }
  }

  /** Slugging twice is slugging once exactly when the slug has no replacement at an edge ... */
  lemma SlugIdempotentIff(name: string, repl: string)
    requires Keep(Replacement(repl))
    ensures Slug(Slug(name, repl), repl) == Slug(name, repl) <==> NoEdge(Slug(name, repl), Replacement(repl))
  {
    SlugIsAtom(name, repl);
    SlugFixedIff(Slug(name, repl), repl);
  }

  /** ... which every label satisfies exactly when the replacement is no lower-case letter. */
  lemma SlugIdempotentAlwaysIff(repl: string)
    requires Keep(Replacement(repl))
    ensures (forall name :: Slug(Slug(name, repl), repl) == Slug(name, repl)) <==> !IsLower(Replacement(repl))
  {
    var rc := Replacement(repl);
    if IsLower(rc) {
      var upper: char := rc - 'a' + 'A';
      var name := [upper, '-'];
      assert Scan([upper], rc) == [upper] by {
        assert [upper][..0] == "";
      }
      assert name[..1] == [upper];
      assert Scan(name, rc) == name;
      TrimLeftIs(name, rc);
      TrimRightIs(name, rc);
      assert TrimRight(TrimLeft(name, rc), rc) == name;
      var slug := Lower(name);
      assert slug == Slug(name, repl) && slug[0] == rc;
      SlugIdempotentIff(name, repl);
    } else {
      forall name ensures Slug(Slug(name, repl), repl) == Slug(name, repl) {
        var t := TrimmedIs(Scan(name, rc), rc);
        SlugIdempotentIff(name, repl);
      }
    }
  }

  // ---------------------------------------------------------- name keywords

  function LabelKeyword(name: string, prefix: string, repl: string): string {
    var slug := Slug(name, repl);
    if slug == "" then "" else prefix + slug
  }

  function LabelKeywords(labels: seq<string>, prefix: string, repl: string): seq<string> {
    if labels == [] then []
    else
      var flags := LabelKeywords(labels[..|labels| - 1], prefix, repl);
      var kw := LabelKeyword(labels[|labels| - 1], prefix, repl);
      if kw == "" || kw in flags then flags else flags + [kw]
  }

  method CollectKeywords(labels: seq<string>, prefix: string, repl: string) returns (flags: seq<string>)
    ensures flags == LabelKeywords(labels, prefix, repl)
  {
    flags := [];
    var seen: set<string> := {};
    for i := 0 to |labels|
      invariant flags == LabelKeywords(labels[..i], prefix, repl)
      invariant seen == set f | f in flags
    {
      assert labels[..i + 1][..i] == labels[..i];
      var slug := KeywordFor(labels[i], repl);
      var kw := if slug == "" then "" else prefix + slug;
      if kw == "" || kw in seen { continue; }
      seen := seen + {kw};
      flags := flags + [kw];
    }
    assert labels[..|labels|] == labels;
  }

  ghost predicate KeywordOfSome(f: string, labels: seq<string>, prefix: string, repl: string) {
    f != "" && exists l :: l in labels && f == LabelKeyword(l, prefix, repl)
  }

  /** The keywords of a message are exactly the non-empty images of its labels, each once. */
  lemma {:induction false} LabelKeywordsAre(labels: seq<string>, prefix: string, repl: string)
    ensures forall f :: f in LabelKeywords(labels, prefix, repl) <==> KeywordOfSome(f, labels, prefix, repl)
    ensures forall i, j :: 0 <= i < j < |LabelKeywords(labels, prefix, repl)| ==>
              LabelKeywords(labels, prefix, repl)[i] != LabelKeywords(labels, prefix, repl)[j]
  {
    if labels != [] {
      var init, last := labels[..|labels| - 1], labels[|labels| - 1];
      LabelKeywordsAre(init, prefix, repl);
      assert labels == init + [last];
      forall f ensures f in LabelKeywords(labels, prefix, repl) <==> KeywordOfSome(f, labels, prefix, repl) {
        if KeywordOfSome(f, init, prefix, repl) {
          var l :| l in init && f == LabelKeyword(l, prefix, repl);
          assert l in labels;
        }
        if f == LabelKeyword(last, prefix, repl) {
          assert last in labels;
        }
      }
    }
  }
}
