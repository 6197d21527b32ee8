/** Runner-name normalisation and similarity (`apps/_davo/util/strings.go`,
    `apps/_davo/tips/resolve.go`).

    Accent stripping and upper-casing come from Unicode tables; they are the parameter `fold`, of
    which only one thing is assumed: it leaves text already made of the letters A to Z alone.
 */
module Names {
  import EditDistance

  predicate IsLetter(c: char) {
    'A' <= c <= 'Z'
  }

  /** The lookalike table: Cyrillic, Greek, digits and symbols that read as a Latin letter. */
  function Mapped(c: char): char {
    match c
    case '\U{0410}' | '\U{0391}' | '4' | '@' => 'A'
    case '\U{0412}' | '\U{0392}' | '8' => 'B'
    case '\U{0421}' => 'C'
    case '\U{0415}' | '\U{0395}' | '3' => 'E'
    case '\U{041D}' | '\U{0397}' => 'H'
    case '\U{0399}' | '1' | '|' | '!' => 'I'
    case '\U{041A}' | '\U{039A}' => 'K'
    case '\U{041C}' | '\U{039C}' => 'M'
    case '\U{039D}' => 'N'
    case '\U{041E}' | '\U{039F}' | '0' => 'O'
    case '\U{0420}' | '\U{03A1}' => 'P'
    case '5' | '$' => 'S'
    case '\U{0422}' | '\U{03A4}' | '7' => 'T'
    case '\U{0425}' | '\U{03A7}' => 'X'
    case '\U{0423}' | '\U{03A5}' => 'Y'
    case '\U{0396}' => 'Z'
    case _ => c
  }

  /** A rune that carries no identity: neither a letter nor a lookalike of one. */
  predicate IsNoise(c: char) {
    !IsLetter(Mapped(c))
  }

  /** Only letters, no letter twice in a row. */
  predicate Canonical(s: string) {
    && (forall i :: 0 <= i < |s| ==> IsLetter(s[i]))
    && (forall i :: 0 < i < |s| ==> s[i - 1] != s[i])
  }

  ghost predicate FixesLetters(fold: string -> string) {
    forall s: string :: (forall i :: 0 <= i < |s| ==> IsLetter(s[i])) ==> fold(s) == s
  }

  /** What one more rune adds to the letters kept so far. */
  function Kept(out: string, c: char): string {
    var r := Mapped(c);
    if !IsLetter(r) || (out != [] && out[|out| - 1] == r) then out else out + [r]
  }

  function Collapse(s: string): string {
    if s == [] then [] else Kept(Collapse(s[..|s| - 1]), s[|s| - 1])
  }

  method Normalise(s: string, fold: string -> string) returns (out: string)
    requires FixesLetters(fold)
    ensures out == Collapse(fold(s))
    ensures Canonical(out)
  {
    var stripped := fold(s);
    out := [];
    var prev := '\0';
    var i := 0;
    while i < |stripped|
      invariant 0 <= i <= |stripped|
      invariant out == Collapse(stripped[..i])
      invariant prev == if out == [] then '\0' else out[|out| - 1]
    {
      assert stripped[..i + 1][..i] == stripped[..i];
      var r := Mapped(stripped[i]);
      i := i + 1;
      if r < 'A' || 'Z' < r {
        continue;
      }
      if r == prev {
        continue;
      }
      out := out + [r];
      prev := r;
    }
    assert stripped[..i] == stripped;
    CollapseIsCanonical(stripped);
  }

  // ----- what normalising forgets, and what it keeps

  lemma {:induction false} CollapseIsCanonical(s: string)
    ensures Canonical(Collapse(s))
  {
    if s != [] {
      CollapseIsCanonical(s[..|s| - 1]);
    }
  }

  lemma {:induction false} CanonicalIsFixed(s: string)
    requires Canonical(s)
    ensures Collapse(s) == s
  {
    if s != [] {
      CanonicalIsFixed(s[..|s| - 1]);
      assert s[..|s| - 1] + [s[|s| - 1]] == s;
    }
  }

  /** Normalising is idempotent, and its fixed points are exactly the canonical names. */
  lemma NormaliseIdempotent(s: string, fold: string -> string)
    requires FixesLetters(fold)
    ensures Collapse(fold(Collapse(fold(s)))) == Collapse(fold(s))
    ensures Canonical(s) <==> Collapse(fold(s)) == s
  {
    CollapseIsCanonical(fold(s));
    CanonicalIsFixed(Collapse(fold(s)));
    if Canonical(s) {
      CanonicalIsFixed(s);
    }
  }

  lemma {:induction false} Congruent(u: string, u': string, v: string)
    requires Collapse(u) == Collapse(u')
    ensures Collapse(u + v) == Collapse(u' + v)
  {
    if v == [] {
      assert u + v == u && u' + v == u';
    } else {
      var w := v[..|v| - 1];
      Congruent(u, u', w);
      assert (u + v)[..|u + v| - 1] == u + w && (u' + v)[..|u' + v| - 1] == u' + w;
    }
  }

  lemma Appended(u: string, c: char)
    ensures Collapse(u + [c]) == Kept(Collapse(u), c)
  {
    assert (u + [c])[..|u|] == u;
  }

  lemma NoiseCollapses(u: string, noise: char, v: string)
    requires IsNoise(noise)
    ensures Collapse(u + [noise] + v) == Collapse(u + v)
  {
    Appended(u, noise);
    Congruent(u + [noise], u, v);
  }

  lemma LookalikeCollapses(u: string, c: char, v: string)
    ensures Collapse(u + [c] + v) == Collapse(u + [Mapped(c)] + v)
  {
    Appended(u, c);
    Appended(u, Mapped(c));
    Congruent(u + [c], u + [Mapped(c)], v);
  }

  lemma DoubleCollapses(u: string, c: char, v: string)
    ensures Collapse(u + [c] + [c] + v) == Collapse(u + [c] + v)
  {
    Appended(u, c);
    Appended(u + [c], c);
    Congruent(u + [c] + [c], u + [c], v);
  }

  /** A fold whose letters come rune by rune. It need not work rune by rune itself: what two pieces
      compose to, or how their marks are ordered, is noise either way. */
  ghost predicate LettersDistribute(fold: string -> string) {
    forall u: string, v: string :: Collapse(fold(u + v)) == Collapse(fold(u) + fold(v))
  }

  /** Inserting a rune in a name is, to its normal form, inserting its fold in the folded name. */
  lemma FoldedWith(u: string, c: char, v: string, fold: string -> string)
    requires LettersDistribute(fold)
    ensures Collapse(fold(u + [c] + v)) == Collapse(fold(u) + fold([c]) + fold(v))
  {
    assert Collapse(fold(u + [c] + v)) == Collapse(fold(u + [c]) + fold(v));
    Congruent(fold(u + [c]), fold(u) + fold([c]), fold(v));
  }

  lemma {:induction false} AllNoiseCollapses(u: string, ns: string, v: string)
    requires forall i :: 0 <= i < |ns| ==> IsNoise(ns[i])
    ensures Collapse(u + ns + v) == Collapse(u + v)
    decreases |ns|
  {
    if ns == [] {
      assert u + ns + v == u + v;
    } else {
      AllNoiseCollapses(u + [ns[0]], ns[1..], v);
      assert u + ns + v == u + [ns[0]] + ns[1..] + v;
      NoiseCollapses(u, ns[0], v);
    }
  }

  /** A rune that folds to nothing but noise, or to nothing, changes nothing wherever it is inserted
      in a name. */
  lemma NoiseIgnored(u: string, noise: char, v: string, fold: string -> string)
    requires LettersDistribute(fold) && forall i :: 0 <= i < |fold([noise])| ==> IsNoise(fold([noise])[i])
    ensures Collapse(fold(u + [noise] + v)) == Collapse(fold(u + v))
  {
    FoldedWith(u, noise, v, fold);
    AllNoiseCollapses(fold(u), fold([noise]), fold(v));
  }

  /** Neither does swapping a letter for a rune that folds to itself and looks like it... */
  lemma LookalikeIgnored(u: string, c: char, v: string, fold: string -> string)
    requires LettersDistribute(fold) && FixesLetters(fold) && fold([c]) == [c] && !IsNoise(c)
    ensures Collapse(fold(u + [c] + v)) == Collapse(fold(u + [Mapped(c)] + v))
  {
    FoldedWith(u, c, v, fold);
    FoldedWith(u, Mapped(c), v, fold);
    assert fold([Mapped(c)]) == [Mapped(c)];
    LookalikeCollapses(fold(u), c, fold(v));
  }

  lemma CongruentBefore(u: string, u': string, c: char, v: string)
    requires Collapse(u) == Collapse(u')
    ensures Collapse(u + [c] + v) == Collapse(u' + [c] + v)
  {
    Appended(u, c);
    Appended(u', c);
    Congruent(u + [c], u' + [c], v);
  }

  lemma FoldedTwice(u: string, c: char, d: char, v: string, fold: string -> string)
    requires LettersDistribute(fold) && fold([c]) == [d]
    ensures Collapse(fold(u + [c] + [c] + v)) == Collapse(fold(u) + [d] + [d] + fold(v))
  {
    FoldedWith(u + [c], c, v, fold);
    CongruentBefore(fold(u + [c]), fold(u) + [d], d, fold(v));
  }

  /** ... or writing a rune twice that folds to a single one. */
  lemma DoubleIgnored(u: string, c: char, v: string, fold: string -> string)
    requires LettersDistribute(fold) && |fold([c])| == 1
    ensures Collapse(fold(u + [c] + [c] + v)) == Collapse(fold(u + [c] + v))
  {
    var d := fold([c])[0];
    assert fold([c]) == [d];
    FoldedTwice(u, c, d, v, fold);
    FoldedWith(u, c, v, fold);
    DoubleCollapses(fold(u), d, fold(v));
  }

  // ----- similarity

  /** Length in bytes, which is what `len` counts. */
  function Utf8Length(s: string): (n: nat)
    ensures |s| <= n
  {
    if s == [] then 0
    else
      var c := s[|s| - 1] as int;
      Utf8Length(s[..|s| - 1]) + if c < 0x80 then 1 else if c < 0x800 then 2 else if c < 0x1_0000 then 3 else 4
  }

  function Similarity(a: string, b: string): real {
    if a == b then 1.0
    else if a == [] || b == [] then 0.0
    else
      var longest := if Utf8Length(b) > Utf8Length(a) then Utf8Length(b) else Utf8Length(a);
      1.0 - EditDistance.Dist(a, b) as real / longest as real
  }

  lemma Quotient(d: int, n: int)
    requires 0 <= d <= n && 0 < n
    ensures 0.0 <= d as real / n as real <= 1.0
    ensures d as real / n as real == 0.0 <==> d == 0
  {
    var q := d as real / n as real;
    assert q * n as real == d as real;
  }

  /** Similarity lies in [0, 1], is 1 for equal names only, and does not care about the order. */
  lemma SimilarityRange(a: string, b: string)
    ensures 0.0 <= Similarity(a, b) <= 1.0
    ensures Similarity(a, b) == 1.0 <==> a == b
    ensures Similarity(a, b) == Similarity(b, a)
  {
    EditDistance.Symmetric(a, b);
    if a != b && a != [] && b != [] {
      EditDistance.Bounded(a, b);
      EditDistance.ZeroIffEqual(a, b);
      var longest := if Utf8Length(b) > Utf8Length(a) then Utf8Length(b) else Utf8Length(a);
      Quotient(EditDistance.Dist(a, b), longest);
    }
  }

  /** The length counts a character by its code point, from one byte to four. */
  lemma CharacterLength(s: string, c: char)
    ensures Utf8Length(s + [c]) ==
            Utf8Length(s) + (if c <= '\U{7F}' then 1 else if c <= '\U{7FF}' then 2 else if c <= '\U{FFFF}' then 3 else 4)
    ensures Utf8Length([]) == 0
  {
    assert (s + [c])[..|s|] == s;
  }

  /** What resemblance is: for two names that differ, neither of them empty, what is left of 1 after the
      edit distance over the length of the longer. */
  lemma SimilaritySpelledOut(a: string, b: string)
    requires a != b
    ensures a == [] || b == [] ==> Similarity(a, b) == 0.0
    ensures a != [] && b != [] && Utf8Length(a) <= Utf8Length(b) ==>
              Similarity(a, b) == 1.0 - EditDistance.Dist(a, b) as real / Utf8Length(b) as real
    ensures a != [] && b != [] && Utf8Length(b) <= Utf8Length(a) ==>
              Similarity(a, b) == 1.0 - EditDistance.Dist(a, b) as real / Utf8Length(a) as real
  {}

  /** The lookalikes, letter by letter; everything else is left as it is. */
  lemma LookalikesListed(c: char)
    ensures c in "\U{0410}\U{0391}4@" ==> Mapped(c) == 'A'
    ensures c in "\U{0412}\U{0392}8" ==> Mapped(c) == 'B'
    ensures c in "\U{0421}" ==> Mapped(c) == 'C'
    ensures c in "\U{0415}\U{0395}3" ==> Mapped(c) == 'E'
    ensures c in "\U{041D}\U{0397}" ==> Mapped(c) == 'H'
    ensures c in "\U{0399}1|!" ==> Mapped(c) == 'I'
    ensures c in "\U{041A}\U{039A}" ==> Mapped(c) == 'K'
    ensures c in "\U{041C}\U{039C}" ==> Mapped(c) == 'M'
    ensures c in "\U{039D}" ==> Mapped(c) == 'N'
    ensures c in "\U{041E}\U{039F}0" ==> Mapped(c) == 'O'
    ensures c in "\U{0420}\U{03A1}" ==> Mapped(c) == 'P'
    ensures c in "5$" ==> Mapped(c) == 'S'
    ensures c in "\U{0422}\U{03A4}7" ==> Mapped(c) == 'T'
    ensures c in "\U{0425}\U{03A7}" ==> Mapped(c) == 'X'
    ensures c in "\U{0423}\U{03A5}" ==> Mapped(c) == 'Y'
    ensures c in "\U{0396}" ==> Mapped(c) == 'Z'
    ensures Mapped(c) == c || !IsLetter(c)
  {}
}
