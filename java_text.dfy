/**
 * The three pieces of Java's string library that the port probe relies on:
 * the `(char)` cast of a signed byte, `String.trim` and
 * `String.equalsIgnoreCase` (with case folding restricted to ASCII letters).
 */
module JavaText {

  /** Java's signed 8-bit `byte`. */
  newtype byte = x: int | -128 <= x < 128

  /** `(char) b`: the byte is sign-extended, then its low 16 bits become the char. */
  function Widen(b: byte): char
  {
    if b >= 0 then b as int as char else (b as int + 0x1_0000) as char
  }

  /** Each byte widened in turn, as a loop that appends `(char) buffer[j]` builds it. */
  function WidenAll(bs: seq<byte>): (s: string)
    ensures |s| == |bs|
    ensures forall j :: 0 <= j < |bs| ==> s[j] == Widen(bs[j])
  {
    if bs == [] then "" else WidenAll(bs[..|bs| - 1]) + [Widen(bs[|bs| - 1])]
  }

  /** Only bytes 0..32 widen to a char that `trim` strips: a negative byte becomes U+FF80..U+FFFF. */
  lemma WidenBlank(b: byte)
    ensures Blank(Widen(b)) <==> 0 <= b <= 32
  {
  }

  /** Distinct bytes give distinct chars, so widening loses nothing. */
  lemma WidenInjective(b1: byte, b2: byte)
    ensures Widen(b1) == Widen(b2) ==> b1 == b2
  {
  }

  // ---------------------------------------------------------------- trim

  /** `String.trim` strips every char whose code is at most U+0020. */
  predicate Blank(c: char)
  {
    c <= ' '
  }

  ghost predicate AllBlank(s: string)
  {
    forall j :: 0 <= j < |s| ==> Blank(s[j])
  }

  /** Leading blanks removed. */
  function TrimLeft(s: string): (r: string)
    ensures |r| <= |s|
  {
    if s != [] && Blank(s[0]) then TrimLeft(s[1..]) else s
  }

  /** `TrimLeft` returns the suffix of `s` that starts at its first non-blank char. */
  lemma {:induction false} TrimLeftShape(s: string)
    ensures var r := TrimLeft(s);
      && r == s[|s| - |r|..]
      && AllBlank(s[..|s| - |r|])
      && (r == [] || !Blank(r[0]))
  {
    if s != [] && Blank(s[0]) {
      var r := TrimLeft(s[1..]);
      TrimLeftShape(s[1..]);
      assert s[..|s| - |r|] == [s[0]] + s[1..][..|s| - 1 - |r|];
    }
  }

  /** Trailing blanks removed. */
  function TrimRight(s: string): (r: string)
    ensures |r| <= |s|
  {
    if s != [] && Blank(s[|s| - 1]) then TrimRight(s[..|s| - 1]) else s
  }

  /** `TrimRight` returns the prefix of `s` that ends at its last non-blank char. */
  lemma {:induction false} TrimRightShape(s: string)
    ensures var r := TrimRight(s);
      && r == s[..|r|]
      && AllBlank(s[|r|..])
      && (r == [] || !Blank(r[|r| - 1]))
  {
    if s != [] && Blank(s[|s| - 1]) {
      var r := TrimRight(s[..|s| - 1]);
      TrimRightShape(s[..|s| - 1]);
      assert s[|r|..] == s[..|s| - 1][|r|..] + [s[|s| - 1]];
    }
  }

  /** `r` sits in `s` at offset `a`, only blanks lie around it, and it neither starts nor ends with one. */
  ghost predicate TrimmedAt(s: string, r: string, a: int)
  {
    && 0 <= a && a + |r| <= |s|
    && r == s[a..a + |r|]
    && AllBlank(s[..a])
    && AllBlank(s[a + |r|..])
    && (r != [] ==> !Blank(r[0]) && !Blank(r[|r| - 1]))
  }

  /** The property that defines what `trim` returns, independent of how it is computed. */
  ghost predicate IsTrimOf(s: string, r: string)
  {
    exists a :: TrimmedAt(s, r, a)
  }

  /** Java's `String.trim`. */
  function Trim(s: string): (r: string)
    ensures |r| <= |s|
  {
    TrimRight(TrimLeft(s))
  }

  /** What `Trim` returns is a trim of `s`: no blank at either end, only blanks cut away. */
  lemma TrimIsTrim(s: string)
    ensures IsTrimOf(s, Trim(s))
    ensures Trim(s) != [] ==> !Blank(Trim(s)[0]) && !Blank(Trim(s)[|Trim(s)| - 1])
  {
    var l := TrimLeft(s);
    var r := TrimRight(l);
    var a := |s| - |l|;
    TrimLeftShape(s);
    TrimRightShape(l);
    assert r == s[a..a + |r|];
    assert s[a + |r|..] == l[|r|..];
    assert r != [] ==> r[0] == l[0];
    assert TrimmedAt(s, r, a);
  }

  /** Outside the trimmed part every char is blank; its two ends are not. */
  lemma BlankOutside(s: string, r: string, a: int)
    requires TrimmedAt(s, r, a)
    ensures forall j :: 0 <= j < a ==> Blank(s[j])
    ensures forall j :: a + |r| <= j < |s| ==> Blank(s[j])
    ensures r != [] ==> !Blank(s[a]) && !Blank(s[a + |r| - 1])
  {
    forall j | 0 <= j < a
      ensures Blank(s[j])
    {
      assert s[..a][j] == s[j];
    }
    forall j | a + |r| <= j < |s|
      ensures Blank(s[j])
    {
      assert s[a + |r|..][j - a - |r|] == s[j];
    }
    if r != [] {
      assert s[a] == r[0] && s[a + |r| - 1] == r[|r| - 1];
    }
  }

  /** There is only one way to trim a string. */
  lemma TrimUnique(s: string, r1: string, r2: string)
    requires IsTrimOf(s, r1) && IsTrimOf(s, r2)
    ensures r1 == r2
  {
    var a1 :| TrimmedAt(s, r1, a1);
    var a2 :| TrimmedAt(s, r2, a2);
    BlankOutside(s, r1, a1);
    BlankOutside(s, r2, a2);
  }

  /** `Trim` returns exactly the strings that satisfy the defining property. */
  lemma TrimCharacterized(s: string, r: string)
    ensures IsTrimOf(s, r) <==> r == Trim(s)
  {
    TrimIsTrim(s);
    if IsTrimOf(s, r) {
      TrimUnique(s, r, Trim(s));
    }
  }

  /** Trimming an already trimmed string changes nothing. */
  lemma TrimIdempotent(s: string)
    ensures Trim(Trim(s)) == Trim(s)
  {
    var t := Trim(s);
    TrimIsTrim(s);
    TrimIsTrim(t);
    assert t[0..0 + |t|] == t;
    assert TrimmedAt(t, t, 0);
    TrimUnique(t, t, Trim(t));
  }

  // ---------------------------------------------------- equalsIgnoreCase

  /** `Character.toUpperCase`, on ASCII letters only. */
  function ToUpper(c: char): char
  {
    if 'a' <= c <= 'z' then (c as int - 32) as char else c
  }

  /** `Character.toLowerCase`, on ASCII letters only. */
  function ToLower(c: char): char
  {
    if 'A' <= c <= 'Z' then (c as int + 32) as char else c
  }

  /** The per-char test of `String.regionMatches(true, ...)`. */
  predicate CharsEqualIgnoreCase(c1: char, c2: char)
  {
    || c1 == c2
    || ToUpper(c1) == ToUpper(c2)
    || ToLower(ToUpper(c1)) == ToLower(ToUpper(c2))
  }

  /** `String.equalsIgnoreCase` for a non-null argument: equal lengths, then `regionMatches` char by char. */
  predicate EqualsIgnoreCase(a: string, b: string)
  {
    |a| == |b| && forall j :: 0 <= j < |a| ==> CharsEqualIgnoreCase(a[j], b[j])
  }

  function LowerAll(s: string): (r: string)
    ensures |r| == |s|
    ensures forall j :: 0 <= j < |s| ==> r[j] == ToLower(s[j])
  {
    if s == [] then "" else [ToLower(s[0])] + LowerAll(s[1..])
  }

  lemma CharsFold(c1: char, c2: char)
    ensures CharsEqualIgnoreCase(c1, c2) <==> ToLower(c1) == ToLower(c2)
  {
  }

  /** Two strings match ignoring case exactly when their lower-case forms are equal. */
  lemma EqualsIgnoreCaseFolds(a: string, b: string)
    ensures EqualsIgnoreCase(a, b) <==> LowerAll(a) == LowerAll(b)
  {
    if |a| == |b| {
      forall j | 0 <= j < |a|
        ensures CharsEqualIgnoreCase(a[j], b[j]) <==> LowerAll(a)[j] == LowerAll(b)[j]
      {
        CharsFold(a[j], b[j]);
      }
    }
  }
}
