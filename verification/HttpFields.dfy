/** The header fields: a multimap ordered by `is_strless`, and decimal numbers. */
module HttpFields {

  function Upper(c: char): char { if 'a' <= c <= 'z' then (c as int - 32) as char else c }

  function UpperAll(s: string): (r: string)
    ensures |r| == |s| && forall i :: 0 <= i < |s| ==> r[i] == Upper(s[i])
  {
    if s == [] then [] else [Upper(s[0])] + UpperAll(s[1..])
  }

  /** `char` is signed: bytes from 128 on are negative. */
  function Signed(c: char): int { if c as int < 128 then c as int else c as int - 256 }

  function Key(c: char): int { Signed(Upper(c)) }

  /** The loop of `is_strless` from the first character on, for strings of one length. */
  predicate LessSame(a: string, b: string)
    requires |a| == |b|
  {
    a != [] && (if Key(a[0]) != Key(b[0]) then Key(a[0]) < Key(b[0]) else LessSame(a[1..], b[1..]))
  }

  predicate Less(a: string, b: string) { if |a| != |b| then |a| < |b| else LessSame(a, b) }

  /** The comparison as the source runs it: a scan for the first difference. */
  method IsStrLess(left: string, right: string) returns (r: bool)
    ensures r == Less(left, right)
  {
    if |left| != |right| { return |left| < |right|; }
    var i := 0;
    while i < |left|
      invariant 0 <= i <= |left|
      invariant LessSame(left, right) == LessSame(left[i..], right[i..])
    {
      var l, r := Upper(left[i]), Upper(right[i]);
      assert left[i..][1..] == left[i + 1..] && right[i..][1..] == right[i + 1..];
      if Signed(l) != Signed(r) { return Signed(l) < Signed(r); }
      i := i + 1;
    }
    return false;
  }

  lemma {:induction false} SameTransitive(a: string, b: string, c: string)
    requires |a| == |b| == |c|
    ensures LessSame(a, b) && LessSame(b, c) ==> LessSame(a, c)
    ensures !LessSame(a, b) && !LessSame(b, c) ==> !LessSame(a, c)
    ensures !(LessSame(a, b) && LessSame(b, a))
    decreases |a|
  {
    if a != [] { SameTransitive(a[1..], b[1..], c[1..]); }
  }

  /**
    `is_strless` is a strict weak order, as a multimap needs: nothing is less than itself, less is
    transitive, and so is being neither less nor greater.
  */
  lemma StrictWeakOrder(a: string, b: string, c: string)
    ensures !Less(a, a)
    ensures Less(a, b) && Less(b, c) ==> Less(a, c)
    ensures !Less(a, b) && !Less(b, c) ==> !Less(a, c)
    ensures !(Less(a, b) && Less(b, a))
  {
    SameTransitive(a, a, a);
    if |a| == |b| == |c| { SameTransitive(a, b, c); }
    else if |a| == |b| { SameTransitive(a, b, a); }
  }

  lemma {:induction false} SameIsEqualUpper(a: string, b: string)
    requires |a| == |b|
    ensures !LessSame(a, b) && !LessSame(b, a) <==> forall i :: 0 <= i < |a| ==> Key(a[i]) == Key(b[i])
    decreases |a|
  {
    if a != [] {
      SameIsEqualUpper(a[1..], b[1..]);
      assert (forall i :: 0 <= i < |a| ==> Key(a[i]) == Key(b[i])) <==>
             Key(a[0]) == Key(b[0]) && forall i :: 0 <= i < |a[1..]| ==> Key(a[1..][i]) == Key(b[1..][i]) by {
        assert forall i :: 0 < i < |a| ==> a[i] == a[1..][i - 1] && b[i] == b[1..][i - 1];
      }
    }
  }

  // ---- what the order means, without the functions it is made of

  const LOWERS := "abcdefghijklmnopqrstuvwxyz"
  const UPPERS := "ABCDEFGHIJKLMNOPQRSTUVWXYZ"

  /** A lower-case letter and its upper-case form: they stand at the same place of the two alphabets. */
  ghost predicate Letter(lower: char, upper: char)
  {
    exists i :: 0 <= i < 26 && lower == LOWERS[i] && upper == UPPERS[i]
  }

  /** The same character, or the same letter in the other case. */
  ghost predicate SameLetter(c: char, d: char) { c == d || Letter(c, d) || Letter(d, c) }

  lemma LetterAt(i: int)
    requires 0 <= i < 26
    ensures LOWERS[i] as int == 'a' as int + i && UPPERS[i] as int == 'A' as int + i
  {
  }

  lemma LetterMeans(lower: char, upper: char)
    ensures Letter(lower, upper) <==> 'a' <= lower <= 'z' && upper as int == lower as int - 32
  {
    forall i | 0 <= i < 26 ensures LOWERS[i] as int == 97 + i && UPPERS[i] as int == 65 + i { LetterAt(i); }
    if 'a' <= lower <= 'z' && upper as int == lower as int - 32 {
      assert lower == LOWERS[lower as int - 97] && upper == UPPERS[lower as int - 97];
    }
  }

  /** `toupper` maps a lower-case letter to its upper-case form and nothing else, and so brings exactly these together. */
  lemma UpperMeans(c: char, d: char)
    ensures Letter(c, Upper(c)) || (Upper(c) == c && !Letter(c, d))
    ensures Upper(c) == Upper(d) <==> SameLetter(c, d)
  {
    LetterMeans(c, Upper(c));
    LetterMeans(c, d);
    LetterMeans(d, c);
  }

  /** Equal but for the case of ASCII letters. */
  ghost predicate Caseless(a: string, b: string)
  {
    |a| == |b| && forall i :: 0 <= i < |a| ==> SameLetter(a[i], b[i])
  }

  lemma CaselessIsUpper(a: string, b: string)
    ensures Caseless(a, b) <==> UpperAll(a) == UpperAll(b)
  {
    if |a| == |b| {
      forall i | 0 <= i < |a| ensures Upper(a[i]) == Upper(b[i]) <==> SameLetter(a[i], b[i]) { UpperMeans(a[i], b[i]); }
      if UpperAll(a) == UpperAll(b) {
        forall i | 0 <= i < |a| ensures SameLetter(a[i], b[i]) { assert UpperAll(a)[i] == UpperAll(b)[i]; }
      }
    }
  }

  predicate IsBytes(s: string) { forall i :: 0 <= i < |s| ==> s[i] as int < 256 }

  /** Two keys are equivalent exactly when they are equal but for the case of ASCII letters. */
  lemma EquivalentIsCaseless(a: string, b: string)
    requires IsBytes(a) && IsBytes(b)
    ensures !Less(a, b) && !Less(b, a) <==> Caseless(a, b)
  {
    CaselessIsUpper(a, b);
    if |a| == |b| {
      SameIsEqualUpper(a, b);
      if forall i :: 0 <= i < |a| ==> Key(a[i]) == Key(b[i]) {
        forall i | 0 <= i < |a| ensures UpperAll(a)[i] == UpperAll(b)[i] { assert Key(a[i]) == Key(b[i]); }
      } else {
        var i :| 0 <= i < |a| && Key(a[i]) != Key(b[i]);
        assert UpperAll(a)[i] != UpperAll(b)[i];
      }
    }
  }

  /** The value a signed `char` has. */
  ghost predicate SignedValue(c: char, v: int)
  {
    -128 <= v < 128 && (v == c as int || v == c as int - 256)
  }

  /** `i` is the first place where two keys differ in more than case. */
  ghost predicate DifferAt(a: string, b: string, i: nat)
  {
    i < |a| == |b| && !SameLetter(a[i], b[i]) && forall j :: 0 <= j < i ==> SameLetter(a[j], b[j])
  }

  /** The first difference decides, and there the upper-case character with the smaller signed value is less. */
  lemma {:induction false} FirstDifference(a: string, b: string, i: nat)
    requires IsBytes(a) && IsBytes(b) && DifferAt(a, b, i)
    ensures LessSame(a, b) <==> Key(a[i]) < Key(b[i])
    decreases i
  {
    UpperMeans(a[0], b[0]);
    if i > 0 {
      assert SameLetter(a[0], b[0]);
      forall j | 0 <= j < i - 1 ensures SameLetter(a[1..][j], b[1..][j]) { assert SameLetter(a[j + 1], b[j + 1]); }
      FirstDifference(a[1..], b[1..], i - 1);
    }
  }

  /**
    What the order is: the shorter key is less; of two keys of one length the first place where they
    differ in more than case decides, by the signed values of the upper-case characters; without such
    a place neither is less.
  */
  lemma LessMeans(a: string, b: string)
    requires IsBytes(a) && IsBytes(b)
    ensures |a| < |b| ==> Less(a, b)
    ensures |a| > |b| ==> !Less(a, b)
    ensures forall i: nat, v, w :: DifferAt(a, b, i) && SignedValue(Upper(a[i]), v) && SignedValue(Upper(b[i]), w) ==> (Less(a, b) <==> v < w)
    ensures |a| == |b| && (forall i: nat :: !DifferAt(a, b, i)) ==> !Less(a, b)
  {
    forall i: nat, v, w | DifferAt(a, b, i) && SignedValue(Upper(a[i]), v) && SignedValue(Upper(b[i]), w)
      ensures Less(a, b) <==> v < w
    {
      FirstDifference(a, b, i);
    }
    if |a| == |b| && forall i: nat :: !DifferAt(a, b, i) {
      NoFirstDifference(a, b, |a|);
      EquivalentIsCaseless(a, b);
    }
  }

  lemma {:induction false} NoFirstDifference(a: string, b: string, n: nat)
    requires n <= |a| == |b| && forall i: nat :: !DifferAt(a, b, i)
    ensures forall j :: 0 <= j < n ==> SameLetter(a[j], b[j])
  {
    if n > 0 {
      NoFirstDifference(a, b, n - 1);
      assert !DifferAt(a, b, n - 1);
    }
  }

  // ---------------------------------------------------------------- the multimap

  datatype Field = Field(key: string, value: string)

  predicate InOrder(f: Field, g: Field) { !Less(g.key, f.key) }

  ghost predicate Sorted(fs: seq<Field>) { forall i, j :: 0 <= i < j < |fs| ==> InOrder(fs[i], fs[j]) }

  /** `multimap::insert`: behind every field whose key is not greater. */
  function Insert(fs: seq<Field>, f: Field): seq<Field>
  {
    if fs == [] then [f]
    else if Less(f.key, fs[0].key) then [f] + fs
    else [fs[0]] + Insert(fs[1..], f)
  }

  lemma Cons(x: Field, a: seq<Field>, f: Field, b: seq<Field>)
    ensures [x] + (a + [f] + b) == ([x] + a) + [f] + b
  {
  }

  /** The new field stands behind all fields it does not precede and before the first it does. */
  lemma {:induction false} InsertPlace(fs: seq<Field>, f: Field) returns (i: nat)
    ensures i <= |fs| && Insert(fs, f) == fs[..i] + [f] + fs[i..]
    ensures (forall j :: 0 <= j < i ==> InOrder(fs[j], f)) && (i < |fs| ==> Less(f.key, fs[i].key))
    decreases |fs|
  {
    if fs == [] || Less(f.key, fs[0].key) {
      i := 0;
    } else {
      var k := InsertPlace(fs[1..], f);
      i := k + 1;
      assert fs[..i] == [fs[0]] + fs[1..][..k];
      Cons(fs[0], fs[1..][..k], f, fs[1..][k..]);
      forall j | 0 <= j < i ensures InOrder(fs[j], f) { assert j > 0 ==> InOrder(fs[1..][j - 1], f); }
    }
  }

  lemma {:induction false} InsertSorted(fs: seq<Field>, f: Field)
    requires Sorted(fs)
    ensures Sorted(Insert(fs, f))
    decreases |fs|
  {
    if fs != [] {
      if Less(f.key, fs[0].key) {
        forall j | 0 <= j < |fs| ensures InOrder(f, fs[j]) {
          if j > 0 { assert InOrder(fs[0], fs[j]); }
          StrictWeakOrder(fs[j].key, fs[0].key, f.key);
          StrictWeakOrder(f.key, fs[0].key, f.key);
        }
      } else {
        InsertSorted(fs[1..], f);
        var r := Insert(fs[1..], f);
        var i := InsertPlace(fs[1..], f);
        forall j | 0 <= j < |r| ensures InOrder(fs[0], r[j]) { assert r[j] == f || r[j] in fs[1..]; }
      }
    }
  }

  /** Inserting a field that is not less than any other puts it at the end. */
  lemma {:induction false} InsertLast(fs: seq<Field>, f: Field)
    requires forall i :: 0 <= i < |fs| ==> InOrder(fs[i], f)
    ensures Insert(fs, f) == fs + [f]
    decreases |fs|
  {
    if fs != [] {
      assert InOrder(fs[0], f);
      InsertLast(fs[1..], f);
    }
  }

  // ---------------------------------------------------------------- numbers

  predicate Digits(s: string) { forall i :: 0 <= i < |s| ==> '0' <= s[i] <= '9' }

  function DigitOf(d: int): char
    requires 0 <= d < 10
  {
    ('0' as int + d) as char
  }

  function ToStringNat(n: nat): (s: string)
    ensures s != [] && Digits(s)
  {
    if n < 10 then [DigitOf(n)] else ToStringNat(n / 10) + [DigitOf(n % 10)]
  }

  function ToString(n: int): string { if n < 0 then "-" + ToStringNat(-n) else ToStringNat(n) }

  /** `atoi` on the digits the parser collects. */
  function Atoi(s: string): nat
    requires Digits(s)
  {
    if s == [] then 0 else 10 * Atoi(s[..|s| - 1]) + (s[|s| - 1] as int - '0' as int)
  }

  lemma {:induction false} AtoiToString(n: nat)
    ensures Atoi(ToStringNat(n)) == n
  {
    if n >= 10 {
      AtoiToString(n / 10);
      var s := ToStringNat(n);
      assert s[..|s| - 1] == ToStringNat(n / 10);
    }
  }
}
