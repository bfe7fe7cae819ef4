/**
 * The name normalisation performed by the `CallableFunction` attribute of the
 * in-game developer console. A method tagged with the attribute declares the
 * name under which the console can call it; the attribute turns that declared
 * name into the stored `functionName` by right-padding it with '_' up to four
 * characters and then replacing every space with '_'.
 */
module CallableFunction {

  /** The minimum length of a stored function name. */
  const MinNameLength: nat := 4

  /** The character used both for padding and in place of spaces. */
  const Filler: char := '_'

  /**
   * Helper of `ReplaceSpaces`: what one character of a declared name becomes
   * in the stored name.
   */
  function NormalizedChar(c: char): char
  {
    if c == ' ' then Filler else c
  }

  /** `Mathf.Max` on integers. */
  function Max(x: int, y: int): (m: int)
    ensures m >= x && m >= y
    ensures m == x || m == y
  {
    if x >= y then x else y
  }

  /** `new string('_', n)`: a string of n filler characters. */
  function Underscores(n: nat): (r: string)
    ensures |r| == n
    ensures forall i :: 0 <= i < n ==> r[i] == Filler
  {
    seq(n, _ => Filler)
  }

  /**
   * `s.Replace(" ", "_")`: every space becomes '_', every other character is
   * kept, and the length is unchanged.
   */
  function ReplaceSpaces(s: string): (r: string)
    ensures |r| == |s|
    ensures forall i :: 0 <= i < |s| ==> r[i] == NormalizedChar(s[i])
    ensures ' ' !in r
  {
    if s == [] then [] else [NormalizedChar(s[0])] + ReplaceSpaces(s[1..])
  }

  /**
   * `AddingMissingDigits`: appends as many '_' as are missing for the string
   * to reach the minimum length; a string already long enough is kept as is.
   */
  function AddingMissingDigits(str: string): (r: string)
    ensures |r| == Max(|str|, MinNameLength)
    ensures r[..|str|] == str
    ensures forall i :: |str| <= i < |r| ==> r[i] == Filler
  {
    var missingDigitsAmount := Max(MinNameLength - |str|, 0);
    str + Underscores(missingDigitsAmount)
  }

  /** The stored name: pad first, then replace spaces. */
  function Normalize(name: string): (r: string)
    ensures ' ' !in r
    ensures |r| >= MinNameLength
  {
    ReplaceSpaces(AddingMissingDigits(name))
  }

  /**
   * The attribute itself. Its `functionName` is get-only in the source, so it
   * is a `const` here, fixed by the constructor.
   */
  class CallableFunctionAttribute {
    const functionName: string

    constructor (name: string)
      ensures functionName == Normalize(name)
      ensures ' ' !in functionName && |functionName| >= MinNameLength
    {
      functionName := Normalize(name);
    }
  }

  /** The stored name is exactly max(|name|, 4) characters long. */
  lemma NormalizeLength(name: string)
    ensures |Normalize(name)| == Max(|name|, MinNameLength)
    ensures |name| < MinNameLength ==> |Normalize(name)| == MinNameLength
    ensures |name| >= MinNameLength ==> |Normalize(name)| == |name|
  {
  }

  /**
   * Position by position: inside the declared name only spaces change (to
   * '_'); every position past the declared name is padding, i.e. '_'.
   */
  lemma NormalizeAt(name: string, i: nat)
    requires i < |Normalize(name)|
    ensures i < |name| ==> Normalize(name)[i] == NormalizedChar(name[i])
    ensures i < |name| && name[i] != ' ' ==> Normalize(name)[i] == name[i]
    ensures i < |name| && name[i] == ' ' ==> Normalize(name)[i] == Filler
    ensures i >= |name| ==> Normalize(name)[i] == Filler
  {
    var padded := AddingMissingDigits(name);
    if i < |name| {
      assert padded[i] == padded[..|name|][i];
    }
  }

  /**
   * An independent description of the stored name: it is the one string of
   * length max(|name|, 4) that agrees with the declared name outside its
   * spaces, has '_' where the declared name has a space, and is '_' past the
   * declared name. Both directions.
   */
  ghost predicate IsNormalFormOf(r: string, name: string)
  {
    && |r| == Max(|name|, MinNameLength)
    && (forall i :: 0 <= i < |name| ==> r[i] == NormalizedChar(name[i]))
    && (forall i :: |name| <= i < |r| ==> r[i] == Filler)
  }

  lemma NormalizeCharacterized(name: string, r: string)
    ensures Normalize(name) == r <==> IsNormalFormOf(r, name)
  {
    var n := Normalize(name);
    forall i | 0 <= i < |n|
      ensures (i < |name| ==> n[i] == NormalizedChar(name[i])) && (i >= |name| ==> n[i] == Filler)
    {
      NormalizeAt(name, i);
    }
    NormalizeLength(name);
    if IsNormalFormOf(r, name) {
      forall i | 0 <= i < |r| ensures r[i] == n[i] {
        if i < |name| { assert r[i] == NormalizedChar(name[i]); }
      }
      assert r == n;
    }
  }

  /** A name already at least four long gets no padding: only spaces change. */
  lemma NormalizeLongName(name: string)
    requires |name| >= MinNameLength
    ensures Normalize(name) == ReplaceSpaces(name)
  {
  }

  /** Replacing spaces in a string without spaces changes nothing. */
  lemma ReplaceSpacesNoSpace(s: string)
    requires ' ' !in s
    ensures ReplaceSpaces(s) == s
  {
  }

  /** Normalising an already normalised name leaves it unchanged. */
  lemma NormalizeIdempotent(name: string)
    ensures Normalize(Normalize(name)) == Normalize(name)
  {
    var n := Normalize(name);
    NormalizeLongName(n);
    ReplaceSpacesNoSpace(n);
  }

  /**
   * The names the attribute's documentation asks for (no spaces, at least four
   * characters) are exactly the ones it stores unchanged.
   */
  lemma NormalizeFixedPoint(name: string)
    ensures Normalize(name) == name <==> (' ' !in name && |name| >= MinNameLength)
  {
    if ' ' !in name && |name| >= MinNameLength {
      NormalizeLongName(name);
      ReplaceSpacesNoSpace(name);
    }
  }

  /**
   * Replacing spaces works piece by piece over a concatenation. The
   * per-position contract of `ReplaceSpaces` already fixes both sides.
   */
  lemma ReplaceSpacesAppend(a: string, b: string)
    ensures ReplaceSpaces(a + b) == ReplaceSpaces(a) + ReplaceSpaces(b)
  {
  }

  /**
   * Padding then replacing (what the constructor does) gives the same name as
   * replacing then padding, because padding uses '_' and replacement keeps the
   * length.
   */
  lemma PadReplaceCommute(name: string)
    ensures ReplaceSpaces(AddingMissingDigits(name)) == AddingMissingDigits(ReplaceSpaces(name))
  {
    var missing := Max(MinNameLength - |name|, 0);
    ReplaceSpacesAppend(name, Underscores(missing));
    ReplaceSpacesNoSpace(Underscores(missing));
  }
}
