/** The peer id generator helper (src/utils/generatePeerId.ts), which the
    program never calls: peers take the id the broker assigns. `Math.random`
    is an input: the eight values it returns, in order. */
module PeerId {
  import opened Text

  /** Digits and lower-case letters without the look-alikes 0, o, 1 and l. */
  const Alphabet: string := "23456789abcdefghijkmnpqrstuvwxyz"

  const IdLength: nat := 8

  predicate IsLookAlike(c: char) {
    c == '0' || c == 'o' || c == '1' || c == 'l'
  }

  /** The alphabet has 32 characters in strictly increasing order, hence
      distinct, and none of them is a look-alike. */
  lemma AlphabetIsUnambiguous()
    ensures |Alphabet| == 32
    ensures forall i, j :: 0 <= i < j < |Alphabet| ==> Alphabet[i] < Alphabet[j]
    ensures forall i :: 0 <= i < |Alphabet| ==> !IsLookAlike(Alphabet[i])
  {
    AlphabetSteps();
    IncreasingStepsIncrease(Alphabet);
    AlphabetHasNoLookAlike();
  }

  lemma AlphabetSteps()
    ensures forall i :: 0 <= i < |Alphabet| - 1 ==> Alphabet[i] < Alphabet[i + 1]
  {
  }

  lemma AlphabetHasNoLookAlike()
    ensures forall i :: 0 <= i < |Alphabet| ==> !IsLookAlike(Alphabet[i])
  {
  }

  lemma {:induction false} IncreasingStepsIncrease(s: string)
    requires forall i :: 0 <= i < |s| - 1 ==> s[i] < s[i + 1]
    ensures forall i, j :: 0 <= i < j < |s| ==> s[i] < s[j]
  {
    if |s| > 1 {
      IncreasingStepsIncrease(s[1..]);
      assert forall j :: 1 < j < |s| ==> s[1] < s[j] by {
        forall j | 1 < j < |s| ensures s[1] < s[j] { assert s[1..][0] < s[1..][j - 1]; }
      }
    }
  }

  /** `Math.floor(r * chars.length)`: always an index of the alphabet. */
  function CharIndex(r: real): (i: nat)
    requires IsRandomDraw(r)
    ensures i < |Alphabet|
  {
    (r * 32.0).Floor
  }

  ghost predicate IsRandomDraw(r: real) {
    0.0 <= r < 1.0
  }

  /** `generatePeerId()`: one character per loop iteration, eight in all,
      the k-th chosen by the k-th random draw. */
  method GeneratePeerId(draws: seq<real>) returns (id: string)
    requires |draws| == IdLength
    requires forall k :: 0 <= k < |draws| ==> IsRandomDraw(draws[k])
    ensures |id| == IdLength
    ensures forall k :: 0 <= k < |id| ==> id[k] == Alphabet[CharIndex(draws[k])]
    ensures forall k :: 0 <= k < |id| ==> id[k] in Alphabet
    ensures forall k :: 0 <= k < |id| ==> !IsLookAlike(id[k])
  {
    id := "";
    for i := 0 to IdLength
      invariant |id| == i
      invariant forall k :: 0 <= k < i ==> id[k] == Alphabet[CharIndex(draws[k])]
    {
      id := id + [Alphabet[CharIndex(draws[i])]];
    }
    AlphabetIsUnambiguous();
  }

  /** The draws that make the generator produce `id`: each character's
      position in the alphabet, scaled into [0, 1). */
  function DrawsFor(id: string): (draws: seq<real>)
    requires forall k :: 0 <= k < |id| ==> id[k] in Alphabet
    ensures |draws| == |id|
  {
    seq(|id|, k requires 0 <= k < |id| => IndexOfChar(Alphabet, id[k]) as real / 32.0)
  }

  /** The draw i/32 selects index i. */
  lemma DrawOfIndex(i: nat)
    requires i < 32
    ensures IsRandomDraw(i as real / 32.0) && (i as real / 32.0 * 32.0).Floor == i
  {
    assert (i as real / 32.0) * 32.0 == i as real;
  }

  /** The draw made from the position of `c` in the alphabet selects `c`
      again. */
  lemma DrawSelects(c: char, r: real)
    requires c in Alphabet
    requires r == IndexOfChar(Alphabet, c) as real / 32.0
    ensures IsRandomDraw(r) && Alphabet[CharIndex(r)] == c
  {
    var i := IndexOfChar(Alphabet, c);
    DrawOfIndex(i);
    assert CharIndex(r) == i;
  }

  /** The draw `DrawsFor` gives the k-th character of `id` selects that
      character again. */
  lemma ReachableAt(id: string, k: nat)
    requires forall j :: 0 <= j < |id| ==> id[j] in Alphabet
    requires k < |id|
    ensures IsRandomDraw(DrawsFor(id)[k]) && Alphabet[CharIndex(DrawsFor(id)[k])] == id[k]
  {
    var r := DrawsFor(id)[k];
    assert r == IndexOfChar(Alphabet, id[k]) as real / 32.0;
    DrawSelects(id[k], r);
  }

  /** Every eight-character string over the alphabet is a possible result:
      the id space is all of the 32^8 strings, not a part of it. */
  lemma EveryIdIsReachable(id: string)
    requires |id| == IdLength
    requires forall k :: 0 <= k < |id| ==> id[k] in Alphabet
    ensures forall k :: 0 <= k < IdLength ==> IsRandomDraw(DrawsFor(id)[k])
    ensures forall k :: 0 <= k < IdLength ==> Alphabet[CharIndex(DrawsFor(id)[k])] == id[k]
  {
    forall k | 0 <= k < IdLength
      ensures IsRandomDraw(DrawsFor(id)[k]) && Alphabet[CharIndex(DrawsFor(id)[k])] == id[k]
    {
      ReachableAt(id, k);
    }
  }
}
