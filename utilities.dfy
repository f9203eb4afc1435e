/** EAF.Core/Utilities/SharedMethods.cs: the short unique id and the bounded
    random number. The GUID, its base64 text and the random generator are
    oracles: the caller passes in the base64 text and the generator's draw. */
module Utilities {
  import opened Outcomes
  import opened Sequences

  /** The characters the regular expression `[/+=]` matches. */
  predicate IsStripped(c: char)
  {
    c == '/' || c == '+' || c == '='
  }

  predicate IsAlphanumeric(c: char)
  {
    'A' <= c <= 'Z' || 'a' <= c <= 'z' || '0' <= c <= '9'
  }

  /** The alphabet of base64 text: 64 digits and the padding character. */
  predicate IsBase64Char(c: char)
  {
    IsAlphanumeric(c) || c == '+' || c == '/' || c == '='
  }

  /** ShortUid: the base64 text of a fresh GUID with every `/`, `+` and `=`
      replaced by nothing. */
  function ShortUid(encoded: string): (r: string)
    ensures |r| <= |encoded|
    ensures forall i :: 0 <= i < |r| ==> !IsStripped(r[i])
  {
    if encoded == [] then []
    else if IsStripped(encoded[0]) then ShortUid(encoded[1..])
    else [encoded[0]] + ShortUid(encoded[1..])
  }

  /** The removal keeps every other character, in its original order and with
      its original number of occurrences. */
  lemma {:induction false} ShortUidKeepsOthers(encoded: string)
    ensures IsSubsequence(ShortUid(encoded), encoded)
    ensures forall c :: !IsStripped(c) ==> multiset(ShortUid(encoded))[c] == multiset(encoded)[c]
    decreases |encoded|
  {
    if encoded != [] {
      var rest := encoded[1..];
      ShortUidKeepsOthers(rest);
      assert encoded == [encoded[0]] + rest;
      var r := ShortUid(encoded);
      if IsStripped(encoded[0]) {
        assert r == ShortUid(rest);
        if r != [] {
          assert r[0] != encoded[0];
        }
      } else {
        assert r == [encoded[0]] + ShortUid(rest);
        assert r[1..] == ShortUid(rest);
      }
    }
  }

  /** A string with none of the three characters passes through unchanged. */
  lemma {:induction false} ShortUidFixesClean(s: string)
    requires forall i :: 0 <= i < |s| ==> !IsStripped(s[i])
    ensures ShortUid(s) == s
    decreases |s|
  {
    if s != [] {
      ShortUidFixesClean(s[1..]);
      assert s == [s[0]] + s[1..];
    }
  }

  /** Filtering an already filtered id changes nothing. */
  lemma ShortUidIdempotent(encoded: string)
    ensures ShortUid(ShortUid(encoded)) == ShortUid(encoded)
  {
    ShortUidFixesClean(ShortUid(encoded));
  }

  /** Over base64 text the id is alphanumeric only, as the method's
      documentation promises. */
  lemma ShortUidAlphanumeric(encoded: string)
    requires forall i :: 0 <= i < |encoded| ==> IsBase64Char(encoded[i])
    ensures forall i :: 0 <= i < |ShortUid(encoded)| ==> IsAlphanumeric(ShortUid(encoded)[i])
  {
    var r := ShortUid(encoded);
    ShortUidKeepsOthers(encoded);
    forall i | 0 <= i < |r|
      ensures IsAlphanumeric(r[i])
    {
      SubsequenceElements(r, encoded, i);
      var j :| 0 <= j < |encoded| && encoded[j] == r[i];
      assert IsBase64Char(encoded[j]);
    }
  }

  /** GetRandomNumber: `Random.Next(min, max)` on a fresh generator. The
      generator is an oracle whose `draw` picks the value; the contract is the
      one `Random.Next` documents: an error when `min > max`, `min` when the
      range is empty, otherwise a value in `[min, max)`. */
  function GetRandomNumber(min: int, max: int, draw: nat): (r: Outcome<int>)
    ensures min > max ==> r == Raised(ArgumentOutOfRange)
    ensures min == max ==> r == Returned(min)
    ensures min < max ==> r.Returned? && min <= r.value < max
  {
    if min > max then Raised(ArgumentOutOfRange)
    else if min == max then Returned(min)
    else Returned(min + draw % (max - min))
  }

  /** Every value of a non-empty range is produced by some draw, so no value
      of `[min, max)` is excluded by the model. */
  lemma GetRandomNumberCoversRange(min: int, max: int, v: int)
    requires min <= v < max
    ensures exists draw: nat :: GetRandomNumber(min, max, draw) == Returned(v)
  {
    var draw: nat := v - min;
    assert draw % (max - min) == draw;
    assert GetRandomNumber(min, max, draw) == Returned(v);
  }
}
