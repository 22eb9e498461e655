/** The display transform applied to every identity shown to observers
    (server/utils/db.js:56, server/utils/db.js:65, server/index.js:48,
    public/js/main.js:107): keep everything but the last four characters and
    append "XXXX". JavaScript's `substring` clamps a negative end index to 0,
    so an identity shorter than four characters becomes "XXXX". */
module Masking {

  const Hidden: string := "XXXX"

  /** Number of leading characters of `w` that survive masking. */
  function Kept(w: string): (k: nat)
    ensures k <= |w|
  {
    if |w| >= 4 then |w| - 4 else 0
  }

  function Mask(w: string): (r: string)
    ensures |r| == Kept(w) + 4
    ensures r[..Kept(w)] == w[..Kept(w)]
    ensures r[Kept(w)..] == Hidden
  {
    w[..Kept(w)] + Hidden
  }

  /** Masking an already masked identity changes nothing, so the client's second
      masking of winners that the server already masked is harmless. */
  lemma MaskIdempotent(w: string)
    ensures Mask(Mask(w)) == Mask(w)
  {
    var m := Mask(w);
    assert Kept(m) == Kept(w);
    assert m[..Kept(m)] == w[..Kept(w)];
  }

  /** The mask depends only on the kept prefix: two identities that differ only
      in their last four characters are shown identically. */
  lemma MaskHidesLastFour(w1: string, w2: string)
    requires |w1| == |w2|
    requires w1[..Kept(w1)] == w2[..Kept(w2)]
    ensures Mask(w1) == Mask(w2)
  {
  }
}
