/** `initialize_to_zeros` of c_implementation/utils.c. */
module Utils {

  /** `s` with its first `size` entries set to zero and the rest kept. */
  function ZeroedPrefix(s: seq<real>, size: nat): (r: seq<real>)
    requires size <= |s|
  {
    seq(|s|, i requires 0 <= i < |s| => if i < size then 0.0 else s[i])
  }

  /** Writes 0.0 into the first `size` entries of `vector`, in place. */
  method InitializeToZeros(vector: array<real>, size: int)
    requires 0 <= size <= vector.Length
    modifies vector
    ensures vector[..] == ZeroedPrefix(old(vector[..]), size)
  {
    var i := 0;
    while i < size
      invariant 0 <= i <= size
      invariant forall k :: 0 <= k < i ==> vector[k] == 0.0
      invariant forall k :: i <= k < vector.Length ==> vector[k] == old(vector[k])
    {
      vector[i] := 0.0;
      i := i + 1;
    }
  }

  /** The zeroed prefix reads zero, the remainder is untouched, and size 0 changes nothing. */
  lemma ZeroedPrefixContents(s: seq<real>, size: nat)
    requires size <= |s|
    ensures |ZeroedPrefix(s, size)| == |s|
    ensures forall i :: 0 <= i < size ==> ZeroedPrefix(s, size)[i] == 0.0
    ensures forall i :: size <= i < |s| ==> ZeroedPrefix(s, size)[i] == s[i]
    ensures size == 0 ==> ZeroedPrefix(s, size) == s
  {
  }

  /** Zeroing twice is the same as zeroing once. */
  lemma ZeroedPrefixIdempotent(s: seq<real>, size: nat)
    requires size <= |s|
    ensures ZeroedPrefix(ZeroedPrefix(s, size), size) == ZeroedPrefix(s, size)
  {
  }
}
