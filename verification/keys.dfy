/** The Encryptor's key buffer: 16 `char`s, the first 15 drawn from the
    64 characters ' ' .. '_' and the last a NUL terminator. */
module Keys {

  newtype byte = x: int | 0 <= x < 256

  /** Characters of key material, and the size of the allocated buffer. */
  const KeyLength: nat := 15
  const KeyBufferSize: nat := 16

  /** The key alphabet: `rand() % 64 + ' '`. */
  const FirstKeyChar: int := 32
  const KeyAlphabetSize: int := 64

  /** The key buffer owned by an Encryptor: allocated and filled at
      construction, released by `clearKey`. */
  datatype Key = Present(buffer: seq<byte>) | Cleared

  /** The key character made from one non-negative `rand()` output.
      For non-negative operands C++ `%` and Dafny `%` agree. */
  function KeyChar(r: nat): (b: byte)
    ensures FirstKeyChar <= b as int < FirstKeyChar + KeyAlphabetSize
    ensures b as int - FirstKeyChar == r % KeyAlphabetSize
  {
    (r % KeyAlphabetSize + FirstKeyChar) as byte
  }

  /** The buffer the constructor fills, the i-th `rand()` output giving the
      i-th character. */
  function GenerateKey(draws: seq<nat>): (key: seq<byte>)
    requires |draws| >= KeyLength
    ensures |key| == KeyBufferSize
    ensures forall i :: 0 <= i < KeyLength ==> key[i] == KeyChar(draws[i])
    ensures key[KeyLength] == 0
  {
    seq(KeyBufferSize, i requires 0 <= i < KeyBufferSize =>
      if i < KeyLength then KeyChar(draws[i]) else 0)
  }

  /** Every key character is printable ASCII, space through underscore. */
  lemma GeneratedKeyPrintable(draws: seq<nat>)
    requires |draws| >= KeyLength
    ensures forall i :: 0 <= i < KeyLength ==> 32 <= GenerateKey(draws)[i] <= 95
  {
  }

  /** Two keys agree exactly when the draws agree modulo the alphabet size:
      distinct keys come only from the random source, nothing else. */
  lemma SameKeyIff(d1: seq<nat>, d2: seq<nat>)
    requires |d1| >= KeyLength && |d2| >= KeyLength
    ensures GenerateKey(d1) == GenerateKey(d2)
        <==> forall i :: 0 <= i < KeyLength ==> d1[i] % KeyAlphabetSize == d2[i] % KeyAlphabetSize
  {
  }

  /** What `operator<<` writes for a `char*`: the bytes before the first NUL
      (the whole buffer if there is none). */
  function CString(buffer: seq<byte>): (text: seq<byte>)
    ensures text <= buffer
    ensures forall k :: 0 <= k < |text| ==> text[k] != 0
    ensures |text| < |buffer| ==> buffer[|text|] == 0
  {
    if |buffer| == 0 || buffer[0] == 0 then [] else [buffer[0]] + CString(buffer[1..])
  }

  /** A NUL-free prefix followed by a NUL (or the end) is what gets written. */
  lemma CStringOfTerminated(buffer: seq<byte>, n: nat)
    requires n <= |buffer|
    requires forall k :: 0 <= k < n ==> buffer[k] != 0
    requires n < |buffer| ==> buffer[n] == 0
    ensures CString(buffer) == buffer[..n]
  {
  }

  /** A generated key prints as exactly its 15 key characters. */
  lemma KeyTextIsKeyMaterial(draws: seq<nat>)
    requires |draws| >= KeyLength
    ensures CString(GenerateKey(draws)) == GenerateKey(draws)[..KeyLength]
    ensures |CString(GenerateKey(draws))| == KeyLength
  {
  }
}
