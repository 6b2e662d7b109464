/** encoding/base32 with the standard alphabet and no padding (section 6 of
    RFC 4648): each group of 5 bytes becomes 8 symbols of 5 bits, most
    significant first; a final partial group is padded with zero bits and
    yields only the symbols that carry input bits. */
module Base32 {

  newtype byte = x: int | 0 <= x < 256

  const Alphabet: string := "ABCDEFGHIJKLMNOPQRSTUVWXYZ234567"

  predicate InAlphabet(c: char) {
    ('A' <= c <= 'Z') || ('2' <= c <= '7')
  }

  /** The last n 5-bit symbols of v, most significant first. */
  function Symbols(v: nat, n: nat): (s: string)
    ensures |s| == n
    ensures forall i :: 0 <= i < |s| ==> InAlphabet(s[i])
  {
    if n == 0 then []
    else
      assert forall k :: 0 <= k < |Alphabet| ==> InAlphabet(Alphabet[k]);
      Symbols(v / 32, n - 1) + [Alphabet[v % 32]]
  }

  /** A group of at most 5 bytes read as a 40-bit big-endian number,
      missing bytes being zero. */
  function GroupValue(g: seq<byte>): nat
    requires |g| <= 5
    decreases 5 - |g|
  {
    if |g| == 5 then
      (((g[0] as nat * 256 + g[1] as nat) * 256 + g[2] as nat) * 256 + g[3] as nat) * 256 + g[4] as nat
    else GroupValue(g + [0])
  }

  /** base32.StdEncoding.WithPadding(base32.NoPadding).EncodeToString. */
  function EncodeNoPadding(b: seq<byte>): (s: string)
    ensures |s| == (8 * |b| + 4) / 5
    ensures forall i :: 0 <= i < |s| ==> InAlphabet(s[i])
  {
    if |b| == 0 then []
    else if |b| >= 5 then Symbols(GroupValue(b[..5]), 8) + EncodeNoPadding(b[5..])
    else Symbols(GroupValue(b), 8)[..(8 * |b| + 4) / 5]
  }
}
