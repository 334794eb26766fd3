/** The npub and nsec key strings (Core/Nostr/Bech32.swift, `NIP19`). */
module Nip19 {
  import opened Wrappers
  import Bits
  import opened BigEndian
  import Bech32
  import opened BechString

  lemma PowersOfTwo()
    ensures Bits.Pow2(5) == 32 && Bits.Pow2(8) == 256
  {
    assert Bits.Pow2(2) == 4 && Bits.Pow2(4) == 16 && Bits.Pow2(6) == 64;
  }

  lemma BytesFit(key: seq<nat>)
    ensures Bytes(key) <==> Bits.Fits(key, 8)
    ensures FiveBit(key) <==> Bits.Fits(key, 5)
  {
    PowersOfTwo();
  }

  function ToSymbols(key: seq<nat>): (r: seq<nat>)
    requires Bytes(key)
    ensures FiveBit(r)
  {
    BytesFit(key);
    Bech32.BytesRoundTrip(key);
    BytesFit(Bech32.Regroup(key, 8, 5, true).value);
    Bech32.Regroup(key, 8, 5, true).value
  }

  function Encode32(sc: Script, key: seq<nat>, hrp: string): (r: Option<string>)
    requires Bytes(key)
  {
    if |key| != 32 then None else Some(Encode(sc, hrp, ToSymbols(key)))
  }

  function Decode32(sc: Script, s: string, expected: string): (r: Option<seq<nat>>)
    ensures r.Some? ==> |r.value| == 32
  {
    var d := Decode(sc, s);
    if d.None? || d.value.0 != expected then None
    else
      var bytes := Bech32.Regroup(d.value.1, 5, 8, false);
      if bytes.None? || |bytes.value| != 32 then None else bytes
  }

  /** Every 32-byte key survives the trip under any nonempty lower-case prefix. */
  lemma KeyRoundTrip(sc: Script, key: seq<nat>, hrp: string)
    requires PlainAscii(sc) && Bytes(key) && |key| == 32 && Ascii(hrp) && hrp != "" && Lower(hrp) == hrp
    ensures Decode32(sc, Encode32(sc, key, hrp).value, hrp) == Some(key)
  {
    BytesFit(key);
    Bech32.BytesRoundTrip(key);
    EncodedDecodes(sc, hrp, ToSymbols(key));
  }

  /** In any script: a string yields a key exactly when it is uniform in case and its lower case is that key's string. */
  lemma KeyStringsCanonical(sc: Script, s: string, hrp: string, key: seq<nat>)
    requires Bytes(key)
    ensures Decode32(sc, s, hrp) == Some(key) <==>
      Unmixed(sc, s) && hrp != "" && Encode32(sc, key, hrp) == Some(sc.lower(s))
  {
    BytesFit(key);
    Bech32.BytesRoundTrip(key);
    DecodesExactly(sc, s, hrp, ToSymbols(key));
    if Decode32(sc, s, hrp) == Some(key) {
      Bech32.SymbolsRoundTrip(Decode(sc, s).value.1);
    }
  }

  /** Another prefix never yields the key: an npub is not an nsec. */
  lemma PrefixesDisjoint(sc: Script, key: seq<nat>, hrp: string, other: string)
    requires PlainAscii(sc) && Bytes(key) && |key| == 32 && Ascii(hrp) && hrp != "" && hrp != other
    ensures Lower(hrp) == hrp ==> Decode32(sc, Encode32(sc, key, hrp).value, other) == None
  {
    EncodedDecodes(sc, hrp, ToSymbols(key));
  }
}
