/**
 What the checksum covers and what the strings look like: the human-readable part in the
 checksum, case, the alphabet, and a test vector of BIP-173.
 */
module BechOutcomes {
  import opened Wrappers
  import P = Polymod
  import opened BechChecksum
  import opened BigEndian
  import opened BechString
  import opened Nip19

  // ----- The human-readable part -----

  /** High three bits of every byte, a zero, low five bits of every byte. */
  ghost predicate Halves(b: seq<Byte>, r: seq<nat>) {
    && |r| == 2 * |b| + 1 && r[|b|] == 0
    && forall i {:trigger b[i]} :: 0 <= i < |b| ==> r[i] < 8 && r[|b| + 1 + i] < 32 && b[i] == 32 * r[i] + r[|b| + 1 + i]
  }

  /** Every byte of the prefix goes into the checksum. */
  lemma HrpExpandIs(sc: Script, hrp: string)
    ensures Halves(sc.utf8(hrp), HrpExpand(sc, hrp))
  {
  }

  /** The same high bits everywhere, and the same bytes outside a window of six. */
  ghost predicate Close(b: seq<Byte>, c: seq<Byte>, lo: nat) {
    && |b| == |c| && b != c
    && (forall i :: 0 <= i < |b| ==> b[i] / 32 == c[i] / 32)
    && (forall i :: 0 <= i < |b| && !(lo <= i < lo + 6) ==> b[i] == c[i])
  }

  lemma HalfDiffers(b: seq<Byte>, c: seq<Byte>, r: seq<nat>, q: seq<nat>, i: nat)
    requires Halves(b, r) && Halves(c, q) && |b| == |c| && i < |b| && b[i] / 32 == c[i] / 32
    ensures r[i] == q[i] && (r[|b| + 1 + i] == q[|b| + 1 + i] <==> b[i] == c[i])
  {
  }

  lemma HalvesAlike(b: seq<Byte>, c: seq<Byte>, r: seq<nat>, q: seq<nat>, lo: nat, j: nat)
    requires Halves(b, r) && Halves(c, q) && Close(b, c, lo) && j < |r|
    requires !(|b| + 1 + lo <= j < |b| + 1 + lo + 6)
    ensures |r| == |q| && r[j] == q[j]
  {
    if j < |b| {
      HalfDiffers(b, c, r, q, j);
    } else if j > |b| {
      HalfDiffers(b, c, r, q, j - |b| - 1);
    }
  }

  /** Two close prefixes expand to words that differ in a burst. */
  lemma HalvesBurst(b: seq<Byte>, c: seq<Byte>, r: seq<nat>, q: seq<nat>, lo: nat)
    returns (a: seq<nat>, x: seq<nat>, y: seq<nat>, z: seq<nat>)
    requires Halves(b, r) && Halves(c, q) && Close(b, c, lo)
    ensures r == a + x + z && q == a + y + z && |x| == |y| <= 6 && x != y
  {
    var from := if |b| + 1 + lo <= |r| then |b| + 1 + lo else |r|;
    var to := if from + 6 <= |r| then from + 6 else |r|;
    CutAround(b, c, r, q, lo, from, to);
    a, x, y, z := r[..from], r[from..to], q[from..to], r[to..];
    assert r == a + x + z;
    assert q == q[..from] + y + q[to..];
    if x == y {
      assert r == q;
      var k :| 0 <= k < |b| && b[k] != c[k];
      HalfDiffers(b, c, r, q, k);
    }
  }

  lemma CutAround(b: seq<Byte>, c: seq<Byte>, r: seq<nat>, q: seq<nat>, lo: nat, from: nat, to: nat)
    requires Halves(b, r) && Halves(c, q) && Close(b, c, lo)
    requires from == (if |b| + 1 + lo <= |r| then |b| + 1 + lo else |r|) && to == (if from + 6 <= |r| then from + 6 else |r|)
    ensures |r| == |q| && r[..from] == q[..from] && r[to..] == q[to..]
  {
    forall j | 0 <= j < |r| && !(from <= j < to)
      ensures r[j] == q[j]
    {
      HalvesAlike(b, c, r, q, lo, j);
    }
  }

  /** The same symbols never verify under two close prefixes. */
  lemma PrefixExchangeFails(sc: Script, hrp: string, other: string, lo: nat, data: seq<nat>)
    requires FiveBit(data) && Close(sc.utf8(hrp), sc.utf8(other), lo)
    ensures !(VerifyChecksum(sc, hrp, data) && VerifyChecksum(sc, other, data))
  {
    var r, q := HrpExpand(sc, hrp), HrpExpand(sc, other);
    HrpExpandIs(sc, hrp);
    HrpExpandIs(sc, other);
    var a, x, y, z := HalvesBurst(sc.utf8(hrp), sc.utf8(other), r, q, lo);
    PartsBurstFails(r, q, a, x, y, z, data);
  }

  lemma PartsBurstFails(r: seq<nat>, q: seq<nat>, a: seq<nat>, x: seq<nat>, y: seq<nat>, z: seq<nat>, data: seq<nat>)
    requires FiveBit(r) && FiveBit(q) && FiveBit(data)
    requires r == a + x + z && q == a + y + z && |x| == |y| <= 6 && x != y
    ensures BechString.Polymod(r + data) != BechString.Polymod(q + data)
  {
    FiveParts(r, a, x, z);
    FiveParts(q, a, y, z);
    assert r + data == a + x + (z + data) && q + data == a + y + (z + data);
    WordsBurst(a, x, y, z + data);
  }

  lemma FiveParts(r: seq<nat>, a: seq<nat>, x: seq<nat>, z: seq<nat>)
    requires FiveBit(r) && r == a + x + z
    ensures FiveBit(a) && FiveBit(x) && FiveBit(z)
  {
    forall i | 0 <= i < |a|
      ensures a[i] < 32
    {
      assert a[i] == r[i];
    }
    forall i | 0 <= i < |x|
      ensures x[i] < 32
    {
      assert x[i] == r[|a| + i];
    }
    forall i | 0 <= i < |z|
      ensures z[i] < 32
    {
      assert z[i] == r[|a| + |x| + i];
    }
  }

  lemma WordsBurst(a: seq<nat>, x: seq<nat>, y: seq<nat>, rest: seq<nat>)
    requires FiveBit(a) && FiveBit(x) && FiveBit(y) && FiveBit(rest) && |x| == |y| <= 6 && x != y
    ensures BechString.Polymod(a + x + rest) != BechString.Polymod(a + y + rest)
  {
    WordsConcat(a, x);
    WordsConcat(a + x, rest);
    WordsConcat(a, y);
    WordsConcat(a + y, rest);
    WordsFit(a);
    WordsFit(x);
    WordsFit(y);
    SymbolsOfWords(x);
    SymbolsOfWords(y);
    IsChecksum();
    P.BurstDetected(STEP, XOR, Words(a), Words(x), Words(y), Words(rest));
  }

  /**
   A string that decodes, with its prefix exchanged for another of the same length whose bytes
   keep their high three bits and differ within six adjacent ones, is rejected.
   */
  lemma PrefixExchangeRejected(sc: Script, s: string, t: string, hrp: string, other: string, lo: nat, part: string)
    requires sc.lower(s) == hrp + "1" + part && sc.lower(t) == other + "1" + part && '1' !in part
    requires Close(sc.utf8(hrp), sc.utf8(other), lo)
    requires Decode(sc, s).Some?
    ensures Decode(sc, t) == None
  {
    if Unmixed(sc, t) {
      DecodeAt(sc, s, hrp, part);
      DecodeAt(sc, t, other, part);
      if Lookup(part).Some? {
        PrefixExchangeFails(sc, hrp, other, lo, Lookup(part).value);
      }
    }
  }

  // ----- npub and nsec -----

  predicate PlainPrefixes(sc: Script) {
    sc.utf8("npub") == [110, 112, 117, 98] && sc.utf8("nsec") == [110, 115, 101, 99]
  }

  predicate KeyPrefix(hrp: string) { hrp == "npub" || hrp == "nsec" }

  /** A public key's string with its prefix rewritten is no secret key's, and the other way round. */
  lemma NpubIsNoNsec(sc: Script, key: seq<nat>, hrp: string, other: string, body: string)
    requires PlainAscii(sc) && PlainPrefixes(sc) && Bytes(key) && |key| == 32
    requires KeyPrefix(hrp) && KeyPrefix(other) && hrp != other
    requires Encode32(sc, key, hrp) == Some(hrp + "1" + body)
    ensures Decode32(sc, other + "1" + body, other) == None
  {
    KeyBody(sc, key, hrp, body);
    PrefixesClose(sc, hrp, other);
    KeyPrefixPlain(hrp);
    KeyPrefixPlain(other);
    PrefixLower(hrp, body);
    PrefixLower(other, body);
    EncodedDecodes(sc, hrp, ToSymbols(key));
    PrefixExchangeRejected(sc, hrp + "1" + body, other + "1" + body, hrp, other, 0, body);
  }

  lemma PrefixesClose(sc: Script, hrp: string, other: string)
    requires PlainPrefixes(sc) && KeyPrefix(hrp) && KeyPrefix(other) && hrp != other
    ensures Close(sc.utf8(hrp), sc.utf8(other), 0)
  {
    assert sc.utf8(hrp)[1] != sc.utf8(other)[1];
  }

  lemma KeyPrefixPlain(hrp: string)
    requires KeyPrefix(hrp)
    ensures Ascii(hrp) && Lower(hrp) == hrp && hrp != ""
  {
  }

  /** What follows the separator are rendered symbols. */
  lemma KeyBody(sc: Script, key: seq<nat>, hrp: string, body: string)
    requires Bytes(key) && |key| == 32 && Encode32(sc, key, hrp) == Some(hrp + "1" + body)
    ensures hrp + "1" + body == Encode(sc, hrp, ToSymbols(key))
    ensures Ascii(body) && Lower(body) == body && '1' !in body
  {
    var full := ToSymbols(key) + CreateChecksum(sc, hrp, ToSymbols(key));
    var s := hrp + "1" + body;
    assert s == hrp + "1" + Render(full);
    assert s[|hrp| + 1..] == body && (hrp + "1" + Render(full))[|hrp| + 1..] == Render(full);
    RenderedPlain(full);
  }

  lemma PrefixLower(hrp: string, body: string)
    requires Ascii(hrp) && Lower(hrp) == hrp && Ascii(body) && Lower(body) == body
    ensures Ascii(hrp + "1" + body) && Lower(hrp + "1" + body) == hrp + "1" + body
  {
    LowerConcat(hrp, "1");
    LowerConcat(hrp + "1", body);
    assert Lower("1") == "1";
  }

  // ----- Case and alphabet -----

  predicate UpperLetter(c: char) { 'A' <= c <= 'Z' }

  predicate LowerLetter(c: char) { 'a' <= c <= 'z' }

  /** In ASCII a string is uniform in case exactly if it does not hold both an upper-case and a lower-case letter. */
  lemma UnmixedExactly(sc: Script, s: string)
    requires PlainAscii(sc) && Ascii(s)
    ensures Unmixed(sc, s) <==>
      !(exists i, j :: 0 <= i < |s| && 0 <= j < |s| && UpperLetter(s[i]) && LowerLetter(s[j]))
  {
    assert s == Lower(s) <==> forall i :: 0 <= i < |s| ==> !UpperLetter(s[i]);
    assert s == Upper(s) <==> forall j :: 0 <= j < |s| ==> !LowerLetter(s[j]);
  }

  /** The symbols 0 to 31 in order. */
  lemma Alphabet()
    ensures Render([0, 1, 2, 3, 4, 5, 6, 7, 8, 9, 10, 11, 12, 13, 14, 15]) == "qpzry9x8gf2tvdw0"
    ensures Render([16, 17, 18, 19, 20, 21, 22, 23, 24, 25, 26, 27, 28, 29, 30, 31]) == "s3jn54khce6mua7l"
  {
  }

  // ----- A test vector of BIP-173 -----

  lemma FoldSnoc(values: seq<bv32>, v: bv32)
    ensures P.Fold(STEP, 1, values + [v]) == STEP(P.Fold(STEP, 1, values), v)
  {
    assert (values + [v])[..|values|] == values;
  }

  function Next(chk: bv32, v: bv32): bv32 {
    (((chk & 0x1ff_ffff) << 5) ^ v) ^ Picked(chk >> 25, 5)
  }

  lemma StepIsNext(chk: bv32, v: bv32)
    ensures STEP(chk, v) == Next(chk, v)
  {
    StepIs(chk, v);
  }

  /** The register moves on with each symbol. */
  lemma Register(values: seq<bv32>, v: bv32)
    ensures P.Fold(STEP, 1, values + [v]) == Next(P.Fold(STEP, 1, values), v)
  {
    FoldSnoc(values, v);
    StepIsNext(P.Fold(STEP, 1, values), v);
  }

  /** Nine steps for the vector. */
  lemma VectorSteps()
    ensures Next(1, 3) == 0x23 && Next(0x23, 0) == 0x460 && Next(0x460, 1) == 0x8c01
    ensures Next(0x8c01, 10) == 0x11_802a && Next(0x11_802a, 28) == 0x230_055c
    ensures Next(0x230_055c, 25) == 0x3d6a_fc2b && Next(0x3d6a_fc2b, 31) == 0x2f8_4386
    ensures Next(0x2f8_4386, 20) == 0x2462_2766 && Next(0x2462_2766, 31) == 1
  {
    PickedIsSum(0);
    PickedIsSum(1);
    PickedIsSum(0x1e);
    PickedIsSum(0x12);
  }

  lemma VectorFold()
    ensures P.Fold(STEP, 1, [] + [3] + [0] + [1] + [10] + [28] + [25] + [31] + [20] + [31]) == 1
  {
    VectorSteps();
    var v5: seq<bv32> := [] + [3] + [0] + [1] + [10] + [28];
    Register([], 3);
    Register([] + [3], 0);
    Register([] + [3] + [0], 1);
    Register([] + [3] + [0] + [1], 10);
    Register([] + [3] + [0] + [1] + [10], 28);
    Register(v5, 25);
    Register(v5 + [25], 31);
    Register(v5 + [25] + [31], 20);
    Register(v5 + [25] + [31] + [20], 31);
  }

  lemma VectorWords()
    ensures Words([3, 0, 1] + [10, 28, 25, 31, 20, 31])
      == [] + [3] + [0] + [1] + [10] + [28] + [25] + [31] + [20] + [31]
  {
  }

  lemma VectorHrp(sc: Script)
    requires sc.utf8("a") == [97]
    ensures HrpExpand(sc, "a") == [3, 0, 1]
  {
  }

  lemma VectorVerifies(sc: Script)
    requires sc.utf8("a") == [97]
    ensures VerifyChecksum(sc, "a", [10, 28, 25, 31, 20, 31])
  {
    VectorHrp(sc);
    VectorFold();
    VectorWords();
  }

  lemma VectorRendered()
    ensures Render([10, 28, 25, 31, 20, 31]) == "2uel5l" && "a" + "1" + "2uel5l" == "a12uel5l"
  {
  }

  /** The empty data part under the prefix "a", as BIP-173 lists it ("Test vectors"). */
  lemma VectorEncodes(sc: Script)
    requires sc.utf8("a") == [97]
    ensures Encode(sc, "a", []) == "a12uel5l"
  {
    var check: seq<nat> := [10, 28, 25, 31, 20, 31];
    VectorVerifies(sc);
    VectorRendered();
    assert [] + check == check;
    ChecksumVerifies(sc, "a", [], check);
  }

  lemma VectorCases()
    ensures Lower("A12UEL5L") == "a12uel5l" && Upper("A12UEL5L") == "A12UEL5L" && Lower("a12uel5l") == "a12uel5l"
    ensures Ascii("A12UEL5L") && Ascii("a12uel5l") && Ascii("A12uEL5L")
    ensures Lower("A12uEL5L") != "A12uEL5L" && Upper("A12uEL5L") != "A12uEL5L"
  {
    assert Lower("A12uEL5L")[0] == 'a' && Upper("A12uEL5L")[3] == 'U';
  }

  /** It decodes in either case, and not in a mixture. */
  lemma VectorDecodes(sc: Script)
    requires PlainAscii(sc) && sc.utf8("a") == [97]
    ensures Decode(sc, "a12uel5l") == Some(("a", [])) && Decode(sc, "A12UEL5L") == Some(("a", []))
    ensures Decode(sc, "A12uEL5L") == None
  {
    VectorCases();
    VectorEncodes(sc);
    DecodesExactly(sc, "a12uel5l", "a", []);
    DecodesExactly(sc, "A12UEL5L", "a", []);
  }
}
