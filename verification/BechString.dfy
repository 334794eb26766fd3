/**
 Bech32 strings (Core/Nostr/Bech32.swift): a human-readable part, the separator, data
 symbols and six checksum symbols. A `char` stands for one character of the source's
 strings; how characters outside ASCII change case or encode is left to a `Script`.
 */
module BechString {
  import opened Wrappers
  import P = Polymod
  import opened BechChecksum

  const CHARSET: string := "qpzry9x8gf2tvdw0s3jn54khce6mua7l"

  type Byte = b: nat | b < 256

  /** Lower and upper case and the UTF-8 bytes of a string. */
  datatype Script = Script(lower: string -> string, upper: string -> string, utf8: string -> seq<Byte>)

  predicate Ascii(s: string) {
    forall i :: 0 <= i < |s| ==> s[i] < 128 as char
  }

  predicate FiveBit(data: seq<nat>) {
    forall i :: 0 <= i < |data| ==> data[i] < 32
  }

  // ----- Symbols as register words -----

  /** `UInt32(v)` for a 5-bit value. */
  function Word(v: nat): bv32
    requires v < 32
  {
    (if v / 16 % 2 == 1 then 16 else 0) | (if v / 8 % 2 == 1 then 8 else 0)
    | (if v / 4 % 2 == 1 then 4 else 0) | (if v / 2 % 2 == 1 then 2 else 0)
    | (if v % 2 == 1 then 1 else 0)
  }

  /** `UInt8(b & 31)`. */
  function Symbol(b: bv32): (v: nat)
    ensures v < 32
  {
    (if b & 16 != 0 then 16 else 0) + (if b & 8 != 0 then 8 else 0)
    + (if b & 4 != 0 then 4 else 0) + (if b & 2 != 0 then 2 else 0)
    + (if b & 1 != 0 then 1 else 0)
  }

  lemma WordFits(v: nat)
    requires v < 32
    ensures Word(v) < 32
  {
  }

  lemma SymbolOfWord(v: nat)
    requires v < 32
    ensures Symbol(Word(v)) == v
  {
  }

  lemma WordOfSymbol(b: bv32)
    requires b < 32
    ensures Word(Symbol(b)) == b
  {
  }

  function Words(data: seq<nat>): (r: seq<bv32>)
    requires FiveBit(data)
    ensures |r| == |data|
  {
    seq(|data|, i requires 0 <= i < |data| => Word(data[i]))
  }

  function Symbols(words: seq<bv32>): (r: seq<nat>)
    ensures |r| == |words| && FiveBit(r)
  {
    seq(|words|, i requires 0 <= i < |words| => Symbol(words[i]))
  }

  lemma WordsFit(data: seq<nat>)
    requires FiveBit(data)
    ensures P.Symbols(Words(data))
  {
    forall i | 0 <= i < |data|
      ensures Words(data)[i] < 32
    {
      WordFits(data[i]);
    }
  }

  lemma SymbolsOfWords(data: seq<nat>)
    requires FiveBit(data)
    ensures Symbols(Words(data)) == data
  {
    forall i | 0 <= i < |data|
      ensures Symbols(Words(data))[i] == data[i]
    {
      SymbolOfWord(data[i]);
    }
  }

  lemma WordsOfSymbols(words: seq<bv32>)
    requires P.Symbols(words)
    ensures Words(Symbols(words)) == words
  {
    forall i | 0 <= i < |words|
      ensures Words(Symbols(words))[i] == words[i]
    {
      WordOfSymbol(words[i]);
    }
  }

  lemma WordsConcat(a: seq<nat>, b: seq<nat>)
    requires FiveBit(a) && FiveBit(b)
    ensures FiveBit(a + b) && Words(a + b) == Words(a) + Words(b)
  {
  }

  // ----- The checksum of a string -----

  function Polymod(data: seq<nat>): bv32
    requires FiveBit(data)
  {
    P.Fold(STEP, 1, Words(data))
  }

  /** High three bits of every byte, a zero, low five bits of every byte. */
  function HrpExpand(sc: Script, hrp: string): (r: seq<nat>)
    ensures FiveBit(r)
  {
    var b := sc.utf8(hrp);
    seq(|b|, i requires 0 <= i < |b| => b[i] / 32) + [0] + seq(|b|, i requires 0 <= i < |b| => b[i] % 32)
  }

  predicate VerifyChecksum(sc: Script, hrp: string, data: seq<nat>)
    requires FiveBit(data)
  {
    Polymod(HrpExpand(sc, hrp) + data) == 1
  }

  function CreateChecksum(sc: Script, hrp: string, data: seq<nat>): (r: seq<nat>)
    requires FiveBit(data)
    ensures |r| == 6 && FiveBit(r)
  {
    Symbols(P.Unpack(XOR(Polymod(HrpExpand(sc, hrp) + data + [0, 0, 0, 0, 0, 0]), 1)))
  }

  /** Six symbols verify after the data exactly when they are the computed ones. */
  lemma ChecksumVerifies(sc: Script, hrp: string, data: seq<nat>, check: seq<nat>)
    requires FiveBit(data) && FiveBit(check) && |check| == 6
    ensures VerifyChecksum(sc, hrp, data + check) <==> check == CreateChecksum(sc, hrp, data)
  {
    var zeros := [0, 0, 0, 0, 0, 0];
    var prefix := HrpExpand(sc, hrp) + data;
    WordsConcat(prefix, check);
    WordsConcat(prefix, zeros);
    assert HrpExpand(sc, hrp) + (data + check) == prefix + check;
    assert Words(zeros) == P.Zeros(6);
    WordsFit(prefix);
    WordsFit(check);
    IsChecksum();
    P.ChecksumUnique(STEP, XOR, Words(prefix), Words(check));
    SymbolsOfWords(check);
    WordsOfSymbols(P.Unpack(XOR(Polymod(prefix + zeros), 1)));
  }

  /** Two data parts that differ only within six adjacent symbols never both verify. */
  lemma BurstFailsChecksum(sc: Script, hrp: string, a: seq<nat>, x: seq<nat>, y: seq<nat>, b: seq<nat>)
    requires FiveBit(a) && FiveBit(x) && FiveBit(y) && FiveBit(b)
    requires |x| == |y| <= 6 && x != y
    ensures !(VerifyChecksum(sc, hrp, a + x + b) && VerifyChecksum(sc, hrp, a + y + b))
  {
    var prefix := HrpExpand(sc, hrp) + a;
    assert HrpExpand(sc, hrp) + (a + x + b) == prefix + x + b;
    assert HrpExpand(sc, hrp) + (a + y + b) == prefix + y + b;
    WordsConcat(prefix, x);
    WordsConcat(prefix + x, b);
    WordsConcat(prefix, y);
    WordsConcat(prefix + y, b);
    WordsFit(prefix);
    WordsFit(x);
    WordsFit(y);
    SymbolsOfWords(x);
    SymbolsOfWords(y);
    IsChecksum();
    P.BurstDetected(STEP, XOR, Words(prefix), Words(x), Words(y), Words(b));
  }

  // ----- Case -----

  function LowerChar(c: char): char {
    if 'A' <= c <= 'Z' then c + 32 as char else c
  }

  function UpperChar(c: char): char {
    if 'a' <= c <= 'z' then c - 32 as char else c
  }

  function Lower(s: string): (r: string)
    ensures |r| == |s|
  {
    seq(|s|, i requires 0 <= i < |s| => LowerChar(s[i]))
  }

  function Upper(s: string): (r: string)
    ensures |r| == |s|
  {
    seq(|s|, i requires 0 <= i < |s| => UpperChar(s[i]))
  }

  /** On ASCII the script changes the case of the letters and nothing else. */
  ghost predicate PlainAscii(sc: Script) {
    forall s: string :: Ascii(s) ==> sc.lower(s) == Lower(s) && sc.upper(s) == Upper(s)
  }

  predicate Unmixed(sc: Script, s: string) {
    s == sc.lower(s) || s == sc.upper(s)
  }

  // ----- Strings -----

  function Render(data: seq<nat>): (r: string)
    requires FiveBit(data)
    ensures |r| == |data|
  {
    seq(|data|, i requires 0 <= i < |data| => CHARSET[data[i]])
  }

  /** `charset.firstIndex(of:)`, searching from position `from`. */
  function IndexFrom(c: char, from: nat): (r: Option<nat>)
    requires from <= 32
    ensures r.Some? ==> r.value < 32 && CHARSET[r.value] == c
    decreases 32 - from
  {
    if from == 32 then None
    else if CHARSET[from] == c then Some(from)
    else IndexFrom(c, from + 1)
  }

  function Lookup(s: string): (r: Option<seq<nat>>)
    ensures r.Some? ==> |r.value| == |s| && FiveBit(r.value)
  {
    if s == "" then Some([])
    else
      var rest := Lookup(s[..|s| - 1]);
      var last := IndexFrom(s[|s| - 1], 0);
      if rest.None? || last.None? then None else Some(rest.value + [last.value])
  }

  function LastIndex(s: string, c: char): (r: Option<nat>)
    ensures r.Some? ==> r.value < |s| && s[r.value] == c && c !in s[r.value + 1..]
    ensures r.None? ==> c !in s
  {
    if s == "" then None
    else if s[|s| - 1] == c then Some(|s| - 1)
    else LastIndex(s[..|s| - 1], c)
  }

  function Encode(sc: Script, hrp: string, data: seq<nat>): (r: string)
    requires FiveBit(data)
  {
    hrp + "1" + Render(data + CreateChecksum(sc, hrp, data))
  }

  function Decode(sc: Script, str: string): (r: Option<(string, seq<nat>)>)
    ensures r.Some? ==> FiveBit(r.value.1)
  {
    if !Unmixed(sc, str) then None
    else
      var s := sc.lower(str);
      var sep := LastIndex(s, '1');
      if sep.None? then None else DecodeParts(sc, s[..sep.value], s[sep.value + 1..])
  }

  function DecodeParts(sc: Script, hrp: string, part: string): (r: Option<(string, seq<nat>)>)
    ensures r.Some? ==> r.value.0 == hrp && FiveBit(r.value.1)
  {
    if hrp == "" || |part| < 6 then None
    else
      var data := Lookup(part);
      if data.None? || !VerifyChecksum(sc, hrp, data.value) then None
      else Some((hrp, data.value[..|data.value| - 6]))
  }

  // ----- The alphabet -----

  function Rank(c: char): nat {
    match c
    case 'q' => 0 case 'p' => 1 case 'z' => 2 case 'r' => 3
    case 'y' => 4 case '9' => 5 case 'x' => 6 case '8' => 7
    case 'g' => 8 case 'f' => 9 case '2' => 10 case 't' => 11
    case 'v' => 12 case 'd' => 13 case 'w' => 14 case '0' => 15
    case 's' => 16 case '3' => 17 case 'j' => 18 case 'n' => 19
    case '5' => 20 case '4' => 21 case 'k' => 22 case 'h' => 23
    case 'c' => 24 case 'e' => 25 case '6' => 26 case 'm' => 27
    case 'u' => 28 case 'a' => 29 case '7' => 30 case _ => 31
  }

  lemma CharsetRanked(v: nat)
    requires v < 32
    ensures Rank(CHARSET[v]) == v
  {
  }

  lemma CharsetPlain(v: nat)
    requires v < 32
    ensures LowerChar(CHARSET[v]) == CHARSET[v] != '1' && CHARSET[v] < 128 as char
  {
  }

  lemma {:induction false} IndexFinds(v: nat, from: nat)
    requires from <= v < 32
    ensures IndexFrom(CHARSET[v], from) == Some(v)
    decreases v - from
  {
    CharsetRanked(v);
    CharsetRanked(from);
    if from < v {
      IndexFinds(v, from + 1);
    }
  }

  lemma RenderSnoc(data: seq<nat>, v: nat)
    requires FiveBit(data) && v < 32
    ensures FiveBit(data + [v]) && Render(data + [v]) == Render(data) + [CHARSET[v]]
  {
  }

  /** Looking symbols up undoes writing them, and succeeds on nothing else. */
  lemma {:induction false} LookupRendered(s: string, data: seq<nat>)
    requires FiveBit(data)
    ensures Lookup(s) == Some(data) <==> s == Render(data)
  {
    if s == "" || data == [] {
      assert Render([]) == "";
    } else {
      var n, m := |s| - 1, |data| - 1;
      var front, last := data[..m], data[m];
      LookupRendered(s[..n], front);
      assert data == front + [last];
      RenderSnoc(front, last);
      IndexFinds(last, 0);
      assert s == s[..n] + [s[n]];
      if Lookup(s) == Some(data) {
        assert Lookup(s[..n]).value == front;
      }
      if s == Render(data) {
        assert s[..n] == Render(front);
      }
    }
  }

  lemma RenderedPlain(data: seq<nat>)
    requires FiveBit(data)
    ensures Ascii(Render(data)) && Lower(Render(data)) == Render(data) && '1' !in Render(data)
  {
    forall i | 0 <= i < |data|
      ensures LowerChar(Render(data)[i]) == Render(data)[i] != '1' && Render(data)[i] < 128 as char
    {
      CharsetPlain(data[i]);
    }
  }

  lemma {:induction false} LastIndexIs(a: string, b: string)
    requires '1' !in b
    ensures LastIndex(a + "1" + b, '1') == Some(|a|)
  {
    var s := a + "1" + b;
    var r := LastIndex(s, '1');
    assert s[|a|] == '1';
    assert forall i :: |a| < i < |s| ==> s[i] == b[i - |a| - 1];
  }

  // ----- Strings decode to exactly what encodes to them -----

  lemma VerifiedIsEncoded(sc: Script, hrp: string, part: string, full: seq<nat>)
    requires FiveBit(full) && |full| >= 6
    requires Lookup(part) == Some(full) && VerifyChecksum(sc, hrp, full)
    ensures hrp + "1" + part == Encode(sc, hrp, full[..|full| - 6])
  {
    LookupRendered(part, full);
    var n := |full| - 6;
    var data: seq<nat>, check: seq<nat> := full[..n], full[n..];
    assert forall i :: 0 <= i < |data| ==> data[i] == full[i];
    assert forall i :: 0 <= i < |check| ==> check[i] == full[n + i];
    assert full == data + check;
    ChecksumVerifies(sc, hrp, data, check);
  }

  lemma PartsDecoded(sc: Script, hrp: string, part: string)
    requires DecodeParts(sc, hrp, part).Some?
    ensures hrp != "" && hrp + "1" + part == Encode(sc, hrp, DecodeParts(sc, hrp, part).value.1)
  {
    VerifiedIsEncoded(sc, hrp, part, Lookup(part).value);
  }

  lemma PartsJoined(sc: Script, hrp: string, data: seq<nat>)
    requires FiveBit(data) && hrp != ""
    ensures DecodeParts(sc, hrp, Render(data + CreateChecksum(sc, hrp, data))) == Some((hrp, data))
  {
    var check := CreateChecksum(sc, hrp, data);
    var full := data + check;
    LookupRendered(Render(full), full);
    ChecksumVerifies(sc, hrp, data, check);
    assert full[..|full| - 6] == data;
  }

  lemma SplitDecoded(sc: Script, s: string, hrp: string, data: seq<nat>)
    requires Decode(sc, s) == Some((hrp, data))
    ensures Unmixed(sc, s) && hrp != "" && sc.lower(s) == Encode(sc, hrp, data)
  {
    var low := sc.lower(s);
    var sep := LastIndex(low, '1').value;
    var part := low[sep + 1..];
    PartsDecoded(sc, low[..sep], part);
    AroundSeparator(low, sep);
  }

  lemma AroundSeparator(s: string, i: nat)
    requires i < |s| && s[i] == '1'
    ensures s == s[..i] + "1" + s[i + 1..]
  {
  }

  lemma SplitsAt(hrp: string, part: string)
    requires '1' !in part
    ensures var s := hrp + "1" + part;
      LastIndex(s, '1') == Some(|hrp|) && s[..|hrp|] == hrp && s[|hrp| + 1..] == part
  {
    LastIndexIs(hrp, part);
  }

  /** Decoding a string that is uniform in case is decoding what surrounds its last separator. */
  lemma DecodeAt(sc: Script, s: string, hrp: string, part: string)
    requires Unmixed(sc, s) && sc.lower(s) == hrp + "1" + part && '1' !in part
    ensures Decode(sc, s) == DecodeParts(sc, hrp, part)
  {
    SplitsAt(hrp, part);
  }

  lemma JoinDecodes(sc: Script, s: string, hrp: string, data: seq<nat>)
    requires FiveBit(data)
    requires Unmixed(sc, s) && hrp != "" && sc.lower(s) == Encode(sc, hrp, data)
    ensures Decode(sc, s) == Some((hrp, data))
  {
    var full := data + CreateChecksum(sc, hrp, data);
    RenderedPlain(full);
    DecodeAt(sc, s, hrp, Render(full));
    PartsJoined(sc, hrp, data);
  }

  lemma LowerConcat(a: string, b: string)
    ensures Lower(a + b) == Lower(a) + Lower(b)
  {
  }

  /** In any script: decoding undoes encoding exactly if the string is its own lower case. */
  lemma EncodedFixed(sc: Script, hrp: string, data: seq<nat>)
    requires FiveBit(data)
    ensures Decode(sc, Encode(sc, hrp, data)) == Some((hrp, data)) <==>
      hrp != "" && sc.lower(Encode(sc, hrp, data)) == Encode(sc, hrp, data)
  {
    DecodesExactly(sc, Encode(sc, hrp, data), hrp, data);
  }

  /** In ASCII: exactly for a nonempty human-readable part in lower case. */
  lemma EncodedDecodes(sc: Script, hrp: string, data: seq<nat>)
    requires PlainAscii(sc) && Ascii(hrp) && FiveBit(data)
    ensures Ascii(Encode(sc, hrp, data))
    ensures Decode(sc, Encode(sc, hrp, data)) == Some((hrp, data)) <==> hrp != "" && Lower(hrp) == hrp
  {
    var full := data + CreateChecksum(sc, hrp, data);
    var body := Render(full);
    var s := Encode(sc, hrp, data);
    RenderedPlain(full);
    LowerConcat(hrp, "1");
    LowerConcat(hrp + "1", body);
    assert Lower("1") == "1";
    assert Ascii(s);
    assert Lower(s) == Lower(hrp) + "1" + body;
    assert Lower(s)[..|hrp|] == Lower(hrp) && s[..|hrp|] == hrp;
    EncodedFixed(sc, hrp, data);
  }

  /** A string is accepted exactly when it is uniform in case and its lower case is an encoding. */
  lemma DecodesExactly(sc: Script, s: string, hrp: string, data: seq<nat>)
    requires FiveBit(data)
    ensures Decode(sc, s) == Some((hrp, data)) <==> Unmixed(sc, s) && hrp != "" && sc.lower(s) == Encode(sc, hrp, data)
  {
    if Decode(sc, s) == Some((hrp, data)) {
      SplitDecoded(sc, s, hrp, data);
    }
    if Unmixed(sc, s) && hrp != "" && sc.lower(s) == Encode(sc, hrp, data) {
      JoinDecodes(sc, s, hrp, data);
    }
  }

  // ----- Damage -----

  lemma {:induction false} LookupParts(a: string, b: string)
    requires Lookup(a + b).Some?
    ensures Lookup(a).Some? && Lookup(b).Some? && Lookup(a + b).value == Lookup(a).value + Lookup(b).value
  {
    if b == "" {
      assert a + b == a;
    } else {
      assert (a + b)[..|a + b| - 1] == a + b[..|b| - 1];
      LookupParts(a, b[..|b| - 1]);
    }
  }

  /**
   An accepted string in which up to six adjacent characters after the separator are
   replaced, none by the separator and not only in case, is rejected at any length.
   */
  lemma BurstRejected(sc: Script, s: string, t: string, hrp: string, a: string, x: string, y: string, b: string)
    requires sc.lower(s) == hrp + "1" + (a + x + b) && sc.lower(t) == hrp + "1" + (a + y + b)
    requires '1' !in a && '1' !in x && '1' !in y && '1' !in b
    requires |x| == |y| <= 6 && x != y
    requires Decode(sc, s).Some?
    ensures Decode(sc, t) == None
  {
    if Unmixed(sc, t) {
      DecodeAt(sc, s, hrp, a + x + b);
      DecodeAt(sc, t, hrp, a + y + b);
      PartsBurst(sc, hrp, a, x, y, b);
    }
  }

  lemma PartsBurst(sc: Script, hrp: string, a: string, x: string, y: string, b: string)
    requires |x| == |y| <= 6 && x != y
    ensures DecodeParts(sc, hrp, a + x + b).None? || DecodeParts(sc, hrp, a + y + b).None?
  {
    if Lookup(a + x + b).Some? && Lookup(a + y + b).Some? {
      LookupParts(a + x, b);
      LookupParts(a, x);
      LookupParts(a + y, b);
      LookupParts(a, y);
      var lx, ly := Lookup(x).value, Lookup(y).value;
      LookupRendered(x, lx);
      LookupRendered(y, ly);
      assert lx != ly;
      BurstFailsChecksum(sc, hrp, Lookup(a).value, lx, ly, Lookup(b).value);
    }
  }
}
