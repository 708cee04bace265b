/** The symbol hash of declare-dt-relr.py against the hash of the System V gABI,
    chapter 5, which a 64-bit loader computes in an unsigned long and cuts at the end. */
module ElfHash {
  // Characters are one word each; a name's bytes are the values below 256.

  function Shift32(h: bv32, c: bv32): bv32 {
    (h << 4) + c
  }

  /** Fold the top nibble back in and clear it, as the tool does. */
  function Fold32(h: bv32): bv32 {
    var g := h & 0xf000_0000;
    (h ^ (g >> 24)) & !g
  }

  function HashFrom(h: bv32, name: seq<bv32>): bv32
    decreases |name|
  {
    if name == [] then h else HashFrom(Fold32(Shift32(h, name[0])), name[1..])
  }

  method FoldStep(h0: bv32, c: bv32) returns (h: bv32)
    ensures h == Fold32(Shift32(h0, c))
  {
    h := (h0 << 4) + c;
    var g := h & 0xf000_0000;
    h := h ^ (g >> 24);
    h := h & !g;
  }

  /** elf_hash. */
  method ElfHashOf(name: seq<bv32>) returns (h: bv32)
    ensures h == HashFrom(0, name)
  {
    hide Fold32, Shift32;
    h := 0;
    assert name[0..] == name;
    var i := 0;
    while i < |name|
      invariant 0 <= i <= |name|
      invariant HashFrom(h, name[i..]) == HashFrom(0, name)
    {
      assert name[i..][1..] == name[i + 1..];
      h := FoldStep(h, name[i]);
      i := i + 1;
    }
  }

  function Shift64(h: bv64, c: bv32): bv64 {
    (h << 4) + c as bv64
  }

  /** The gABI's fold on an unsigned long: nothing is cut off, and the fold is skipped
      when the top nibble of the low word is clear. */
  function Fold64(h: bv64): bv64 {
    var g := h & 0xf000_0000;
    (if g != 0 then h ^ (g >> 24) else h) & !g
  }

  function GabiFrom(h: bv64, name: seq<bv32>): bv64
    decreases |name|
  {
    if name == [] then h else GabiFrom(Fold64(Shift64(h, name[0])), name[1..])
  }

  /** h and k agree on their low 32 bits. */
  predicate SameLow(h: bv64, k: bv32) {
    h & 0xffff_ffff == k as bv64
  }

  lemma {:induction false} ShiftLowWord(h: bv64, k: bv32, c: bv32)
    requires h & 0xffff_ffff == k as bv64
    ensures ((h << 4) + c as bv64) & 0xffff_ffff == ((k << 4) + c) as bv64
  {
  }

  lemma {:induction false} ShiftedLow(h: bv64, k: bv32, c: bv32)
    requires SameLow(h, k)
    ensures SameLow((h << 4) + c as bv64, (k << 4) + c)
  {
    ShiftLowWord(h, k, c);
  }

  lemma {:induction false} ShiftsAre(h: bv64, k: bv32, c: bv32)
    requires SameLow((h << 4) + c as bv64, (k << 4) + c)
    ensures SameLow(Shift64(h, c), Shift32(k, c))
  {
    hide SameLow;
  }

  lemma {:induction false} ShiftSameLow(h: bv64, k: bv32, c: bv32)
    requires SameLow(h, k)
    ensures SameLow(Shift64(h, c), Shift32(k, c))
  {
    hide SameLow, Shift64, Shift32;
    ShiftedLow(h, k, c);
    ShiftsAre(h, k, c);
  }

  /** Folding in a clear nibble changes nothing, so the gABI's test is not needed. */
  lemma {:induction false} FoldClear(h: bv64, g: bv64)
    ensures (if g != 0 then h ^ (g >> 24) else h) == h ^ (g >> 24)
  {
  }

  lemma {:induction false} FoldWithoutTest(h: bv64)
    ensures Fold64(h) == (h ^ ((h & 0xf000_0000) >> 24)) & !(h & 0xf000_0000)
  {
    FoldClear(h, h & 0xf000_0000);
  }

  lemma {:induction false} FoldLowWord(h: bv64, k: bv32)
    requires h & 0xffff_ffff == k as bv64
    ensures ((h ^ ((h & 0xf000_0000) >> 24)) & !(h & 0xf000_0000)) & 0xffff_ffff
            == ((k ^ ((k & 0xf000_0000) >> 24)) & !(k & 0xf000_0000)) as bv64
  {
  }

  lemma {:induction false} FoldSameLow(h: bv64, k: bv32)
    requires SameLow(h, k)
    ensures SameLow(Fold64(h), Fold32(k))
  {
    hide Fold64;
    FoldWithoutTest(h);
    FoldLowWord(h, k);
  }

  lemma {:induction false} FromSameLow(h: bv64, k: bv32, name: seq<bv32>)
    requires SameLow(h, k)
    ensures SameLow(GabiFrom(h, name), HashFrom(k, name))
    decreases |name|
  {
    hide SameLow, Shift64, Shift32, Fold64, Fold32;
    if name != [] {
      ShiftSameLow(h, k, name[0]);
      FoldSameLow(Shift64(h, name[0]), Shift32(k, name[0]));
      FromSameLow(Fold64(Shift64(h, name[0])), Fold32(Shift32(k, name[0])), name[1..]);
    }
  }

  /** For every name the tool's hash is the gABI hash, cut to the 32 bits of vna_hash. */
  lemma {:induction false} HashIsGabiHash(name: seq<bv32>)
    ensures GabiFrom(0, name) & 0xffff_ffff == HashFrom(0, name) as bv64
  {
    assert SameLow(0, 0);
    FromSameLow(0, 0, name);
    hide GabiFrom, HashFrom;
  }

  predicate Below28(h: bv32) {
    h & 0xf000_0000 == 0
  }

  lemma {:induction false} FoldBelow28(h: bv32)
    ensures Below28(Fold32(h))
  {
  }

  lemma {:induction false} FromBelow28(h: bv32, name: seq<bv32>)
    requires Below28(h)
    ensures Below28(HashFrom(h, name))
    decreases |name|
  {
    hide Fold32, Shift32, Below28;
    if name != [] {
      FoldBelow28(Shift32(h, name[0]));
      FromBelow28(Fold32(Shift32(h, name[0])), name[1..]);
    }
  }

  lemma {:induction false} Below28Less(h: bv32)
    requires Below28(h)
    ensures h < 0x1000_0000
  {
  }

  /** The hash of every name stays below 2^28. */
  lemma {:induction false} HashBelow28(name: seq<bv32>)
    ensures HashFrom(0, name) < 0x1000_0000
  {
    assert Below28(0);
    hide HashFrom, Below28;
    FromBelow28(0, name);
    Below28Less(HashFrom(0, name));
  }
}
