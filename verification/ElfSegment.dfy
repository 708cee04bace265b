/** The segment that the tool adds, as a loader finds it, and the bytes around the tables. */
module ElfSegment {
  import opened Basics
  import opened ElfBytes
  import opened ElfFormat
  import opened ElfRewrite
  import opened ElfFrame
  import opened ElfTheorems
  import opened ElfOutput

  /** Readable, and neither writable nor executable. */
  const PF_R: nat := 4

  // ---- addresses and file bytes ------------------------------------------

  /** The address va is that of the byte at o in the file part of a loaded segment. */
  predicate ByteOf(ph: Phdr, va: int, o: nat) {
    ph.ty == PT_LOAD && ph.off <= o < ph.off + ph.filesz && va - ph.va == o - ph.off
  }

  /** The first segment with a file byte at va has it at o. */
  predicate FirstByte(phs: seq<Phdr>, i: nat, va: int, o: nat) {
    i < |phs| && ByteOf(phs[i], va, o) && forall j :: 0 <= j < i ==> NoByte(phs[j], va)
  }

  predicate NoByte(ph: Phdr, va: int) {
    ph.ty == PT_LOAD ==> va < ph.va || va - ph.va >= ph.filesz
  }

  /** An address resolves to the byte that the first segment with a byte for it has there:
      memory behind the file part has none. */
  lemma {:induction false} ResolvesExactly(phs: seq<Phdr>, va: int, o: nat)
    ensures VaToOff(phs, va) == Ok(o) <==> exists i: nat :: FirstByte(phs, i, va, o)
    decreases |phs|
  {
    if phs != [] {
      var rest := phs[1..];
      ResolvesExactly(rest, va, o);
      assert forall j :: 0 < j < |phs| ==> phs[j] == rest[j - 1];
      if Maps(phs[0], va) {
        if VaToOff(phs, va) == Ok(o) { assert FirstByte(phs, 0, va, o); }
        if i: nat :| FirstByte(phs, i, va, o) { assert i == 0; }
      } else {
        if i: nat :| FirstByte(rest, i, va, o) { assert FirstByte(phs, i + 1, va, o); }
        if i: nat :| FirstByte(phs, i, va, o) {
          assert i > 0;
          assert FirstByte(rest, i - 1, va, o);
        }
      }
    }
  }

  // ---- the new program header --------------------------------------------

  /** In the output the recycled header is a loaded, read-only segment from the new tables to
      the end of the file, with memory for just these bytes, whose address and offset agree
      modulo its alignment of 64 KiB. */
  lemma {:induction false} NewSegmentRead(d: seq<byte>, p: Parsed, q: Plan, out: seq<byte>)
    requires GoodRun(d, p, q, out)
    ensures PhdrOff(p.h, q.spare) + PHDR_SIZE <= |out|
    ensures var ph := PhdrAt(out, PhdrOff(p.h, q.spare));
            && ph.ty == PT_LOAD && ph.flags == PF_R
            && ph.off == RoundUp16(|d|) && ph.off + ph.filesz == |out| && ph.memsz == ph.filesz
            && ph.pa == ph.va && ph.align == 0x10000 && (ph.va - ph.off) % 0x10000 == 0
  {
    hide GoodRun, LaidOut, Apply, PhdrsAre, PhdrAt, PhdrOff, PlanOk, ParsedOk, Grown, NewPhdrs, LayoutOk, DynsAre;
    GoodRunLaidOut(d, p, q, out);
    GoodParts(d, p, q, out);
    ParsedPhdrs(d, p);
    SegmentWritten(d, p, q, out);
    PlanPlace(d, p, q);
    WholeFile(d, p, q, out);
  }

  lemma {:induction false} SegmentWritten(d: seq<byte>, p: Parsed, q: Plan, out: seq<byte>)
    requires LaidOut(d, p, q) && Apply(d, p, q) == Ok(out) && PhdrsAre(d, p.h, p.phs)
    ensures PhdrOff(p.h, q.spare) + PHDR_SIZE <= |out| && PhdrAt(out, PhdrOff(p.h, q.spare)) == NewPhdr(q)
  {
    hide Apply, PhdrsAre, PhdrAt, PhdrOff, LayoutOk, PatchesPlaced;
    PhdrsWritten(d, p, q, out);
    SpareAt(p, q, out);
  }

  lemma {:induction false} WholeFile(d: seq<byte>, p: Parsed, q: Plan, out: seq<byte>)
    requires Apply(d, p, q) == Ok(out)
    ensures |out| == RoundUp16(|d|) + |q.blob|
  {
    hide Apply, Grown, ShdrOff, Patched, PatchSections, PatchLoader, PlanFits;
    RunImages(d, p, q, out);
    GrownParts(d, q);
  }

  lemma {:induction false} GoodParts(d: seq<byte>, p: Parsed, q: Plan, out: seq<byte>)
    requires GoodRun(d, p, q, out)
    ensures ParsedOk(d, p) && PlanOk(d, p, q) && LayoutOk(d, p)
  {
    hide ParsedOk, PlanOk, LayoutOk, StrtabOk, Apply;
  }

  lemma {:induction false} SpareAt(p: Parsed, q: Plan, out: seq<byte>)
    requires q.spare < |p.phs| && PhdrsAre(out, p.h, NewPhdrs(p, q))
    ensures PhdrOff(p.h, q.spare) + PHDR_SIZE <= |out| && PhdrAt(out, PhdrOff(p.h, q.spare)) == NewPhdr(q)
  {
    hide PhdrOff, PhdrAt;
  }

  lemma {:induction false} PlanPlace(d: seq<byte>, p: Parsed, q: Plan)
    requires PlanOk(d, p, q)
    ensures q.blobOff == RoundUp16(|d|) && (q.blobVa - q.blobOff) % 0x10000 == 0
  {
    hide HashesOk, Declares, TableFits, Serialize, BlobOf, AppendAux, NewAux, MaxIndex, FindLibc, Slice, RoundUp16, RoundUp8, Top;
  }

  /** Between the old file and the tables there are fewer than sixteen zero bytes. */
  lemma {:induction false} PaddingIsZero(d: seq<byte>, p: Parsed, q: Plan, out: seq<byte>, i: nat)
    requires GoodRun(d, p, q, out) && |d| <= i < RoundUp16(|d|)
    ensures i < |out| && out[i] == 0
  {
    GoodRunLaidOut(d, p, q, out);
    GoodParts(d, p, q, out);
    ParsedPhdrs(d, p);
    DynBounds(d, p);
    SpareInside(d, p, q);
    PaddingKept(d, p, q, out);
    GrownZero(d, q, i);
    hide GoodRun, LaidOut, Apply, PhdrsAre, DynsAre, PlanOk, ParsedOk, LayoutOk, PhdrOff, Grown;
  }

  lemma {:induction false} GrownZero(d: seq<byte>, q: Plan, i: nat)
    requires |d| <= i < RoundUp16(|d|)
    ensures i < |Grown(d, q)| && Grown(d, q)[i] == 0
  {
  }

  lemma {:induction false} PaddingKept(d: seq<byte>, p: Parsed, q: Plan, out: seq<byte>)
    requires LaidOut(d, p, q) && Apply(d, p, q) == Ok(out) && DynEnd(p) <= |d|
    requires PhdrOff(p.h, q.spare) + PHDR_SIZE <= |d|
    ensures SameOn(Grown(d, q), out, |d|, RoundUp16(|d|))
  {
    hide Apply, Grown, LoadsOk, PhdrOff, ShdrOff, SameOn, DynEnd;
    GrownParts(d, q);
    var a, b := |d|, RoundUp16(|d|);
    assert ApartFromPatches(p, q, a, b);
    ApartFromSections(p.h, a, b);
    Kept(d, p, q, out, a, b);
  }
}
