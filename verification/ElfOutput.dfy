/** The rewritten image read again: by the tool, which finds the version declared, and
    by a loader, which finds the old version needs and the new one. */
module ElfOutput {
  import opened Basics
  import opened ElfBytes
  import opened ElfFormat
  import opened ElfRewrite
  import opened ElfTables
  import opened ElfFrame
  import opened ElfTheorems

  /** The string table lies in the file, ends with a NUL, and holds every name used. */
  predicate StrtabOk(d: seq<byte>, p: Parsed) {
    && p.strsz.val > 0 && p.strtabOff + p.strsz.val <= |d| && d[p.strtabOff + p.strsz.val - 1] == 0
    && (forall i :: 0 <= i < |p.needs| ==> p.needs[i].file < p.strsz.val && NamesInside(p.needs[i].aux, p.strsz.val))
  }

  predicate NamesInside(aux: seq<Aux>, size: nat) {
    forall j :: 0 <= j < |aux| ==> aux[j].name < size
  }

  /** A finished run on a well laid out object. */
  predicate GoodRun(d: seq<byte>, p: Parsed, q: Plan, out: seq<byte>) {
    && ParsedOk(d, p) && PlanOk(d, p, q) && Apply(d, p, q) == Ok(out)
    && LayoutOk(d, p) && StrtabOk(d, p)
  }

  // ---- where the patches are ---------------------------------------------

  lemma {:induction false} DynInside(d: seq<byte>, p: Parsed, e: Dyn)
    requires DynsAre(d, p.dynOff, p.dyn) && e in p.dyn
    ensures exists k :: 0 <= k < |p.dyn| && p.dyn[k] == e && e.at == p.dynOff + 16 * k
    ensures p.dynOff <= e.at && e.at + 32 <= DynEnd(p)
  {
    hide Read, Signed;
    var k :| 0 <= k < |p.dyn| && p.dyn[k] == e;
    assert DynAt(d, p.dynOff + 16 * k, p.dyn[k]);
  }

  /** The three patched entries are different entries of the dynamic section. */
  predicate PatchesPlaced(p: Parsed) {
    && p.dynOff <= p.strtab.at && p.strtab.at + 32 <= DynEnd(p)
    && p.dynOff <= p.strsz.at && p.strsz.at + 32 <= DynEnd(p)
    && p.dynOff <= p.verneed.at && p.verneed.at + 32 <= DynEnd(p)
    && (p.strtab.at - p.dynOff) % 16 == 0 && (p.strsz.at - p.dynOff) % 16 == 0 && (p.verneed.at - p.dynOff) % 16 == 0
    && p.strtab.at != p.strsz.at && p.strtab.at != p.verneed.at && p.strsz.at != p.verneed.at
  }

  lemma {:induction false} SameEntry(d: seq<byte>, p: Parsed, e: Dyn, f: Dyn)
    requires DynsAre(d, p.dynOff, p.dyn) && e in p.dyn && f in p.dyn && e.at == f.at
    ensures e == f
  {
    hide DynsAre;
    DynInside(d, p, e);
    DynInside(d, p, f);
  }

  lemma {:induction false} Placed(d: seq<byte>, p: Parsed)
    requires ParsedOk(d, p)
    ensures PatchesPlaced(p)
  {
    hide DynsAre, PhdrsAre, FirstOf, Lookup, VaToOff, ParseNeeds, ReadHeader, DynEnd;
    DynInside(d, p, p.strtab);
    DynInside(d, p, p.strsz);
    DynInside(d, p, p.verneed);
    if p.strtab.at == p.strsz.at { SameEntry(d, p, p.strtab, p.strsz); }
    if p.strtab.at == p.verneed.at { SameEntry(d, p, p.strtab, p.verneed); }
    if p.strsz.at == p.verneed.at { SameEntry(d, p, p.strsz, p.verneed); }
  }

  /** A region apart from the program headers and the dynamic section is apart from
      the patches. */
  lemma {:induction false} ApartFromBoth(p: Parsed, q: Plan, a: nat, b: nat)
    requires PatchesPlaced(p) && q.spare < p.h.phnum && p.h.phentsize >= PHDR_SIZE
    requires Apart(a, b, p.h.phoff, PhdrOff(p.h, p.h.phnum)) && Apart(a, b, p.dynOff, DynEnd(p))
    ensures ApartFromPatches(p, q, a, b)
  {
    PhdrInside(p.h, q.spare);
    hide PhdrOff, DynEnd;
  }

  /** The parts of GoodRun that the layout arguments use. */
  predicate LaidOut(d: seq<byte>, p: Parsed, q: Plan) {
    PatchesPlaced(p) && q.spare < p.h.phnum && |p.phs| == p.h.phnum && LayoutOk(d, p) && |q.dynstr| <= q.rel
  }

  lemma {:induction false} GoodRunLaidOut(d: seq<byte>, p: Parsed, q: Plan, out: seq<byte>)
    requires GoodRun(d, p, q, out)
    ensures LaidOut(d, p, q) && Apply(d, p, q) == Ok(out)
  {
    hide LayoutOk, StrtabOk, Apply, PatchesPlaced, PlanOk, ParsedOk;
    Placed(d, p);
    PlanVa(d, p, q);
    PlanRel(d, p, q);
    ParsedPhdrs(d, p);
  }

  lemma {:induction false} PlanRel(d: seq<byte>, p: Parsed, q: Plan)
    requires PlanOk(d, p, q)
    ensures |q.dynstr| <= q.rel
  {
    hide HashesOk, Declares, TableFits, Serialize, BlobOf, BlobVa, AppendAux, NewAux, MaxIndex, FindLibc, Top, Slice;
    hide RoundUp16, RoundUp8;
  }

  lemma {:induction false} ParsedPhdrs(d: seq<byte>, p: Parsed)
    requires ParsedOk(d, p)
    ensures PhdrsAre(d, p.h, p.phs) && DynsAre(d, p.dynOff, p.dyn) && ReadHeader(d) == Ok(p.h) && |d| >= 0x40
  {
    hide DynsAre, FirstOf, Lookup, VaToOff, ParseNeeds;
  }

  /** A region of the old file away from everything patched is the same in the output. */
  lemma {:induction false} RegionKept(d: seq<byte>, p: Parsed, q: Plan, out: seq<byte>, a: nat, b: nat)
    requires Apply(d, p, q) == Ok(out) && LayoutOk(d, p) && b <= |d|
    requires ApartFromPatches(p, q, a, b) && Apart(a, b, p.h.shoff, ShdrOff(p.h, p.h.shnum))
    ensures SameOn(d, out, a, b)
  {
    hide Apply, ApartFromPatches, ShdrOff, Apart, Grown;
    GrownParts(d, q);
    ApartFromSections(p.h, a, b);
    Kept(d, p, q, out, a, b);
    assert SameOn(d, Grown(d, q), a, b);
    SameTrans(d, Grown(d, q), out, a, b);
  }

  // ---- header and program headers ----------------------------------------

  lemma {:induction false} HeaderKept(d: seq<byte>, p: Parsed, q: Plan, out: seq<byte>)
    requires LaidOut(d, p, q) && Apply(d, p, q) == Ok(out) && ReadHeader(d) == Ok(p.h) && |d| >= 0x40
    ensures ReadHeader(out) == Ok(p.h)
  {
    hide Apply, ReadHeader, PatchesPlaced, ApartFromPatches, PhdrOff, ShdrOff, DynEnd, SameOn, LoadsOk;
    ApartFromBoth(p, q, 0, 0x40);
    RegionKept(d, p, q, out, 0, 0x40);
    SameHeader(d, out);
  }

  lemma {:induction false} PhdrKept(d: seq<byte>, p: Parsed, q: Plan, out: seq<byte>, k: nat)
    requires LaidOut(d, p, q) && Apply(d, p, q) == Ok(out) && PhdrsAre(d, p.h, p.phs)
    requires k < p.h.phnum && k != q.spare
    ensures PhdrOff(p.h, k) + PHDR_SIZE <= |out| && PhdrAt(out, PhdrOff(p.h, k)) == p.phs[k]
  {
    hide Apply, PhdrOff, ShdrOff, DynEnd, SameOn, LoadsOk, PhdrAt;
    var a := PhdrOff(p.h, k);
    var b := a + PHDR_SIZE;
    PhdrInside(p.h, k);
    PhdrsApart(p.h, k, q.spare);
    assert ApartFromPatches(p, q, a, b);
    RegionKept(d, p, q, out, a, b);
    SameOnFits(d, out, a, b);
    SamePhdr(d, out, a);
  }

  lemma {:induction false} SameOnFits(d: seq<byte>, e: seq<byte>, a: nat, b: nat)
    requires SameOn(d, e, a, b)
    ensures b <= |d| && b <= |e|
  {
  }

  /** A value written by the loader patches survives the section loop. */
  lemma {:induction false} PatchSurvives(d: seq<byte>, p: Parsed, q: Plan, out: seq<byte>, o: nat, s: seq<byte>)
    requires Apply(d, p, q) == Ok(out) && PatchLoader(Grown(d, q), p, q).Ok? && LayoutOk(d, p)
    requires At(Patched(d, p, q), o, s) && Apart(o, o + |s|, p.h.shoff, ShdrOff(p.h, p.h.shnum))
    ensures At(out, o, s)
  {
    hide Apply, PatchLoader, PatchSections, SameOn, Apart, Grown, ShdrOff, Patched;
    RunImages(d, p, q, out);
    ApartFromSections(p.h, o, o + |s|);
    var e := Patched(d, p, q);
    AtFits(e, o, s);
    SectionsSame(e, p.h, Read(e, ShdrOff(p.h, p.h.shstrndx) + 24, 8), q, 0, o, o + |s|);
    SameAt(e, out, o, s);
  }

  lemma {:induction false} AtFits(e: seq<byte>, o: nat, s: seq<byte>)
    requires At(e, o, s)
    ensures o + |s| <= |e|
  {
  }

  lemma {:induction false} LoaderWritesPatched(d: seq<byte>, p: Parsed, q: Plan)
    requires LaidOut(d, p, q) && PatchLoader(Grown(d, q), p, q).Ok?
    ensures var e := Patched(d, p, q);
            && At(e, PhdrOff(p.h, q.spare), PhdrBytes(NewPhdr(q)))
            && At(e, p.strtab.at + 8, Bytes(q.blobVa, 8))
            && At(e, p.strsz.at + 8, Bytes(|q.dynstr|, 8))
            && At(e, p.verneed.at + 8, Bytes(q.blobVa + q.rel, 8))
  {
    hide LaidOut, PatchLoader, Grown, PhdrOff, At, PhdrBytes, Bytes, Apart;
    PatchesApart(d, p, q);
    LoaderWrites(Grown(d, q), p, q);
  }

  /** The four patched places have nothing in common. */
  lemma {:induction false} PatchesApart(d: seq<byte>, p: Parsed, q: Plan)
    requires LaidOut(d, p, q)
    ensures var o := PhdrOff(p.h, q.spare);
            && Apart(o, o + PHDR_SIZE, p.strtab.at + 8, p.strtab.at + 16)
            && Apart(o, o + PHDR_SIZE, p.strsz.at + 8, p.strsz.at + 16)
            && Apart(o, o + PHDR_SIZE, p.verneed.at + 8, p.verneed.at + 16)
    ensures Apart(p.strtab.at + 8, p.strtab.at + 16, p.strsz.at + 8, p.strsz.at + 16)
    ensures Apart(p.strtab.at + 8, p.strtab.at + 16, p.verneed.at + 8, p.verneed.at + 16)
    ensures Apart(p.strsz.at + 8, p.strsz.at + 16, p.verneed.at + 8, p.verneed.at + 16)
  {
    hide PhdrOff, ShdrOff, LoadsOk, DynEnd, Apart;
    PhdrInside(p.h, q.spare);
    ValuesApart(p.dynOff, p.strtab.at, p.strsz.at);
    ValuesApart(p.dynOff, p.strtab.at, p.verneed.at);
    ValuesApart(p.dynOff, p.strsz.at, p.verneed.at);
    PartsApart(p.h.phoff, PhdrOff(p.h, p.h.phnum), p.dynOff, DynEnd(p), PhdrOff(p.h, q.spare), p.strtab.at);
    PartsApart(p.h.phoff, PhdrOff(p.h, p.h.phnum), p.dynOff, DynEnd(p), PhdrOff(p.h, q.spare), p.strsz.at);
    PartsApart(p.h.phoff, PhdrOff(p.h, p.h.phnum), p.dynOff, DynEnd(p), PhdrOff(p.h, q.spare), p.verneed.at);
  }

  /** The values of two entries of the dynamic section. */
  lemma {:induction false} ValuesApart(base: nat, a: nat, b: nat)
    requires base <= a && base <= b && a != b && (a - base) % 16 == 0 && (b - base) % 16 == 0
    ensures Apart(a + 8, a + 16, b + 8, b + 16)
  {
  }

  /** A program header and the value of a dynamic entry, inside two ranges that are apart. */
  lemma {:induction false} PartsApart(a: nat, b: nat, c: nat, d: nat, o: nat, at: nat)
    requires Apart(a, b, c, d) && a <= o && o + PHDR_SIZE <= b && c <= at && at + 32 <= d
    ensures Apart(o, o + PHDR_SIZE, at + 8, at + 16)
  {
  }

  /** The recycled program header and the three values, in the output. */
  lemma {:induction false} PatchesAt(d: seq<byte>, p: Parsed, q: Plan, out: seq<byte>)
    requires LaidOut(d, p, q) && Apply(d, p, q) == Ok(out)
    ensures At(out, PhdrOff(p.h, q.spare), PhdrBytes(NewPhdr(q)))
    ensures At(out, p.strtab.at + 8, Bytes(q.blobVa, 8))
    ensures At(out, p.strsz.at + 8, Bytes(|q.dynstr|, 8))
    ensures At(out, p.verneed.at + 8, Bytes(q.blobVa + q.rel, 8))
  {
    hide Apply, PatchLoader, Grown, PhdrOff, ShdrOff, LoadsOk, At, PhdrBytes, Bytes, DynEnd, PatchSections, Patched;
    RunImages(d, p, q, out);
    LoaderWritesPatched(d, p, q);
    PhdrInside(p.h, q.spare);
    PatchSurvives(d, p, q, out, PhdrOff(p.h, q.spare), PhdrBytes(NewPhdr(q)));
    PatchSurvives(d, p, q, out, p.strtab.at + 8, Bytes(q.blobVa, 8));
    PatchSurvives(d, p, q, out, p.strsz.at + 8, Bytes(|q.dynstr|, 8));
    PatchSurvives(d, p, q, out, p.verneed.at + 8, Bytes(q.blobVa + q.rel, 8));
  }

  lemma {:induction false} PhdrsWritten(d: seq<byte>, p: Parsed, q: Plan, out: seq<byte>)
    requires LaidOut(d, p, q) && Apply(d, p, q) == Ok(out) && PhdrsAre(d, p.h, p.phs)
    ensures PhdrsAre(out, p.h, NewPhdrs(p, q))
  {
    hide Apply, LayoutOk, PatchesPlaced, PhdrOff, At, PhdrBytes, Bytes, PhdrAt, PlanFits;
    PatchesAt(d, p, q, out);
    NewPhdrFits(d, p, q, out);
    PhdrBytesAt(out, PhdrOff(p.h, q.spare), NewPhdr(q));
    forall k | 0 <= k < p.h.phnum && k != q.spare
      ensures PhdrOff(p.h, k) + PHDR_SIZE <= |out| && PhdrAt(out, PhdrOff(p.h, k)) == p.phs[k]
    {
      PhdrKept(d, p, q, out, k);
    }
  }

  lemma {:induction false} NewPhdrFits(d: seq<byte>, p: Parsed, q: Plan, out: seq<byte>)
    requires Apply(d, p, q) == Ok(out)
    ensures q.blobOff < U64 && q.blobVa + q.rel < I64 && |q.blob| < U64
  {
    hide PatchLoader, PatchSections, Grown;
  }

  // ---- the dynamic section -----------------------------------------------

  /** An entry with the value the tool gives it. */
  function Repoint(p: Parsed, q: Plan, e: Dyn): Dyn {
    if e.at == p.strtab.at then e.(val := q.blobVa)
    else if e.at == p.strsz.at then e.(val := |q.dynstr|)
    else if e.at == p.verneed.at then e.(val := q.blobVa + q.rel)
    else e
  }

  function NewDyn(p: Parsed, q: Plan, dyn: seq<Dyn>): (r: seq<Dyn>)
    ensures |r| == |dyn| && forall k :: 0 <= k < |dyn| ==> r[k] == Repoint(p, q, dyn[k])
  {
    if dyn == [] then [] else [Repoint(p, q, dyn[0])] + NewDyn(p, q, dyn[1..])
  }

  lemma {:induction false} LookupNew(p: Parsed, q: Plan, dyn: seq<Dyn>, tag: nat)
    ensures Lookup(dyn, tag).None? ==> Lookup(NewDyn(p, q, dyn), tag).None?
    ensures Lookup(dyn, tag).Some? ==> Lookup(NewDyn(p, q, dyn), tag) == Some(Repoint(p, q, Lookup(dyn, tag).value))
    decreases |dyn|
  {
    if dyn != [] && dyn[0].tag != tag {
      LookupNew(p, q, dyn[1..], tag);
      assert NewDyn(p, q, dyn)[1..] == NewDyn(p, q, dyn[1..]);
    }
  }

  /** Eight bytes of the dynamic section that are not one of the patched values. */
  lemma {:induction false} DynBytesKept(d: seq<byte>, p: Parsed, q: Plan, out: seq<byte>, o: nat)
    requires LaidOut(d, p, q) && Apply(d, p, q) == Ok(out)
    requires p.dynOff <= o && o + 8 <= DynEnd(p) <= |d| && (o - p.dynOff) % 8 == 0
    requires o != p.strtab.at + 8 && o != p.strsz.at + 8 && o != p.verneed.at + 8
    ensures o + 8 <= |out| && Read(out, o, 8) == Read(d, o, 8)
  {
    hide Apply, PhdrOff, ShdrOff, DynEnd, SameOn, LoadsOk, Read;
    PhdrInside(p.h, q.spare);
    Multiples(p, o);
    assert ApartFromPatches(p, q, o, o + 8);
    RegionKept(d, p, q, out, o, o + 8);
    SameOnFits(d, out, o, o + 8);
    SameField(d, out, o, o + 8, o, 8);
  }

  lemma {:induction false} Multiples(p: Parsed, o: nat)
    requires PatchesPlaced(p) && p.dynOff <= o && (o - p.dynOff) % 8 == 0
    requires o != p.strtab.at + 8 && o != p.strsz.at + 8 && o != p.verneed.at + 8
    ensures Apart(o, o + 8, p.strtab.at + 8, p.strtab.at + 16)
    ensures Apart(o, o + 8, p.strsz.at + 8, p.strsz.at + 16)
    ensures Apart(o, o + 8, p.verneed.at + 8, p.verneed.at + 16)
  {
    hide DynEnd;
  }

  lemma {:induction false} ValueAt(out: seq<byte>, o: nat, v: nat)
    requires At(out, o, Bytes(v, 8)) && v < I64
    ensures o + 8 <= |out| && Signed(Read(out, o, 8)) == v
  {
    Pow256s();
    hide Bytes, Read, At;
    FieldAt(out, o, v, 8);
  }

  lemma {:induction false} TagKept(d: seq<byte>, p: Parsed, q: Plan, out: seq<byte>, k: nat)
    requires LaidOut(d, p, q) && Apply(d, p, q) == Ok(out) && DynsAre(d, p.dynOff, p.dyn)
    requires k <= |p.dyn|
    ensures p.dynOff + 16 * k + 8 <= |out| && Read(out, p.dynOff + 16 * k, 8) == Read(d, p.dynOff + 16 * k, 8)
  {
    hide Apply, LayoutOk, Read, DynsAre;
    assert PatchesPlaced(p) && DynEnd(p) <= |d| by { hide *; TagRoom(d, p, q); }
    NotValue(p.dynOff, p.strtab.at, k);
    NotValue(p.dynOff, p.strsz.at, k);
    NotValue(p.dynOff, p.verneed.at, k);
    DynBytesKept(d, p, q, out, p.dynOff + 16 * k);
  }

  lemma {:induction false} TagRoom(d: seq<byte>, p: Parsed, q: Plan)
    requires LaidOut(d, p, q) && DynsAre(d, p.dynOff, p.dyn)
    ensures PatchesPlaced(p) && DynEnd(p) <= |d|
  {
    hide PatchesPlaced, LayoutOk;
  }

  /** The tag of an entry is not where the value of another one is. */
  lemma {:induction false} NotValue(base: nat, at: nat, k: nat)
    requires base <= at && (at - base) % 16 == 0
    ensures base + 16 * k != at + 8 && (16 * k) % 8 == 0
  {
    var m := (at - base) / 16;
    assert at == base + 16 * m;
    HalfApart(k, m);
    EightDivides(2 * k);
  }

  lemma {:induction false} HalfApart(k: nat, m: nat)
    ensures 16 * k != 16 * m + 8
  {
  }

  lemma {:induction false} EightDivides(j: nat)
    ensures (8 * j) % 8 == 0
  {
  }

  lemma {:induction false} DynEndKept(d: seq<byte>, p: Parsed, q: Plan, out: seq<byte>)
    requires LaidOut(d, p, q) && Apply(d, p, q) == Ok(out) && DynsAre(d, p.dynOff, p.dyn)
    ensures DynEnd(p) <= |out| && Read(out, p.dynOff + 16 * |p.dyn|, 8) == 0
  {
    hide Apply, LaidOut, Read, DynAt;
    TagKept(d, p, q, out, |p.dyn|);
    OutLonger(d, p, q, out);
  }

  lemma {:induction false} OutLonger(d: seq<byte>, p: Parsed, q: Plan, out: seq<byte>)
    requires Apply(d, p, q) == Ok(out)
    ensures |d| <= |out|
  {
    hide Apply, Grown, PatchLoader, PatchSections, PlanFits, Patched;
    RunImages(d, p, q, out);
    GrownParts(d, q);
  }

  lemma {:induction false} DynBounds(d: seq<byte>, p: Parsed)
    requires DynsAre(d, p.dynOff, p.dyn)
    ensures DynEnd(p) <= |d|
  {
    hide DynAt, Read;
  }

  lemma {:induction false} EntryIs(d: seq<byte>, p: Parsed, k: nat)
    requires DynsAre(d, p.dynOff, p.dyn) && k < |p.dyn|
    ensures p.dynOff + 16 * k + 32 <= DynEnd(p) && DynAt(d, p.dynOff + 16 * k, p.dyn[k])
  {
    hide DynAt, Read;
  }

  lemma {:induction false} DynEntryPatched(out: seq<byte>, o: nat, e: Dyn, v: nat)
    requires e.at == o && o + 8 <= |out| && e.tag == Read(out, o, 8) && e.tag != 0
    requires At(out, o + 8, Bytes(v, 8)) && v < I64
    ensures DynAt(out, o, e.(val := v))
  {
    hide At, Read, Signed, Bytes;
    ValueAt(out, o + 8, v);
  }

  lemma {:induction false} DynEntryKept(d: seq<byte>, p: Parsed, q: Plan, out: seq<byte>, o: nat, e: Dyn)
    requires LaidOut(d, p, q) && Apply(d, p, q) == Ok(out)
    requires DynAt(d, o, e) && o + 8 <= |out| && Read(out, o, 8) == Read(d, o, 8)
    requires p.dynOff <= o && o + 32 <= DynEnd(p) <= |d| && (o - p.dynOff) % 16 == 0
    requires e.at != p.strtab.at && e.at != p.strsz.at && e.at != p.verneed.at
    ensures DynAt(out, o, e)
  {
    hide Apply, Read, Signed, PatchesPlaced, LayoutOk;
    DynBytesKept(d, p, q, out, o + 8);
  }

  lemma {:induction false} DynEntry(d: seq<byte>, p: Parsed, q: Plan, out: seq<byte>, k: nat)
    requires LaidOut(d, p, q) && Apply(d, p, q) == Ok(out) && DynsAre(d, p.dynOff, p.dyn)
    requires k < |p.dyn|
    ensures DynAt(out, p.dynOff + 16 * k, Repoint(p, q, p.dyn[k]))
  {
    hide Apply, Read, At, Bytes, PhdrOff, Signed, DynsAre, PhdrBytes, PlanFits, LaidOut, DynEnd;
    var o, e := p.dynOff + 16 * k, p.dyn[k];
    EntryIs(d, p, k);
    TagKept(d, p, q, out, k);
    PatchesAt(d, p, q, out);
    NewPhdrFits(d, p, q, out);
    DynstrBelow(d, p, q);
    if e.at == p.strtab.at {
      DynEntryPatched(out, o, e, q.blobVa);
    } else if e.at == p.strsz.at {
      DynEntryPatched(out, o, e, |q.dynstr|);
    } else if e.at == p.verneed.at {
      DynEntryPatched(out, o, e, q.blobVa + q.rel);
    } else {
      DynBounds(d, p);
      DynEntryKept(d, p, q, out, o, e);
    }
  }

  lemma {:induction false} DynstrBelow(d: seq<byte>, p: Parsed, q: Plan)
    requires LaidOut(d, p, q)
    ensures |q.dynstr| <= q.rel
  {
    hide LayoutOk, PatchesPlaced;
  }

  lemma {:induction false} DynsWritten(d: seq<byte>, p: Parsed, q: Plan, out: seq<byte>)
    requires LaidOut(d, p, q) && Apply(d, p, q) == Ok(out) && DynsAre(d, p.dynOff, p.dyn)
    ensures DynsAre(out, p.dynOff, NewDyn(p, q, p.dyn))
  {
    hide Apply, DynAt, Read, LaidOut, Repoint;
    DynEndKept(d, p, q, out);
    forall k | 0 <= k < |p.dyn| ensures DynAt(out, p.dynOff + 16 * k, NewDyn(p, q, p.dyn)[k]) {
      DynEntry(d, p, q, out, k);
    }
  }

  lemma {:induction false} FirstKept(p: Parsed, q: Plan)
    requires q.spare < |p.phs| && p.phs[q.spare].ty == PT_NOTE && FirstOf(p.phs, PT_DYNAMIC).Some?
    ensures FirstOf(NewPhdrs(p, q), PT_DYNAMIC) == FirstOf(p.phs, PT_DYNAMIC)
    ensures FirstOf(p.phs, PT_DYNAMIC).value != q.spare
  {
    FirstIs(NewPhdrs(p, q), PT_DYNAMIC, FirstOf(p.phs, PT_DYNAMIC).value);
  }

  lemma {:induction false} FirstIs(phs: seq<Phdr>, ty: nat, i: nat)
    requires i < |phs| && phs[i].ty == ty && forall k :: 0 <= k < i ==> phs[k].ty != ty
    ensures FirstOf(phs, ty) == Some(i)
  {
    var r := FirstOf(phs, ty);
    assert phs[i].ty == ty;
  }

  // ---- the tables in the output ------------------------------------------

  /** The new tables are in the output, where the new segment starts. */
  lemma {:induction false} BlobWritten(d: seq<byte>, p: Parsed, q: Plan, out: seq<byte>)
    requires LaidOut(d, p, q) && Apply(d, p, q) == Ok(out) && DynEnd(p) <= |d| && q.blobOff == RoundUp16(|d|)
    requires PhdrOff(p.h, q.spare) + PHDR_SIZE <= |d|
    ensures At(out, q.blobOff, q.blob)
  {
    hide Apply, Grown, LoadsOk, PhdrOff, ShdrOff, SameOn, DynEnd, At;
    GrownParts(d, q);
    var a, b := q.blobOff, q.blobOff + |q.blob|;
    assert ApartFromPatches(p, q, a, b);
    ApartFromSections(p.h, a, b);
    Kept(d, p, q, out, a, b);
    SameAt(Grown(d, q), out, a, q.blob);
  }

  lemma {:induction false} BlobParts(out: seq<byte>, o: nat, dynstr: seq<byte>, table: seq<byte>)
    requires At(out, o, BlobOf(dynstr, table))
    ensures At(out, o, dynstr) && At(out, o + RoundUp8(|dynstr|), table)
  {
    hide At, RoundUp8;
    var z := Zeros(RoundUp8(|dynstr|) - |dynstr|);
    AtSplit(out, o, dynstr + z, table);
    AtSplit(out, o, dynstr, z);
  }

  lemma {:induction false} SplitAt(out: seq<byte>, o: nat, s: seq<byte>, t: seq<byte>, k: nat)
    requires At(out, o, s + t) && |s| == k
    ensures At(out, o, s) && At(out, o + k, t)
  {
    AtSplit(out, o, s, t);
  }

  lemma {:induction false} TableSplits(out: seq<byte>, o: nat, needs: seq<Need>, t: seq<byte>)
    requires At(out, o, NeedTable(needs, 16 * |needs|) + t)
    ensures At(out, o, NeedTable(needs, 16 * |needs|)) && At(out, o + 16 * |needs|, t)
  {
    hide At, NeedTable;
    SplitAt(out, o, NeedTable(needs, 16 * |needs|), t, 16 * |needs|);
  }

  lemma {:induction false} TableIs(needs: seq<Need>)
    ensures Serialize(needs) == NeedTable(needs, 16 * |needs|) + AuxTables(needs)
  {
    hide NeedTable, AuxTables, AuxCount;
  }

  lemma {:induction false} TableParts(out: seq<byte>, o: nat, needs: seq<Need>)
    requires At(out, o, Serialize(needs))
    ensures At(out, o, NeedTable(needs, 16 * |needs|)) && At(out, o + 16 * |needs|, AuxTables(needs))
  {
    hide At, NeedTable, AuxTables, AuxCount, Serialize;
    TableIs(needs);
    TableSplits(out, o, needs, AuxTables(needs));
  }

  lemma {:induction false} StringParts(out: seq<byte>, o: nat, strs: seq<byte>)
    requires At(out, o, strs + VERSION + [0])
    ensures At(out, o, strs) && At(out, o + |strs|, VERSION + [0])
    ensures CString(out, o + |strs|) == Some(VERSION)
  {
    AtSplit(out, o, strs + VERSION, [0]);
    AtSplit(out, o, strs, VERSION);
    AtJoin(out, o + |strs|, VERSION, [0]);
    VersionReads(out, o + |strs|);
  }

  lemma {:induction false} VersionReads(out: seq<byte>, o: nat)
    requires At(out, o, VERSION + [0])
    ensures CString(out, o) == Some(VERSION)
  {
    AtSplit(out, o, VERSION, [0]);
    assert out[o + |VERSION|] == out[o + |VERSION|..o + |VERSION| + 1][0] == 0;
    CStringLiteral(out, o, VERSION);
  }

  /** A name inside the string table reads the same from the copy. */
  lemma {:induction false} NameCopied(d: seq<byte>, p: Parsed, out: seq<byte>, o: nat, name: nat)
    requires p.strsz.val > 0 && p.strtabOff + p.strsz.val <= |d| && d[p.strtabOff + p.strsz.val - 1] == 0
    requires At(out, o, d[p.strtabOff..p.strtabOff + p.strsz.val]) && name < p.strsz.val
    ensures CString(out, o + name) == CString(d, p.strtabOff + name)
  {
    var n := p.strsz.val - name;
    var a := p.strtabOff + name;
    assert d[a..a + n] == d[p.strtabOff..p.strtabOff + p.strsz.val][name..];
    assert out[o + name..o + name + n] == out[o..o + p.strsz.val][name..];
    CStringCopied(d, a, out, o + name, n);
  }

  // ---- the tool reads its own output -------------------------------------

  /** What the run needs to know of the plan to read its output again. */
  predicate Planned(d: seq<byte>, p: Parsed, q: Plan) {
    && p.strsz.val > 0 && p.strtabOff + p.strsz.val <= |d|
    && q.target < |p.needs| && q.needs == AppendAux(p.needs, q.target, NewAux(p)) && TableFits(q.needs)
    && q.dynstr == d[p.strtabOff..p.strtabOff + p.strsz.val] + VERSION + [0]
    && q.table == Serialize(q.needs) && q.rel == RoundUp8(|q.dynstr|) && q.blob == BlobOf(q.dynstr, q.table)
    && q.blobOff == RoundUp16(|d|)
  }

  lemma {:induction false} GoodRunPlanned(d: seq<byte>, p: Parsed, q: Plan, out: seq<byte>)
    requires GoodRun(d, p, q, out)
    ensures StrtabOk(d, p) && Planned(d, p, q)
  {
    hide ParsedOk, Apply, LayoutOk;
    hide HashesOk, Declares, TableFits, Serialize, BlobOf, BlobVa, AppendAux, NewAux, MaxIndex, FindLibc, Top, NamesInside;
    hide RoundUp8, RoundUp16;
  }

  /** The three tables are in the output: strings, Verneeds, Vernauxes. */
  predicate TablesAt(d: seq<byte>, p: Parsed, q: Plan, out: seq<byte>)
    requires p.strsz.val >= 0 && p.strtabOff + p.strsz.val <= |d|
  {
    && At(out, q.blobOff, d[p.strtabOff..p.strtabOff + p.strsz.val])
    && At(out, q.blobOff + p.strsz.val, VERSION + [0])
    && CString(out, q.blobOff + p.strsz.val) == Some(VERSION)
    && At(out, q.blobOff + q.rel, NeedTable(q.needs, 16 * |q.needs|))
    && At(out, q.blobOff + q.rel + 16 * |q.needs|, AuxTables(q.needs))
  }

  lemma {:induction false} TablesWritten(d: seq<byte>, p: Parsed, q: Plan, out: seq<byte>)
    requires At(out, q.blobOff, q.blob) && Planned(d, p, q)
    requires p.strsz.val >= 0 && p.strtabOff + p.strsz.val <= |d|
    ensures TablesAt(d, p, q, out)
  {
    hide At, Serialize, BlobOf, RoundUp8, RoundUp16, AppendAux, TableFits, NewAux, NeedTable, AuxTables, CString;
    BlobParts(out, q.blobOff, q.dynstr, q.table);
    StringParts(out, q.blobOff, d[p.strtabOff..p.strtabOff + p.strsz.val]);
    TableParts(out, q.blobOff + q.rel, q.needs);
  }

  lemma {:induction false} FilesNamed(d: seq<byte>, p: Parsed, q: Plan, out: seq<byte>)
    requires StrtabOk(d, p) && Planned(d, p, q) && TablesAt(d, p, q, out) && NamesAt(d, p.strtabOff, p.needs)
    ensures NamesAt(out, q.blobOff, q.needs)
  {
    hide CString, NamesInside, TableFits, Serialize, BlobOf, NewAux, RoundUp8, RoundUp16, At, NeedTable, AuxTables;
    forall i | 0 <= i < |q.needs| ensures CString(out, q.blobOff + q.needs[i].file) == Some(q.needs[i].name) {
      NameCopied(d, p, out, q.blobOff, p.needs[i].file);
      assert q.needs[i].file == p.needs[i].file && q.needs[i].name == p.needs[i].name;
    }
  }

  lemma {:induction false} NeedsReadBack(d: seq<byte>, p: Parsed, q: Plan, out: seq<byte>)
    requires StrtabOk(d, p) && Planned(d, p, q) && TablesAt(d, p, q, out) && NamesAt(d, p.strtabOff, p.needs)
    requires p.num >= |p.needs|
    ensures ParseNeeds(out, q.blobOff, q.blobOff + q.rel, p.num) == Ok(q.needs)
  {
    hide CString, At, NeedTable, AuxTables, NamesAt, StrtabOk, ParseNeeds, GapsFit, Planned, TableFits, AllFit;
    FilesNamed(d, p, q, out);
    PlannedTable(d, p, q);
    NeedTableParses(out, q.blobOff, q.blobOff + q.rel, q.needs, 16 * |q.needs|, p.num);
  }

  lemma {:induction false} PlannedTable(d: seq<byte>, p: Parsed, q: Plan)
    requires Planned(d, p, q)
    ensures q.needs != [] && |q.needs| == |p.needs| && AllFit(q.needs) && GapsFit(q.needs, 16 * |q.needs|)
  {
    hide Serialize, BlobOf, RoundUp8, RoundUp16, NewAux, NeedFits, GapsFit, AppendAux;
  }

  function NewParsed(p: Parsed, q: Plan): Parsed
    requires q.spare < |p.phs|
  {
    Parsed(p.h, NewPhdrs(p, q), p.dynOff, NewDyn(p, q, p.dyn),
           p.strtab.(val := q.blobVa), p.strsz.(val := |q.dynstr|), p.verneed.(val := q.blobVa + q.rel),
           q.blobOff, q.blobOff + q.rel, p.num, q.needs)
  }

  lemma {:induction false} OutputHeaders(d: seq<byte>, p: Parsed, q: Plan, out: seq<byte>)
    requires GoodRun(d, p, q, out)
    ensures q.spare < |p.phs| && ReadHeader(out) == Ok(p.h) && PhdrsAre(out, p.h, NewPhdrs(p, q))
    ensures DynsAre(out, p.dynOff, NewDyn(p, q, p.dyn))
  {
    hide Apply, LaidOut, ReadHeader, PhdrsAre, DynsAre, PlanOk, ParsedOk, LayoutOk, StrtabOk;
    GoodRunLaidOut(d, p, q, out);
    ParsedPhdrs(d, p);
    PlanVa(d, p, q);
    HeaderKept(d, p, q, out);
    PhdrsWritten(d, p, q, out);
    DynsWritten(d, p, q, out);
  }

  lemma {:induction false} ParsedTags(d: seq<byte>, p: Parsed)
    requires ParsedOk(d, p)
    ensures FirstOf(p.phs, PT_DYNAMIC).Some? && p.dynOff == p.phs[FirstOf(p.phs, PT_DYNAMIC).value].off
    ensures Lookup(p.dyn, DT_RELR).Some?
    ensures Lookup(p.dyn, DT_STRTAB) == Some(p.strtab) && Lookup(p.dyn, DT_STRSZ) == Some(p.strsz)
    ensures Lookup(p.dyn, DT_VERNEED) == Some(p.verneed)
    ensures Lookup(p.dyn, DT_VERNEEDNUM).Some? && Lookup(p.dyn, DT_VERNEEDNUM).value.val == p.num
  {
    hide DynsAre, PhdrsAre, FirstOf, Lookup, VaToOff, ParseNeeds, ReadHeader;
  }

  /** DT_VERNEEDNUM is not one of the patched entries. */
  lemma {:induction false} CountEntryApart(d: seq<byte>, p: Parsed, q: Plan)
    requires ParsedOk(d, p)
    ensures Lookup(p.dyn, DT_VERNEEDNUM).Some?
    ensures Repoint(p, q, Lookup(p.dyn, DT_VERNEEDNUM).value) == Lookup(p.dyn, DT_VERNEEDNUM).value
  {
    hide ParsedOk, DynsAre, Lookup;
    ParsedTags(d, p);
    ParsedPhdrs(d, p);
    var e := Lookup(p.dyn, DT_VERNEEDNUM).value;
    if e.at == p.strtab.at { SameEntry(d, p, e, p.strtab); }
    if e.at == p.strsz.at { SameEntry(d, p, e, p.strsz); }
    if e.at == p.verneed.at { SameEntry(d, p, e, p.verneed); }
  }

  lemma {:induction false} OutputTags(d: seq<byte>, p: Parsed, q: Plan)
    requires ParsedOk(d, p)
    ensures var dyn := NewDyn(p, q, p.dyn);
            && Lookup(dyn, DT_RELR).Some?
            && Lookup(dyn, DT_STRTAB) == Some(p.strtab.(val := q.blobVa))
            && Lookup(dyn, DT_STRSZ) == Some(p.strsz.(val := |q.dynstr|))
            && Lookup(dyn, DT_VERNEED) == Some(p.verneed.(val := q.blobVa + q.rel))
            && Lookup(dyn, DT_VERNEEDNUM).Some? && Lookup(dyn, DT_VERNEEDNUM).value.val == p.num
  {
    hide ParsedOk, Lookup, NewDyn, DynEnd;
    ParsedTags(d, p);
    Placed(d, p);
    CountEntryApart(d, p, q);
    LookupNew(p, q, p.dyn, DT_RELR);
    LookupNew(p, q, p.dyn, DT_STRTAB);
    LookupNew(p, q, p.dyn, DT_STRSZ);
    LookupNew(p, q, p.dyn, DT_VERNEED);
    LookupNew(p, q, p.dyn, DT_VERNEEDNUM);
  }

  lemma {:induction false} BlobBig(d: seq<byte>, p: Parsed, q: Plan)
    requires Planned(d, p, q)
    ensures |q.blob| > q.rel
  {
    PlannedTable(d, p, q);
    hide AppendAux, NewAux, TableFits, RoundUp8, RoundUp16, AuxCount;
  }

  lemma {:induction false} OutputMaps(d: seq<byte>, p: Parsed, q: Plan, out: seq<byte>)
    requires GoodRun(d, p, q, out)
    ensures q.spare < |p.phs|
    ensures VaToOff(NewPhdrs(p, q), q.blobVa) == Ok(q.blobOff)
    ensures VaToOff(NewPhdrs(p, q), q.blobVa + q.rel) == Ok(q.blobOff + q.rel)
  {
    hide Apply, PlanOk, ParsedOk, StrtabOk, VaToOff, Planned, LoadsOk, ShdrOff, PhdrOff, DynEnd;
    PlanVa(d, p, q);
    GoodRunPlanned(d, p, q, out);
    BlobBig(d, p, q);
    AddressesResolve(d, p, q, q.blobVa);
    AddressesResolve(d, p, q, q.blobVa + q.rel);
  }

  lemma {:induction false} OutputTables(d: seq<byte>, p: Parsed, q: Plan, out: seq<byte>)
    requires GoodRun(d, p, q, out)
    ensures Planned(d, p, q) && StrtabOk(d, p)
    ensures p.strsz.val > 0 && p.strtabOff + p.strsz.val <= |d|
    ensures TablesAt(d, p, q, out)
  {
    hide Apply, LaidOut, PlanOk, ParsedOk, LayoutOk, StrtabOk, At, TablesAt, PhdrsAre, DynsAre;
    GoodRunLaidOut(d, p, q, out);
    GoodRunPlanned(d, p, q, out);
    ParsedPhdrs(d, p);
    DynBounds(d, p);
    SpareInside(d, p, q);
    PlannedBounds(d, p, q);
    BlobWritten(d, p, q, out);
    TablesWritten(d, p, q, out);
  }

  lemma {:induction false} PlannedBounds(d: seq<byte>, p: Parsed, q: Plan)
    requires Planned(d, p, q)
    ensures p.strsz.val > 0 && p.strtabOff + p.strsz.val <= |d| && q.blobOff == RoundUp16(|d|)
  {
    hide TableFits, Serialize, BlobOf, AppendAux, NewAux, RoundUp8, RoundUp16;
  }

  lemma {:induction false} SpareInside(d: seq<byte>, p: Parsed, q: Plan)
    requires LaidOut(d, p, q) && PhdrsAre(d, p.h, p.phs)
    ensures PhdrOff(p.h, q.spare) + PHDR_SIZE <= |d|
  {
    hide PhdrOff, PhdrAt, LayoutOk, PatchesPlaced;
  }

  lemma {:induction false} ParsedNeeds(d: seq<byte>, p: Parsed)
    requires ParsedOk(d, p) && p.needs != []
    ensures NamesAt(d, p.strtabOff, p.needs) && p.num >= |p.needs|
  {
    hide DynsAre, PhdrsAre, FirstOf, Lookup, VaToOff, ParseNeeds, ReadHeader, NamesAt;
    NamedFiles(d, p.strtabOff, p.verneedOff, p.num);
    NoNeeds(d, p.strtabOff, p.verneedOff, p.num);
  }

  lemma {:induction false} NoNeeds(d: seq<byte>, strtab: nat, o: nat, num: int)
    ensures num <= 0 ==> ParseNeeds(d, strtab, o, num) == Ok([])
  {
  }

  /** The tool reads its output as what it wrote: the same header and dynamic section
      with three new values, one more loaded segment, and the extended version needs. */
  lemma {:induction false} OutputParses(d: seq<byte>, p: Parsed, q: Plan, out: seq<byte>)
    requires GoodRun(d, p, q, out)
    ensures q.spare < |p.phs| && Parse(out) == Ok(NewParsed(p, q))
  {
    hide GoodRun, Apply, PlanOk, ParsedOk, LayoutOk, StrtabOk, Planned, TablesAt, NewDyn, Lookup, VaToOff, ParseNeeds;
    OutputHeaders(d, p, q, out);
    OutputMaps(d, p, q, out);
    OutputNeeds(d, p, q, out);
    OutputFirst(d, p, q, out);
    GoodRunParts(d, p, q, out);
    OutputTags(d, p, q);
    ParsedAgain(p, q, out);
  }

  lemma {:induction false} GoodRunParts(d: seq<byte>, p: Parsed, q: Plan, out: seq<byte>)
    requires GoodRun(d, p, q, out)
    ensures ParsedOk(d, p) && PlanOk(d, p, q) && Apply(d, p, q) == Ok(out)
  {
    hide ParsedOk, PlanOk, Apply, LayoutOk, StrtabOk;
  }

  lemma {:induction false} OutputNeeds(d: seq<byte>, p: Parsed, q: Plan, out: seq<byte>)
    requires GoodRun(d, p, q, out)
    ensures ParseNeeds(out, q.blobOff, q.blobOff + q.rel, p.num) == Ok(q.needs)
  {
    hide GoodRun, ParsedOk, PlanOk, Apply, StrtabOk, Planned, TablesAt, ParseNeeds, NamesAt;
    GoodRunParts(d, p, q, out);
    OutputTables(d, p, q, out);
    PlannedTable(d, p, q);
    ParsedNeeds(d, p);
    NeedsReadBack(d, p, q, out);
  }

  lemma {:induction false} OutputFirst(d: seq<byte>, p: Parsed, q: Plan, out: seq<byte>)
    requires GoodRun(d, p, q, out)
    ensures q.spare < |p.phs| && FirstOf(NewPhdrs(p, q), PT_DYNAMIC).Some?
    ensures p.dynOff == NewPhdrs(p, q)[FirstOf(NewPhdrs(p, q), PT_DYNAMIC).value].off
  {
    hide GoodRun, ParsedOk, PlanOk, Apply, FirstOf;
    GoodRunParts(d, p, q, out);
    ParsedTags(d, p);
    PlanVa(d, p, q);
    FirstKept(p, q);
  }

  lemma {:induction false} ParsedAgain(p: Parsed, q: Plan, out: seq<byte>)
    requires q.spare < |p.phs| && ReadHeader(out) == Ok(p.h) && PhdrsAre(out, p.h, NewPhdrs(p, q))
    requires DynsAre(out, p.dynOff, NewDyn(p, q, p.dyn))
    requires FirstOf(NewPhdrs(p, q), PT_DYNAMIC).Some?
    requires p.dynOff == NewPhdrs(p, q)[FirstOf(NewPhdrs(p, q), PT_DYNAMIC).value].off
    requires VaToOff(NewPhdrs(p, q), q.blobVa) == Ok(q.blobOff)
    requires VaToOff(NewPhdrs(p, q), q.blobVa + q.rel) == Ok(q.blobOff + q.rel)
    requires ParseNeeds(out, q.blobOff, q.blobOff + q.rel, p.num) == Ok(q.needs)
    requires var dyn := NewDyn(p, q, p.dyn);
            && Lookup(dyn, DT_RELR).Some?
            && Lookup(dyn, DT_STRTAB) == Some(p.strtab.(val := q.blobVa))
            && Lookup(dyn, DT_STRSZ) == Some(p.strsz.(val := |q.dynstr|))
            && Lookup(dyn, DT_VERNEED) == Some(p.verneed.(val := q.blobVa + q.rel))
            && Lookup(dyn, DT_VERNEEDNUM).Some? && Lookup(dyn, DT_VERNEEDNUM).value.val == p.num
    ensures Parse(out) == Ok(NewParsed(p, q))
  {
    hide FirstOf, Lookup, VaToOff, ParseNeeds, ReadHeader, PhdrsAre, DynsAre, NewPhdrs, NewDyn, Parse;
    assert ParsedOk(out, NewParsed(p, q));
    hide ParsedOk;
    ParseGives(out, NewParsed(p, q));
  }
}
