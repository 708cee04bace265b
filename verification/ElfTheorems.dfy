/** Main results on declare-dt-relr.py: what it leaves alone, where it puts the new
    segment, what a loader reads from its output, and that it runs only once. */
module ElfTheorems {
  import opened Basics
  import opened ElfBytes
  import opened ElfFormat
  import opened ElfRewrite
  import opened ElfTables
  import opened ElfFrame

  /** The tool read p, decided q and wrote out. */
  predicate Ran(d: seq<byte>, p: Parsed, q: Plan, out: seq<byte>) {
    Parse(d) == Ok(p) && MakePlan(d, p) == Ok(q) && Apply(d, p, q) == Ok(out)
  }

  lemma {:induction false} DeclareRan(d: seq<byte>)
    requires Declare(d).Ok?
    ensures exists p, q :: Ran(d, p, q, Declare(d).value)
  {
    hide Parse, MakePlan, Apply;
    var p := Parse(d).value;
    assert Ran(d, p, MakePlan(d, p).value, Declare(d).value);
  }

  // ---- what a run gives --------------------------------------------------

  predicate ParsedOk(d: seq<byte>, p: Parsed) {
    && ReadHeader(d) == Ok(p.h) && PhdrsAre(d, p.h, p.phs)
    && FirstOf(p.phs, PT_DYNAMIC).Some? && p.dynOff == p.phs[FirstOf(p.phs, PT_DYNAMIC).value].off
    && DynsAre(d, p.dynOff, p.dyn)
    && Lookup(p.dyn, DT_RELR).Some?
    && Lookup(p.dyn, DT_STRTAB) == Some(p.strtab) && Lookup(p.dyn, DT_STRSZ) == Some(p.strsz)
    && Lookup(p.dyn, DT_VERNEED) == Some(p.verneed)
    && VaToOff(p.phs, p.strtab.val) == Ok(p.strtabOff) && VaToOff(p.phs, p.verneed.val) == Ok(p.verneedOff)
    && Lookup(p.dyn, DT_VERNEEDNUM).Some? && Lookup(p.dyn, DT_VERNEEDNUM).value.val == p.num
    && ParseNeeds(d, p.strtabOff, p.verneedOff, p.num) == Ok(p.needs)
  }

  /** The same with the arrays read as a whole. */
  predicate ParsedWhole(d: seq<byte>, p: Parsed) {
    && ReadHeader(d) == Ok(p.h) && ReadPhdrs(d, p.h, 0) == Ok(p.phs)
    && FirstOf(p.phs, PT_DYNAMIC).Some? && p.dynOff == p.phs[FirstOf(p.phs, PT_DYNAMIC).value].off
    && ReadDyn(d, p.dynOff) == Ok(p.dyn)
    && Lookup(p.dyn, DT_RELR).Some?
    && Lookup(p.dyn, DT_STRTAB) == Some(p.strtab) && Lookup(p.dyn, DT_STRSZ) == Some(p.strsz)
    && Lookup(p.dyn, DT_VERNEED) == Some(p.verneed)
    && VaToOff(p.phs, p.strtab.val) == Ok(p.strtabOff) && VaToOff(p.phs, p.verneed.val) == Ok(p.verneedOff)
    && Lookup(p.dyn, DT_VERNEEDNUM).Some? && Lookup(p.dyn, DT_VERNEEDNUM).value.val == p.num
    && ParseNeeds(d, p.strtabOff, p.verneedOff, p.num) == Ok(p.needs)
  }

  lemma {:induction false} ParseWhole(d: seq<byte>, p: Parsed)
    ensures Parse(d) == Ok(p) <==> ParsedWhole(d, p)
  {
    hide FirstOf, Lookup, VaToOff, ParseNeeds, ReadHeader, ReadPhdrs, ReadDyn;
  }

  lemma {:induction false} DynsExactly(d: seq<byte>, o: nat, dyn: seq<Dyn>)
    ensures ReadDyn(d, o) == Ok(dyn) <==> DynsAre(d, o, dyn)
  {
    hide DynsAre, ReadDyn;
    if ReadDyn(d, o).Ok? { DynsFrom(d, o); }
    if DynsAre(d, o, dyn) { DynsTo(d, o, dyn); }
  }

  lemma {:induction false} ParseGives(d: seq<byte>, p: Parsed)
    ensures Parse(d) == Ok(p) <==> ParsedOk(d, p)
  {
    hide Parse, FirstOf, Lookup, VaToOff, ParseNeeds, ReadHeader, ReadPhdrs, ReadDyn, PhdrsAre, DynsAre;
    ParseWhole(d, p);
    PhdrsExactly(d, p.h, p.phs);
    DynsExactly(d, p.dynOff, p.dyn);
  }

  /** What the plan contains. */
  predicate PlanOk(d: seq<byte>, p: Parsed, q: Plan) {
    && HashesOk(d, p.strtabOff, p.needs)
    && FindLibc(p.needs) == Some(q.target) && q.target < |p.needs|
    && !Declares(d, p.strtabOff, p.needs[q.target].aux)
    && FirstOf(p.phs, PT_NOTE) == Some(q.spare) && q.spare < |p.phs|
    && p.strsz.val >= 0 && MaxIndex(p.needs) >= 0
    && q.needs == AppendAux(p.needs, q.target, NewAux(p)) && TableFits(q.needs)
    && q.dynstr == Slice(d, p.strtabOff, p.strsz.val) + VERSION + [0]
    && q.table == Serialize(q.needs)
    && q.blobOff == RoundUp16(|d|) && q.rel == RoundUp8(|q.dynstr|)
    && q.blob == BlobOf(q.dynstr, q.table)
    && Top(p.phs) >= 0 && q.blobVa == BlobVa(q.blobOff, Top(p.phs))
  }

  lemma {:induction false} PlanGives(d: seq<byte>, p: Parsed, q: Plan)
    requires MakePlan(d, p) == Ok(q)
    ensures PlanOk(d, p, q)
  {
    hide HashesOk, Declares, TableFits, Serialize, BlobOf, BlobVa, NewAux, AppendAux, Slice, MaxIndex, Top;
  }

  // ---- layout ------------------------------------------------------------

  /** Loaded segments do not have more file bytes than memory (gABI chapter 5). */
  predicate LoadsOk(phs: seq<Phdr>) {
    forall i :: 0 <= i < |phs| && phs[i].ty == PT_LOAD ==> phs[i].filesz <= phs[i].memsz
  }

  function DynEnd(p: Parsed): nat {
    p.dynOff + 16 * |p.dyn| + 16
  }

  /** The ELF header, the program headers, the dynamic section and the section headers
      do not overlap, and the entries are at least as large as the standard ones. */
  predicate LayoutOk(d: seq<byte>, p: Parsed) {
    var phEnd, shEnd := PhdrOff(p.h, p.h.phnum), ShdrOff(p.h, p.h.shnum);
    && p.h.phentsize >= PHDR_SIZE && (p.h.shnum > 0 ==> p.h.shentsize >= 40) && shEnd <= |d|
    && Apart(0, 0x40, p.h.phoff, phEnd) && Apart(0, 0x40, p.dynOff, DynEnd(p)) && Apart(0, 0x40, p.h.shoff, shEnd)
    && Apart(p.h.phoff, phEnd, p.dynOff, DynEnd(p)) && Apart(p.h.phoff, phEnd, p.h.shoff, shEnd)
    && Apart(p.dynOff, DynEnd(p), p.h.shoff, shEnd)
    && LoadsOk(p.phs)
  }

  lemma {:induction false} MulStep(a: nat, b: nat, n: nat)
    requires a < b
    ensures a * n + n <= b * n
    decreases b
  {
    assert b * n == (b - 1) * n + n;
    if a < b - 1 { MulStep(a, b - 1, n); }
  }

  lemma {:induction false} PhdrInside(h: Header, k: nat)
    requires k < h.phnum && h.phentsize >= PHDR_SIZE
    ensures h.phoff <= PhdrOff(h, k) && PhdrOff(h, k) + PHDR_SIZE <= PhdrOff(h, h.phnum)
  {
    MulStep(k, h.phnum, h.phentsize);
  }

  lemma {:induction false} PhdrsApart(h: Header, j: nat, k: nat)
    requires j != k && h.phentsize >= PHDR_SIZE
    ensures Apart(PhdrOff(h, j), PhdrOff(h, j) + PHDR_SIZE, PhdrOff(h, k), PhdrOff(h, k) + PHDR_SIZE)
  {
    if j < k { MulStep(j, k, h.phentsize); } else { MulStep(k, j, h.phentsize); }
  }

  lemma {:induction false} ShdrInside(h: Header, k: nat)
    requires k < h.shnum && h.shentsize >= 40
    ensures h.shoff <= ShdrOff(h, k) && ShdrOff(h, k) + 40 <= ShdrOff(h, h.shnum)
  {
    MulStep(k, h.shnum, h.shentsize);
  }

  /** A region away from the section headers is away from every section's triple. */
  lemma {:induction false} ApartFromSections(h: Header, a: nat, b: nat)
    requires (h.shnum > 0 ==> h.shentsize >= 40) && Apart(a, b, h.shoff, ShdrOff(h, h.shnum))
    ensures forall k :: 0 <= k < h.shnum ==> Apart(a, b, ShdrOff(h, k) + 16, ShdrOff(h, k) + 40)
  {
    hide ShdrOff;
    forall k | 0 <= k < h.shnum ensures Apart(a, b, ShdrOff(h, k) + 16, ShdrOff(h, k) + 40) {
      ShdrInside(h, k);
    }
  }

  // ---- the four loader patches -------------------------------------------

  /** [a, b) is away from the recycled header and the three values. */
  predicate ApartFromPatches(p: Parsed, q: Plan, a: nat, b: nat) {
    && Apart(a, b, PhdrOff(p.h, q.spare), PhdrOff(p.h, q.spare) + PHDR_SIZE)
    && Apart(a, b, p.strtab.at + 8, p.strtab.at + 16)
    && Apart(a, b, p.strsz.at + 8, p.strsz.at + 16)
    && Apart(a, b, p.verneed.at + 8, p.verneed.at + 16)
  }

  lemma {:induction false} LoaderSame(d: seq<byte>, p: Parsed, q: Plan, a: nat, b: nat)
    requires PatchLoader(d, p, q).Ok? && b <= |d| && ApartFromPatches(p, q, a, b)
    ensures SameOn(d, PatchLoader(d, p, q).value, a, b)
  {
    hide PhdrBytes, Bytes, SameOn, PhdrOff, Put;
    var o := PhdrOff(p.h, q.spare);
    FourSame(d, o, PhdrBytes(NewPhdr(q)), p.strtab.at + 8, Bytes(q.blobVa, 8), p.strsz.at + 8, Bytes(|q.dynstr|, 8),
             p.verneed.at + 8, Bytes(q.blobVa + q.rel, 8), a, b);
  }

  /** Two puts away from a range leave it. */
  lemma {:induction false} TwoSame(d: seq<byte>, o1: nat, s1: seq<byte>, o2: nat, s2: seq<byte>, a: nat, b: nat)
    requires Put(d, o1, s1).Ok? && Put(Put(d, o1, s1).value, o2, s2).Ok? && b <= |d|
    requires Apart(a, b, o1, o1 + |s1|) && Apart(a, b, o2, o2 + |s2|)
    ensures |Put(Put(d, o1, s1).value, o2, s2).value| == |d|
    ensures SameOn(d, Put(Put(d, o1, s1).value, o2, s2).value, a, b)
  {
    hide SameOn, Apart;
    var d1 := Put(d, o1, s1).value;
    PutSame(d, o1, s1, a, b);
    PutSame(d1, o2, s2, a, b);
    hide Put;
    SameTrans(d, d1, Put(d1, o2, s2).value, a, b);
  }

  lemma {:induction false} FourSame(d: seq<byte>, o1: nat, s1: seq<byte>, o2: nat, s2: seq<byte>, o3: nat, s3: seq<byte>,
                                    o4: nat, s4: seq<byte>, a: nat, b: nat)
    requires b <= |d| && Put(d, o1, s1).Ok?
    requires Put(Put(d, o1, s1).value, o2, s2).Ok?
    requires var d2 := Put(Put(d, o1, s1).value, o2, s2).value;
             Put(d2, o3, s3).Ok? && Put(Put(d2, o3, s3).value, o4, s4).Ok?
    requires Apart(a, b, o1, o1 + |s1|) && Apart(a, b, o2, o2 + |s2|)
    requires Apart(a, b, o3, o3 + |s3|) && Apart(a, b, o4, o4 + |s4|)
    ensures var d2 := Put(Put(d, o1, s1).value, o2, s2).value;
            SameOn(d, Put(Put(d2, o3, s3).value, o4, s4).value, a, b)
  {
    hide SameOn, Apart, Put;
    var d2 := Put(Put(d, o1, s1).value, o2, s2).value;
    TwoSame(d, o1, s1, o2, s2, a, b);
    TwoSame(d2, o3, s3, o4, s4, a, b);
    SameTrans(d, d2, Put(Put(d2, o3, s3).value, o4, s4).value, a, b);
  }

  /** The written values are there afterwards when their places are apart. */
  lemma {:induction false} LoaderWrites(d: seq<byte>, p: Parsed, q: Plan)
    requires PatchLoader(d, p, q).Ok?
    requires var o := PhdrOff(p.h, q.spare);
             && Apart(o, o + PHDR_SIZE, p.strtab.at + 8, p.strtab.at + 16)
             && Apart(o, o + PHDR_SIZE, p.strsz.at + 8, p.strsz.at + 16)
             && Apart(o, o + PHDR_SIZE, p.verneed.at + 8, p.verneed.at + 16)
    requires Apart(p.strtab.at + 8, p.strtab.at + 16, p.strsz.at + 8, p.strsz.at + 16)
    requires Apart(p.strtab.at + 8, p.strtab.at + 16, p.verneed.at + 8, p.verneed.at + 16)
    requires Apart(p.strsz.at + 8, p.strsz.at + 16, p.verneed.at + 8, p.verneed.at + 16)
    ensures var e := PatchLoader(d, p, q).value;
            && At(e, PhdrOff(p.h, q.spare), PhdrBytes(NewPhdr(q)))
            && At(e, p.strtab.at + 8, Bytes(q.blobVa, 8))
            && At(e, p.strsz.at + 8, Bytes(|q.dynstr|, 8))
            && At(e, p.verneed.at + 8, Bytes(q.blobVa + q.rel, 8))
  {
    hide PhdrBytes, Bytes, SameOn, PhdrOff, At, Put;
    var o := PhdrOff(p.h, q.spare);
    var s1, s2, s3, s4 := PhdrBytes(NewPhdr(q)), Bytes(q.blobVa, 8), Bytes(|q.dynstr|, 8), Bytes(q.blobVa + q.rel, 8);
    var d1 := Put(d, o, s1).value;
    var d2 := Put(d1, p.strtab.at + 8, s2).value;
    var d3 := Put(d2, p.strsz.at + 8, s3).value;
    TwoPuts(d, o, s1, p.strtab.at + 8, s2);
    hide PatchLoader;
    KeepTwo(d2, o, s1, p.strtab.at + 8, s2, p.strsz.at + 8, s3);
    KeepThree(d3, o, s1, p.strtab.at + 8, s2, p.strsz.at + 8, s3, p.verneed.at + 8, s4);
  }

  lemma {:induction false} TwoPuts(d: seq<byte>, o: nat, s: seq<byte>, o2: nat, t: seq<byte>)
    requires Put(d, o, s).Ok? && Put(Put(d, o, s).value, o2, t).Ok? && Apart(o, o + |s|, o2, o2 + |t|)
    ensures At(Put(Put(d, o, s).value, o2, t).value, o, s) && At(Put(Put(d, o, s).value, o2, t).value, o2, t)
  {
    PutAt(d, o, s);
    PutAt(Put(d, o, s).value, o2, t);
    hide Put;
    KeepAt(Put(d, o, s).value, o, s, o2, t);
  }

  lemma {:induction false} KeepTwo(d: seq<byte>, o: nat, s: seq<byte>, o2: nat, s2: seq<byte>, o3: nat, t: seq<byte>)
    requires Put(d, o3, t).Ok? && At(d, o, s) && At(d, o2, s2)
    requires Apart(o, o + |s|, o3, o3 + |t|) && Apart(o2, o2 + |s2|, o3, o3 + |t|)
    ensures At(Put(d, o3, t).value, o, s) && At(Put(d, o3, t).value, o2, s2) && At(Put(d, o3, t).value, o3, t)
  {
    PutAt(d, o3, t);
    hide Put, At;
    KeepAt(d, o, s, o3, t);
    KeepAt(d, o2, s2, o3, t);
  }

  lemma {:induction false} KeepThree(d: seq<byte>, o: nat, s: seq<byte>, o2: nat, s2: seq<byte>, o3: nat, s3: seq<byte>, o4: nat, t: seq<byte>)
    requires Put(d, o4, t).Ok? && At(d, o, s) && At(d, o2, s2) && At(d, o3, s3)
    requires Apart(o, o + |s|, o4, o4 + |t|) && Apart(o2, o2 + |s2|, o4, o4 + |t|) && Apart(o3, o3 + |s3|, o4, o4 + |t|)
    ensures At(Put(d, o4, t).value, o, s) && At(Put(d, o4, t).value, o2, s2) && At(Put(d, o4, t).value, o3, s3)
    ensures At(Put(d, o4, t).value, o4, t)
  {
    hide Put, At;
    KeepTwo(d, o, s, o2, s2, o4, t);
    KeepTwo(d, o2, s2, o3, s3, o4, t);
  }

  /** A written string survives a later write elsewhere. */
  lemma {:induction false} KeepAt(d: seq<byte>, o: nat, s: seq<byte>, o2: nat, t: seq<byte>)
    requires Put(d, o2, t).Ok? && Apart(o, o + |s|, o2, o2 + |t|)
    requires At(d, o, s)
    ensures At(Put(d, o2, t).value, o, s)
  {
    PutSame(d, o2, t, o, o + |s|);
    SameAt(d, Put(d, o2, t).value, o, s);
  }

  // ---- the whole image ---------------------------------------------------

  /** The image after the four loader patches. */
  function Patched(d: seq<byte>, p: Parsed, q: Plan): seq<byte>
    requires PatchLoader(Grown(d, q), p, q).Ok?
  {
    PatchLoader(Grown(d, q), p, q).value
  }

  lemma {:induction false} RunImages(d: seq<byte>, p: Parsed, q: Plan, out: seq<byte>)
    requires Apply(d, p, q) == Ok(out)
    ensures PlanFits(q) && PatchLoader(Grown(d, q), p, q).Ok?
    ensures var e := Patched(d, p, q);
            var o := ShdrOff(p.h, p.h.shstrndx) + 24;
            && o + 8 <= |e| && PatchSections(e, p.h, Read(e, o, 8), q, 0) == Ok(out)
            && |out| == |Grown(d, q)|
  {
    hide PatchLoader, PatchSections, Grown, PlanFits, Read, ShdrOff;
  }

  /** A region away from every write is the same in the grown input and the output. */
  lemma {:induction false} Kept(d: seq<byte>, p: Parsed, q: Plan, out: seq<byte>, a: nat, b: nat)
    requires Apply(d, p, q) == Ok(out) && b <= |Grown(d, q)|
    requires ApartFromPatches(p, q, a, b)
    requires forall k :: 0 <= k < p.h.shnum ==> Apart(a, b, ShdrOff(p.h, k) + 16, ShdrOff(p.h, k) + 40)
    ensures SameOn(Grown(d, q), out, a, b)
  {
    RunImages(d, p, q, out);
    hide PatchLoader, PatchSections, SameOn, Apart, Grown, ShdrOff, Apply;
    var e := Patched(d, p, q);
    LoaderSame(Grown(d, q), p, q, a, b);
    SectionsSame(e, p.h, Read(e, ShdrOff(p.h, p.h.shstrndx) + 24, 8), q, 0, a, b);
    SameTrans(Grown(d, q), e, out, a, b);
  }

  /** Every old byte outside the spare program header, the three dynamic values and
      the address, offset and size of section headers is unchanged. */
  lemma {:induction false} OldBytesUnchanged(d: seq<byte>, p: Parsed, q: Plan, out: seq<byte>, i: nat)
    requires Ran(d, p, q, out) && i < |d|
    requires ApartFromPatches(p, q, i, i + 1)
    requires forall k :: 0 <= k < p.h.shnum ==> Apart(i, i + 1, ShdrOff(p.h, k) + 16, ShdrOff(p.h, k) + 40)
    ensures |out| == RoundUp16(|d|) + |q.blob| && out[i] == d[i]
  {
    hide Grown, Apply, Parse, MakePlan, PatchLoader, PatchSections, ApartFromPatches, ShdrOff, Patched, PlanFits;
    RunImages(d, p, q, out);
    GrownParts(d, q);
    Kept(d, p, q, out, i, i + 1);
  }

  lemma {:induction false} GrownParts(d: seq<byte>, q: Plan)
    ensures |Grown(d, q)| == RoundUp16(|d|) + |q.blob| && |d| <= RoundUp16(|d|)
    ensures SameOn(d, Grown(d, q), 0, |d|) && At(Grown(d, q), RoundUp16(|d|), q.blob)
  {
  }

  // ---- placement ---------------------------------------------------------

  /** The new segment lies a page-multiple above everything the object claims, at an
      address congruent to its file offset, page-disjoint from all loaded segments
      for every page size up to ALIGN. */
  lemma {:induction false} NewSegmentPlacement(d: seq<byte>, p: Parsed, q: Plan, i: nat, pageSize: nat)
    requires PlanOk(d, p, q) && i < |p.phs| && p.phs[i].ty == PT_LOAD
    requires pageSize > 0 && ALIGN % pageSize == 0
    ensures (q.blobVa - q.blobOff) % ALIGN == 0
    ensures Top(p.phs) + ALIGN <= q.blobVa <= Top(p.phs) + 2 * ALIGN - 1
    ensures p.phs[i].va + p.phs[i].memsz <= Top(p.phs)
    ensures (p.phs[i].va + p.phs[i].memsz + pageSize - 1) / pageSize <= q.blobVa / pageSize
  {
    hide PlanOk, Top;
    VaBounds(d, p, q);
    PagesApart(p.phs[i].va + p.phs[i].memsz, q.blobVa, pageSize);
  }

  lemma {:induction false} PagesApart(end: nat, va: nat, pageSize: nat)
    requires pageSize > 0 && ALIGN % pageSize == 0 && end + ALIGN <= va
    ensures (end + pageSize - 1) / pageSize <= va / pageSize
  {
    PageBelow(pageSize);
    DivMono(end + pageSize - 1, va, pageSize);
  }

  lemma {:induction false} PlanVa(d: seq<byte>, p: Parsed, q: Plan)
    requires PlanOk(d, p, q)
    ensures Top(p.phs) >= 0 && q.blobVa == BlobVa(q.blobOff, Top(p.phs))
    ensures q.spare < |p.phs| && p.phs[q.spare].ty == PT_NOTE
  {
    hide HashesOk, Declares, TableFits, Serialize, BlobOf, BlobVa, AppendAux, NewAux, MaxIndex, FindLibc, Top, Slice;
    hide RoundUp16, RoundUp8;
  }

  lemma {:induction false} VaBounds(d: seq<byte>, p: Parsed, q: Plan)
    requires PlanOk(d, p, q)
    ensures (q.blobVa - q.blobOff) % ALIGN == 0
    ensures Top(p.phs) + ALIGN <= q.blobVa <= Top(p.phs) + 2 * ALIGN - 1
    ensures q.spare < |p.phs| && p.phs[q.spare].ty == PT_NOTE
  {
    hide PlanOk, Top, BlobVa;
    PlanVa(d, p, q);
  }

  lemma {:induction false} PageBelow(pageSize: nat)
    requires pageSize > 0 && ALIGN % pageSize == 0
    ensures pageSize <= ALIGN
  {
  }

  lemma {:induction false} DivMono(a: nat, b: nat, n: nat)
    requires a <= b && n > 0
    ensures a / n <= b / n
  {
    var x, y := a / n, b / n;
    assert a == n * x + a % n && b == n * y + b % n;
    if x > y { MulStep(y, x, n); }
  }

  predicate Unmapped(phs: seq<Phdr>, va: int) {
    forall i :: 0 <= i < |phs| ==> !Maps(phs[i], va)
  }

  lemma {:induction false} TopAbove(phs: seq<Phdr>, va: int)
    requires LoadsOk(phs) && va >= Top(phs)
    ensures Unmapped(phs, va)
  {
    forall i | 0 <= i < |phs| ensures !Maps(phs[i], va) {
      if phs[i].ty == PT_LOAD { assert phs[i].va + phs[i].memsz <= Top(phs); }
    }
  }

  lemma {:induction false} UnmappedResolves(phs: seq<Phdr>, i: nat, ph: Phdr, va: int)
    requires i < |phs| && Unmapped(phs, va) && Maps(ph, va)
    ensures VaToOff(phs[i := ph], va) == Ok(ph.off + (va - ph.va))
    decreases i
  {
    hide Maps;
    if i > 0 {
      assert Maps(phs[0], va) == false;
      forall k | 0 <= k < |phs[1..]| ensures !Maps(phs[1..][k], va) { assert !Maps(phs[k + 1], va); }
      UnmappedResolves(phs[1..], i - 1, ph, va);
      assert phs[i := ph][1..] == phs[1..][i - 1 := ph];
    }
  }

  lemma {:induction false} OtherResolves(phs: seq<Phdr>, i: nat, ph: Phdr, va: int)
    requires i < |phs| && !Maps(phs[i], va) && !Maps(ph, va)
    ensures VaToOff(phs[i := ph], va) == VaToOff(phs, va)
    decreases i
  {
    hide Maps;
    if i > 0 {
      OtherResolves(phs[1..], i - 1, ph, va);
      assert phs[i := ph][1..] == phs[1..][i - 1 := ph];
    } else {
      assert phs[0 := ph][1..] == phs[1..];
    }
  }

  lemma {:induction false} MappedBelowTop(phs: seq<Phdr>, va: int)
    requires LoadsOk(phs) && VaToOff(phs, va).Ok?
    ensures va < Top(phs)
  {
    if va >= Top(phs) {
      TopAbove(phs, va);
      NothingMaps(phs, va);
    }
  }

  lemma {:induction false} NothingMaps(phs: seq<Phdr>, va: int)
    requires Unmapped(phs, va)
    ensures VaToOff(phs, va) == Stop(NotMapped)
  {
    hide Maps;
    if phs != [] {
      forall k | 0 <= k < |phs[1..]| ensures !Maps(phs[1..][k], va) { assert !Maps(phs[k + 1], va); }
      NothingMaps(phs[1..], va);
    }
  }

  /** The program headers of the output. */
  function NewPhdrs(p: Parsed, q: Plan): seq<Phdr>
    requires q.spare < |p.phs|
  {
    p.phs[q.spare := NewPhdr(q)]
  }

  /** Every address that was mapped still resolves to the same file offset, and every
      byte of the new tables is mapped. */
  lemma {:induction false} AddressesResolve(d: seq<byte>, p: Parsed, q: Plan, va: int)
    requires PlanOk(d, p, q) && LoadsOk(p.phs)
    ensures VaToOff(p.phs, va).Ok? ==> VaToOff(NewPhdrs(p, q), va) == VaToOff(p.phs, va)
    ensures q.blobVa <= va < q.blobVa + |q.blob| ==>
              VaToOff(NewPhdrs(p, q), va) == Ok(q.blobOff + (va - q.blobVa))
  {
    hide PlanOk, Top, LoadsOk, VaToOff;
    VaBounds(d, p, q);
    if VaToOff(p.phs, va).Ok? {
      MappedBelowTop(p.phs, va);
      OtherResolves(p.phs, q.spare, NewPhdr(q), va);
    }
    if q.blobVa <= va < q.blobVa + |q.blob| {
      TopAbove(p.phs, va);
      UnmappedResolves(p.phs, q.spare, NewPhdr(q), va);
    }
  }
}
