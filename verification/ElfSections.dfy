/** The section headers: .dynstr and .gnu.version_r describe the new tables, so that
    tools reading sections agree with the loader. */
module ElfSections {
  import opened Basics
  import opened ElfBytes
  import opened ElfFormat
  import opened ElfRewrite
  import opened ElfTables
  import opened ElfFrame
  import opened ElfTheorems
  import opened ElfOutput

  /** A string is the same where its bytes and its NUL are. */
  lemma {:induction false} SameCString(d: seq<byte>, e: seq<byte>, o: nat, s: seq<byte>)
    requires CString(d, o) == Some(s) && SameOn(d, e, o, o + |s| + 1)
    ensures CString(e, o) == Some(s)
  {
    CStringMeans(d, o);
    assert e[o..o + |s|] == d[o..o + |s|];
    CStringLiteral(e, o, s);
  }

  lemma {:induction false} SectionsApart(h: Header, j: nat, k: nat)
    requires j != k && h.shentsize >= 40
    ensures Apart(ShdrOff(h, j), ShdrOff(h, j) + 40, ShdrOff(h, k), ShdrOff(h, k) + 40)
  {
    if j < k { MulStep(j, k, h.shentsize); } else { MulStep(k, j, h.shentsize); }
  }

  /** Offset of the i-th section's name. */
  function NameOff(d: seq<byte>, h: Header, shstr: nat, i: nat): nat
    requires ShdrOff(h, i) + 4 <= |d|
  {
    shstr + Read(d, ShdrOff(h, i), 4)
  }

  /** The i-th section is called s, and its name is away from every section's triple. */
  predicate Named(d: seq<byte>, h: Header, shstr: nat, i: nat, s: seq<byte>) {
    && ShdrOff(h, i) + 4 <= |d| && SectionName(d, h, shstr, i) == Some(s)
    && forall k :: 0 <= k < h.shnum ==>
         Apart(NameOff(d, h, shstr, i), NameOff(d, h, shstr, i) + |s| + 1, ShdrOff(h, k) + 16, ShdrOff(h, k) + 40)
  }

  lemma {:induction false} NamedKept(d: seq<byte>, e: seq<byte>, h: Header, shstr: nat, i: nat, s: seq<byte>)
    requires Named(d, h, shstr, i, s) && SameOn(d, e, ShdrOff(h, i), ShdrOff(h, i) + 4)
    requires SameOn(d, e, NameOff(d, h, shstr, i), NameOff(d, h, shstr, i) + |s| + 1)
    ensures Named(e, h, shstr, i, s)
  {
    hide ShdrOff, Apart, Read;
    SameField(d, e, ShdrOff(h, i), ShdrOff(h, i) + 4, ShdrOff(h, i), 4);
    SameCString(d, e, NameOff(d, h, shstr, i), s);
  }

  lemma {:induction false} NamedBounds(d: seq<byte>, h: Header, shstr: nat, i: nat, s: seq<byte>)
    requires Named(d, h, shstr, i, s)
    ensures ShdrOff(h, i) + 4 <= |d| && NameOff(d, h, shstr, i) + |s| + 1 <= |d|
  {
    hide ShdrOff, Read, Apart;
    CStringMeans(d, NameOff(d, h, shstr, i));
  }

  lemma {:induction false} StepKeepsNamed(d: seq<byte>, h: Header, shstr: nat, q: Plan, j: nat, i: nat, s: seq<byte>)
    requires PatchSection(d, h, shstr, q, j).Ok? && Named(d, h, shstr, i, s)
    requires h.shentsize >= 40 && j < h.shnum && i != j
    ensures Named(PatchSection(d, h, shstr, q, j).value, h, shstr, i, s)
  {
    hide PatchSection, ShdrOff, SectionName;
    var e := PatchSection(d, h, shstr, q, j).value;
    SectionsApart(h, i, j);
    NamedBounds(d, h, shstr, i, s);
    SectionSame(d, h, shstr, q, j, ShdrOff(h, i), ShdrOff(h, i) + 4);
    SectionSame(d, h, shstr, q, j, NameOff(d, h, shstr, i), NameOff(d, h, shstr, i) + |s| + 1);
    NamedKept(d, e, h, shstr, i, s);
  }

  lemma {:induction false} StepWrites(d: seq<byte>, h: Header, shstr: nat, q: Plan, i: nat, s: seq<byte>, t: seq<byte>)
    requires PatchSection(d, h, shstr, q, i).Ok? && Named(d, h, shstr, i, s) && MovedTo(q, s) == Some(t)
    ensures At(PatchSection(d, h, shstr, q, i).value, ShdrOff(h, i) + 16, t)
    ensures |PatchSection(d, h, shstr, q, i).value| == |d| && ShdrOff(h, i) + 40 <= |d|
  {
    hide MovedTo, SectionName, ShdrOff;
    PutAt(d, ShdrOff(h, i) + 16, t);
  }

  /** The section loop writes the triple of every section it should. */
  lemma {:induction false} SectionsWritten(d: seq<byte>, h: Header, shstr: nat, q: Plan, j: nat, i: nat, s: seq<byte>, t: seq<byte>)
    requires PatchSections(d, h, shstr, q, j).Ok? && j <= i < h.shnum && h.shentsize >= 40
    requires Named(d, h, shstr, i, s) && MovedTo(q, s) == Some(t)
    ensures At(PatchSections(d, h, shstr, q, j).value, ShdrOff(h, i) + 16, t)
    decreases i - j
  {
    hide PatchSection, ShdrOff, Named, At, MovedTo;
    var e := PatchSection(d, h, shstr, q, j).value;
    if j == i {
      StepWrites(d, h, shstr, q, i, s, t);
      RestKeeps(e, h, shstr, q, i, t);
    } else {
      StepKeepsNamed(d, h, shstr, q, j, i, s);
      SectionsWritten(e, h, shstr, q, j + 1, i, s, t);
    }
  }

  lemma {:induction false} RestKeeps(e: seq<byte>, h: Header, shstr: nat, q: Plan, i: nat, t: seq<byte>)
    requires PatchSections(e, h, shstr, q, i + 1).Ok? && At(e, ShdrOff(h, i) + 16, t) && |t| == 24
    requires h.shentsize >= 40
    ensures At(PatchSections(e, h, shstr, q, i + 1).value, ShdrOff(h, i) + 16, t)
  {
    hide PatchSections, ShdrOff, At;
    var a := ShdrOff(h, i) + 16;
    AtFits(e, a, t);
    forall k | i + 1 <= k < h.shnum ensures Apart(a, a + 24, ShdrOff(h, k) + 16, ShdrOff(h, k) + 40) {
      SectionsApart(h, i, k);
    }
    SectionsSame(e, h, shstr, q, i + 1, a, a + 24);
    SameAt(e, PatchSections(e, h, shstr, q, i + 1).value, a, t);
  }

  // ---- in terms of the input ---------------------------------------------

  /** Offset of the section name table. */
  function ShstrOff(d: seq<byte>, h: Header): nat
    requires ShdrOff(h, h.shstrndx) + 32 <= |d|
  {
    Read(d, ShdrOff(h, h.shstrndx) + 24, 8)
  }

  lemma {:induction false} GrownKept(d: seq<byte>, p: Parsed, q: Plan, a: nat, b: nat)
    requires PatchLoader(Grown(d, q), p, q).Ok? && b <= |d| && ApartFromPatches(p, q, a, b)
    ensures SameOn(d, Patched(d, p, q), a, b)
  {
    hide PatchLoader, Grown, ApartFromPatches;
    GrownParts(d, q);
    LoaderSame(Grown(d, q), p, q, a, b);
    assert SameOn(d, Grown(d, q), a, b);
    SameTrans(d, Grown(d, q), Patched(d, p, q), a, b);
  }

  /** The section headers are apart from the loader's patches. */
  lemma {:induction false} HeadersApart(d: seq<byte>, p: Parsed, q: Plan, a: nat, b: nat)
    requires LaidOut(d, p, q) && p.h.shoff <= a <= b <= ShdrOff(p.h, p.h.shnum)
    ensures ApartFromPatches(p, q, a, b)
  {
    hide ShdrOff, LoadsOk, ApartFromPatches, PhdrOff, DynEnd;
    ApartFromBoth(p, q, a, b);
  }

  lemma {:induction false} NamedInPatched(d: seq<byte>, p: Parsed, q: Plan, i: nat, s: seq<byte>)
    requires LaidOut(d, p, q) && PatchLoader(Grown(d, q), p, q).Ok? && i < p.h.shnum && p.h.shstrndx < p.h.shnum
    requires ShdrOff(p.h, p.h.shstrndx) + 32 <= |d| && Named(d, p.h, ShstrOff(d, p.h), i, s)
    requires var o := NameOff(d, p.h, ShstrOff(d, p.h), i); ApartFromPatches(p, q, o, o + |s| + 1)
    ensures ShdrOff(p.h, p.h.shstrndx) + 32 <= |Patched(d, p, q)|
    ensures Named(Patched(d, p, q), p.h, ShstrOff(d, p.h), i, s) && ShstrOff(Patched(d, p, q), p.h) == ShstrOff(d, p.h)
  {
    hide ShdrOff, Read, ApartFromPatches, PatchLoader, Grown, Patched, PatchesPlaced, Named, SameOn, LoadsOk;
    var e := Patched(d, p, q);
    NamedBounds(d, p.h, ShstrOff(d, p.h), i, s);
    var o, so, sh := NameOff(d, p.h, ShstrOff(d, p.h), i), ShdrOff(p.h, i), ShdrOff(p.h, p.h.shstrndx);
    ShdrInside(p.h, i);
    ShdrInside(p.h, p.h.shstrndx);
    HeadersApart(d, p, q, so, so + 4);
    HeadersApart(d, p, q, sh + 24, sh + 32);
    GrownKept(d, p, q, o, o + |s| + 1);
    GrownKept(d, p, q, so, so + 4);
    GrownKept(d, p, q, sh + 24, sh + 32);
    SameOnFits(d, e, sh + 24, sh + 32);
    SameField(d, e, sh + 24, sh + 32, sh + 24, 8);
    NamedKept(d, e, p.h, ShstrOff(d, p.h), i, s);
  }

  /** In the output, every section called .dynstr or .gnu.version_r has the address,
      offset and size of the new table of that name. */
  lemma {:induction false} SectionsFollow(d: seq<byte>, p: Parsed, q: Plan, out: seq<byte>, i: nat, s: seq<byte>)
    requires GoodRun(d, p, q, out) && i < p.h.shnum && p.h.shstrndx < p.h.shnum
    requires ShdrOff(p.h, p.h.shstrndx) + 32 <= |d| && Named(d, p.h, ShstrOff(d, p.h), i, s)
    requires var o := NameOff(d, p.h, ShstrOff(d, p.h), i); ApartFromPatches(p, q, o, o + |s| + 1)
    ensures s == DYNSTR_NAME ==> At(out, ShdrOff(p.h, i) + 16, Triple(q.blobVa, q.blobOff, |q.dynstr|))
    ensures s == VERSION_R_NAME ==>
              At(out, ShdrOff(p.h, i) + 16, Triple(q.blobVa + q.rel, q.blobOff + q.rel, |q.table|))
  {
    hide GoodRun, Apply, Named, ApartFromPatches, PatchSections, Patched, PatchLoader, Grown, At, Triple, PatchesPlaced;
    hide ShstrOff;
    GoodRunLaidOut(d, p, q, out);
    RunImages(d, p, q, out);
    NamedInPatched(d, p, q, i, s);
    SectionSizes(d, p, q);
    SectionRead(d, p, q);
    if MovedTo(q, s).Some? {
      SectionsWritten(Patched(d, p, q), p.h, ShstrOff(d, p.h), q, 0, i, s, MovedTo(q, s).value);
    }
  }

  lemma {:induction false} SectionSizes(d: seq<byte>, p: Parsed, q: Plan)
    requires LaidOut(d, p, q) && p.h.shnum > 0
    ensures p.h.shentsize >= 40
  {
    hide PatchesPlaced, LoadsOk;
  }

  lemma {:induction false} SectionRead(d: seq<byte>, p: Parsed, q: Plan)
    requires PatchLoader(Grown(d, q), p, q).Ok? && ShdrOff(p.h, p.h.shstrndx) + 32 <= |Patched(d, p, q)|
    ensures ShstrOff(Patched(d, p, q), p.h) == Read(Patched(d, p, q), ShdrOff(p.h, p.h.shstrndx) + 24, 8)
  {
  }

  // ---- the other sections ------------------------------------------------

  /** The bytes of [a, b) are in no triple of a section that is moved. */
  predicate AwayFromMoved(h: Header, q: Plan, names: seq<seq<byte>>, j: nat, a: nat, b: nat) {
    |names| == h.shnum && forall k :: j <= k < h.shnum && MovedTo(q, names[k]).Some? ==>
      Apart(a, b, ShdrOff(h, k) + 16, ShdrOff(h, k) + 40)
  }

  predicate AllNamed(d: seq<byte>, h: Header, shstr: nat, names: seq<seq<byte>>, j: nat) {
    |names| == h.shnum && forall k :: j <= k < h.shnum ==> Named(d, h, shstr, k, names[k])
  }

  lemma {:induction false} OneNamed(d: seq<byte>, h: Header, shstr: nat, names: seq<seq<byte>>, j: nat, k: nat)
    requires AllNamed(d, h, shstr, names, j) && j <= k < h.shnum
    ensures Named(d, h, shstr, k, names[k])
  {
    hide Named;
  }

  lemma {:induction false} OtherStep(d: seq<byte>, h: Header, shstr: nat, q: Plan, names: seq<seq<byte>>, j: nat, a: nat, b: nat)
    requires PatchSection(d, h, shstr, q, j).Ok? && j < h.shnum && h.shentsize >= 40 && b <= |d|
    requires AllNamed(d, h, shstr, names, j) && AwayFromMoved(h, q, names, j, a, b)
    ensures var e := PatchSection(d, h, shstr, q, j).value;
            SameOn(d, e, a, b) && |e| == |d| && AllNamed(e, h, shstr, names, j + 1)
  {
    hide Named, ShdrOff, Apart, MovedTo, PatchSection, SameOn, SectionName;
    var e := PatchSection(d, h, shstr, q, j).value;
    OneNamed(d, h, shstr, names, j, j);
    if MovedTo(q, names[j]).Some? {
      SectionSame(d, h, shstr, q, j, a, b);
    } else {
      NotMoved(d, h, shstr, q, j, names[j]);
      SameRefl(d, a, b);
    }
    forall k | j + 1 <= k < h.shnum ensures Named(e, h, shstr, k, names[k]) {
      OneNamed(d, h, shstr, names, j, k);
      StepKeepsNamed(d, h, shstr, q, j, k, names[k]);
    }
  }

  lemma {:induction false} NotMoved(d: seq<byte>, h: Header, shstr: nat, q: Plan, j: nat, s: seq<byte>)
    requires Named(d, h, shstr, j, s) && MovedTo(q, s).None?
    ensures PatchSection(d, h, shstr, q, j) == Ok(d)
  {
    hide MovedTo, SectionName, ShdrOff;
  }

  /** The section loop leaves every byte alone that is in no triple of a moved section. */
  lemma {:induction false} OthersSame(d: seq<byte>, h: Header, shstr: nat, q: Plan, names: seq<seq<byte>>, j: nat, a: nat, b: nat)
    requires PatchSections(d, h, shstr, q, j).Ok? && (h.shnum > 0 ==> h.shentsize >= 40) && b <= |d|
    requires AllNamed(d, h, shstr, names, j) && AwayFromMoved(h, q, names, j, a, b)
    ensures SameOn(d, PatchSections(d, h, shstr, q, j).value, a, b)
    decreases h.shnum - j
  {
    hide PatchSection, SameOn, ShdrOff, Apart, Named, MovedTo;
    if j >= h.shnum {
      SameRefl(d, a, b);
    } else {
      OtherStep(d, h, shstr, q, names, j, a, b);
      var e := PatchSection(d, h, shstr, q, j).value;
      OthersSame(e, h, shstr, q, names, j + 1, a, b);
      SameTrans(d, e, PatchSections(d, h, shstr, q, j).value, a, b);
    }
  }

  /** Every section has its name where nothing is patched. */
  predicate NamesSafe(d: seq<byte>, p: Parsed, q: Plan, names: seq<seq<byte>>) {
    && p.h.shstrndx < p.h.shnum && ShdrOff(p.h, p.h.shstrndx) + 32 <= |d| && |names| == p.h.shnum
    && forall k :: 0 <= k < p.h.shnum ==> NameSafe(d, p, q, k, names[k])
  }

  predicate NameSafe(d: seq<byte>, p: Parsed, q: Plan, k: nat, s: seq<byte>)
    requires ShdrOff(p.h, p.h.shstrndx) + 32 <= |d|
  {
    && Named(d, p.h, ShstrOff(d, p.h), k, s)
    && ApartFromPatches(p, q, NameOff(d, p.h, ShstrOff(d, p.h), k), NameOff(d, p.h, ShstrOff(d, p.h), k) + |s| + 1)
  }

  lemma {:induction false} NamesInPatched(d: seq<byte>, p: Parsed, q: Plan, names: seq<seq<byte>>)
    requires LaidOut(d, p, q) && PatchLoader(Grown(d, q), p, q).Ok? && NamesSafe(d, p, q, names)
    ensures ShdrOff(p.h, p.h.shstrndx) + 32 <= |Patched(d, p, q)|
    ensures ShstrOff(Patched(d, p, q), p.h) == ShstrOff(d, p.h)
    ensures AllNamed(Patched(d, p, q), p.h, ShstrOff(d, p.h), names, 0)
  {
    hide LaidOut, PatchLoader, Grown, Patched, Named, ApartFromPatches, ShdrOff, ShstrOff;
    assert NameSafe(d, p, q, p.h.shstrndx, names[p.h.shstrndx]);
    NamedInPatched(d, p, q, p.h.shstrndx, names[p.h.shstrndx]);
    forall k | 0 <= k < p.h.shnum ensures Named(Patched(d, p, q), p.h, ShstrOff(d, p.h), k, names[k]) {
      assert NameSafe(d, p, q, k, names[k]);
      NamedInPatched(d, p, q, k, names[k]);
    }
  }

  /** Exactly the recycled program header, the three dynamic values and the triples of the
      moved sections may change: every other old byte is the same in the output. */
  lemma {:induction false} OnlyMovedChange(d: seq<byte>, p: Parsed, q: Plan, out: seq<byte>, names: seq<seq<byte>>, i: nat)
    requires GoodRun(d, p, q, out) && NamesSafe(d, p, q, names) && i < |d|
    requires ApartFromPatches(p, q, i, i + 1) && AwayFromMoved(p.h, q, names, 0, i, i + 1)
    ensures i < |out| && out[i] == d[i]
  {
    hide GoodRun, Apply, AllNamed, NamesSafe, ApartFromPatches, PatchSections, Patched, PatchLoader, Grown, SameOn;
    hide AwayFromMoved, ShstrOff, LaidOut;
    GoodRunLaidOut(d, p, q, out);
    RunImages(d, p, q, out);
    NamesInPatched(d, p, q, names);
    assert ShdrOff(p.h, p.h.shstrndx) + 32 <= |d| by { NamesSafeBound(d, p, q, names); }
    LaidOutSizes(d, p, q);
    SectionRead(d, p, q);
    GrownKept(d, p, q, i, i + 1);
    var e := Patched(d, p, q);
    SameOnFits(d, e, i, i + 1);
    OthersSame(e, p.h, ShstrOff(d, p.h), q, names, 0, i, i + 1);
    SameTrans(d, e, out, i, i + 1);
    SameByte(d, out, i);
  }

  lemma {:induction false} NamesSafeBound(d: seq<byte>, p: Parsed, q: Plan, names: seq<seq<byte>>)
    requires NamesSafe(d, p, q, names)
    ensures ShdrOff(p.h, p.h.shstrndx) + 32 <= |d|
  {
    hide NameSafe, ShdrOff;
  }

  lemma {:induction false} LaidOutSizes(d: seq<byte>, p: Parsed, q: Plan)
    requires LaidOut(d, p, q)
    ensures p.h.shnum > 0 ==> p.h.shentsize >= 40
  {
    hide PatchesPlaced, LoadsOk;
  }

  lemma {:induction false} SameByte(d: seq<byte>, e: seq<byte>, i: nat)
    requires SameOn(d, e, i, i + 1)
    ensures i < |d| && i < |e| && d[i] == e[i]
  {
  }
}
