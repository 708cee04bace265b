/** When declare-dt-relr.py rewrites a file and how it ends otherwise, said about the version
    needs with their names resolved. */
module ElfOutcomes {
  import opened Basics
  import opened ElfBytes
  import opened ElfFormat
  import opened ElfRewrite
  import opened ElfFrame
  import opened ElfTheorems
  import opened ElfOutput
  import opened ElfMeaning
  import opened ElfSections

  // ---- the version needs -------------------------------------------------

  /** Every stored hash is that of its name. */
  predicate Trusted(vs: seq<NeedView>) {
    forall i, j :: 0 <= i < |vs| && 0 <= j < |vs[i].aux| ==> HashOf(vs[i].aux[j].name) == vs[i].aux[j].hash
  }

  /** The first entry for libc.so.6. */
  predicate LibcAt(vs: seq<NeedView>, t: nat) {
    t < |vs| && vs[t].file == LIBC && forall k :: 0 <= k < t ==> vs[k].file != LIBC
  }

  ghost predicate HasLibc(vs: seq<NeedView>) {
    exists t :: LibcAt(vs, t)
  }

  predicate VersionAt(vs: seq<NeedView>, t: nat, j: nat, name: seq<byte>) {
    t < |vs| && j < |vs[t].aux| && vs[t].aux[j].name == name
  }

  /** The first entry for libc.so.6 has the version already. */
  ghost predicate Already(vs: seq<NeedView>) {
    exists t, j :: LibcAt(vs, t) && VersionAt(vs, t, j, VERSION)
  }

  predicate Has(phs: seq<Phdr>, ty: nat) {
    exists i :: 0 <= i < |phs| && phs[i].ty == ty
  }

  // ---- what the tool's checks mean ---------------------------------------

  /** A name that starts with the version and a NUL is the version. */
  lemma {:induction false} StartsIsName(d: seq<byte>, o: nat, s: seq<byte>)
    requires 0 !in s
    ensures StartsWith(d, o, s + [0]) <==> CString(d, o) == Some(s)
  {
    CStringMeans(d, o);
    var z := s + [0];
    if StartsWith(d, o, z) {
      assert d[o..o + |s|] == d[o..o + |z|][..|s|] && z[..|s|] == s;
      assert d[o + |s|] == d[o..o + |z|][|s|] && z[|s|] == 0;
      CStringLiteral(d, o, s);
    }
    if CString(d, o) == Some(s) {
      assert d[o..o + |s| + 1] == d[o..o + |s|] + [d[o + |s|]];
    }
  }

  lemma {:induction false} VersionPlain()
    ensures 0 !in VERSION
  {
  }

  /** One auxiliary of a list of views. */
  lemma {:induction false} AuxViewAt(d: seq<byte>, strtab: nat, aux: seq<Aux>, j: nat)
    requires AuxViews(d, strtab, aux).Some? && j < |aux|
    ensures |AuxViews(d, strtab, aux).value| == |aux|
    ensures CString(d, strtab + aux[j].name).Some?
    ensures AuxViews(d, strtab, aux).value[j] == ViewOf(aux[j], CString(d, strtab + aux[j].name).value)
    decreases |aux|
  {
    hide CString;
    AuxViewsCount(d, strtab, aux);
    if j > 0 { AuxViewAt(d, strtab, aux[1..], j - 1); }
  }

  lemma {:induction false} NeedViewAt(d: seq<byte>, strtab: nat, needs: seq<Need>, i: nat)
    requires NeedViews(d, strtab, needs).Some? && i < |needs|
    ensures |NeedViews(d, strtab, needs).value| == |needs|
    ensures AuxViews(d, strtab, needs[i].aux).Some?
    ensures NeedViews(d, strtab, needs).value[i] == NeedView(needs[i].ver, needs[i].name, AuxViews(d, strtab, needs[i].aux).value)
    decreases |needs|
  {
    hide AuxViews;
    ViewsCount(d, strtab, needs);
    if i > 0 { NeedViewAt(d, strtab, needs[1..], i - 1); }
  }

  /** The self-check passes exactly when every name ends and hashes to its stored value. */
  lemma {:induction false} HashesAre(d: seq<byte>, strtab: nat, needs: seq<Need>)
    ensures HashesOk(d, strtab, needs)
            <==> NeedViews(d, strtab, needs).Some? && Trusted(NeedViews(d, strtab, needs).value)
  {
    hide CString, HashOf, AuxViews, NeedViews;
    if HashesOk(d, strtab, needs) { NeedViewsExist(d, strtab, needs); }
    if NeedViews(d, strtab, needs).Some? {
      var vs := NeedViews(d, strtab, needs).value;
      ViewsCount(d, strtab, needs);
      forall i, j | 0 <= i < |needs| && 0 <= j < |needs[i].aux|
        ensures CString(d, strtab + needs[i].aux[j].name).Some? && vs[i].aux[j].hash == needs[i].aux[j].hash
        ensures vs[i].aux[j].name == CString(d, strtab + needs[i].aux[j].name).value
      {
        NeedViewAt(d, strtab, needs, i);
        AuxViewAt(d, strtab, needs[i].aux, j);
      }
    }
  }

  lemma {:induction false} LibcIsAt(d: seq<byte>, strtab: nat, needs: seq<Need>, t: nat)
    requires NeedViews(d, strtab, needs).Some?
    ensures FindLibc(needs) == Some(t) <==> LibcAt(NeedViews(d, strtab, needs).value, t)
  {
    ViewsCount(d, strtab, needs);
    hide NeedViews;
    if t < |needs| && needs[t].name == LIBC && (forall k :: 0 <= k < t ==> needs[k].name != LIBC) { LibcIs(needs, t); }
  }

  /** The tool's test for the version, by name. */
  lemma {:induction false} DeclaresIs(d: seq<byte>, strtab: nat, aux: seq<Aux>)
    requires AuxViews(d, strtab, aux).Some?
    ensures Declares(d, strtab, aux)
            <==> exists j :: 0 <= j < |AuxViews(d, strtab, aux).value| && AuxViews(d, strtab, aux).value[j].name == VERSION
  {
    hide CString, AuxViews, StartsWith;
    AuxViewsCount(d, strtab, aux);
    VersionPlain();
    var vs := AuxViews(d, strtab, aux).value;
    forall j | 0 <= j < |aux| ensures StartsWith(d, strtab + aux[j].name, VERSION + [0]) <==> vs[j].name == VERSION {
      AuxViewAt(d, strtab, aux, j);
      StartsIsName(d, strtab + aux[j].name, VERSION);
    }
  }

  lemma {:induction false} AlreadyIs(d: seq<byte>, strtab: nat, needs: seq<Need>)
    requires NeedViews(d, strtab, needs).Some?
    ensures Already(NeedViews(d, strtab, needs).value)
            <==> FindLibc(needs).Some? && Declares(d, strtab, needs[FindLibc(needs).value].aux)
  {
    hide NeedViews, AuxViews, Declares, FindLibc;
    var vs := NeedViews(d, strtab, needs).value;
    forall t: nat ensures FindLibc(needs) == Some(t) <==> LibcAt(vs, t) { LibcIsAt(d, strtab, needs, t); }
    if FindLibc(needs).Some? {
      var t := FindLibc(needs).value;
      assert t < |needs| by { LibcBound(needs); }
      NeedViewAt(d, strtab, needs, t);
      DeclaresIs(d, strtab, needs[t].aux);
      if Declares(d, strtab, needs[t].aux) {
        var j :| 0 <= j < |vs[t].aux| && vs[t].aux[j].name == VERSION;
        assert LibcAt(vs, t) && VersionAt(vs, t, j, VERSION);
      }
      if Already(vs) {
        var u, j :| LibcAt(vs, u) && VersionAt(vs, u, j, VERSION);
        assert u == t;
      }
    }
  }

  lemma {:induction false} LibcBound(needs: seq<Need>)
    ensures FindLibc(needs).Some? ==> FindLibc(needs).value < |needs|
  {
  }

  // ---- how the tool ends -------------------------------------------------

  lemma {:induction false} SectionsCrash(d: seq<byte>, h: Header, shstr: nat, q: Plan, i: nat)
    ensures PatchSections(d, h, shstr, q, i).Stop? ==> PatchSections(d, h, shstr, q, i).why == Crash
    decreases h.shnum - i
  {
    hide SectionName, MovedTo, ShdrOff;
    if i < h.shnum && PatchSection(d, h, shstr, q, i).Ok? {
      SectionsCrash(PatchSection(d, h, shstr, q, i).value, h, shstr, q, i + 1);
    }
  }

  lemma {:induction false} ApplyCrashes(d: seq<byte>, p: Parsed, q: Plan)
    ensures Apply(d, p, q).Stop? ==> Apply(d, p, q).why == Crash
  {
    hide PatchSections, Grown, PhdrOff, PlanFits, PhdrBytes;
    if PatchLoader(Grown(d, q), p, q).Ok? {
      var e := PatchLoader(Grown(d, q), p, q).value;
      var o := ShdrOff(p.h, p.h.shstrndx) + 24;
      if o + 8 <= |e| { SectionsCrash(e, p.h, Read(e, o, 8), q, 0); }
    }
  }

  /** Once the file is read, the tool's three messages mean what they say: no entry for
      libc.so.6; the first such entry has the version already; it has not, but there is no
      program header to recycle. With a wrong hash or a name without end it fails. */
  lemma {:induction false} EndsWith(d: seq<byte>, p: Parsed)
    requires Parse(d) == Ok(p)
    ensures var v := NeedViews(d, p.strtabOff, p.needs);
            if v.None? || !Trusted(v.value) then Declare(d) == Stop(Crash)
            else
              && (Declare(d) == Stop(NoLibc) <==> !HasLibc(v.value))
              && (Declare(d) == Stop(AlreadyDeclared) <==> Already(v.value))
              && (Declare(d) == Stop(NoSpare) <==> HasLibc(v.value) && !Already(v.value) && !Has(p.phs, PT_NOTE))
              && Declare(d) != Stop(NoRelr) && Declare(d) != Stop(NotMapped)
  {
    hide Parse, HashesOk, NeedViews, Declares, TableFits, Serialize, BlobOf, BlobVa, AppendAux, NewAux, MaxIndex, Top, Slice, Apply;
    HashesAre(d, p.strtabOff, p.needs);
    if HashesOk(d, p.strtabOff, p.needs) {
      AlreadyIs(d, p.strtabOff, p.needs);
      LibcExists(d, p.strtabOff, p.needs);
      NoteExists(p.phs);
      if MakePlan(d, p).Ok? { ApplyCrashes(d, p, MakePlan(d, p).value); }
      hide FindLibc, FirstOf;
    }
  }

  lemma {:induction false} LibcExists(d: seq<byte>, strtab: nat, needs: seq<Need>)
    requires NeedViews(d, strtab, needs).Some?
    ensures HasLibc(NeedViews(d, strtab, needs).value) <==> FindLibc(needs).Some?
  {
    hide NeedViews, FindLibc;
    forall t: nat ensures FindLibc(needs) == Some(t) <==> LibcAt(NeedViews(d, strtab, needs).value, t) {
      LibcIsAt(d, strtab, needs, t);
    }
  }

  lemma {:induction false} NoteExists(phs: seq<Phdr>)
    ensures Has(phs, PT_NOTE) <==> FirstOf(phs, PT_NOTE).Some?
  {
    var r := FirstOf(phs, PT_NOTE);
  }

  // ---- files that are not read to the end --------------------------------

  /** Header, program headers and dynamic section as the tool reads them. */
  predicate DynRead(d: seq<byte>, h: Header, phs: seq<Phdr>, dyn: seq<Dyn>) {
    && ReadHeader(d) == Ok(h) && ReadPhdrs(d, h, 0) == Ok(phs)
    && FirstOf(phs, PT_DYNAMIC).Some? && ReadDyn(d, phs[FirstOf(phs, PT_DYNAMIC).value].off) == Ok(dyn)
  }

  /** The k-th entry is the first with the tag. */
  predicate TagAt(dyn: seq<Dyn>, tag: nat, k: nat) {
    k < |dyn| && dyn[k].tag == tag && forall j :: 0 <= j < k ==> dyn[j].tag != tag
  }

  predicate HasTag(dyn: seq<Dyn>, tag: nat) {
    exists k :: 0 <= k < |dyn| && dyn[k].tag == tag
  }

  lemma {:induction false} LookupIs(dyn: seq<Dyn>, tag: nat)
    ensures Lookup(dyn, tag).Some? <==> HasTag(dyn, tag)
    ensures forall k: nat :: TagAt(dyn, tag, k) ==> Lookup(dyn, tag) == Some(dyn[k])
    decreases |dyn|
  {
    if dyn != [] && dyn[0].tag != tag {
      var rest := dyn[1..];
      LookupIs(rest, tag);
      assert forall k :: 0 < k < |dyn| ==> dyn[k] == rest[k - 1];
      forall k: nat | TagAt(dyn, tag, k) ensures Lookup(dyn, tag) == Some(dyn[k]) {
        assert TagAt(rest, tag, k - 1);
      }
      if HasTag(dyn, tag) {
        var k :| 0 <= k < |dyn| && dyn[k].tag == tag;
        assert rest[k - 1].tag == tag;
      }
    }
  }

  /** The value of the first entry with the tag. */
  function Value(dyn: seq<Dyn>, tag: nat): int {
    var e := Lookup(dyn, tag);
    if e.None? then 0 else e.value.val
  }

  /** The string table is at an address outside every loaded segment, or, with its size there
      too, the version needs are. */
  predicate BadAddress(phs: seq<Phdr>, dyn: seq<Dyn>) {
    && HasTag(dyn, DT_STRTAB)
    && (|| Unmapped(phs, Value(dyn, DT_STRTAB))
        || (HasTag(dyn, DT_STRSZ) && HasTag(dyn, DT_VERNEED) && Unmapped(phs, Value(dyn, DT_VERNEED))))
  }

  lemma {:induction false} MappedIs(phs: seq<Phdr>, va: int)
    ensures VaToOff(phs, va).Ok? <==> !Unmapped(phs, va)
    ensures VaToOff(phs, va).Stop? ==> VaToOff(phs, va).why == NotMapped
  {
    if phs != [] {
      MappedIs(phs[1..], va);
      assert forall i :: 0 < i < |phs| ==> phs[i] == phs[1..][i - 1];
    }
  }

  lemma {:induction false} NeedsCrash(d: seq<byte>, strtab: nat, o: nat, num: int)
    ensures ParseNeeds(d, strtab, o, num).Stop? ==> ParseNeeds(d, strtab, o, num).why == Crash
    decreases num
  {
    hide Read, CString;
    if num > 0 && o + 16 <= |d| {
      AuxCrash(d, o + Read(d, o + 8, 4), Read(d, o + 2, 2));
      NeedsCrash(d, strtab, o + Read(d, o + 12, 4), num - 1);
    }
  }

  lemma {:induction false} AuxCrash(d: seq<byte>, o: nat, cnt: nat)
    ensures ParseAux(d, o, cnt).Stop? ==> ParseAux(d, o, cnt).why == Crash
    decreases cnt
  {
    hide Read;
    if cnt > 0 && o + 16 <= |d| { AuxCrash(d, o + Read(d, o + 12, 4), cnt - 1); }
  }

  /** The tool says that there is nothing to declare exactly when it can read the dynamic
      section and that has no DT_RELR. */
  lemma {:induction false} NothingToDeclare(d: seq<byte>, h: Header, phs: seq<Phdr>, dyn: seq<Dyn>)
    requires DynRead(d, h, phs, dyn)
    ensures Declare(d) == Stop(NoRelr) <==> !HasTag(dyn, DT_RELR)
  {
    hide Parse, HasTag, BadAddress;
    ParseEnds(d, h, phs, dyn);
    hide DynRead;
    if Parse(d).Ok? { EndsWith(d, Parse(d).value); }
  }

  /** It says that an address is not mapped exactly when there is a DT_RELR and one of the two
      addresses is bad. */
  lemma {:induction false} NotMappedExactly(d: seq<byte>, h: Header, phs: seq<Phdr>, dyn: seq<Dyn>)
    requires DynRead(d, h, phs, dyn)
    ensures Declare(d) == Stop(NotMapped) <==> HasTag(dyn, DT_RELR) && BadAddress(phs, dyn)
  {
    hide Parse, HasTag, BadAddress;
    ParseEnds(d, h, phs, dyn);
    hide DynRead;
    if Parse(d).Ok? { EndsWith(d, Parse(d).value); }
  }

  /** What follows the dynamic section. */
  function Rest(d: seq<byte>, h: Header, phs: seq<Phdr>, dynOff: nat, dyn: seq<Dyn>): Res<Parsed> {
    var strtab :- RequireTag(dyn, DT_STRTAB);
    var strtabOff :- VaToOff(phs, strtab.val);
    var strsz :- RequireTag(dyn, DT_STRSZ);
    var verneed :- RequireTag(dyn, DT_VERNEED);
    var verneedOff :- VaToOff(phs, verneed.val);
    var num :- RequireTag(dyn, DT_VERNEEDNUM);
    var needs :- ParseNeeds(d, strtabOff, verneedOff, num.val);
    Ok(Parsed(h, phs, dynOff, dyn, strtab, strsz, verneed, strtabOff, verneedOff, num.val, needs))
  }

  lemma {:induction false} ParseIs(d: seq<byte>, h: Header, phs: seq<Phdr>, dyn: seq<Dyn>)
    requires DynRead(d, h, phs, dyn)
    ensures Parse(d) == if Lookup(dyn, DT_RELR).None? then Stop(NoRelr)
                        else Rest(d, h, phs, phs[FirstOf(phs, PT_DYNAMIC).value].off, dyn)
  {
    hide Lookup, RequireTag, VaToOff, ParseNeeds, FirstOf, ReadHeader, ReadPhdrs, ReadDyn;
  }

  lemma {:induction false} RestEnds(d: seq<byte>, h: Header, phs: seq<Phdr>, dynOff: nat, dyn: seq<Dyn>)
    ensures Rest(d, h, phs, dynOff, dyn) == Stop(NotMapped) <==> BadAddress(phs, dyn)
    ensures var r := Rest(d, h, phs, dynOff, dyn); r.Stop? ==> r.why == NotMapped || r.why == Crash
  {
    LookupIs(dyn, DT_STRTAB);
    LookupIs(dyn, DT_STRSZ);
    LookupIs(dyn, DT_VERNEED);
    MappedIs(phs, Value(dyn, DT_STRTAB));
    MappedIs(phs, Value(dyn, DT_VERNEED));
    hide Lookup, VaToOff, ParseNeeds, HasTag, Unmapped;
    AllNeedsCrash(d);
  }

  /** How reading ends once the dynamic section is there. */
  lemma {:induction false} ParseEnds(d: seq<byte>, h: Header, phs: seq<Phdr>, dyn: seq<Dyn>)
    requires DynRead(d, h, phs, dyn)
    ensures Parse(d) == Stop(NoRelr) <==> !HasTag(dyn, DT_RELR)
    ensures Parse(d) == Stop(NotMapped) <==> HasTag(dyn, DT_RELR) && BadAddress(phs, dyn)
    ensures Parse(d).Stop? ==> Parse(d).why == NoRelr || Parse(d).why == NotMapped || Parse(d).why == Crash
  {
    hide Lookup, Rest, HasTag, BadAddress, Parse;
    LookupIs(dyn, DT_RELR);
    ParseIs(d, h, phs, dyn);
    RestEnds(d, h, phs, phs[FirstOf(phs, PT_DYNAMIC).value].off, dyn);
  }

  lemma {:induction false} AllNeedsCrash(d: seq<byte>)
    ensures forall strtab: nat, o: nat, num: int ::
              ParseNeeds(d, strtab, o, num).Stop? ==> ParseNeeds(d, strtab, o, num).why == Crash
  {
    forall strtab: nat, o: nat, num: int
      ensures ParseNeeds(d, strtab, o, num).Stop? ==> ParseNeeds(d, strtab, o, num).why == Crash
    {
      NeedsCrash(d, strtab, o, num);
    }
  }

  // ---- when it rewrites --------------------------------------------------

  /** Every number that is written fits its field, the strings have a size, and there is a
      segment to go behind. */
  predicate SizesFit(d: seq<byte>, p: Parsed, t: nat)
    requires t < |p.needs|
  {
    && p.strsz.val >= 0 && Has(p.phs, PT_LOAD)
    && var needs := AppendAux(p.needs, t, NewAux(p));
       var size := |Slice(d, p.strtabOff, p.strsz.val)| + |VERSION| + 1;
       && TableFits(needs)
       && RoundUp16(|d|) + RoundUp8(size) + |Serialize(needs)| < U64
       && BlobVa(RoundUp16(|d|), Top(p.phs)) + RoundUp8(size) < I64
  }

  predicate HasAux(needs: seq<Need>) {
    exists i :: 0 <= i < |needs| && needs[i].aux != []
  }

  lemma {:induction false} MaxIndexIs(needs: seq<Need>)
    ensures MaxIndex(needs) >= 0 <==> HasAux(needs)
    decreases |needs|
  {
    if needs != [] {
      var rest := needs[1..];
      MaxIndexIs(rest);
      assert forall i :: 0 < i < |needs| ==> needs[i] == rest[i - 1];
      if HasAux(needs) {
        var i :| 0 <= i < |needs| && needs[i].aux != [];
        if i > 0 { assert rest[i - 1].aux != []; }
      }
    }
  }

  lemma {:induction false} TopIs(phs: seq<Phdr>)
    ensures Top(phs) >= 0 <==> Has(phs, PT_LOAD)
    decreases |phs|
  {
    if phs != [] {
      var rest := phs[1..];
      TopIs(rest);
      assert forall i :: 0 < i < |phs| ==> phs[i] == rest[i - 1];
      if Has(phs, PT_LOAD) {
        var i :| 0 <= i < |phs| && phs[i].ty == PT_LOAD;
        if i > 0 { assert rest[i - 1].ty == PT_LOAD; }
      }
    }
  }

  /** The section loop gets through when every section's name ends where nothing is written. */
  lemma {:induction false} SectionsDone(d: seq<byte>, h: Header, shstr: nat, q: Plan, names: seq<seq<byte>>, j: nat)
    requires AllNamed(d, h, shstr, names, j) && (h.shnum > 0 ==> h.shentsize >= 40) && ShdrOff(h, h.shnum) <= |d|
    ensures PatchSections(d, h, shstr, q, j).Ok?
    decreases h.shnum - j
  {
    hide Named, MovedTo, PatchSection, AllNamed, ShdrOff;
    if j < h.shnum {
      SectionDone(d, h, shstr, q, names, j);
      SectionsDone(PatchSection(d, h, shstr, q, j).value, h, shstr, q, names, j + 1);
    }
  }

  lemma {:induction false} SectionDone(d: seq<byte>, h: Header, shstr: nat, q: Plan, names: seq<seq<byte>>, j: nat)
    requires AllNamed(d, h, shstr, names, j) && h.shentsize >= 40 && ShdrOff(h, h.shnum) <= |d| && j < h.shnum
    ensures PatchSection(d, h, shstr, q, j).Ok?
    ensures var e := PatchSection(d, h, shstr, q, j).value; |e| == |d| && AllNamed(e, h, shstr, names, j + 1)
  {
    hide MovedTo, ShdrOff, SectionName, Apart;
    OneNamed(d, h, shstr, names, j, j);
    ShdrInside(h, j);
    SectionGoes(d, h, shstr, q, names[j], j);
    hide PatchSection, Named;
    OtherStep(d, h, shstr, q, names, j, 0, 0) by { Nowhere(h, q, names, j); }
  }

  lemma {:induction false} SectionGoes(d: seq<byte>, h: Header, shstr: nat, q: Plan, s: seq<byte>, j: nat)
    requires Named(d, h, shstr, j, s) && ShdrOff(h, j) + 40 <= |d|
    ensures PatchSection(d, h, shstr, q, j).Ok?
  {
    hide MovedTo, ShdrOff, SectionName, Apart;
  }

  lemma {:induction false} Nowhere(h: Header, q: Plan, names: seq<seq<byte>>, j: nat)
    requires |names| == h.shnum
    ensures AwayFromMoved(h, q, names, j, 0, 0)
  {
    hide MovedTo, ShdrOff;
  }

  /** The four writes a loader looks at lie in the old file. */
  lemma {:induction false} LoaderPatchGoes(d: seq<byte>, p: Parsed, q: Plan)
    requires LaidOut(d, p, q) && PhdrsAre(d, p.h, p.phs) && DynsAre(d, p.dynOff, p.dyn)
    ensures PatchLoader(Grown(d, q), p, q).Ok?
  {
    SpareInside(d, p, q);
    DynBounds(d, p);
    GrownSize(d, q);
    hide LaidOut, LayoutOk, PhdrsAre, DynsAre, PhdrOff, Grown, PhdrBytes;
    assert PatchesPlaced(p) by { PlacedOf(d, p, q); }
    hide PatchesPlaced;
    FourGo(Grown(d, q), p, q) by { PlacedOf(d, p, q); }
  }

  lemma {:induction false} PlacedOf(d: seq<byte>, p: Parsed, q: Plan)
    requires LaidOut(d, p, q)
    ensures PatchesPlaced(p)
    ensures p.strtab.at + 16 <= DynEnd(p) && p.strsz.at + 16 <= DynEnd(p) && p.verneed.at + 16 <= DynEnd(p)
  {
    hide LayoutOk;
  }

  lemma {:induction false} GrownSize(d: seq<byte>, q: Plan)
    ensures |Grown(d, q)| >= |d|
  {
  }

  lemma {:induction false} FourGo(d: seq<byte>, p: Parsed, q: Plan)
    requires PhdrOff(p.h, q.spare) + PHDR_SIZE <= |d|
    requires p.strtab.at + 16 <= |d| && p.strsz.at + 16 <= |d| && p.verneed.at + 16 <= |d|
    ensures PatchLoader(d, p, q).Ok?
  {
    hide PhdrOff, PhdrBytes;
  }

  /** On a well laid out file with all section names in place, writing succeeds exactly when
      the new values fit. */
  lemma {:induction false} AppliesExactly(d: seq<byte>, p: Parsed, q: Plan, names: seq<seq<byte>>)
    requires LaidOut(d, p, q) && PhdrsAre(d, p.h, p.phs) && DynsAre(d, p.dynOff, p.dyn) && NamesSafe(d, p, q, names)
    ensures Apply(d, p, q).Ok? <==> PlanFits(q)
  {
    LoaderPatchGoes(d, p, q);
    NamesInPatched(d, p, q, names);
    PatchedSections(d, p, q);
    hide LaidOut, PhdrsAre, DynsAre, PatchLoader, Grown, AllNamed, PatchSections, PlanFits, NamesSafe, ShdrOff;
    SectionRead(d, p, q);
    SectionsDone(Patched(d, p, q), p.h, ShstrOff(d, p.h), q, names, 0);
  }

  lemma {:induction false} PatchedSections(d: seq<byte>, p: Parsed, q: Plan)
    requires LaidOut(d, p, q) && PatchLoader(Grown(d, q), p, q).Ok?
    ensures ShdrOff(p.h, p.h.shnum) <= |Patched(d, p, q)| && (p.h.shnum > 0 ==> p.h.shentsize >= 40)
  {
    GrownSize(d, q);
    hide PatchLoader, Grown, PatchesPlaced, LoadsOk, PhdrOff;
  }

  lemma {:induction false} LaidOutFrom(d: seq<byte>, p: Parsed, q: Plan)
    requires ParsedOk(d, p) && PlanOk(d, p, q) && LayoutOk(d, p)
    ensures LaidOut(d, p, q) && PhdrsAre(d, p.h, p.phs) && DynsAre(d, p.dynOff, p.dyn)
  {
    hide LayoutOk, PatchesPlaced, PlanOk, ParsedOk, PhdrsAre, DynsAre;
    Placed(d, p);
    PlanVa(d, p, q);
    PlanRel(d, p, q);
    ParsedPhdrs(d, p);
    assert q.spare < |p.phs| by { PlanSpare(d, p, q); }
    PhdrCount(d, p);
  }

  lemma {:induction false} PlanSpare(d: seq<byte>, p: Parsed, q: Plan)
    requires PlanOk(d, p, q)
    ensures q.spare < |p.phs|
  {
    hide HashesOk, Declares, TableFits, Serialize, BlobOf, BlobVa, AppendAux, NewAux, MaxIndex, Top, Slice, FindLibc, FirstOf;
  }

  lemma {:induction false} PhdrCount(d: seq<byte>, p: Parsed)
    requires PhdrsAre(d, p.h, p.phs)
    ensures |p.phs| == p.h.phnum
  {
    hide PhdrAt, PhdrOff;
  }

  /** When there is a plan, for the first libc.so.6 entry t. */
  lemma {:induction false} PlansExactly(d: seq<byte>, p: Parsed, t: nat)
    requires FindLibc(p.needs) == Some(t) && t < |p.needs|
    ensures MakePlan(d, p).Ok?
            <==> && HashesOk(d, p.strtabOff, p.needs) && !Declares(d, p.strtabOff, p.needs[t].aux)
                 && Has(p.phs, PT_NOTE) && p.strsz.val >= 0 && HasAux(p.needs)
                 && TableFits(AppendAux(p.needs, t, NewAux(p))) && Has(p.phs, PT_LOAD)
  {
    NoteExists(p.phs);
    MaxIndexIs(p.needs);
    TopIs(p.phs);
    hide HashesOk, Declares, TableFits, Serialize, BlobOf, BlobVa, AppendAux, NewAux, MaxIndex, Top, Slice, FindLibc, FirstOf, Has, HasAux;
  }

  /** The sizes of a plan. */
  lemma {:induction false} PlanHas(d: seq<byte>, p: Parsed, q: Plan, t: nat)
    requires PlanOk(d, p, q) && q.target == t
    ensures t < |p.needs| && p.strsz.val >= 0 && TableFits(AppendAux(p.needs, t, NewAux(p)))
    ensures q.blobOff == RoundUp16(|d|) && q.rel == RoundUp8(|q.dynstr|) && |q.blob| == q.rel + |q.table|
    ensures |q.dynstr| == |Slice(d, p.strtabOff, p.strsz.val)| + |VERSION| + 1
    ensures q.table == Serialize(AppendAux(p.needs, t, NewAux(p))) && Top(p.phs) >= 0 && q.blobVa == BlobVa(q.blobOff, Top(p.phs))
  {
    hide HashesOk, Declares, TableFits, Serialize, BlobVa, AppendAux, NewAux, MaxIndex, Top, Slice, FindLibc, FirstOf, RoundUp8, RoundUp16,
      BlobOf;
  }

  lemma {:induction false} TargetIs(d: seq<byte>, p: Parsed, q: Plan, t: nat)
    requires MakePlan(d, p) == Ok(q) && FindLibc(p.needs) == Some(t)
    ensures q.target == t
  {
    hide HashesOk, Declares, TableFits, Serialize, BlobOf, BlobVa, AppendAux, NewAux, MaxIndex, Top, Slice, FindLibc, FirstOf;
  }

  /** The plan's numbers fit exactly when the sizes do. */
  lemma {:induction false} PlanSizes(d: seq<byte>, p: Parsed, q: Plan, t: nat)
    requires MakePlan(d, p) == Ok(q) && FindLibc(p.needs) == Some(t) && t < |p.needs|
    ensures PlanFits(q) <==> SizesFit(d, p, t)
  {
    hide MakePlan, HashesOk, Declares, TableFits, Serialize, BlobVa, AppendAux, NewAux, MaxIndex, Top, Slice, FindLibc, FirstOf, Has, HasAux,
      RoundUp8, RoundUp16, PlanOk;
    PlansExactly(d, p, t);
    PlanGives(d, p, q);
    TargetIs(d, p, q, t);
    PlanHas(d, p, q, t);
  }

  predicate FitsAt(d: seq<byte>, p: Parsed, t: nat) {
    t < |p.needs| && SizesFit(d, p, t)
  }

  /** The numbers fit when the version goes to the first entry for libc.so.6. */
  ghost predicate Fits(d: seq<byte>, p: Parsed, vs: seq<NeedView>) {
    exists t :: LibcAt(vs, t) && FitsAt(d, p, t)
  }

  /** The section names are away from what the tool writes. */
  predicate NamesInPlace(d: seq<byte>, p: Parsed, names: seq<seq<byte>>) {
    MakePlan(d, p).Ok? ==> NamesSafe(d, p, MakePlan(d, p).value, names)
  }

  lemma {:induction false} FitsIs(d: seq<byte>, p: Parsed, vs: seq<NeedView>, t: nat)
    requires LibcAt(vs, t)
    ensures Fits(d, p, vs) <==> FitsAt(d, p, t)
  {
    hide FitsAt;
    if Fits(d, p, vs) {
      var u :| LibcAt(vs, u) && FitsAt(d, p, u);
      assert u == t;
    }
  }

  /** Given a plan, the tool writes exactly when its numbers fit. */
  lemma {:induction false} WritesExactly(d: seq<byte>, p: Parsed, names: seq<seq<byte>>, t: nat)
    requires Parse(d) == Ok(p) && LayoutOk(d, p) && NamesInPlace(d, p, names)
    requires MakePlan(d, p).Ok? && FindLibc(p.needs) == Some(t) && t < |p.needs|
    ensures Declare(d).Ok? <==> SizesFit(d, p, t)
  {
    hide Parse, LayoutOk, MakePlan, Apply, FindLibc, SizesFit, NamesSafe, PlanFits, PlanOk, ParsedOk, LaidOut, PhdrsAre, DynsAre;
    var q := MakePlan(d, p).value;
    PlanSizes(d, p, q, t);
    ParseGives(d, p);
    PlanGives(d, p, q);
    LaidOutFrom(d, p, q);
    AppliesExactly(d, p, q, names);
  }

  lemma {:induction false} NoPlanNothing(d: seq<byte>, p: Parsed)
    requires Parse(d) == Ok(p) && MakePlan(d, p).Stop?
    ensures !Declare(d).Ok?
  {
    hide Parse, MakePlan, Apply;
  }

  /** On a well laid out file whose section names are in place the tool writes if and only if
      every name ends and has its hash, there is a libc.so.6 whose first entry has not the
      version yet, there is a program header to recycle, some entry has a version, and every
      number fits. */
  lemma {:induction false} RewritesExactly(d: seq<byte>, p: Parsed, names: seq<seq<byte>>)
    requires Parse(d) == Ok(p) && LayoutOk(d, p) && NamesInPlace(d, p, names)
    ensures var v := NeedViews(d, p.strtabOff, p.needs);
            Declare(d).Ok?
            <==> v.Some? && Trusted(v.value) && !Already(v.value) && Has(p.phs, PT_NOTE) && HasAux(p.needs) && Fits(d, p, v.value)
  {
    hide Parse, LayoutOk, MakePlan, Declare, HashesOk, NeedViews, Declares, FindLibc, Trusted, Has, HasAux, SizesFit, NamesInPlace, Already,
      LibcAt, Fits;
    HashesAre(d, p.strtabOff, p.needs);
    NoLibcNoPlan(d, p);
    if MakePlan(d, p).Stop? { NoPlanNothing(d, p); }
    if HashesOk(d, p.strtabOff, p.needs) {
      var vs := NeedViews(d, p.strtabOff, p.needs).value;
      AlreadyIs(d, p.strtabOff, p.needs);
      if FindLibc(p.needs).Some? {
        var t := FindLibc(p.needs).value;
        LibcBound(p.needs);
        LibcIsAt(d, p.strtabOff, p.needs, t);
        FitsIs(d, p, vs, t);
        PlansExactly(d, p, t);
        SizesParts(d, p, t);
        if MakePlan(d, p).Ok? { WritesExactly(d, p, names, t); }
      } else {
        NoLibcNoFit(d, p);
      }
    }
  }

  lemma {:induction false} NoLibcNoFit(d: seq<byte>, p: Parsed)
    requires NeedViews(d, p.strtabOff, p.needs).Some? && FindLibc(p.needs).None?
    ensures !Fits(d, p, NeedViews(d, p.strtabOff, p.needs).value)
  {
    hide NeedViews, FindLibc, FitsAt;
    LibcExists(d, p.strtabOff, p.needs);
  }

  lemma {:induction false} SizesParts(d: seq<byte>, p: Parsed, t: nat)
    requires t < |p.needs|
    ensures SizesFit(d, p, t) ==> p.strsz.val >= 0 && Has(p.phs, PT_LOAD) && TableFits(AppendAux(p.needs, t, NewAux(p)))
  {
    hide TableFits, Serialize, BlobVa, AppendAux, NewAux, Top, Slice, Has;
  }

  lemma {:induction false} NoLibcNoPlan(d: seq<byte>, p: Parsed)
    ensures !HashesOk(d, p.strtabOff, p.needs) ==> MakePlan(d, p) == Stop(Crash)
    ensures FindLibc(p.needs).None? ==> MakePlan(d, p).Stop?
  {
    hide HashesOk, Declares, TableFits, Serialize, BlobOf, BlobVa, AppendAux, NewAux, MaxIndex, Top, Slice, FindLibc, FirstOf;
  }
}
