/** Which bytes the rewrite touches, and what the structures it leaves in place read
    as afterwards. */
module ElfFrame {
  import opened Basics
  import opened ElfBytes
  import opened ElfFormat
  import opened ElfRewrite
  import opened ElfTables

  // ---- reading the arrays element by element -----------------------------

  predicate PhdrsAre(d: seq<byte>, h: Header, phs: seq<Phdr>) {
    |phs| == h.phnum && forall k :: 0 <= k < h.phnum ==>
      PhdrOff(h, k) + PHDR_SIZE <= |d| && PhdrAt(d, PhdrOff(h, k)) == phs[k]
  }

  lemma {:induction false} PhdrsFrom(d: seq<byte>, h: Header, i: nat)
    requires ReadPhdrs(d, h, i).Ok? && i <= h.phnum
    ensures forall k :: i <= k < h.phnum ==>
              PhdrOff(h, k) + PHDR_SIZE <= |d| && PhdrAt(d, PhdrOff(h, k)) == ReadPhdrs(d, h, i).value[k - i]
    decreases h.phnum - i
  {
    hide PhdrAt, PhdrOff;
    if i < h.phnum { PhdrsFrom(d, h, i + 1); }
  }

  lemma {:induction false} PhdrsTo(d: seq<byte>, h: Header, phs: seq<Phdr>, i: nat)
    requires PhdrsAre(d, h, phs) && i <= h.phnum
    ensures ReadPhdrs(d, h, i) == Ok(phs[i..])
    decreases h.phnum - i
  {
    hide PhdrAt, PhdrOff;
    if i < h.phnum {
      PhdrsTo(d, h, phs, i + 1);
      assert phs[i..] == [phs[i]] + phs[i + 1..];
    } else {
      assert phs[i..] == [];
    }
  }

  lemma {:induction false} PhdrsExactly(d: seq<byte>, h: Header, phs: seq<Phdr>)
    ensures ReadPhdrs(d, h, 0) == Ok(phs) <==> PhdrsAre(d, h, phs)
  {
    hide PhdrAt, PhdrOff, ReadPhdrs;
    if ReadPhdrs(d, h, 0).Ok? { PhdrsFrom(d, h, 0); }
    if PhdrsAre(d, h, phs) { PhdrsTo(d, h, phs, 0); assert phs[0..] == phs; }
  }

  predicate DynAt(d: seq<byte>, o: nat, e: Dyn) {
    && o + 16 <= |d| && e.at == o && e.tag == Read(d, o, 8) && e.tag != 0
    && e.val == Signed(Read(d, o + 8, 8))
  }

  predicate DynsAre(d: seq<byte>, o: nat, dyn: seq<Dyn>) {
    && (forall k :: 0 <= k < |dyn| ==> DynAt(d, o + 16 * k, dyn[k]))
    && o + 16 * |dyn| + 16 <= |d| && Read(d, o + 16 * |dyn|, 8) == 0
  }

  lemma {:induction false} DynsFrom(d: seq<byte>, o: nat)
    requires ReadDyn(d, o).Ok?
    ensures DynsAre(d, o, ReadDyn(d, o).value)
    decreases |d| - o
  {
    hide Read, Signed;
    if Read(d, o, 8) != 0 {
      DynsFrom(d, o + 16);
      var dyn, rest := ReadDyn(d, o).value, ReadDyn(d, o + 16).value;
      forall k | 0 <= k < |dyn| ensures DynAt(d, o + 16 * k, dyn[k]) {
        if k > 0 { assert dyn[k] == rest[k - 1] && DynAt(d, o + 16 + 16 * (k - 1), rest[k - 1]); }
      }
    }
  }

  lemma {:induction false} DynsTo(d: seq<byte>, o: nat, dyn: seq<Dyn>)
    requires DynsAre(d, o, dyn)
    ensures ReadDyn(d, o) == Ok(dyn)
    decreases |dyn|
  {
    hide Read, Signed;
    if dyn != [] {
      assert DynAt(d, o + 16 * 0, dyn[0]);
      forall k | 0 <= k < |dyn[1..]| ensures DynAt(d, o + 16 + 16 * k, dyn[1..][k]) {
        assert DynAt(d, o + 16 * (k + 1), dyn[k + 1]);
      }
      DynsTo(d, o + 16, dyn[1..]);
      assert dyn == [dyn[0]] + dyn[1..];
    }
  }

  lemma {:induction false} NamedStep(d: seq<byte>, strtab: nat, o: nat, num: int)
    requires num > 0 && ParseNeeds(d, strtab, o, num).Ok?
    requires o + 16 <= |d| ==> Read(d, o, 2) < 0x10000 && Read(d, o + 2, 2) < 0x10000 && Read(d, o + 4, 4) < U32
    requires o + 16 <= |d| && ParseAux(d, o + Read(d, o + 8, 4), Read(d, o + 2, 2)).Ok? ==>
               AllAuxFit(ParseAux(d, o + Read(d, o + 8, 4), Read(d, o + 2, 2)).value)
    ensures NamesAt(d, strtab, ParseNeeds(d, strtab, o, num).value)
    ensures AllFit(ParseNeeds(d, strtab, o, num).value)
    ensures ParseNeeds(d, strtab, o, num).value != []
    decreases num, 0
  {
    hide Read, CString, ParseAux;
    var next := Read(d, o + 12, 4);
    if next != 0 { NamedFiles(d, strtab, o + next, num - 1); }
  }

  lemma {:induction false} NamedFiles(d: seq<byte>, strtab: nat, o: nat, num: int)
    requires ParseNeeds(d, strtab, o, num).Ok?
    ensures NamesAt(d, strtab, ParseNeeds(d, strtab, o, num).value)
    ensures AllFit(ParseNeeds(d, strtab, o, num).value)
    ensures num > 0 ==> ParseNeeds(d, strtab, o, num).value != []
    decreases num, 1
  {
    if num > 0 {
      Pow256s();
      ReadBound(d, o, 2);
      ReadBound(d, o + 2, 2);
      ReadBound(d, o + 4, 4);
      ParsedAuxFits(d, o + Read(d, o + 8, 4), Read(d, o + 2, 2));
      NamedStep(d, strtab, o, num);
    }
  }

  // ---- regions -----------------------------------------------------------

  /** The bytes of [a, b) are the same in both images. */
  predicate SameOn(d: seq<byte>, e: seq<byte>, a: nat, b: nat) {
    b <= |d| && b <= |e| && forall i :: a <= i < b ==> d[i] == e[i]
  }

  lemma {:induction false} SameField(d: seq<byte>, e: seq<byte>, a: nat, b: nat, o: nat, n: nat)
    requires SameOn(d, e, a, b) && a <= o && o + n <= b
    ensures Read(d, o, n) == Read(e, o, n)
  {
    assert d[o..o + n] == e[o..o + n];
    ReadFrame(d, e, o, o, n);
  }

  lemma {:induction false} SamePhdr(d: seq<byte>, e: seq<byte>, o: nat)
    requires SameOn(d, e, o, o + PHDR_SIZE)
    ensures PhdrAt(d, o) == PhdrAt(e, o)
  {
    var b := o + PHDR_SIZE;
    hide SameOn, Read;
    SameField(d, e, o, b, o, 4);
    SameField(d, e, o, b, o + 4, 4);
    SameField(d, e, o, b, o + 8, 8);
    SameField(d, e, o, b, o + 16, 8);
    SameField(d, e, o, b, o + 24, 8);
    SameField(d, e, o, b, o + 32, 8);
    SameField(d, e, o, b, o + 40, 8);
    SameField(d, e, o, b, o + 48, 8);
  }

  lemma {:induction false} SameHeader(d: seq<byte>, e: seq<byte>)
    requires SameOn(d, e, 0, 0x40)
    ensures ReadHeader(d) == ReadHeader(e)
  {
    assert |d| >= 0x40 && |e| >= 0x40;
    SameField(d, e, 0, 0x40, 0x20, 8);
    SameField(d, e, 0, 0x40, 0x28, 8);
    SameField(d, e, 0, 0x40, 0x36, 2);
    SameField(d, e, 0, 0x40, 0x38, 2);
    SameField(d, e, 0, 0x40, 0x3a, 2);
    SameField(d, e, 0, 0x40, 0x3c, 2);
    SameField(d, e, 0, 0x40, 0x3e, 2);
    hide Read;
  }

  predicate Apart(a: nat, b: nat, c: nat, e: nat) {
    b <= c || e <= a
  }

  lemma {:induction false} PutSame(d: seq<byte>, o: nat, s: seq<byte>, a: nat, b: nat)
    requires Put(d, o, s).Ok? && b <= |d| && Apart(a, b, o, o + |s|)
    ensures SameOn(d, Put(d, o, s).value, a, b)
  {
  }

  lemma {:induction false} PutAt(d: seq<byte>, o: nat, s: seq<byte>)
    requires Put(d, o, s).Ok?
    ensures At(Put(d, o, s).value, o, s) && |Put(d, o, s).value| == |d|
  {
  }

  lemma {:induction false} SameAt(d: seq<byte>, e: seq<byte>, o: nat, s: seq<byte>)
    requires At(d, o, s) && SameOn(d, e, o, o + |s|)
    ensures At(e, o, s)
  {
    assert d[o..o + |s|] == e[o..o + |s|];
  }

  lemma {:induction false} SameRefl(d: seq<byte>, a: nat, b: nat)
    requires b <= |d|
    ensures SameOn(d, d, a, b)
  {
  }

  lemma {:induction false} SameTrans(d: seq<byte>, e: seq<byte>, f: seq<byte>, a: nat, b: nat)
    requires SameOn(d, e, a, b) && SameOn(e, f, a, b)
    ensures SameOn(d, f, a, b)
  {
    forall i | a <= i < b ensures d[i] == f[i] {
      assert d[i] == e[i] && e[i] == f[i];
    }
  }

  lemma {:induction false} SectionSame(d: seq<byte>, h: Header, shstr: nat, q: Plan, i: nat, a: nat, b: nat)
    requires PatchSection(d, h, shstr, q, i).Ok? && b <= |d|
    requires Apart(a, b, ShdrOff(h, i) + 16, ShdrOff(h, i) + 40)
    ensures SameOn(d, PatchSection(d, h, shstr, q, i).value, a, b)
  {
    hide SectionName, MovedTo;
    var s := MovedTo(q, SectionName(d, h, shstr, i).value);
    if s.Some? { PutSame(d, ShdrOff(h, i) + 16, s.value, a, b); }
  }

  /** The section loop changes only the address, offset and size of sections. */
  lemma {:induction false} SectionsSame(d: seq<byte>, h: Header, shstr: nat, q: Plan, i: nat, a: nat, b: nat)
    requires PatchSections(d, h, shstr, q, i).Ok? && b <= |d|
    requires forall k :: i <= k < h.shnum ==> Apart(a, b, ShdrOff(h, k) + 16, ShdrOff(h, k) + 40)
    ensures SameOn(d, PatchSections(d, h, shstr, q, i).value, a, b)
    decreases h.shnum - i
  {
    hide PatchSection, SameOn, ShdrOff, Apart;
    if i >= h.shnum {
      SameRefl(d, a, b);
    } else {
      SectionSame(d, h, shstr, q, i, a, b);
      var e := PatchSection(d, h, shstr, q, i).value;
      SectionsSame(e, h, shstr, q, i + 1, a, b);
      SameTrans(d, e, PatchSections(d, h, shstr, q, i).value, a, b);
    }
  }
}
