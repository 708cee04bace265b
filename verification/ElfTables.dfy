/** The version tables: what the tool serialises reads back as what it serialised,
    both by counts, as the tool reads, and by chains, as a loader reads. */
module ElfTables {
  import opened Basics
  import opened ElfBytes
  import opened ElfFormat
  import opened ElfRewrite

  predicate At(e: seq<byte>, o: nat, s: seq<byte>) {
    o + |s| <= |e| && e[o..o + |s|] == s
  }

  lemma {:induction false} AtSplit(e: seq<byte>, o: nat, s: seq<byte>, t: seq<byte>)
    requires At(e, o, s + t)
    ensures At(e, o, s) && At(e, o + |s|, t)
  {
    assert e[o..o + |s|] == e[o..o + |s + t|][..|s|];
    assert e[o + |s|..o + |s| + |t|] == e[o..o + |s + t|][|s|..];
  }

  lemma {:induction false} AtJoin(e: seq<byte>, o: nat, s: seq<byte>, t: seq<byte>)
    requires At(e, o, s) && At(e, o + |s|, t)
    ensures At(e, o, s + t)
  {
    assert e[o..o + |s + t|] == e[o..o + |s|] + e[o + |s|..o + |s| + |t|];
  }

  lemma {:induction false} Pow256s()
    ensures Pow256(2) == 0x10000 && Pow256(4) == U32 && Pow256(8) == U64
  {
    assert Pow256(0) == 1;
    assert Pow256(1) == 256;
    assert Pow256(2) == 256 * Pow256(1);
    assert Pow256(3) == 256 * Pow256(2);
    assert Pow256(4) == 256 * Pow256(3);
    assert Pow256(5) == 256 * Pow256(4);
    assert Pow256(6) == 256 * Pow256(5);
    assert Pow256(7) == 256 * Pow256(6);
    assert Pow256(8) == 256 * Pow256(7);
  }

  lemma {:induction false} FieldAt(e: seq<byte>, o: nat, v: nat, n: nat)
    requires At(e, o, Bytes(v, n)) && v < Pow256(n)
    ensures o + n <= |e| && Read(e, o, n) == v
  {
    ReadBytes(e, o, v, n);
  }

  // ---- records -----------------------------------------------------------

  lemma {:induction false} AuxRecordAt(e: seq<byte>, o: nat, a: Aux, next: nat)
    requires At(e, o, AuxRecord(a, next)) && AuxFits(a) && next < U32
    ensures o + 16 <= |e| && AuxAt(e, o) == a && Read(e, o + 12, 4) == next
  {
    var s1, s2, s3, s4, s5 := Bytes(a.hash, 4), Bytes(a.flags, 2), Bytes(a.other, 2), Bytes(a.name, 4), Bytes(next, 4);
    Pow256s();
    AtSplit(e, o, s1 + s2 + s3 + s4, s5);
    AtSplit(e, o, s1 + s2 + s3, s4);
    AtSplit(e, o, s1 + s2, s3);
    AtSplit(e, o, s1, s2);
    hide At, Bytes, Read;
    FieldAt(e, o, a.hash, 4);
    FieldAt(e, o + 4, a.flags, 2);
    FieldAt(e, o + 6, a.other, 2);
    FieldAt(e, o + 8, a.name, 4);
    FieldAt(e, o + 12, next, 4);
  }

  lemma {:induction false} NeedRecordAt(e: seq<byte>, o: nat, n: Need, auxOff: nat, next: nat)
    requires At(e, o, NeedRecord(n, auxOff, next)) && NeedFits(n) && auxOff < U32 && next < U32
    ensures o + 16 <= |e|
    ensures Read(e, o, 2) == n.ver && Read(e, o + 2, 2) == |n.aux| && Read(e, o + 4, 4) == n.file
    ensures Read(e, o + 8, 4) == auxOff && Read(e, o + 12, 4) == next
  {
    var s1, s2, s3, s4, s5 := Bytes(n.ver, 2), Bytes(|n.aux|, 2), Bytes(n.file, 4), Bytes(auxOff, 4), Bytes(next, 4);
    Pow256s();
    AtSplit(e, o, s1 + s2 + s3 + s4, s5);
    AtSplit(e, o, s1 + s2 + s3, s4);
    AtSplit(e, o, s1 + s2, s3);
    AtSplit(e, o, s1, s2);
    hide At, Bytes, Read;
    FieldAt(e, o, n.ver, 2);
    FieldAt(e, o + 2, |n.aux|, 2);
    FieldAt(e, o + 4, n.file, 4);
    FieldAt(e, o + 8, auxOff, 4);
    FieldAt(e, o + 12, next, 4);
  }

  lemma {:induction false} PhdrBytesAt(e: seq<byte>, o: nat, p: Phdr)
    requires At(e, o, PhdrBytes(p))
    requires p.ty < U32 && p.flags < U32 && p.off < U64 && p.va < U64 && p.pa < U64
    requires p.filesz < U64 && p.memsz < U64 && p.align < U64
    ensures o + PHDR_SIZE <= |e| && PhdrAt(e, o) == p
  {
    var s1, s2, s3, s4 := Bytes(p.ty, 4), Bytes(p.flags, 4), Bytes(p.off, 8), Bytes(p.va, 8);
    var s5, s6, s7, s8 := Bytes(p.pa, 8), Bytes(p.filesz, 8), Bytes(p.memsz, 8), Bytes(p.align, 8);
    Pow256s();
    AtSplit(e, o, s1 + s2 + s3 + s4 + s5 + s6 + s7, s8);
    AtSplit(e, o, s1 + s2 + s3 + s4 + s5 + s6, s7);
    AtSplit(e, o, s1 + s2 + s3 + s4 + s5, s6);
    AtSplit(e, o, s1 + s2 + s3 + s4, s5);
    AtSplit(e, o, s1 + s2 + s3, s4);
    AtSplit(e, o, s1 + s2, s3);
    AtSplit(e, o, s1, s2);
    hide At, Bytes, Read;
    FieldAt(e, o, p.ty, 4);
    FieldAt(e, o + 4, p.flags, 4);
    FieldAt(e, o + 8, p.off, 8);
    FieldAt(e, o + 16, p.va, 8);
    FieldAt(e, o + 24, p.pa, 8);
    FieldAt(e, o + 32, p.filesz, 8);
    FieldAt(e, o + 40, p.memsz, 8);
    FieldAt(e, o + 48, p.align, 8);
  }

  // ---- tables ------------------------------------------------------------

  lemma {:induction false} ParseAuxStep(e: seq<byte>, o: nat, cnt: nat, a: Aux, next: nat)
    requires o + 16 <= |e| && cnt > 0 && AuxAt(e, o) == a && Read(e, o + 12, 4) == next
    ensures ParseAux(e, o + next, cnt - 1).Ok? ==> ParseAux(e, o, cnt) == Ok([a] + ParseAux(e, o + next, cnt - 1).value)
  {
  }

  lemma {:induction false} AuxTableParses(e: seq<byte>, o: nat, aux: seq<Aux>)
    requires At(e, o, AuxTable(aux)) && forall i :: 0 <= i < |aux| ==> AuxFits(aux[i])
    ensures ParseAux(e, o, |aux|) == Ok(aux)
    decreases |aux|
  {
    hide At, AuxRecord, Read, AuxAt;
    if aux != [] {
      var next := if |aux| == 1 then 0 else 16;
      AtSplit(e, o, AuxRecord(aux[0], next), AuxTable(aux[1..]));
      AuxRecordAt(e, o, aux[0], next);
      ParseAuxStep(e, o, |aux|, aux[0], next);
      if |aux| > 1 { AuxTableParses(e, o + 16, aux[1..]); }
      assert aux == [aux[0]] + aux[1..];
    }
  }

  predicate NamesAt(e: seq<byte>, strtab: nat, needs: seq<Need>) {
    forall i :: 0 <= i < |needs| ==> CString(e, strtab + needs[i].file) == Some(needs[i].name)
  }

  /** What NeedRecordAt says about the record at o. */
  predicate NeedAt(e: seq<byte>, o: nat, n: Need, auxOff: nat, next: nat) {
    && o + 16 <= |e|
    && Read(e, o, 2) == n.ver && Read(e, o + 2, 2) == |n.aux| && Read(e, o + 4, 4) == n.file
    && Read(e, o + 8, 4) == auxOff && Read(e, o + 12, 4) == next
  }

  lemma {:induction false} ParseNeedsStep(e: seq<byte>, strtab: nat, o: nat, num: int, n: Need, auxOff: nat, next: nat)
    requires num > 0 && NeedAt(e, o, n, auxOff, next)
    requires ParseAux(e, o + auxOff, |n.aux|) == Ok(n.aux) && CString(e, strtab + n.file) == Some(n.name)
    ensures next == 0 ==> ParseNeeds(e, strtab, o, num) == Ok([n])
    ensures next != 0 && ParseNeeds(e, strtab, o + next, num - 1).Ok? ==>
              ParseNeeds(e, strtab, o, num) == Ok([n] + ParseNeeds(e, strtab, o + next, num - 1).value)
  {
    hide Read, CString, ParseAux;
  }

  /** The pieces of a serialised table with a first entry and a rest. */
  lemma {:induction false} TablePieces(e: seq<byte>, o: nat, needs: seq<Need>, gap: nat)
    requires needs != [] && gap >= 16 * |needs|
    requires At(e, o, NeedTable(needs, gap)) && At(e, o + gap, AuxTables(needs))
    requires NeedFits(needs[0]) && gap < U32
    ensures var next := if |needs| == 1 then 0 else 16;
            && NeedAt(e, o, needs[0], gap, next)
            && At(e, o + gap, AuxTable(needs[0].aux))
            && At(e, o + 16, NeedTable(needs[1..], gap - 16 + 16 * |needs[0].aux|))
            && At(e, o + 16 + (gap - 16 + 16 * |needs[0].aux|), AuxTables(needs[1..]))
  {
    hide At, NeedRecord, AuxTable, Read;
    var n, rest := needs[0], needs[1..];
    var next := if |needs| == 1 then 0 else 16;
    AtSplit(e, o, NeedRecord(n, gap, next), NeedTable(rest, gap - 16 + 16 * |n.aux|));
    AtSplit(e, o + gap, AuxTable(n.aux), AuxTables(rest));
    NeedRecordAt(e, o, n, gap, next);
    assert o + 16 + (gap - 16 + 16 * |n.aux|) == o + gap + 16 * |n.aux|;
  }

  predicate AllFit(needs: seq<Need>) {
    forall i :: 0 <= i < |needs| ==> NeedFits(needs[i])
  }

  /** The table reads back by counts: as many entries as there are, with their
      names, whatever larger count is declared. */
  lemma {:induction false} NeedTableParses(e: seq<byte>, strtab: nat, o: nat, needs: seq<Need>, gap: nat, num: int)
    requires needs != [] && gap >= 16 * |needs| && num >= |needs|
    requires At(e, o, NeedTable(needs, gap)) && At(e, o + gap, AuxTables(needs))
    requires AllFit(needs) && GapsFit(needs, gap) && NamesAt(e, strtab, needs)
    ensures ParseNeeds(e, strtab, o, num) == Ok(needs)
    decreases |needs|
  {
    hide At, NeedAt, NeedTable, AuxTable, AuxTables, ParseAux, CString, ParseNeeds;
    var n, rest := needs[0], needs[1..];
    TablePieces(e, o, needs, gap);
    AuxTableParses(e, o + gap, n.aux);
    ParseNeedsStep(e, strtab, o, num, n, gap, if |needs| == 1 then 0 else 16);
    if rest == [] {
      assert needs == [n];
    } else {
      NeedTableParses(e, strtab, o + 16, rest, gap - 16 + 16 * |n.aux|, num - 1);
      assert needs == [n] + rest;
    }
  }

  // ---- chains ------------------------------------------------------------

  lemma {:induction false} ChainAuxStep(e: seq<byte>, strtab: nat, o: nat, a: Aux, next: nat)
    requires o + 16 <= |e| && AuxAt(e, o) == a && Read(e, o + 12, 4) == next
    requires CString(e, strtab + a.name).Some?
    ensures var v := AuxView(a.hash, a.flags, a.other, CString(e, strtab + a.name).value);
            && (next == 0 ==> ChainAux(e, strtab, o) == Some([v]))
            && (next != 0 && ChainAux(e, strtab, o + next).Some? ==>
                  ChainAux(e, strtab, o) == Some([v] + ChainAux(e, strtab, o + next).value))
  {
    hide Read, CString, AuxAt;
  }

  /** Following vna_next gives what the counts give. */
  lemma {:induction false} AuxTableChains(e: seq<byte>, strtab: nat, o: nat, aux: seq<Aux>)
    requires aux != [] && At(e, o, AuxTable(aux)) && forall i :: 0 <= i < |aux| ==> AuxFits(aux[i])
    requires AuxViews(e, strtab, aux).Some?
    ensures ChainAux(e, strtab, o) == AuxViews(e, strtab, aux)
    decreases |aux|
  {
    hide At, AuxRecord, Read, CString, AuxAt, ChainAux;
    var next := if |aux| == 1 then 0 else 16;
    AtSplit(e, o, AuxRecord(aux[0], next), AuxTable(aux[1..]));
    AuxRecordAt(e, o, aux[0], next);
    ChainAuxStep(e, strtab, o, aux[0], next);
    if |aux| == 1 {
      var v := AuxView(aux[0].hash, aux[0].flags, aux[0].other, CString(e, strtab + aux[0].name).value);
      assert AuxViews(e, strtab, aux[1..]) == Some([]) && [v] + [] == [v];
    } else {
      AuxTableChains(e, strtab, o + 16, aux[1..]);
    }
  }

  lemma {:induction false} ChainNeedsStep(e: seq<byte>, strtab: nat, o: nat, n: Need, auxOff: nat, next: nat)
    requires NeedAt(e, o, n, auxOff, next)
    requires ChainAux(e, strtab, o + auxOff).Some? && CString(e, strtab + n.file) == Some(n.name)
    ensures var v := NeedView(n.ver, n.name, ChainAux(e, strtab, o + auxOff).value);
            && (next == 0 ==> ChainNeeds(e, strtab, o) == Some([v]))
            && (next != 0 && ChainNeeds(e, strtab, o + next).Some? ==>
                  ChainNeeds(e, strtab, o) == Some([v] + ChainNeeds(e, strtab, o + next).value))
  {
    hide Read, CString, ChainAux;
  }

  lemma {:induction false} NeedTableChains(e: seq<byte>, strtab: nat, o: nat, needs: seq<Need>, gap: nat)
    requires needs != [] && gap >= 16 * |needs|
    requires At(e, o, NeedTable(needs, gap)) && At(e, o + gap, AuxTables(needs))
    requires AllFit(needs) && GapsFit(needs, gap) && NamesAt(e, strtab, needs)
    requires forall i :: 0 <= i < |needs| ==> needs[i].aux != []
    requires NeedViews(e, strtab, needs).Some?
    ensures ChainNeeds(e, strtab, o) == NeedViews(e, strtab, needs)
    decreases |needs|
  {
    hide At, NeedAt, NeedTable, AuxTable, AuxTables, ChainAux, AuxViews, CString, ChainNeeds;
    var n, rest := needs[0], needs[1..];
    TablePieces(e, o, needs, gap);
    AuxTableChains(e, strtab, o + gap, n.aux);
    ChainNeedsStep(e, strtab, o, n, gap, if |needs| == 1 then 0 else 16);
    if rest == [] {
      var v := NeedView(n.ver, n.name, AuxViews(e, strtab, n.aux).value);
      assert NeedViews(e, strtab, rest) == Some([]) && [v] + [] == [v];
    } else {
      NeedTableChains(e, strtab, o + 16, rest, gap - 16 + 16 * |n.aux|);
    }
  }

  // ---- bounds that parsing gives -----------------------------------------

  predicate AllAuxFit(aux: seq<Aux>) {
    forall i :: 0 <= i < |aux| ==> AuxFits(aux[i])
  }

  lemma {:induction false} ParsedAuxFits(d: seq<byte>, o: nat, cnt: nat)
    requires ParseAux(d, o, cnt).Ok?
    ensures AllAuxFit(ParseAux(d, o, cnt).value)
    decreases cnt
  {
    if cnt > 0 {
      Pow256s();
      ReadBound(d, o, 4);
      ReadBound(d, o + 4, 2);
      ReadBound(d, o + 6, 2);
      ReadBound(d, o + 8, 4);
      ParsedAuxFits(d, o + Read(d, o + 12, 4), cnt - 1);
    }
  }
}
