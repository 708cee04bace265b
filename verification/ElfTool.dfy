/** declare-dt-relr.py as it runs: loops over cursors, a dictionary of dynamic entries,
    byte arrays packed and patched in place. Each method gives exactly what the
    functions of ElfFormat and ElfRewrite say. */
module ElfTool {
  import opened Basics
  import opened ElfBytes
  import opened ElfFormat
  import opened ElfRewrite
  import opened ElfTables
  import ElfHash

  /** A list read so far followed by what is still to be read. */
  function Prepend<T>(acc: seq<T>, r: Res<seq<T>>): Res<seq<T>> {
    if r.Stop? then r else Ok(acc + r.value)
  }

  lemma {:induction false} PrependMore<T>(acc: seq<T>, x: T, r: Res<seq<T>>)
    ensures Prepend(acc, Prepend([x], r)) == Prepend(acc + [x], r)
  {
    if r.Ok? { assert acc + ([x] + r.value) == acc + [x] + r.value; }
  }

  lemma {:induction false} PrependNone<T>(r: Res<seq<T>>)
    ensures Prepend([], r) == r
  {
    if r.Ok? { assert [] + r.value == r.value; }
  }

  // ---- reading -----------------------------------------------------------

  lemma {:induction false} ReadPhdrsStep(d: seq<byte>, h: Header, i: nat)
    requires i < h.phnum
    ensures ReadPhdrs(d, h, i) == if PhdrOff(h, i) + PHDR_SIZE > |d| then Stop(Crash)
                                  else Prepend([PhdrAt(d, PhdrOff(h, i))], ReadPhdrs(d, h, i + 1))
  {
    hide PhdrOff, PhdrAt;
  }

  method ReadProgramHeaders(d: seq<byte>, h: Header) returns (r: Res<seq<Phdr>>)
    ensures r == ReadPhdrs(d, h, 0)
  {
    hide PhdrOff, PhdrAt, ReadPhdrs;
    var phs: seq<Phdr> := [];
    var i := 0;
    PrependNone(ReadPhdrs(d, h, 0));
    while i < h.phnum
      invariant 0 <= i <= h.phnum
      invariant ReadPhdrs(d, h, 0) == Prepend(phs, ReadPhdrs(d, h, i))
    {
      ReadPhdrsStep(d, h, i);
      if PhdrOff(h, i) + PHDR_SIZE > |d| { return Stop(Crash); }
      PrependMore(phs, PhdrAt(d, PhdrOff(h, i)), ReadPhdrs(d, h, i + 1));
      phs := phs + [PhdrAt(d, PhdrOff(h, i))];
      i := i + 1;
    }
    ReadPhdrsEnd(d, h, i);
    assert phs + [] == phs;
    r := Ok(phs);
  }

  lemma {:induction false} ReadPhdrsEnd(d: seq<byte>, h: Header, i: nat)
    requires i >= h.phnum
    ensures ReadPhdrs(d, h, i) == Ok([])
  {
  }

  /** va_to_off. */
  method Resolve(phs: seq<Phdr>, va: int) returns (r: Res<nat>)
    ensures r == VaToOff(phs, va)
  {
    hide Maps;
    var i := 0;
    assert phs[0..] == phs;
    while i < |phs|
      invariant 0 <= i <= |phs| && VaToOff(phs, va) == VaToOff(phs[i..], va)
    {
      if Maps(phs[i], va) { return Ok(ResolvedIn(phs, i, va)); }
      assert phs[i..][1..] == phs[i + 1..];
      i := i + 1;
    }
    r := Stop(NotMapped);
  }

  function ResolvedIn(phs: seq<Phdr>, i: nat, va: int): (o: nat)
    requires i < |phs| && Maps(phs[i], va)
    ensures Ok(o) == VaToOff(phs[i..], va)
  {
    phs[i].off + (va - phs[i].va)
  }

  /** The dictionary holds, for every tag, its first entry. */
  ghost predicate Holds(m: map<nat, Dyn>, dyn: seq<Dyn>) {
    forall tag :: (tag in m <==> Lookup(dyn, tag).Some?) && (tag in m ==> Lookup(dyn, tag) == Some(m[tag]))
  }

  lemma {:induction false} LookupAppend(dyn: seq<Dyn>, e: Dyn, tag: nat)
    ensures Lookup(dyn + [e], tag) == if Lookup(dyn, tag).Some? then Lookup(dyn, tag)
                                      else if e.tag == tag then Some(e) else None
    decreases |dyn|
  {
    if dyn == [] {
      assert [] + [e] == [e] && [e][1..] == [];
    } else {
      assert (dyn + [e])[1..] == dyn[1..] + [e];
      if dyn[0].tag != tag { LookupAppend(dyn[1..], e, tag); }
    }
  }

  lemma {:induction false} SetDefault(m: map<nat, Dyn>, dyn: seq<Dyn>, e: Dyn)
    requires Holds(m, dyn)
    ensures Holds(if e.tag in m then m else m[e.tag := e], dyn + [e])
  {
    hide Lookup;
    var n := if e.tag in m then m else m[e.tag := e];
    forall tag ensures (tag in n <==> Lookup(dyn + [e], tag).Some?)
                       && (tag in n ==> Lookup(dyn + [e], tag) == Some(n[tag])) {
      LookupAppend(dyn, e, tag);
    }
  }

  lemma {:induction false} ReadDynStep(d: seq<byte>, o: nat)
    ensures ReadDyn(d, o) == if o + 16 > |d| then Stop(Crash) else if Read(d, o, 8) == 0 then Ok([])
                             else Prepend([Dyn(Read(d, o, 8), Signed(Read(d, o + 8, 8)), o)], ReadDyn(d, o + 16))
  {
    hide Read, Signed;
  }

  lemma {:induction false} HoldsNothing()
    ensures Holds(map[], [])
  {
  }

  /** The dynamic section as a dictionary filled with setdefault; list keeps the entries
      in file order, which only the specification looks at. */
  method ReadDynamic(d: seq<byte>, start: nat) returns (r: Res<map<nat, Dyn>>, list: seq<Dyn>)
    ensures r.Stop? ==> ReadDyn(d, start) == Stop(r.why)
    ensures r.Ok? ==> ReadDyn(d, start) == Ok(list) && Holds(r.value, list)
  {
    hide Read, Signed, ReadDyn, Holds;
    var dyn: map<nat, Dyn> := map[];
    list := [];
    var o: nat := start;
    PrependNone(ReadDyn(d, start));
    HoldsNothing();
    while true
      invariant Holds(dyn, list) && ReadDyn(d, start) == Prepend(list, ReadDyn(d, o))
      decreases |d| - o
    {
      ReadDynStep(d, o);
      if o + 16 > |d| { return Stop(Crash), list; }
      var tag, val := Read(d, o, 8), Signed(Read(d, o + 8, 8));
      if tag == 0 { break; }
      var e := Dyn(tag, val, o);
      SetDefault(dyn, list, e);
      PrependMore(list, e, ReadDyn(d, o + 16));
      if tag !in dyn { dyn := dyn[tag := e]; }
      list := list + [e];
      o := o + 16;
    }
    assert list + [] == list;
    r := Ok(dyn);
  }

  lemma {:induction false} ParseAuxStep(d: seq<byte>, o: nat, cnt: nat)
    requires cnt > 0
    ensures ParseAux(d, o, cnt) == if o + 16 > |d| then Stop(Crash)
                                   else Prepend([AuxAt(d, o)], ParseAux(d, o + Read(d, o + 12, 4), cnt - 1))
  {
    hide Read, AuxAt;
  }

  method ReadAuxes(d: seq<byte>, start: nat, cnt: nat) returns (r: Res<seq<Aux>>)
    ensures r == ParseAux(d, start, cnt)
  {
    hide Read, AuxAt, ParseAux;
    var auxes: seq<Aux> := [];
    var ao: nat := start;
    var k := 0;
    PrependNone(ParseAux(d, start, cnt));
    while k < cnt
      invariant 0 <= k <= cnt && ParseAux(d, start, cnt) == Prepend(auxes, ParseAux(d, ao, cnt - k))
    {
      ParseAuxStep(d, ao, cnt - k);
      if ao + 16 > |d| { return Stop(Crash); }
      PrependMore(auxes, AuxAt(d, ao), ParseAux(d, ao + Read(d, ao + 12, 4), cnt - k - 1));
      auxes := auxes + [AuxAt(d, ao)];
      ao := ao + Read(d, ao + 12, 4);
      k := k + 1;
    }
    ParseAuxEnd(d, ao);
    assert auxes + [] == auxes;
    r := Ok(auxes);
  }

  lemma {:induction false} ParseAuxEnd(d: seq<byte>, o: nat)
    ensures ParseAux(d, o, 0) == Ok([])
  {
  }

  lemma {:induction false} ParseNeedsUnfold(d: seq<byte>, strtab: nat, o: nat, num: int)
    ensures num <= 0 ==> ParseNeeds(d, strtab, o, num) == Ok([])
    ensures num > 0 && o + 16 > |d| ==> ParseNeeds(d, strtab, o, num) == Stop(Crash)
    ensures num > 0 && o + 16 <= |d| ==>
              var aux := ParseAux(d, o + Read(d, o + 8, 4), Read(d, o + 2, 2));
              var name := CString(d, strtab + Read(d, o + 4, 4));
              var next := Read(d, o + 12, 4);
              ParseNeeds(d, strtab, o, num) ==
                if aux.Stop? then Stop(aux.why) else if name.None? then Stop(Crash)
                else Prepend([Need(Read(d, o, 2), Read(d, o + 4, 4), name.value, aux.value)],
                             if next == 0 then Ok([]) else ParseNeeds(d, strtab, o + next, num - 1))
  {
    hide Read, CString, ParseAux;
    if num > 0 && o + 16 <= |d| && Read(d, o + 12, 4) == 0 {
      var aux := ParseAux(d, o + Read(d, o + 8, 4), Read(d, o + 2, 2));
      var name := CString(d, strtab + Read(d, o + 4, 4));
      if aux.Ok? && name.Some? {
        var need := Need(Read(d, o, 2), Read(d, o + 4, 4), name.value, aux.value);
        assert [need] + [] == [need];
      }
    }
  }

  /** The walk over the Verneed list, with a break at a zero vn_next. */
  method WalkNeeds(d: seq<byte>, strtab: nat, start: nat, num: int) returns (r: Res<seq<Need>>)
    ensures r == ParseNeeds(d, strtab, start, num)
  {
    hide Read, CString, ParseAux, ParseNeeds;
    var entries: seq<Need> := [];
    var o: nat := start;
    var k := 0;
    PrependNone(ParseNeeds(d, strtab, start, num));
    while k < num
      invariant 0 <= k && ParseNeeds(d, strtab, start, num) == Prepend(entries, ParseNeeds(d, strtab, o, num - k))
    {
      ParseNeedsUnfold(d, strtab, o, num - k);
      if o + 16 > |d| { return Stop(Crash); }
      var ver, cnt, file := Read(d, o, 2), Read(d, o + 2, 2), Read(d, o + 4, 4);
      var auxOff, next := Read(d, o + 8, 4), Read(d, o + 12, 4);
      var aux := ReadAuxes(d, o + auxOff, cnt);
      if aux.Stop? { return Stop(aux.why); }
      var name := CString(d, strtab + file);
      if name.None? { return Stop(Crash); }
      var need := Need(ver, file, name.value, aux.value);
      PrependMore(entries, need, if next == 0 then Ok([]) else ParseNeeds(d, strtab, o + next, num - k - 1));
      entries := entries + [need];
      if next == 0 {
        assert entries + [] == entries;
        return Ok(entries);
      }
      o := o + next;
      k := k + 1;
    }
    ParseNeedsUnfold(d, strtab, o, num - k);
    assert entries + [] == entries;
    r := Ok(entries);
  }

  /** declare-dt-relr.py:35-77: everything the tool reads before it decides. */
  method ReadAll(d: seq<byte>) returns (r: Res<Parsed>)
    ensures r == Parse(d)
  {
    hide ReadHeader, ReadPhdrs, FirstOf, ReadDyn, Lookup, VaToOff, ParseNeeds;
    var h := ReadHeader(d);
    if h.Stop? { return Stop(h.why); }
    var phs := ReadProgramHeaders(d, h.value);
    if phs.Stop? { return Stop(phs.why); }
    var i := FirstOf(phs.value, PT_DYNAMIC);
    if i.None? { return Stop(Crash); }
    var dynOff := phs.value[i.value].off;
    var dyn, list := ReadDynamic(d, dynOff);
    if dyn.Stop? { return Stop(dyn.why); }
    var m := dyn.value;
    if DT_RELR !in m { return Stop(NoRelr); }
    if DT_STRTAB !in m { return Stop(Crash); }
    var strtabOff := Resolve(phs.value, m[DT_STRTAB].val);
    if strtabOff.Stop? { return Stop(strtabOff.why); }
    if DT_STRSZ !in m || DT_VERNEED !in m { return Stop(Crash); }
    var verneedOff := Resolve(phs.value, m[DT_VERNEED].val);
    if verneedOff.Stop? { return Stop(verneedOff.why); }
    if DT_VERNEEDNUM !in m { return Stop(Crash); }
    var num := m[DT_VERNEEDNUM].val;
    var needs := WalkNeeds(d, strtabOff.value, verneedOff.value, num);
    if needs.Stop? { return Stop(needs.why); }
    r := Ok(Parsed(h.value, phs.value, dynOff, list, m[DT_STRTAB], m[DT_STRSZ], m[DT_VERNEED],
                   strtabOff.value, verneedOff.value, num, needs.value));
  }

  // ---- deciding ----------------------------------------------------------

  method HashName(s: seq<byte>) returns (h: nat)
    ensures h == HashOf(s)
  {
    var w := ElfHash.ElfHashOf(Words(s));
    h := w as nat;
  }

  method CheckAuxHashes(d: seq<byte>, strtab: nat, aux: seq<Aux>) returns (ok: bool)
    ensures ok == AuxHashesOk(d, strtab, aux)
  {
    hide CString, HashOf;
    for i := 0 to |aux|
      invariant forall k :: 0 <= k < i ==>
                  var name := CString(d, strtab + aux[k].name);
                  name.Some? && HashOf(name.value) == aux[k].hash
    {
      var name := CString(d, strtab + aux[i].name);
      if name.None? { return false; }
      var h := HashName(name.value);
      if h != aux[i].hash { return false; }
    }
    ok := true;
  }

  /** The self-check of the hash function. */
  method CheckHashes(d: seq<byte>, strtab: nat, entries: seq<Need>) returns (ok: bool)
    ensures ok == HashesOk(d, strtab, entries)
  {
    hide AuxHashesOk;
    for i := 0 to |entries|
      invariant forall k :: 0 <= k < i ==> AuxHashesOk(d, strtab, entries[k].aux)
    {
      var good := CheckAuxHashes(d, strtab, entries[i].aux);
      if !good { return false; }
    }
    ok := true;
  }

  method AnyDeclares(d: seq<byte>, strtab: nat, aux: seq<Aux>) returns (found: bool)
    ensures found == Declares(d, strtab, aux)
  {
    hide StartsWith;
    for i := 0 to |aux|
      invariant forall k :: 0 <= k < i ==> !StartsWith(d, strtab + aux[k].name, VERSION + [0])
    {
      if StartsWith(d, strtab + aux[i].name, VERSION + [0]) { return true; }
    }
    found := false;
  }

  // ---- rebuilding the table ----------------------------------------------

  lemma {:induction false} PatchSlices(d: seq<byte>, o: nat, s: seq<byte>, a: nat, b: nat)
    requires o + |s| <= |d| && a <= b <= |d|
    ensures b <= o || o + |s| <= a ==> Patch(d, o, s)[a..b] == d[a..b]
    ensures a <= o && b == o + |s| ==> Patch(d, o, s)[a..b] == d[a..o] + s
  {
  }

  lemma {:induction false} PatchTwice(d: seq<byte>, o: nat, s: seq<byte>, t: seq<byte>)
    requires o + |s| + |t| <= |d|
    ensures Patch(Patch(d, o, s), o + |s|, t) == Patch(d, o, s + t)
  {
  }

  lemma {:induction false} PatchNothing(d: seq<byte>, o: nat)
    requires o <= |d|
    ensures Patch(d, o, []) == d
  {
  }

  lemma {:induction false} AuxTableStep(aux: seq<Aux>, i: nat)
    requires i < |aux|
    ensures AuxTable(aux[i..]) == AuxRecord(aux[i], if i + 1 == |aux| then 0 else 16) + AuxTable(aux[i + 1..])
  {
    hide AuxRecord;
    assert aux[i..][1..] == aux[i + 1..];
  }

  /** The Vernauxes of one entry, packed at the cursor. */
  method PackAuxes(a: array<byte>, start: nat, aux: seq<Aux>) returns (ok: bool)
    requires start + 16 * |aux| <= a.Length
    modifies a
    ensures ok == AllAuxFit(aux)
    ensures ok ==> a[..] == Patch(old(a[..]), start, AuxTable(aux))
  {
    hide AuxFits, AuxRecord, AuxTable, Patch;
    ghost var was := a[..];
    ghost var done: seq<byte> := [];
    var cursor: nat := start;
    PatchNothing(was, start);
    assert aux[0..] == aux;
    assert [] + AuxTable(aux) == AuxTable(aux);
    for j := 0 to |aux|
      invariant cursor == start + 16 * j && |done| == 16 * j
      invariant done + AuxTable(aux[j..]) == AuxTable(aux)
      invariant a[..] == Patch(was, start, done)
      invariant forall k :: 0 <= k < j ==> AuxFits(aux[k])
    {
      var next := if j + 1 == |aux| then 0 else 16;
      if !AuxFits(aux[j]) { return false; }
      AuxTableStep(aux, j);
      PackInto(a, cursor, AuxRecord(aux[j], next));
      PatchTwice(was, start, done, AuxRecord(aux[j], next));
      assert done + (AuxRecord(aux[j], next) + AuxTable(aux[j + 1..]))
          == done + AuxRecord(aux[j], next) + AuxTable(aux[j + 1..]);
      done := done + AuxRecord(aux[j], next);
      cursor := cursor + 16;
    }
    AuxTableEnd(aux);
    assert done + [] == done;
    ok := true;
  }

  lemma {:induction false} AuxTableEnd(aux: seq<Aux>)
    ensures AuxTable(aux[|aux|..]) == []
  {
  }

  /** The fields of one Verneed fit. */
  predicate EntryFits(n: Need, gap: nat) {
    n.ver < 0x10000 && |n.aux| < 0x10000 && n.file < U32 && gap < U32
  }

  /** What is left to pack fits. */
  predicate RestFits(needs: seq<Need>, gap: nat)
    requires gap >= 16 * |needs|
  {
    AllFit(needs) && GapsFit(needs, gap)
  }

  lemma {:induction false} RestFitsStep(needs: seq<Need>, i: nat, gap: nat)
    requires i < |needs| && gap >= 16 * (|needs| - i)
    ensures RestFits(needs[i..], gap) <==>
              && EntryFits(needs[i], gap) && AllAuxFit(needs[i].aux)
              && RestFits(needs[i + 1..], gap - 16 + 16 * |needs[i].aux|)
  {
    hide AuxFits;
    var s := needs[i..];
    assert s[1..] == needs[i + 1..];
    assert AllFit(s) <==> NeedFits(s[0]) && AllFit(s[1..]) by {
      if NeedFits(s[0]) && AllFit(s[1..]) {
        forall k | 0 <= k < |s| ensures NeedFits(s[k]) { if k > 0 { assert s[k] == s[1..][k - 1]; } }
      }
      if AllFit(s) {
        forall k | 0 <= k < |s[1..]| ensures NeedFits(s[1..][k]) { assert s[1..][k] == s[k + 1]; }
      }
    }
  }

  lemma {:induction false} NeedTableStep(needs: seq<Need>, i: nat, gap: nat)
    requires i < |needs| && gap >= 16 * (|needs| - i)
    ensures NeedTable(needs[i..], gap)
            == NeedRecord(needs[i], gap, if i + 1 < |needs| then 16 else 0)
               + NeedTable(needs[i + 1..], gap - 16 + 16 * |needs[i].aux|)
  {
    hide NeedRecord;
    assert needs[i..][1..] == needs[i + 1..];
  }

  lemma {:induction false} AuxTablesStep(needs: seq<Need>, i: nat)
    requires i < |needs|
    ensures AuxTables(needs[i..]) == AuxTable(needs[i].aux) + AuxTables(needs[i + 1..])
    ensures AuxCount(needs[i..]) == |needs[i].aux| + AuxCount(needs[i + 1..])
  {
    hide AuxTable;
    assert needs[i..][1..] == needs[i + 1..];
  }

  /** The table so far: records of the entries done, then their auxiliaries. */
  ghost predicate Packed(a: seq<byte>, needs: seq<Need>, i: nat, cursor: nat, recs: seq<byte>, auxs: seq<byte>) {
    && i <= |needs| && 16 * |needs| <= cursor && |recs| == 16 * i && |auxs| == cursor - 16 * |needs|
    && |a| == cursor + 16 * AuxCount(needs[i..])
    && a[..16 * i] == recs && a[16 * |needs|..cursor] == auxs
    && recs + NeedTable(needs[i..], cursor - 16 * i) == NeedTable(needs, 16 * |needs|)
    && auxs + AuxTables(needs[i..]) == AuxTables(needs)
  }

  /** One entry: a before, b after both packings. */
  lemma {:induction false} PackedStep(a: seq<byte>, b: seq<byte>, needs: seq<Need>, i: nat, cursor: nat,
                                      recs: seq<byte>, auxs: seq<byte>, rec: seq<byte>, aux: seq<byte>)
    requires Packed(a, needs, i, cursor, recs, auxs) && i < |needs|
    requires rec == NeedRecord(needs[i], cursor - 16 * i, if i + 1 < |needs| then 16 else 0)
    requires aux == AuxTable(needs[i].aux) && cursor + |aux| <= |a|
    requires b == Patch(Patch(a, 16 * i, rec), cursor, aux)
    ensures Packed(b, needs, i + 1, cursor + |aux|, recs + rec, auxs + aux)
  {
    hide NeedRecord, AuxTable, AuxTables, NeedTable, Patch, AuxCount;
    NeedTableStep(needs, i, cursor - 16 * i);
    AuxTablesStep(needs, i);
    var c := Patch(a, 16 * i, rec);
    PatchSlices(a, 16 * i, rec, 0, 16 * i + 16);
    PatchSlices(a, 16 * i, rec, 16 * |needs|, cursor);
    PatchSlices(c, cursor, aux, 0, 16 * i + 16);
    PatchSlices(c, cursor, aux, 16 * |needs|, cursor + |aux|);
    assert recs + (rec + NeedTable(needs[i + 1..], cursor - 16 * i - 16 + 16 * |needs[i].aux|))
        == recs + rec + NeedTable(needs[i + 1..], cursor - 16 * i - 16 + 16 * |needs[i].aux|);
    assert auxs + (aux + AuxTables(needs[i + 1..])) == auxs + aux + AuxTables(needs[i + 1..]);
  }

  lemma {:induction false} PackedStart(a: seq<byte>, needs: seq<Need>)
    requires |a| == 16 * |needs| + 16 * AuxCount(needs)
    ensures Packed(a, needs, 0, 16 * |needs|, [], [])
  {
    hide NeedTable, AuxTables, AuxCount;
    assert needs[0..] == needs;
    assert [] + NeedTable(needs, 16 * |needs|) == NeedTable(needs, 16 * |needs|);
    assert [] + AuxTables(needs) == AuxTables(needs);
  }

  lemma {:induction false} PackedEnd(a: seq<byte>, needs: seq<Need>, cursor: nat, recs: seq<byte>, auxs: seq<byte>)
    requires Packed(a, needs, |needs|, cursor, recs, auxs)
    ensures a == Serialize(needs)
  {
    assert needs[|needs|..] == [];
    assert recs + [] == recs && auxs + [] == auxs;
    assert a == a[..16 * |needs|] + a[16 * |needs|..cursor];
  }

  /** declare-dt-relr.py:103-114: every Verneed, then every Vernaux, packed into one array. */
  method Rebuild(needs: seq<Need>) returns (ok: bool, table: array<byte>)
    ensures ok == TableFits(needs) && fresh(table)
    ensures ok ==> table[..] == Serialize(needs)
  {
    hide AuxTables, NeedTable, NeedRecord, AuxTable, AuxCount, Patch, AuxFits, RestFits, Serialize, Packed, TableFits;
    hide AllAuxFit;
    var n := |needs|;
    table := new byte[16 * n + 16 * AuxCount(needs)](_ => 0);
    var cursor: nat := 16 * n;
    ghost var recs: seq<byte>, auxs: seq<byte> := [], [];
    PackedStart(table[..], needs);
    RestFitsStart(needs);
    for i := 0 to n
      invariant cursor >= 16 * n && fresh(table)
      invariant Packed(table[..], needs, i, cursor, recs, auxs)
      invariant TableFits(needs) <==> RestFits(needs[i..], cursor - 16 * i)
    {
      ghost var was := table[..];
      var e := needs[i];
      RestFitsStep(needs, i, cursor - 16 * i);
      PackedRoom(was, needs, i, cursor, recs, auxs);
      if !EntryFits(e, cursor - 16 * i) { return false, table; }
      var rec := NeedRecord(e, cursor - 16 * i, if i + 1 < n then 16 else 0);
      PackInto(table, 16 * i, rec);
      var good := PackAuxes(table, cursor, e.aux);
      if !good { return false, table; }
      PackedStep(was, table[..], needs, i, cursor, recs, auxs, rec, AuxTable(e.aux));
      recs, auxs := recs + rec, auxs + AuxTable(e.aux);
      cursor := cursor + 16 * |e.aux|;
    }
    RestFitsEnd(needs, cursor - 16 * n);
    PackedEnd(table[..], needs, cursor, recs, auxs);
    ok := true;
  }

  lemma {:induction false} PackedRoom(a: seq<byte>, needs: seq<Need>, i: nat, cursor: nat, recs: seq<byte>, auxs: seq<byte>)
    requires Packed(a, needs, i, cursor, recs, auxs) && i < |needs|
    ensures cursor + 16 * |needs[i].aux| <= |a| && 16 * i + 16 <= cursor
  {
    hide AuxTables, NeedTable, AuxCount;
    AuxTablesStep(needs, i);
  }

  lemma {:induction false} RestFitsStart(needs: seq<Need>)
    ensures TableFits(needs) <==> RestFits(needs[0..], 16 * |needs|)
  {
    hide NeedFits, GapsFit;
    assert needs[0..] == needs;
  }

  lemma {:induction false} RestFitsEnd(needs: seq<Need>, gap: nat)
    ensures RestFits(needs[|needs|..], gap)
  {
  }

  // ---- deciding and placing ----------------------------------------------

  /** declare-dt-relr.py:81-124: the checks with their exits, then the new tables and their place. */
  method Decide(d: seq<byte>, p: Parsed) returns (r: Res<Plan>)
    ensures r == MakePlan(d, p)
  {
    hide HashesOk, Declares, TableFits, Serialize, BlobOf, BlobVa, NewAux, AppendAux, Slice, MaxIndex, Top, FindLibc;
    var good := CheckHashes(d, p.strtabOff, p.needs);
    if !good { return Stop(Crash); }
    var t := FindLibc(p.needs);
    if t.None? { return Stop(NoLibc); }
    var declared := AnyDeclares(d, p.strtabOff, p.needs[t.value].aux);
    if declared { return Stop(AlreadyDeclared); }
    var spare := FirstOf(p.phs, PT_NOTE);
    if spare.None? { return Stop(NoSpare); }
    if p.strsz.val < 0 || MaxIndex(p.needs) < 0 { return Stop(Crash); }
    var needs := AppendAux(p.needs, t.value, NewAux(p));
    var ok, table := Rebuild(needs);
    if !ok || Top(p.phs) < 0 { return Stop(Crash); }
    var dynstr := Slice(d, p.strtabOff, p.strsz.val) + VERSION + [0];
    var blobOff := RoundUp16(|d|);
    r := Ok(Plan(t.value, spare.value, needs, dynstr, table[..], blobOff, RoundUp8(|dynstr|),
                 BlobOf(dynstr, table[..]), BlobVa(blobOff, Top(p.phs))));
  }

  // ---- writing -----------------------------------------------------------

  /** struct.pack_into with its bounds check. */
  method PutInto(a: array<byte>, o: nat, s: seq<byte>) returns (ok: bool)
    modifies a
    ensures ok == Put(old(a[..]), o, s).Ok?
    ensures a[..] == if ok then Put(old(a[..]), o, s).value else old(a[..])
  {
    ok := o + |s| <= a.Length;
    if ok { PackInto(a, o, s); }
  }

  /** declare-dt-relr.py:127-131. */
  method PatchLoaderInto(a: array<byte>, p: Parsed, q: Plan) returns (ok: bool)
    modifies a
    ensures ok == PatchLoader(old(a[..]), p, q).Ok?
    ensures ok ==> a[..] == PatchLoader(old(a[..]), p, q).value
  {
    hide Put, PhdrBytes, Bytes, PhdrOff;
    ok := PutInto(a, PhdrOff(p.h, q.spare), PhdrBytes(NewPhdr(q)));
    if !ok { return; }
    ok := PutInto(a, p.strtab.at + 8, Bytes(q.blobVa, 8));
    if !ok { return; }
    ok := PutInto(a, p.strsz.at + 8, Bytes(|q.dynstr|, 8));
    if !ok { return; }
    ok := PutInto(a, p.verneed.at + 8, Bytes(q.blobVa + q.rel, 8));
  }

  lemma {:induction false} PatchSectionsStep(d: seq<byte>, h: Header, shstr: nat, q: Plan, i: nat)
    requires i < h.shnum
    ensures PatchSections(d, h, shstr, q, i) == if PatchSection(d, h, shstr, q, i).Stop? then Stop(PatchSection(d, h, shstr, q, i).why)
                                                else PatchSections(PatchSection(d, h, shstr, q, i).value, h, shstr, q, i + 1)
  {
    hide PatchSection;
  }

  lemma {:induction false} PatchSectionsEnd(d: seq<byte>, h: Header, shstr: nat, q: Plan)
    ensures PatchSections(d, h, shstr, q, h.shnum) == Ok(d)
  {
  }

  /** One turn of the section loop, in place. */
  method PatchSectionInto(a: array<byte>, h: Header, shstr: nat, q: Plan, i: nat) returns (ok: bool)
    modifies a
    ensures var r := PatchSection(old(a[..]), h, shstr, q, i);
            && ok == r.Ok? && (r.Stop? ==> r.why == Crash) && (ok ==> a[..] == r.value)
  {
    hide SectionName, MovedTo, ShdrOff;
    var name := SectionName(a[..], h, shstr, i);
    if name.None? { return false; }
    var s := MovedTo(q, name.value);
    ok := true;
    if s.Some? { ok := PutInto(a, ShdrOff(h, i) + 16, s.value); }
  }

  /** declare-dt-relr.py:137-142. */
  method PatchSectionsInto(a: array<byte>, h: Header, shstr: nat, q: Plan) returns (ok: bool)
    modifies a
    ensures var r := PatchSections(old(a[..]), h, shstr, q, 0);
            && ok == r.Ok? && (r.Stop? ==> r.why == Crash) && (ok ==> a[..] == r.value)
  {
    hide PatchSection, PatchSections;
    ghost var want := PatchSections(a[..], h, shstr, q, 0);
    for i := 0 to h.shnum
      invariant want == PatchSections(a[..], h, shstr, q, i)
    {
      PatchSectionsStep(a[..], h, shstr, q, i);
      var good := PatchSectionInto(a, h, shstr, q, i);
      if !good { return false; }
    }
    PatchSectionsEnd(a[..], h, shstr, q);
    ok := true;
  }

  lemma {:induction false} PatchLoaderCrashes(d: seq<byte>, p: Parsed, q: Plan)
    ensures PatchLoader(d, p, q).Stop? ==> PatchLoader(d, p, q).why == Crash
  {
    hide Patch, PhdrBytes, Bytes, PhdrOff;
  }

  /** declare-dt-relr.py:126-144: the grown file, patched in place. */
  method Write(d: seq<byte>, p: Parsed, q: Plan) returns (r: Res<seq<byte>>)
    ensures r == Apply(d, p, q)
  {
    hide Grown, PatchLoader, PatchSections, PlanFits, Read, ShdrOff;
    if !PlanFits(q) { return Stop(Crash); }
    var image := Grown(d, q);
    var a := new byte[|image|](i requires 0 <= i < |image| => image[i]);
    assert a[..] == image;
    PatchLoaderCrashes(image, p, q);
    var ok := PatchLoaderInto(a, p, q);
    if !ok { return Stop(Crash); }
    var o := ShdrOff(p.h, p.h.shstrndx) + 24;
    if o + 8 > a.Length { return Stop(Crash); }
    ok := PatchSectionsInto(a, p.h, Read(a[..], o, 8), q);
    if !ok { return Stop(Crash); }
    r := Ok(a[..]);
  }

  /** main. */
  method DeclareVersion(d: seq<byte>) returns (r: Res<seq<byte>>)
    ensures r == Declare(d)
  {
    hide Parse, MakePlan, Apply;
    var p := ReadAll(d);
    if p.Stop? { return Stop(p.why); }
    var q := Decide(d, p.value);
    if q.Stop? { return Stop(q.why); }
    r := Write(d, p.value, q.value);
  }
}
