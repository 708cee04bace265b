/** What declare-dt-relr.py writes, as a function of the file it reads. */
module ElfRewrite {
  import opened Basics
  import opened ElfBytes
  import opened ElfFormat
  import ElfHash

  /** b"GLIBC_ABI_DT_RELR" */
  const VERSION: seq<byte> := [71, 76, 73, 66, 67, 95, 65, 66, 73, 95, 68, 84, 95, 82, 69, 76, 82]
  /** b"libc.so.6" */
  const LIBC: seq<byte> := [108, 105, 98, 99, 46, 115, 111, 46, 54]
  /** b".dynstr" and b".gnu.version_r" */
  const DYNSTR_NAME: seq<byte> := [46, 100, 121, 110, 115, 116, 114]
  const VERSION_R_NAME: seq<byte> := [46, 103, 110, 117, 46, 118, 101, 114, 115, 105, 111, 110, 95, 114]

  const U32: nat := 0x1_0000_0000
  const U64: nat := 0x1_0000_0000_0000_0000
  const I64: nat := 0x8000_0000_0000_0000

  // ---- checks before the rewrite -----------------------------------------

  function Words(s: seq<byte>): seq<bv32> {
    seq(|s|, i requires 0 <= i < |s| => s[i] as bv32)
  }

  /** elf_hash of a name, as the number stored in vna_hash. */
  function HashOf(s: seq<byte>): nat {
    ElfHash.HashFrom(0, Words(s)) as nat
  }

  predicate AuxHashesOk(d: seq<byte>, strtab: nat, aux: seq<Aux>) {
    forall i :: 0 <= i < |aux| ==>
      var name := CString(d, strtab + aux[i].name);
      name.Some? && HashOf(name.value) == aux[i].hash
  }

  /** The tool's self-check of its hash against what the linker wrote. */
  predicate HashesOk(d: seq<byte>, strtab: nat, needs: seq<Need>) {
    forall i :: 0 <= i < |needs| ==> AuxHashesOk(d, strtab, needs[i].aux)
  }

  /** Index of the first entry for libc.so.6. */
  function FindLibc(needs: seq<Need>): (r: Option<nat>)
    ensures r.Some? ==> r.value < |needs| && needs[r.value].name == LIBC
    ensures r.Some? ==> forall i :: 0 <= i < r.value ==> needs[i].name != LIBC
    ensures r.None? ==> forall i :: 0 <= i < |needs| ==> needs[i].name != LIBC
  {
    if needs == [] then None
    else if needs[0].name == LIBC then Some(0)
    else
      var r := FindLibc(needs[1..]);
      assert forall i :: 0 < i < |needs| ==> needs[i] == needs[1..][i - 1];
      if r.None? then None else Some(r.value + 1)
  }

  predicate StartsWith(d: seq<byte>, o: nat, s: seq<byte>) {
    o + |s| <= |d| && d[o..o + |s|] == s
  }

  predicate Declares(d: seq<byte>, strtab: nat, aux: seq<Aux>) {
    exists i :: 0 <= i < |aux| && StartsWith(d, strtab + aux[i].name, VERSION + [0])
  }

  // ---- the new tables ----------------------------------------------------

  /** Largest version index in use, without the hidden bit; -1 when there is none. */
  function MaxIndexAux(aux: seq<Aux>): (m: int)
    ensures -1 <= m < 0x8000
    ensures forall i :: 0 <= i < |aux| ==> aux[i].other % 0x8000 <= m
  {
    if aux == [] then -1
    else
      var m := MaxIndexAux(aux[1..]);
      var v := aux[0].other % 0x8000;
      assert forall i :: 0 < i < |aux| ==> aux[i] == aux[1..][i - 1];
      if v > m then v else m
  }

  function MaxIndex(needs: seq<Need>): (m: int)
    ensures -1 <= m < 0x8000
    ensures forall i, j :: 0 <= i < |needs| && 0 <= j < |needs[i].aux| ==> needs[i].aux[j].other % 0x8000 <= m
  {
    if needs == [] then -1
    else
      var m, v := MaxIndex(needs[1..]), MaxIndexAux(needs[0].aux);
      assert forall i :: 0 < i < |needs| ==> needs[i] == needs[1..][i - 1];
      if v > m then v else m
  }

  function AppendAux(needs: seq<Need>, t: nat, a: Aux): (r: seq<Need>)
    requires t < |needs|
    ensures |r| == |needs|
  {
    needs[t := needs[t].(aux := needs[t].aux + [a])]
  }

  function AuxRecord(a: Aux, next: nat): (s: seq<byte>)
    ensures |s| == 16
  {
    Bytes(a.hash, 4) + Bytes(a.flags, 2) + Bytes(a.other, 2) + Bytes(a.name, 4) + Bytes(next, 4)
  }

  function AuxTable(aux: seq<Aux>): (s: seq<byte>)
    ensures |s| == 16 * |aux|
  {
    if aux == [] then []
    else AuxRecord(aux[0], if |aux| == 1 then 0 else 16) + AuxTable(aux[1..])
  }

  function NeedRecord(n: Need, auxOff: nat, next: nat): (s: seq<byte>)
    ensures |s| == 16
  {
    Bytes(n.ver, 2) + Bytes(|n.aux|, 2) + Bytes(n.file, 4) + Bytes(auxOff, 4) + Bytes(next, 4)
  }

  /** gap: distance from the first of these records to its first Vernaux. */
  function NeedTable(needs: seq<Need>, gap: nat): (s: seq<byte>)
    requires gap >= 16 * |needs|
    ensures |s| == 16 * |needs|
  {
    if needs == [] then []
    else NeedRecord(needs[0], gap, if |needs| == 1 then 0 else 16)
         + NeedTable(needs[1..], gap - 16 + 16 * |needs[0].aux|)
  }

  function AuxTables(needs: seq<Need>): (s: seq<byte>)
    ensures |s| == 16 * AuxCount(needs)
  {
    if needs == [] then [] else AuxTable(needs[0].aux) + AuxTables(needs[1..])
  }

  function AuxCount(needs: seq<Need>): nat {
    if needs == [] then 0 else |needs[0].aux| + AuxCount(needs[1..])
  }

  /** Every Verneed, then every Vernaux. */
  function Serialize(needs: seq<Need>): (s: seq<byte>)
    ensures |s| == 16 * |needs| + 16 * AuxCount(needs)
  {
    NeedTable(needs, 16 * |needs|) + AuxTables(needs)
  }

  predicate AuxFits(a: Aux) {
    a.hash < U32 && a.flags < 0x10000 && a.other < 0x10000 && a.name < U32
  }

  predicate NeedFits(n: Need) {
    n.ver < 0x10000 && n.file < U32 && |n.aux| < 0x10000 && forall i :: 0 <= i < |n.aux| ==> AuxFits(n.aux[i])
  }

  /** struct.pack accepts every field: the aux offsets are below the table's size. */
  predicate TableFits(needs: seq<Need>) {
    (forall i :: 0 <= i < |needs| ==> NeedFits(needs[i])) && GapsFit(needs, 16 * |needs|)
  }

  predicate GapsFit(needs: seq<Need>, gap: nat)
    requires gap >= 16 * |needs|
  {
    needs == [] || (gap < U32 && GapsFit(needs[1..], gap - 16 + 16 * |needs[0].aux|))
  }

  // ---- placement ---------------------------------------------------------

  function Zeros(n: nat): (s: seq<byte>)
    ensures |s| == n && forall i :: 0 <= i < n ==> s[i] == 0
  {
    seq(n, _ => 0)
  }

  /** Highest end address of a loaded segment; -1 when there is none. */
  function Top(phs: seq<Phdr>): (t: int)
    ensures t >= -1
    ensures forall i :: 0 <= i < |phs| && phs[i].ty == PT_LOAD ==> phs[i].va + phs[i].memsz <= t
  {
    if phs == [] then -1
    else
      var t := Top(phs[1..]);
      var v := if phs[0].ty == PT_LOAD then phs[0].va + phs[0].memsz else -1;
      assert forall i :: 0 < i < |phs| ==> phs[i] == phs[1..][i - 1];
      if v > t then v else t
  }

  /** Python's d[o:o+n] for a non-negative n: cut off at the end of the file. */
  function Slice(d: seq<byte>, o: nat, n: nat): (s: seq<byte>)
    ensures |s| <= n && (|s| < n ==> o + |s| >= |d|)
    ensures s != [] ==> o + |s| <= |d| && s == d[o..o + |s|]
    ensures o + n <= |d| ==> s == d[o..o + n]
  {
    if o >= |d| then [] else if o + n <= |d| then d[o..o + n] else d[o..]
  }

  datatype Plan = Plan(target: nat, spare: nat, needs: seq<Need>, dynstr: seq<byte>, table: seq<byte>,
                       blobOff: nat, rel: nat, blob: seq<byte>, blobVa: nat)

  function NewAux(p: Parsed): Aux
    requires p.strsz.val >= 0
  {
    Aux(HashOf(VERSION), 0, MaxIndex(p.needs) + 1, p.strsz.val)
  }

  function BlobOf(dynstr: seq<byte>, table: seq<byte>): (s: seq<byte>)
    ensures |s| == RoundUp8(|dynstr|) + |table|
  {
    dynstr + Zeros(RoundUp8(|dynstr|) - |dynstr|) + table
  }

  function BlobVa(blobOff: nat, top: nat): (va: nat)
    ensures top + ALIGN <= va <= top + 2 * ALIGN - 1
    ensures (va - blobOff) % ALIGN == 0
  {
    blobOff + RoundDownAlign(top - blobOff + 2 * ALIGN - 1)
  }

  /** All decisions of the tool, with the order of its early exits. */
  function MakePlan(d: seq<byte>, p: Parsed): Res<Plan> {
    if !HashesOk(d, p.strtabOff, p.needs) then Stop(Crash)
    else
      var t := FindLibc(p.needs);
      if t.None? then Stop(NoLibc)
      else if Declares(d, p.strtabOff, p.needs[t.value].aux) then Stop(AlreadyDeclared)
      else
        var spare := FirstOf(p.phs, PT_NOTE);
        if spare.None? then Stop(NoSpare)
        else if p.strsz.val < 0 || MaxIndex(p.needs) < 0 then Stop(Crash)
        else
          var needs := AppendAux(p.needs, t.value, NewAux(p));
          if !TableFits(needs) || Top(p.phs) < 0 then Stop(Crash)
          else
            var dynstr := Slice(d, p.strtabOff, p.strsz.val) + VERSION + [0];
            var table := Serialize(needs);
            var blobOff := RoundUp16(|d|);
            var blob := BlobOf(dynstr, table);
            Ok(Plan(t.value, spare.value, needs, dynstr, table, blobOff, RoundUp8(|dynstr|), blob,
                    BlobVa(blobOff, Top(p.phs))))
  }

  function NewPhdr(q: Plan): Phdr {
    Phdr(PT_LOAD, 4, q.blobOff, q.blobVa, q.blobVa, |q.blob|, |q.blob|, ALIGN)
  }

  // ---- writing -----------------------------------------------------------

  /** The file grown by padding and the new tables. */
  function Grown(d: seq<byte>, q: Plan): seq<byte> {
    d + Zeros(RoundUp16(|d|) - |d|) + q.blob
  }

  /** The values written fit their fields. */
  predicate PlanFits(q: Plan) {
    q.blobOff + |q.blob| < U64 && q.blobVa + q.rel < I64
  }

  /** One struct.pack_into; a write past the end of the file raises. */
  function Put(d: seq<byte>, o: nat, s: seq<byte>): Res<seq<byte>> {
    if o + |s| > |d| then Stop(Crash) else Ok(Patch(d, o, s))
  }

  function Triple(va: nat, off: nat, size: nat): (s: seq<byte>)
    ensures |s| == 24
  {
    Bytes(va, 8) + Bytes(off, 8) + Bytes(size, 8)
  }

  /** What the section-header loop writes for a section of this name, if anything. */
  function MovedTo(q: Plan, name: seq<byte>): (r: Option<seq<byte>>)
    ensures r.Some? ==> |r.value| == 24
  {
    if name == DYNSTR_NAME then Some(Triple(q.blobVa, q.blobOff, |q.dynstr|))
    else if name == VERSION_R_NAME then Some(Triple(q.blobVa + q.rel, q.blobOff + q.rel, |q.table|))
    else None
  }

  function ShdrOff(h: Header, i: nat): nat {
    h.shoff + i * h.shentsize
  }

  /** Name of the i-th section, read from the section name table at shstr. */
  function SectionName(d: seq<byte>, h: Header, shstr: nat, i: nat): Option<seq<byte>> {
    if ShdrOff(h, i) + 4 > |d| then None else CString(d, shstr + Read(d, ShdrOff(h, i), 4))
  }

  /** One turn of the section loop. */
  function PatchSection(d: seq<byte>, h: Header, shstr: nat, q: Plan, i: nat): (r: Res<seq<byte>>)
    ensures r.Ok? ==> |r.value| == |d|
  {
    var name := SectionName(d, h, shstr, i);
    if name.None? then Stop(Crash)
    else
      var s := MovedTo(q, name.value);
      if s.None? then Ok(d) else Put(d, ShdrOff(h, i) + 16, s.value)
  }

  function PatchSections(d: seq<byte>, h: Header, shstr: nat, q: Plan, i: nat): (r: Res<seq<byte>>)
    ensures r.Ok? ==> |r.value| == |d|
    decreases h.shnum - i
  {
    if i >= h.shnum then Ok(d)
    else
      var e :- PatchSection(d, h, shstr, q, i);
      PatchSections(e, h, shstr, q, i + 1)
  }

  /** The recycled program header and the three dynamic values. */
  function PatchLoader(d: seq<byte>, p: Parsed, q: Plan): (r: Res<seq<byte>>)
    ensures r.Ok? ==> |r.value| == |d|
  {
    var d1 :- Put(d, PhdrOff(p.h, q.spare), PhdrBytes(NewPhdr(q)));
    var d2 :- Put(d1, p.strtab.at + 8, Bytes(q.blobVa, 8));
    var d3 :- Put(d2, p.strsz.at + 8, Bytes(|q.dynstr|, 8));
    Put(d3, p.verneed.at + 8, Bytes(q.blobVa + q.rel, 8))
  }

  function Apply(d: seq<byte>, p: Parsed, q: Plan): Res<seq<byte>> {
    if !PlanFits(q) then Stop(Crash)
    else
      var e :- PatchLoader(Grown(d, q), p, q);
      var o := ShdrOff(p.h, p.h.shstrndx) + 24;
      if o + 8 > |e| then Stop(Crash)
      else PatchSections(e, p.h, Read(e, o, 8), q, 0)
  }

  /** The whole tool: the bytes it writes, or why it writes nothing. */
  function Declare(d: seq<byte>): Res<seq<byte>> {
    var p :- Parse(d);
    var q :- MakePlan(d, p);
    Apply(d, p, q)
  }
}
