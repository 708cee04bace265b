/** The parts of an ELF file that declare-dt-relr.py and the dynamic loader read:
    header, program headers, dynamic section and version needs (section 10.7 of the
    LSB Core specification 5.0, chapter 5 of the System V gABI). */
module ElfFormat {
  import opened Basics
  import opened ElfBytes

  /** Why the tool ends without writing: an uncaught exception, or one of its messages. */
  datatype Why = Crash | NotMapped | NoRelr | NoLibc | AlreadyDeclared | NoSpare

  datatype Res<+T> = Ok(value: T) | Stop(why: Why) {
    predicate IsFailure() { Stop? }

    function PropagateFailure<U>(): Res<U>
      requires Stop?
    {
      Stop(why)
    }

    function Extract(): T
      requires Ok?
    {
      value
    }
  }

  const PT_LOAD: nat := 1
  const PT_DYNAMIC: nat := 2
  const PT_NOTE: nat := 4
  const DT_STRTAB: nat := 5
  const DT_STRSZ: nat := 10
  const DT_RELR: nat := 36
  const DT_VERNEED: nat := 0x6ffffffe
  const DT_VERNEEDNUM: nat := 0x6fffffff

  // ---- header and program headers ----------------------------------------

  datatype Header = Header(phoff: nat, shoff: nat, phentsize: nat, phnum: nat,
                           shentsize: nat, shnum: nat, shstrndx: nat)

  function ReadHeader(d: seq<byte>): Res<Header> {
    if |d| < 0x40 then Stop(Crash)
    else Ok(Header(Read(d, 0x20, 8), Read(d, 0x28, 8), Read(d, 0x36, 2), Read(d, 0x38, 2),
                   Read(d, 0x3a, 2), Read(d, 0x3c, 2), Read(d, 0x3e, 2)))
  }

  datatype Phdr = Phdr(ty: nat, flags: nat, off: nat, va: nat, pa: nat, filesz: nat, memsz: nat, align: nat)

  const PHDR_SIZE: nat := 56

  function PhdrAt(d: seq<byte>, o: nat): Phdr
    requires o + PHDR_SIZE <= |d|
  {
    Phdr(Read(d, o, 4), Read(d, o + 4, 4), Read(d, o + 8, 8), Read(d, o + 16, 8), Read(d, o + 24, 8),
         Read(d, o + 32, 8), Read(d, o + 40, 8), Read(d, o + 48, 8))
  }

  function PhdrBytes(p: Phdr): (s: seq<byte>)
    ensures |s| == PHDR_SIZE
  {
    Bytes(p.ty, 4) + Bytes(p.flags, 4) + Bytes(p.off, 8) + Bytes(p.va, 8) + Bytes(p.pa, 8)
    + Bytes(p.filesz, 8) + Bytes(p.memsz, 8) + Bytes(p.align, 8)
  }

  function PhdrOff(h: Header, i: nat): nat {
    h.phoff + i * h.phentsize
  }

  /** The program headers from the i-th on. */
  function ReadPhdrs(d: seq<byte>, h: Header, i: nat): (r: Res<seq<Phdr>>)
    ensures r.Ok? && i <= h.phnum ==> |r.value| == h.phnum - i
    decreases h.phnum - i
  {
    if i >= h.phnum then Ok([])
    else if PhdrOff(h, i) + PHDR_SIZE > |d| then Stop(Crash)
    else
      var rest :- ReadPhdrs(d, h, i + 1);
      Ok([PhdrAt(d, PhdrOff(h, i))] + rest)
  }

  predicate Maps(p: Phdr, va: int) {
    p.ty == PT_LOAD && p.va <= va < p.va + p.filesz
  }

  /** va_to_off: the first loaded segment whose file part contains the address. */
  function VaToOff(phs: seq<Phdr>, va: int): Res<nat> {
    if phs == [] then Stop(NotMapped)
    else if Maps(phs[0], va) then Ok(phs[0].off + (va - phs[0].va))
    else VaToOff(phs[1..], va)
  }

  /** Index of the first program header of a type. */
  function FirstOf(phs: seq<Phdr>, ty: nat): (r: Option<nat>)
    ensures r.Some? ==> r.value < |phs| && phs[r.value].ty == ty && forall i :: 0 <= i < r.value ==> phs[i].ty != ty
    ensures r.None? ==> forall i :: 0 <= i < |phs| ==> phs[i].ty != ty
  {
    if phs == [] then None
    else if phs[0].ty == ty then Some(0)
    else
      var r := FirstOf(phs[1..], ty);
      assert forall i :: 0 < i < |phs| ==> phs[i] == phs[1..][i - 1];
      if r.None? then None else Some(r.value + 1)
  }

  // ---- dynamic section ---------------------------------------------------

  datatype Dyn = Dyn(tag: nat, val: int, at: nat)

  function Signed(u: nat): int {
    if u >= 0x8000_0000_0000_0000 then u - 0x1_0000_0000_0000_0000 else u
  }

  function ReadDyn(d: seq<byte>, o: nat): Res<seq<Dyn>>
    decreases |d| - o
  {
    if o + 16 > |d| then Stop(Crash)
    else if Read(d, o, 8) == 0 then Ok([])
    else
      var rest :- ReadDyn(d, o + 16);
      Ok([Dyn(Read(d, o, 8), Signed(Read(d, o + 8, 8)), o)] + rest)
  }

  /** The first entry with a tag. */
  function Lookup(dyn: seq<Dyn>, tag: nat): (r: Option<Dyn>)
    ensures r.Some? ==> r.value in dyn && r.value.tag == tag
  {
    if dyn == [] then None else if dyn[0].tag == tag then Some(dyn[0]) else Lookup(dyn[1..], tag)
  }

  function RequireTag(dyn: seq<Dyn>, tag: nat): (r: Res<Dyn>)
    ensures r.Ok? ==> r.value in dyn && r.value.tag == tag
  {
    var e := Lookup(dyn, tag);
    if e.None? then Stop(Crash) else Ok(e.value)
  }

  // ---- version needs, as the tool reads them ------------------------------

  datatype Aux = Aux(hash: nat, flags: nat, other: nat, name: nat)
  datatype Need = Need(ver: nat, file: nat, name: seq<byte>, aux: seq<Aux>)

  function AuxAt(d: seq<byte>, o: nat): Aux
    requires o + 16 <= |d|
  {
    Aux(Read(d, o, 4), Read(d, o + 4, 2), Read(d, o + 6, 2), Read(d, o + 8, 4))
  }

  function ParseAux(d: seq<byte>, o: nat, cnt: nat): (r: Res<seq<Aux>>)
    ensures r.Ok? ==> |r.value| == cnt
    decreases cnt
  {
    if cnt == 0 then Ok([])
    else if o + 16 > |d| then Stop(Crash)
    else
      var rest :- ParseAux(d, o + Read(d, o + 12, 4), cnt - 1);
      Ok([AuxAt(d, o)] + rest)
  }

  /** At most num entries, ended early by a zero vn_next. */
  function ParseNeeds(d: seq<byte>, strtab: nat, o: nat, num: int): (r: Res<seq<Need>>)
    ensures r.Ok? && num >= 0 ==> |r.value| <= num
    decreases num
  {
    if num <= 0 then Ok([])
    else if o + 16 > |d| then Stop(Crash)
    else
      var file := Read(d, o + 4, 4);
      var next := Read(d, o + 12, 4);
      var aux :- ParseAux(d, o + Read(d, o + 8, 4), Read(d, o + 2, 2));
      var name := CString(d, strtab + file);
      if name.None? then Stop(Crash)
      else
        var need := Need(Read(d, o, 2), file, name.value, aux);
        if next == 0 then Ok([need])
        else
          var rest :- ParseNeeds(d, strtab, o + next, num - 1);
          Ok([need] + rest)
  }

  datatype Parsed = Parsed(h: Header, phs: seq<Phdr>, dynOff: nat, dyn: seq<Dyn>,
                           strtab: Dyn, strsz: Dyn, verneed: Dyn,
                           strtabOff: nat, verneedOff: nat, num: int, needs: seq<Need>)

  /** Everything the tool reads before it decides anything. */
  function Parse(d: seq<byte>): Res<Parsed> {
    var h :- ReadHeader(d);
    var phs :- ReadPhdrs(d, h, 0);
    var i := FirstOf(phs, PT_DYNAMIC);
    if i.None? then Stop(Crash)
    else
      var dynOff := phs[i.value].off;
      var dyn :- ReadDyn(d, dynOff);
      if Lookup(dyn, DT_RELR).None? then Stop(NoRelr)
      else
        var strtab :- RequireTag(dyn, DT_STRTAB);
        var strtabOff :- VaToOff(phs, strtab.val);
        var strsz :- RequireTag(dyn, DT_STRSZ);
        var verneed :- RequireTag(dyn, DT_VERNEED);
        var verneedOff :- VaToOff(phs, verneed.val);
        var num :- RequireTag(dyn, DT_VERNEEDNUM);
        var needs :- ParseNeeds(d, strtabOff, verneedOff, num.val);
        Ok(Parsed(h, phs, dynOff, dyn, strtab, strsz, verneed, strtabOff, verneedOff, num.val, needs))
  }

  // ---- version needs, as a loader reads them ------------------------------

  /** What a version need means: strings instead of offsets. */
  datatype AuxView = AuxView(hash: nat, flags: nat, other: nat, name: seq<byte>)
  datatype NeedView = NeedView(ver: nat, file: seq<byte>, aux: seq<AuxView>)

  /** Follow vna_next until it is zero, the way a loader walks the list; the count
      fields are not looked at. */
  function ChainAux(d: seq<byte>, strtab: nat, o: nat): Option<seq<AuxView>>
    decreases |d| - o
  {
    if o + 16 > |d| then None
    else
      var a := AuxAt(d, o);
      var next := Read(d, o + 12, 4);
      var name := CString(d, strtab + a.name);
      if name.None? then None
      else
        var v := AuxView(a.hash, a.flags, a.other, name.value);
        if next == 0 then Some([v])
        else match ChainAux(d, strtab, o + next)
          case None => None
          case Some(rest) => Some([v] + rest)
  }

  function ChainNeeds(d: seq<byte>, strtab: nat, o: nat): Option<seq<NeedView>>
    decreases |d| - o
  {
    if o + 16 > |d| then None
    else
      var next := Read(d, o + 12, 4);
      var name := CString(d, strtab + Read(d, o + 4, 4));
      var aux := ChainAux(d, strtab, o + Read(d, o + 8, 4));
      if name.None? || aux.None? then None
      else
        var v := NeedView(Read(d, o, 2), name.value, aux.value);
        if next == 0 then Some([v])
        else match ChainNeeds(d, strtab, o + next)
          case None => None
          case Some(rest) => Some([v] + rest)
  }

  /** A loader's view of an image: DT_STRTAB and DT_VERNEED are addresses, resolved
      through the program headers. */
  function LoaderView(d: seq<byte>): Option<seq<NeedView>> {
    match ReadHeader(d)
    case Stop(_) => None
    case Ok(h) =>
      match ReadPhdrs(d, h, 0)
      case Stop(_) => None
      case Ok(phs) =>
        var i := FirstOf(phs, PT_DYNAMIC);
        if i.None? then None
        else match ReadDyn(d, phs[i.value].off)
          case Stop(_) => None
          case Ok(dyn) =>
            var strtab := Lookup(dyn, DT_STRTAB);
            var verneed := Lookup(dyn, DT_VERNEED);
            if strtab.None? || verneed.None? then None
            else
              var so := VaToOff(phs, strtab.value.val);
              var vo := VaToOff(phs, verneed.value.val);
              if so.Stop? || vo.Stop? then None else ChainNeeds(d, so.value, vo.value)
  }

  // ---- the tool's entries, with their strings resolved --------------------

  function AuxViews(d: seq<byte>, strtab: nat, aux: seq<Aux>): Option<seq<AuxView>> {
    if aux == [] then Some([])
    else
      var name := CString(d, strtab + aux[0].name);
      var rest := AuxViews(d, strtab, aux[1..]);
      if name.None? || rest.None? then None
      else Some([AuxView(aux[0].hash, aux[0].flags, aux[0].other, name.value)] + rest.value)
  }

  function NeedViews(d: seq<byte>, strtab: nat, needs: seq<Need>): Option<seq<NeedView>> {
    if needs == [] then Some([])
    else
      var aux := AuxViews(d, strtab, needs[0].aux);
      var rest := NeedViews(d, strtab, needs[1..]);
      if aux.None? || rest.None? then None
      else Some([NeedView(needs[0].ver, needs[0].name, aux.value)] + rest.value)
  }
}
