/** The structures of the gABI, field after field in the order of its figures: where the
    tool looks for a value is where the structure has it. */
module ElfLayout {
  import opened Basics
  import opened ElfBytes
  import opened ElfFormat
  import opened ElfRewrite
  import opened ElfTables

  /** A field of a structure that lies at o. */
  lemma {:induction false} FieldOf(d: seq<byte>, o: nat, s: seq<byte>, at: nat, v: nat, n: nat)
    requires At(d, o, s) && at + n <= |s| && s[at..at + n] == Bytes(v, n) && v < Pow256(n)
    ensures o + at + n <= |d| && Read(d, o + at, n) == v
  {
    SubSlice(d, o, o + |s|, at, at + n);
    FieldAt(d, o + at, v, n);
  }

  /** Elf64_Ehdr: e_ident, e_type, e_machine, e_version, e_entry, e_phoff, e_shoff, e_flags,
      e_ehsize, ... */
  function EhdrFront(ident: seq<byte>, kind: seq<byte>, entry: seq<byte>, flags: seq<byte>, ehsize: seq<byte>, h: Header): (s: seq<byte>)
    requires |ident| == 16 && |kind| == 2 + 2 + 4 && |entry| == 8 && |flags| == 4 && |ehsize| == 2
    ensures |s| == 0x36
  {
    ident + kind + entry + (Bytes(h.phoff, 8) + Bytes(h.shoff, 8)) + (flags + ehsize)
  }

  /** ... e_phentsize, e_phnum, e_shentsize, e_shnum, e_shstrndx. */
  function EhdrBack(h: Header): (s: seq<byte>)
    ensures |s| == 10
  {
    (Bytes(h.phentsize, 2) + Bytes(h.phnum, 2)) + (Bytes(h.shentsize, 2) + (Bytes(h.shnum, 2) + Bytes(h.shstrndx, 2)))
  }

  predicate HeaderFits(h: Header) {
    && h.phoff < Pow256(8) && h.shoff < Pow256(8) && h.phentsize < Pow256(2) && h.phnum < Pow256(2)
    && h.shentsize < Pow256(2) && h.shnum < Pow256(2) && h.shstrndx < Pow256(2)
  }

  /** Two fields one after the other. */
  lemma {:induction false} TwoFields(d: seq<byte>, o: nat, u: nat, v: nat, n: nat)
    requires At(d, o, Bytes(u, n) + Bytes(v, n)) && u < Pow256(n) && v < Pow256(n)
    ensures o + 2 * n <= |d| && Read(d, o, n) == u && Read(d, o + n, n) == v
  {
    hide Read, Pow256, Bytes;
    AtSplit(d, o, Bytes(u, n), Bytes(v, n));
    FieldAt(d, o, u, n);
    FieldAt(d, o + n, v, n);
  }

  lemma {:induction false} BackReads(d: seq<byte>, o: nat, h: Header)
    requires At(d, o, EhdrBack(h)) && HeaderFits(h)
    ensures o + 10 <= |d| && Read(d, o, 2) == h.phentsize && Read(d, o + 2, 2) == h.phnum
    ensures Read(d, o + 4, 2) == h.shentsize && Read(d, o + 6, 2) == h.shnum && Read(d, o + 8, 2) == h.shstrndx
  {
    hide Read, Pow256, Bytes, At;
    var a, b := Bytes(h.phentsize, 2) + Bytes(h.phnum, 2), Bytes(h.shnum, 2) + Bytes(h.shstrndx, 2);
    AtSplit(d, o, a, Bytes(h.shentsize, 2) + b);
    AtSplit(d, o + 4, Bytes(h.shentsize, 2), b);
    TwoFields(d, o, h.phentsize, h.phnum, 2);
    FieldAt(d, o + 4, h.shentsize, 2);
    TwoFields(d, o + 6, h.shnum, h.shstrndx, 2);
  }

  lemma {:induction false} FrontReads(d: seq<byte>, ident: seq<byte>, kind: seq<byte>, entry: seq<byte>, flags: seq<byte>,
                                      ehsize: seq<byte>, h: Header)
    requires |ident| == 16 && |kind| == 8 && |entry| == 8 && |flags| == 4 && |ehsize| == 2 && HeaderFits(h)
    requires At(d, 0, EhdrFront(ident, kind, entry, flags, ehsize, h))
    ensures |d| >= 0x36 && Read(d, 0x20, 8) == h.phoff && Read(d, 0x28, 8) == h.shoff
  {
    hide Read, Pow256, Bytes, At;
    var a, b, c := ident + kind + entry, Bytes(h.phoff, 8) + Bytes(h.shoff, 8), flags + ehsize;
    AtSplit(d, 0, a + b, c);
    AtSplit(d, 0, a, b);
    TwoFields(d, 0x20, h.phoff, h.shoff, 8);
    assert |d| >= 0x36 by { AtFits(d, 0, a + b + c); }
  }

  lemma {:induction false} AtFits(d: seq<byte>, o: nat, s: seq<byte>)
    requires At(d, o, s)
    ensures o + |s| <= |d|
  {
  }

  /** A file that begins with a header is read as that header. */
  lemma {:induction false} EhdrReadsBack(d: seq<byte>, ident: seq<byte>, kind: seq<byte>, entry: seq<byte>, flags: seq<byte>,
                                         ehsize: seq<byte>, h: Header)
    requires |ident| == 16 && |kind| == 8 && |entry| == 8 && |flags| == 4 && |ehsize| == 2 && HeaderFits(h)
    requires At(d, 0, EhdrFront(ident, kind, entry, flags, ehsize, h) + EhdrBack(h))
    ensures ReadHeader(d) == Ok(h)
  {
    hide Read, Pow256, Bytes, At, EhdrFront, EhdrBack, HeaderFits;
    AtSplit(d, 0, EhdrFront(ident, kind, entry, flags, ehsize, h), EhdrBack(h));
    FrontReads(d, ident, kind, entry, flags, ehsize, h);
    BackReads(d, 0x36, h);
  }

  /** A signed word as it is stored. */
  function Unsigned(val: int): (u: nat)
    requires -(I64 as int) <= val < I64 as int
    ensures u < U64
  {
    if val < 0 then val + U64 else val
  }

  /** Elf64_Dyn: the first entry is read, and a tag of zero ends the section. */
  lemma {:induction false} DynReadsBack(d: seq<byte>, o: nat, tag: nat, val: int)
    requires tag < U64 && -(I64 as int) <= val < I64 as int && At(d, o, Bytes(tag, 8) + Bytes(Unsigned(val), 8))
    ensures ReadDyn(d, o).Ok? && tag != 0 ==> ReadDyn(d, o).value != [] && ReadDyn(d, o).value[0] == Dyn(tag, val, o)
    ensures tag == 0 ==> ReadDyn(d, o) == Ok([])
  {
    hide Read, Bytes, Pow256, At;
    var u := Unsigned(val);
    var s := Bytes(tag, 8) + Bytes(u, 8);
    Pow256s();
    FieldOf(d, o, s, 0, tag, 8);
    FieldOf(d, o, s, 8, u, 8);
  }

  /** Elf64_Shdr: sh_name, sh_type, sh_flags, sh_addr, sh_offset, sh_size, and the rest. */
  function ShdrBytes(name: nat, kind: seq<byte>, addr: nat, off: nat, size: nat, rest: seq<byte>): (s: seq<byte>)
    requires |kind| == 4 + 8 && |rest| == 4 + 4 + 8 + 8
    ensures |s| == 64
  {
    Bytes(name, 4) + kind + Bytes(addr, 8) + Bytes(off, 8) + Bytes(size, 8) + rest
  }

  /** The name and the offset of a section are read where its header has them, and what the
      tool writes replaces address, offset and size, and nothing else. */
  lemma {:induction false} ShdrReadsBack(d: seq<byte>, o: nat, name: nat, kind: seq<byte>, addr: nat, off: nat, size: nat, rest: seq<byte>,
                                         va: nat, at: nat, n: nat)
    requires |kind| == 12 && |rest| == 24 && name < U32 && off < U64
    requires At(d, o, ShdrBytes(name, kind, addr, off, size, rest))
    ensures o + 64 <= |d| && Read(d, o, 4) == name && Read(d, o + 24, 8) == off
    ensures At(Patch(d, o + 16, Triple(va, at, n)), o, ShdrBytes(name, kind, va, at, n, rest))
  {
    hide Read, Bytes, Pow256;
    var s, t := ShdrBytes(name, kind, addr, off, size, rest), ShdrBytes(name, kind, va, at, n, rest);
    Pow256s();
    assert s[0..4] == Bytes(name, 4) && s[24..32] == Bytes(off, 8);
    FieldOf(d, o, s, 0, name, 4);
    FieldOf(d, o, s, 24, off, 8);
    assert t == s[..16] + Triple(va, at, n) + s[40..];
    PatchInside(d, o, s, 16, Triple(va, at, n));
  }

  /** Patching part of a structure. */
  lemma {:induction false} PatchInside(d: seq<byte>, o: nat, s: seq<byte>, at: nat, t: seq<byte>)
    requires At(d, o, s) && at + |t| <= |s|
    ensures At(Patch(d, o + at, t), o, s[..at] + t + s[at + |t|..])
  {
    var e, u := Patch(d, o + at, t), s[..at] + t + s[at + |t|..];
    forall k | 0 <= k < |s| ensures e[o + k] == u[k] {
      assert d[o + k] == d[o..o + |s|][k];
    }
    assert e[o..o + |u|] == u;
  }
}
