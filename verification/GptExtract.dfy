/** mali-extract-root.py: one partition out of a disk image that arrives as a stream, read
    forwards once (sections 5.3.2 and 5.3.3 of the UEFI specification). */
module GptExtract {
  import opened Basics
  import opened ElfBytes

  const SECTOR: nat := 512
  const CHUNK: nat := 0x40_0000

  /** The largest size a Python read accepts. */
  const SSIZE_MAX: nat := 0x7fff_ffff_ffff_ffff

  /** The largest single read there is memory for: a reader allocates the whole size before it
      reads. A chunk is always possible. */
  type Limit = n: nat | CHUNK <= n <= SSIZE_MAX witness CHUNK

  /** How the program ends if it does not write the partition: one of its messages, or an
      uncaught exception. */
  datatype Why = Ended | NotGpt | NoPartition | Crash
  datatype Res<+T> = Ok(value: T) | Stop(why: Why)

  /** "EFI PART" */
  const SIGNATURE: seq<byte> := [69, 70, 73, 32, 80, 65, 82, 84]

  // ---- the stream --------------------------------------------------------

  /** read_exact from offset p: size bytes, or the message when the image is shorter. */
  function Take(img: seq<byte>, p: nat, size: nat): Res<seq<byte>> {
    if p + size <= |img| then Ok(img[p..p + size]) else Stop(Ended)
  }

  /** One read of the whole table: MemoryError, or OverflowError for a size that is not even
      a size, before anything is read. */
  function TakeAtOnce(img: seq<byte>, p: nat, size: nat, limit: Limit): Res<seq<byte>> {
    if size > limit then Stop(Crash) else Take(img, p, size)
  }

  /** Where a skip of size bytes from p ends. The sizes are whole sectors, so a negative one
      is not -1, and a buffered reader raises ValueError when asked for it. */
  function SkipTo(img: seq<byte>, p: nat, size: int): Res<nat> {
    if size < 0 then Stop(Crash) else if p + size <= |img| then Ok(p + size) else Stop(Ended)
  }

  // ---- names -------------------------------------------------------------

  /** The 16-bit units of a name field. */
  function Units(s: seq<byte>): seq<nat> {
    if |s| < 2 then [] else [s[0] as nat + 256 * s[1] as nat] + Units(s[2..])
  }

  /** decode("utf-16-le") accepts the field: whole units, and surrogates in pairs. */
  predicate Decodes(u: seq<nat>) {
    if u == [] then true
    else if 0xd800 <= u[0] < 0xdc00 then |u| > 1 && 0xdc00 <= u[1] < 0xe000 && Decodes(u[2..])
    else !(0xdc00 <= u[0] < 0xe000) && Decodes(u[1..])
  }

  /** rstrip("\0"). */
  function Strip(u: seq<nat>): seq<nat> {
    if u != [] && u[|u| - 1] == 0 then Strip(u[..|u| - 1]) else u
  }

  // ---- the table ---------------------------------------------------------

  datatype Gpt = Gpt(tableLba: nat, count: nat, entrySize: nat)

  /** Bytes of the table. */
  function Size(g: Gpt): nat {
    g.count * g.entrySize
  }

  datatype Part = Part(first: nat, last: nat, name: seq<nat>)

  function Header(img: seq<byte>): Res<Gpt> {
    if |img| < 1024 then Stop(Ended)
    else if img[512..520] != SIGNATURE then Stop(NotGpt)
    else Ok(Gpt(Read(img, 512 + 72, 8), Read(img, 512 + 80, 4), Read(img, 512 + 84, 4)))
  }

  /** entry[56:128]: the bytes of the entry from 56 on, up to its end or to 128. */
  function NameBytes(table: seq<byte>, o: nat, size: nat): (s: seq<byte>)
    requires o + size <= |table|
    ensures 56 + |s| == size || (size < 56 && |s| == 0) || (size > 128 && |s| == 72)
    ensures size <= 128 || |s| == 72
    ensures forall k :: 0 <= k < |s| ==> s[k] == table[o + 56 + k]
  {
    if size < 56 then [] else table[o + 56..o + (if size < 128 then size else 128)]
  }

  /** Unpacking the two sector numbers needs 48 bytes, and the name must decode. */
  predicate Unreadable(table: seq<byte>, o: nat, size: nat)
    requires o + size <= |table|
  {
    size < 48 || |NameBytes(table, o, size)| % 2 != 0 || !Decodes(Units(NameBytes(table, o, size)))
  }

  function EntryAt(table: seq<byte>, o: nat, size: nat): Res<Part>
    requires o + size <= |table|
  {
    if Unreadable(table, o, size) then Stop(Crash)
    else Ok(Part(Read(table, o + 32, 8), Read(table, o + 40, 8), Strip(Units(NameBytes(table, o, size)))))
  }

  /** The first entry from index i on with the wanted name. */
  function Search(table: seq<byte>, g: Gpt, wanted: seq<nat>, i: nat): Res<Part>
    requires |table| == Size(g)
    decreases g.count - i
  {
    if i >= g.count then Stop(NoPartition)
    else
      EntryInside(g, i);
      match EntryAt(table, i * g.entrySize, g.entrySize)
      case Stop(w) => Stop(w)
      case Ok(p) => if p.name == wanted then Ok(p) else Search(table, g, wanted, i + 1)
  }

  lemma {:induction false} EntryInside(g: Gpt, i: nat)
    requires i < g.count
    ensures i * g.entrySize + g.entrySize <= Size(g)
  {
    assert Size(g) == (g.count - 1) * g.entrySize + g.entrySize;
    MulMono(i, g.count - 1, g.entrySize);
  }

  lemma {:induction false} MulMono(a: nat, b: nat, n: nat)
    requires a <= b
    ensures a * n <= b * n
    decreases b - a
  {
    if a < b {
      MulMono(a, b - 1, n);
      assert b * n == (b - 1) * n + n;
    }
  }

  /** The k-th entry is p, called wanted, and all before it decode to other names. */
  predicate FirstNamed(table: seq<byte>, g: Gpt, wanted: seq<nat>, i: nat, k: nat, p: Part)
    requires |table| == Size(g)
  {
    && i <= k < g.count && EntryOf(table, g, k) == Ok(p) && p.name == wanted
    && forall j :: i <= j < k ==> EntryOf(table, g, j).Ok? && EntryOf(table, g, j).value.name != wanted
  }

  function EntryOf(table: seq<byte>, g: Gpt, k: nat): Res<Part>
    requires |table| == Size(g) && k < g.count
  {
    EntryInside(g, k);
    EntryAt(table, k * g.entrySize, g.entrySize)
  }

  lemma {:induction false} SearchStep(table: seq<byte>, g: Gpt, wanted: seq<nat>, i: nat)
    requires |table| == Size(g) && i < g.count
    ensures Search(table, g, wanted, i)
            == var e := EntryOf(table, g, i);
               if e.Stop? then Stop(e.why) else if e.value.name == wanted then e else Search(table, g, wanted, i + 1)
  {
    hide EntryAt, Size;
  }

  lemma {:induction false} SearchEnd(table: seq<byte>, g: Gpt, wanted: seq<nat>, i: nat)
    requires |table| == Size(g) && i >= g.count
    ensures Search(table, g, wanted, i) == Stop(NoPartition)
  {
  }

  /** Where the first entry of that name is, seen from i and from i + 1. */
  lemma {:induction false} FirstNamedFrom(table: seq<byte>, g: Gpt, wanted: seq<nat>, i: nat, next: nat, p: Part)
    requires |table| == Size(g) && i < g.count && next == i + 1
    ensures (exists k :: FirstNamed(table, g, wanted, i, k, p))
            <==> (var e := EntryOf(table, g, i);
                  e.Ok? && if e.value.name == wanted then e.value == p else exists k :: FirstNamed(table, g, wanted, next, k, p))
  {
    hide Size, EntryOf;
    var e := EntryOf(table, g, i);
    if e == Ok(p) && p.name == wanted {
      assert FirstNamed(table, g, wanted, i, i, p);
    } else if e.Ok? && e.value.name != wanted {
      if k :| FirstNamed(table, g, wanted, next, k, p) { assert FirstNamed(table, g, wanted, i, k, p); }
      if k :| FirstNamed(table, g, wanted, i, k, p) {
        assert k != i;
        assert FirstNamed(table, g, wanted, next, k, p);
      }
    } else {
      forall k ensures !FirstNamed(table, g, wanted, i, k, p) {
      }
    }
  }

  /** The search gives the first entry of that name, provided all before it decode. */
  lemma {:induction false} SearchIsFirst(table: seq<byte>, g: Gpt, wanted: seq<nat>, i: nat, p: Part)
    requires |table| == Size(g)
    ensures Search(table, g, wanted, i) == Ok(p) <==> exists k :: FirstNamed(table, g, wanted, i, k, p)
    decreases g.count - i
  {
    if i < g.count {
      hide Size, EntryOf, Search, FirstNamed;
      SearchStep(table, g, wanted, i);
      SearchIsFirst(table, g, wanted, i + 1, p);
      FirstNamedFrom(table, g, wanted, i, i + 1, p);
    } else {
      hide Size, EntryOf, Search;
      SearchEnd(table, g, wanted, i);
    }
  }

  /** The k-th entry cannot be read, and all before it decode to other names. */
  predicate FirstUnreadable(table: seq<byte>, g: Gpt, wanted: seq<nat>, i: nat, k: nat)
    requires |table| == Size(g)
  {
    && i <= k < g.count && EntryInTable(g, k) && Unreadable(table, k * g.entrySize, g.entrySize)
    && forall j :: i <= j < k ==> EntryOf(table, g, j).Ok? && EntryOf(table, g, j).value.name != wanted
  }

  predicate EntryInTable(g: Gpt, k: nat) {
    k * g.entrySize + g.entrySize <= Size(g)
  }

  lemma {:induction false} EntryCrashes(table: seq<byte>, g: Gpt, k: nat)
    requires |table| == Size(g) && k < g.count
    ensures EntryInTable(g, k)
    ensures EntryOf(table, g, k).Stop? <==> Unreadable(table, k * g.entrySize, g.entrySize)
    ensures EntryOf(table, g, k).Stop? ==> EntryOf(table, g, k) == Stop(Crash)
  {
    EntryInside(g, k);
    hide Unreadable, Size;
  }

  /** The search ends in an exception exactly when it comes to an entry it cannot read. */
  lemma {:induction false} SearchCrashes(table: seq<byte>, g: Gpt, wanted: seq<nat>, i: nat)
    requires |table| == Size(g)
    ensures Search(table, g, wanted, i) == Stop(Crash) <==> exists k :: FirstUnreadable(table, g, wanted, i, k)
    decreases g.count - i
  {
    hide Size, EntryOf, Unreadable, EntryInTable;
    if i < g.count {
      var next := i + 1;
      SearchStep(table, g, wanted, i);
      SearchCrashes(table, g, wanted, next);
      EntryCrashes(table, g, i);
      hide Search;
      var e := EntryOf(table, g, i);
      if e.Stop? {
        assert FirstUnreadable(table, g, wanted, i, i);
      } else if e.value.name == wanted {
        forall k ensures !FirstUnreadable(table, g, wanted, i, k) {
        }
      } else {
        if k :| FirstUnreadable(table, g, wanted, next, k) { assert FirstUnreadable(table, g, wanted, i, k); }
        if k :| FirstUnreadable(table, g, wanted, i, k) {
          assert k != i;
          assert FirstUnreadable(table, g, wanted, next, k);
        }
      }
    }
  }

  // ---- the records of the table, field by field --------------------------

  /** The GPT header up to the fields the program reads, in the order of the specification:
      signature, revision, header size, two checksum words, this header, the other one, first
      and last usable sector, disk GUID, table, entries and their size. */
  function HeaderRecord(front: seq<byte>, lbas: seq<byte>, guid: seq<byte>, g: Gpt): (s: seq<byte>)
    requires |front| == 4 + 4 + 4 + 4 && |lbas| == 8 + 8 + 8 + 8 && |guid| == 16
    ensures |s| == 88
  {
    SIGNATURE + front + lbas + guid + Bytes(g.tableLba, 8) + Bytes(g.count, 4) + Bytes(g.entrySize, 4)
  }

  lemma {:induction false} FieldIn(img: seq<byte>, at: nat, s: seq<byte>, o: nat, v: nat, n: nat)
    requires at + |s| <= |img| && img[at..at + |s|] == s && o + n <= |s| && s[o..o + n] == Bytes(v, n) && v < Pow256(n)
    ensures Read(img, at + o, n) == v
  {
    SubSlice(img, at, at + |s|, o, o + n);
    ReadBytes(img, at + o, v, n);
  }

  /** A header stored in the second sector is read back. */
  lemma {:induction false} HeaderReadsBack(img: seq<byte>, front: seq<byte>, lbas: seq<byte>, guid: seq<byte>, g: Gpt)
    requires |img| >= 1024 && |front| == 16 && |lbas| == 32 && |guid| == 16
    requires g.tableLba < Pow256(8) && g.count < Pow256(4) && g.entrySize < Pow256(4)
    requires img[512..600] == HeaderRecord(front, lbas, guid, g)
    ensures Header(img) == Ok(g)
  {
    hide Read, Bytes, Pow256;
    var s := HeaderRecord(front, lbas, guid, g);
    assert s[72..80] == Bytes(g.tableLba, 8) && s[80..84] == Bytes(g.count, 4) && s[84..88] == Bytes(g.entrySize, 4);
    SubSlice(img, 512, 600, 0, 8);
    assert s[0..8] == SIGNATURE;
    FieldIn(img, 512, s, 72, g.tableLba, 8);
    FieldIn(img, 512, s, 80, g.count, 4);
    FieldIn(img, 512, s, 84, g.entrySize, 4);
  }

  /** A partition entry: type and partition GUID, first and last sector, attributes, name. */
  function EntryRecord(guids: seq<byte>, p: Part, attributes: seq<byte>, name: seq<byte>): (s: seq<byte>)
    requires |guids| == 16 + 16 && |attributes| == 8 && |name| == 72
    ensures |s| == 128
  {
    guids + Bytes(p.first, 8) + Bytes(p.last, 8) + attributes + name
  }

  // ---- which names decode ------------------------------------------------

  /** A character: a code point that is no surrogate. */
  predicate IsScalar(c: nat) {
    c < 0x11_0000 && !(0xd800 <= c < 0xe000)
  }

  /** UTF-16: one unit, or two for the characters from 0x10000 on. */
  function Encode(cs: seq<nat>): (u: seq<nat>)
    requires forall i :: 0 <= i < |cs| ==> IsScalar(cs[i])
  {
    if cs == [] then []
    else
      assert IsScalar(cs[0]);
      (if cs[0] < 0x1_0000 then [cs[0]] else [0xd800 + (cs[0] - 0x1_0000) / 0x400, 0xdc00 + (cs[0] - 0x1_0000) % 0x400])
      + Encode(cs[1..])
  }

  lemma {:induction false} EncodedDecodes(cs: seq<nat>)
    requires forall i :: 0 <= i < |cs| ==> IsScalar(cs[i])
    ensures Decodes(Encode(cs))
    decreases |cs|
  {
    if cs != [] {
      assert IsScalar(cs[0]);
      EncodedDecodes(cs[1..]);
      var u, rest := Encode(cs), Encode(cs[1..]);
      if cs[0] < 0x1_0000 { assert u[1..] == rest; } else { assert u[2..] == rest; }
    }
  }

  /** The characters of units that decode. */
  lemma {:induction false} DecodedEncodes(u: seq<nat>) returns (cs: seq<nat>)
    requires Decodes(u) && forall i :: 0 <= i < |u| ==> IsUnit(u[i])
    ensures (forall i :: 0 <= i < |cs| ==> IsScalar(cs[i])) && Encode(cs) == u
    decreases |u|
  {
    if u == [] {
      cs := [];
    } else if 0xd800 <= u[0] < 0xdc00 {
      var rest := DecodedEncodes(u[2..]);
      var c := 0x1_0000 + (u[0] - 0xd800) * 0x400 + (u[1] - 0xdc00);
      cs := [c] + rest;
      PairParts(u[0] - 0xd800, u[1] - 0xdc00);
      assert cs[1..] == rest && u == [u[0], u[1]] + u[2..];
    } else {
      var rest := DecodedEncodes(u[1..]);
      assert IsUnit(u[0]);
      cs := [u[0]] + rest;
      assert cs[1..] == rest && u == [u[0]] + u[1..];
    }
  }

  lemma {:induction false} PairParts(h: nat, l: nat)
    requires h < 0x400 && l < 0x400
    ensures (h * 0x400 + l) / 0x400 == h && (h * 0x400 + l) % 0x400 == l
  {
  }

  ghost predicate IsText(u: seq<nat>) {
    exists cs: seq<nat> :: EncodesTo(cs, u)
  }

  predicate EncodesTo(cs: seq<nat>, u: seq<nat>) {
    (forall i :: 0 <= i < |cs| ==> IsScalar(cs[i])) && Encode(cs) == u
  }

  /** A name decodes exactly when its units are the UTF-16 form of some text. */
  lemma {:induction false} DecodesExactly(u: seq<nat>)
    requires forall i :: 0 <= i < |u| ==> IsUnit(u[i])
    ensures Decodes(u) <==> IsText(u)
  {
    if Decodes(u) {
      var cs := DecodedEncodes(u);
      assert EncodesTo(cs, u);
    }
    if IsText(u) {
      var cs: seq<nat> :| EncodesTo(cs, u);
      EncodedDecodes(cs);
    }
  }

  /** An entry can be read exactly when it has the 48 bytes up to its sector numbers and its
      name field, of which at most 72 bytes are read, is whole units that are a text. */
  lemma {:induction false} ReadableExactly(table: seq<byte>, o: nat, size: nat)
    requires o + size <= |table|
    ensures EntryAt(table, o, size).Ok?
            <==> size >= 48 && (size < 56 || size % 2 == 0 || size > 128) && IsText(Units(NameBytes(table, o, size)))
  {
    hide IsText, Decodes, IsUnit;
    UnitsAreUnits(NameBytes(table, o, size));
    DecodesExactly(Units(NameBytes(table, o, size)));
  }

  lemma {:induction false} UnitsAreUnits(s: seq<byte>)
    ensures forall i :: 0 <= i < |Units(s)| ==> IsUnit(Units(s)[i])
    decreases |s|
  {
    if |s| >= 2 { UnitsAreUnits(s[2..]); }
  }

  // ---- the program's messages --------------------------------------------

  /** No entry from i on is called wanted, and all can be read. */
  predicate NoneNamed(table: seq<byte>, g: Gpt, wanted: seq<nat>, i: nat)
    requires |table| == Size(g)
  {
    forall j :: i <= j < g.count ==> EntryOf(table, g, j).Ok? && EntryOf(table, g, j).value.name != wanted
  }

  lemma {:induction false} SearchFails(table: seq<byte>, g: Gpt, wanted: seq<nat>, i: nat)
    requires |table| == Size(g)
    ensures Search(table, g, wanted, i) == Stop(NoPartition) <==> NoneNamed(table, g, wanted, i)
    decreases g.count - i
  {
    hide Size, EntryOf, Search;
    if i < g.count {
      SearchStep(table, g, wanted, i);
      SearchFails(table, g, wanted, i + 1);
      EntryCrashes(table, g, i);
      NoneFrom(table, g, wanted, i, i + 1);
      hide NoneNamed;
    } else {
      SearchEnd(table, g, wanted, i);
    }
  }

  lemma {:induction false} NoneFrom(table: seq<byte>, g: Gpt, wanted: seq<nat>, i: nat, next: nat)
    requires |table| == Size(g) && i < g.count && next == i + 1
    ensures NoneNamed(table, g, wanted, i)
            <==> EntryOf(table, g, i).Ok? && EntryOf(table, g, i).value.name != wanted && NoneNamed(table, g, wanted, next)
  {
    hide Size, EntryOf;
  }

  // ---- a name written into the field is read back -------------------------

  predicate IsUnit(u: nat) {
    u < 0x10000
  }

  /** A name as the bytes of its units, the rest of n units zero. */
  function NameField(u: seq<nat>, n: nat): (s: seq<byte>)
    requires |u| <= n && forall i :: 0 <= i < |u| ==> IsUnit(u[i])
    ensures |s| == 2 * n
    decreases n
  {
    if n == 0 then []
    else if u == [] then [0, 0] + NameField([], n - 1)
    else
      assert IsUnit(u[0]);
      var low: byte, high: byte := u[0] % 256, u[0] / 256;
      [low, high] + NameField(u[1..], n - 1)
  }

  function Zeros(n: nat): (z: seq<nat>)
    ensures |z| == n && forall i :: 0 <= i < n ==> z[i] == 0
  {
    seq(n, i => 0)
  }

  lemma {:induction false} UnitsOfField(u: seq<nat>, n: nat)
    requires |u| <= n && forall i :: 0 <= i < |u| ==> IsUnit(u[i])
    ensures Units(NameField(u, n)) == u + Zeros(n - |u|)
    decreases n
  {
    if n > 0 {
      var s := NameField(u, n);
      if u == [] {
        UnitsOfField([], n - 1);
        assert s[2..] == NameField([], n - 1);
        assert [0] + Zeros(n - 1) == Zeros(n);
      } else {
        UnitsOfField(u[1..], n - 1);
        assert s[2..] == NameField(u[1..], n - 1);
        assert [u[0]] + (u[1..] + Zeros(n - |u|)) == u + Zeros(n - |u|);
      }
    }
  }

  lemma {:induction false} DecodesPadded(u: seq<nat>, n: nat)
    requires Decodes(u)
    ensures Decodes(u + Zeros(n))
    decreases |u|, n
  {
    var v := u + Zeros(n);
    if u == [] {
      if n > 0 {
        DecodesPadded([], n - 1);
        assert v[1..] == [] + Zeros(n - 1);
      }
    } else if 0xd800 <= u[0] < 0xdc00 {
      DecodesPadded(u[2..], n);
      assert v[2..] == u[2..] + Zeros(n);
    } else {
      DecodesPadded(u[1..], n);
      assert v[1..] == u[1..] + Zeros(n);
    }
  }

  lemma {:induction false} StripPadded(u: seq<nat>, n: nat)
    requires u == [] || u[|u| - 1] != 0
    ensures Strip(u + Zeros(n)) == u
    decreases n
  {
    if n > 0 {
      StripPadded(u, n - 1);
      assert (u + Zeros(n))[..|u| + n - 1] == u + Zeros(n - 1);
    } else {
      assert u + Zeros(0) == u;
    }
  }

  /** A name of at most 36 units, with its surrogates in pairs and no NUL at its end, that is
      stored in an entry is the name the program reads from it. */
  lemma {:induction false} NameReadsBack(table: seq<byte>, o: nat, size: nat, u: seq<nat>)
    requires o + size <= |table| && size >= 128
    requires |u| <= 36 && (forall i :: 0 <= i < |u| ==> IsUnit(u[i])) && Decodes(u) && (u == [] || u[|u| - 1] != 0)
    requires table[o + 56..o + 128] == NameField(u, 36)
    ensures EntryAt(table, o, size) == Ok(Part(Read(table, o + 32, 8), Read(table, o + 40, 8), u))
  {
    hide Units, Decodes, Strip, Read, NameField;
    assert NameBytes(table, o, size) == NameField(u, 36);
    UnitsOfField(u, 36);
    DecodesPadded(u, 36 - |u|);
    StripPadded(u, 36 - |u|);
  }

  /** An entry of the table with its name stored like that is read back whole. */
  lemma {:induction false} EntryReadsBack(table: seq<byte>, o: nat, size: nat, guids: seq<byte>, attributes: seq<byte>, p: Part)
    requires o + size <= |table| && size >= 128 && |guids| == 32 && |attributes| == 8
    requires p.first < Pow256(8) && p.last < Pow256(8)
    requires |p.name| <= 36 && (forall i :: 0 <= i < |p.name| ==> IsUnit(p.name[i])) && Decodes(p.name)
    requires p.name == [] || p.name[|p.name| - 1] != 0
    requires table[o..o + 128] == EntryRecord(guids, p, attributes, NameField(p.name, 36))
    ensures EntryAt(table, o, size) == Ok(p)
  {
    hide Read, Bytes, Pow256, Decodes, NameField, EntryAt;
    var s := EntryRecord(guids, p, attributes, NameField(p.name, 36));
    assert s[32..40] == Bytes(p.first, 8) && s[40..48] == Bytes(p.last, 8);
    assert s[56..128] == NameField(p.name, 36);
    SubSlice(table, o, o + 128, 56, 128);
    FieldIn(table, o, s, 32, p.first, 8);
    FieldIn(table, o, s, 40, p.last, 8);
    NameReadsBack(table, o, size, p.name);
  }

  /** What find_partition returns: the sector it believes to have reached, and the entry;
      and where the stream really is. */
  datatype Found = Found(position: nat, part: Part, at: nat)

  function Sectors(bytes: nat): nat {
    (bytes + SECTOR - 1) / SECTOR
  }

  function FindPartition(img: seq<byte>, wanted: seq<nat>, limit: Limit): Res<Found> {
    match Header(img)
    case Stop(w) => Stop(w)
    case Ok(g) =>
      match SkipTo(img, 1024, (g.tableLba - 2) * SECTOR)
      case Stop(w) => Stop(w)
      case Ok(p) =>
        var size := Size(g);
        match TakeAtOnce(img, p, size, limit)
        case Stop(w) => Stop(w)
        case Ok(table) =>
          match Search(table, g, wanted, 0)
          case Stop(w) => Stop(w)
          case Ok(part) => Ok(Found(g.tableLba + Sectors(size), part, p + size))
  }

  /** The whole program: the bytes of the output file. */
  function Extract(img: seq<byte>, wanted: seq<nat>, limit: Limit): Res<seq<byte>> {
    match FindPartition(img, wanted, limit)
    case Stop(w) => Stop(w)
    case Ok(f) =>
      match SkipTo(img, f.at, (f.part.first - f.position) * SECTOR)
      case Stop(w) => Stop(w)
      case Ok(p) =>
        var remaining := (f.part.last - f.part.first + 1) * SECTOR;
        if remaining < 0 then Stop(Crash) else Take(img, p, remaining)
  }

  // ---- what it should write ----------------------------------------------

  /** The table starts after the header, takes whole sectors, and ends before the
      partition, which is not upside down. */
  predicate Forward(g: Gpt, p: Part) {
    && g.tableLba >= 2 && (Size(g)) % SECTOR == 0
    && p.first >= g.tableLba + Size(g) / SECTOR && p.last + 1 >= p.first
  }

  /** The entry the program finds in the table at its sector. */
  predicate Finds(img: seq<byte>, wanted: seq<nat>, limit: Limit, g: Gpt, p: Part) {
    && Header(img) == Ok(g) && Size(g) <= limit && g.tableLba * SECTOR + Size(g) <= |img|
    && Search(img[g.tableLba * SECTOR..g.tableLba * SECTOR + Size(g)], g, wanted, 0) == Ok(p)
  }

  lemma {:induction false} SectorsExact(bytes: nat)
    ensures bytes % SECTOR == 0 ==> Sectors(bytes) == bytes / SECTOR && SECTOR * Sectors(bytes) == bytes
    ensures bytes <= SECTOR * Sectors(bytes) < bytes + SECTOR
    ensures SECTOR * Sectors(bytes) == bytes <==> bytes % SECTOR == 0
  {
  }

  lemma {:induction false} FindGives(img: seq<byte>, wanted: seq<nat>, limit: Limit, g: Gpt, p: Part)
    requires Finds(img, wanted, limit, g, p) && g.tableLba >= 2
    ensures FindPartition(img, wanted, limit)
            == Ok(Found(g.tableLba + Sectors(Size(g)), p, g.tableLba * SECTOR + Size(g)))
  {
    hide Search, Header, Sectors, Size;
    assert 1024 + (g.tableLba - 2) * SECTOR == g.tableLba * SECTOR;
  }

  /** For a table of whole sectors and a partition behind it, the program writes exactly
      the sectors first to last, or says that the image ended. */
  lemma {:induction false} WritesPartition(img: seq<byte>, wanted: seq<nat>, limit: Limit, g: Gpt, p: Part)
    requires Finds(img, wanted, limit, g, p) && Forward(g, p)
    ensures Extract(img, wanted, limit) == if (p.last + 1) * SECTOR <= |img| then Ok(img[p.first * SECTOR..(p.last + 1) * SECTOR])
                                    else Stop(Ended)
  {
    hide Finds, FindPartition, Sectors, Size;
    FindGives(img, wanted, limit, g, p);
    SectorsExact(Size(g));
  }

  /** Where the copy starts: at the partition exactly when the table takes whole sectors.
      Otherwise it starts early by what the last sector of the table has left over. */
  lemma {:induction false} StartsExactly(img: seq<byte>, wanted: seq<nat>, limit: Limit, g: Gpt, p: Part)
    requires Finds(img, wanted, limit, g, p) && g.tableLba >= 2
    requires p.first >= g.tableLba + Sectors(Size(g)) && p.last + 1 >= p.first
    ensures var early := SECTOR * Sectors(Size(g)) - Size(g);
            && 0 <= early < SECTOR && (early == 0 <==> (Size(g)) % SECTOR == 0)
            && Extract(img, wanted, limit) == Take(img, p.first * SECTOR - early, (p.last - p.first + 1) * SECTOR)
  {
    hide Finds, FindPartition, Sectors, Size;
    FindGives(img, wanted, limit, g, p);
    SectorsExact(Size(g));
  }

  /** The table is read and the search comes to an entry it cannot read. */
  ghost predicate BadEntry(img: seq<byte>, wanted: seq<nat>, limit: Limit, g: Gpt) {
    && g.tableLba >= 2 && Size(g) <= limit && g.tableLba * SECTOR + Size(g) <= |img|
    && var table := img[g.tableLba * SECTOR..g.tableLba * SECTOR + Size(g)];
       exists k :: FirstUnreadable(table, g, wanted, 0, k)
  }

  /** find_partition raises when the table starts before sector 2, when it is reached and is
      larger than there is memory for, or at an unreadable entry; and in no other case. */
  lemma {:induction false} FindCrashes(img: seq<byte>, wanted: seq<nat>, limit: Limit)
    ensures FindPartition(img, wanted, limit) == Stop(Crash) <==>
              && Header(img).Ok?
              && var g := Header(img).value;
                 || g.tableLba < 2
                 || (g.tableLba * SECTOR <= |img| && Size(g) > limit)
                 || BadEntry(img, wanted, limit, g)
  {
    hide Search, Size, Read, Sectors, FirstUnreadable;
    if Header(img).Ok? {
      var g := Header(img).value;
      if g.tableLba >= 2 && Size(g) <= limit && g.tableLba * SECTOR + Size(g) <= |img| {
        SearchCrashes(img[g.tableLba * SECTOR..g.tableLba * SECTOR + Size(g)], g, wanted, 0);
      }
    }
  }

  /** The program always ends. It ends with an exception exactly when find_partition does,
      or the entry found starts before the end of the table, or it is upside down and its
      start is reached. On every other image it writes the sectors or one of its messages. */
  lemma {:induction false} CrashesExactly(img: seq<byte>, wanted: seq<nat>, limit: Limit)
    ensures Extract(img, wanted, limit) == Stop(Crash) <==>
              || FindPartition(img, wanted, limit) == Stop(Crash)
              || (FindPartition(img, wanted, limit).Ok? &&
                  var f := FindPartition(img, wanted, limit).value;
                  f.part.first < f.position
                  || (f.part.last + 1 < f.part.first && f.at + (f.part.first - f.position) * SECTOR <= |img|))
  {
    hide FindPartition;
  }

  /** The table is read, and every entry can be, but none has the name. */
  predicate NoSuchEntry(img: seq<byte>, wanted: seq<nat>, limit: Limit, g: Gpt) {
    && g.tableLba >= 2 && Size(g) <= limit && g.tableLba * SECTOR + Size(g) <= |img|
    && NoneNamed(img[g.tableLba * SECTOR..g.tableLba * SECTOR + Size(g)], g, wanted, 0)
  }

  /** The messages: not a GPT image exactly when both first sectors are there and the second
      does not begin with the signature; no such partition exactly when the whole table is
      read in vain. */
  lemma {:induction false} MessagesExactly(img: seq<byte>, wanted: seq<nat>, limit: Limit)
    ensures Extract(img, wanted, limit) == Stop(NotGpt) <==> |img| >= 1024 && img[512..520] != SIGNATURE
    ensures Extract(img, wanted, limit) == Stop(NoPartition)
            <==> Header(img).Ok? && NoSuchEntry(img, wanted, limit, Header(img).value)
  {
    hide Search, Size, Read, Sectors, NoneNamed;
    if Header(img).Ok? {
      var g := Header(img).value;
      if g.tableLba >= 2 && Size(g) <= limit && g.tableLba * SECTOR + Size(g) <= |img| {
        var table := img[g.tableLba * SECTOR..g.tableLba * SECTOR + Size(g)];
        SearchFails(table, g, wanted, 0);
        SearchWhy(table, g, wanted, 0);
      }
    }
  }

  lemma {:induction false} SearchWhy(table: seq<byte>, g: Gpt, wanted: seq<nat>, i: nat)
    requires |table| == Size(g)
    ensures var r := Search(table, g, wanted, i); r.Stop? ==> r.why == Crash || r.why == NoPartition
    decreases g.count - i
  {
    hide Size, EntryOf, Search;
    if i < g.count {
      SearchStep(table, g, wanted, i);
      EntryCrashes(table, g, i);
      SearchWhy(table, g, wanted, i + 1);
    } else {
      SearchEnd(table, g, wanted, i);
    }
  }

  /** The sectors are written exactly when the entry is found, lies behind the table the right
      way round, and ends inside the image. */
  lemma {:induction false} WritesExactly(img: seq<byte>, wanted: seq<nat>, limit: Limit)
    ensures Extract(img, wanted, limit).Ok? <==>
              && FindPartition(img, wanted, limit).Ok?
              && var f := FindPartition(img, wanted, limit).value;
                 && f.position <= f.part.first <= f.part.last + 1
                 && f.at + (f.part.last + 1 - f.position) * SECTOR <= |img|
  {
    hide FindPartition;
  }

  // ---- the program -------------------------------------------------------

  function Min(a: nat, b: nat): nat {
    if a < b then a else b
  }

  /** Standard input: bytes that can only be read once, forwards. */
  class Stream {
    const img: seq<byte>
    var pos: nat

    ghost predicate Valid()
      reads this
    {
      pos <= |img|
    }

    constructor (image: seq<byte>)
      ensures img == image && pos == 0 && Valid()
    {
      img, pos := image, 0;
    }

    /** stream.read: up to size bytes. */
    method ReadUpTo(size: nat) returns (data: seq<byte>)
      requires Valid()
      modifies this
      ensures pos == old(pos) + Min(size, |img| - old(pos)) && Valid() && data == img[old(pos)..pos]
    {
      var n := Min(size, |img| - pos);
      data := img[pos..pos + n];
      pos := pos + n;
    }

    method ReadExact(size: nat) returns (r: Res<seq<byte>>)
      requires Valid()
      modifies this
      ensures Valid() && r == Take(img, old(pos), size) && (r.Ok? ==> pos == old(pos) + size)
    {
      var data := ReadUpTo(size);
      r := if |data| < size then Stop(Ended) else Ok(data);
    }

    /** skip: in chunks; the first read of a negative size raises. */
    method Skip(total: int) returns (r: Res<nat>)
      requires Valid()
      modifies this
      ensures Valid() && r == SkipTo(img, old(pos), total) && (r.Ok? ==> pos == r.value)
    {
      if total < 0 { return Stop(Crash); }
      var size: nat := total;
      while size != 0
        invariant Valid() && pos + size == old(pos) + total
        decreases size
      {
        var part := ReadExact(Min(size, CHUNK));
        if part.Stop? { return Stop(part.why); }
        size := size - |part.value|;
      }
      r := Ok(pos);
    }
  }

  /** The loop over the table. */
  method SearchTable(table: seq<byte>, g: Gpt, wanted: seq<nat>) returns (r: Res<Part>)
    requires |table| == Size(g)
    ensures r == Search(table, g, wanted, 0)
  {
    hide Size, EntryAt;
    var i := 0;
    while i < g.count
      invariant 0 <= i <= g.count && Search(table, g, wanted, 0) == Search(table, g, wanted, i)
    {
      EntryInside(g, i);
      var e := EntryAt(table, i * g.entrySize, g.entrySize);
      if e.Stop? { return Stop(e.why); }
      if e.value.name == wanted { return e; }
      i := i + 1;
    }
    r := Stop(NoPartition);
  }

  /** The two sectors in front: the protective MBR and the header. */
  method ReadHeaderSector(s: Stream) returns (r: Res<Gpt>)
    requires s.Valid() && s.pos == 0
    modifies s
    ensures s.Valid() && r == Header(s.img) && (r.Ok? ==> s.pos == 1024)
  {
    hide Read;
    var mbr := s.ReadExact(SECTOR);
    if mbr.Stop? { return Stop(Ended); }
    var sector := s.ReadExact(SECTOR);
    if sector.Stop? { return Stop(Ended); }
    HeaderSector(s.img, sector.value);
    if sector.value[..8] != SIGNATURE { return Stop(NotGpt); }
    r := Ok(Gpt(Read(sector.value, 72, 8), Read(sector.value, 80, 4), Read(sector.value, 84, 4)));
  }

  /** find_partition, leaving the stream just behind the table. */
  method FindIn(s: Stream, wanted: seq<nat>, limit: Limit) returns (r: Res<Found>)
    requires s.Valid() && s.pos == 0
    modifies s
    ensures s.Valid() && r == FindPartition(s.img, wanted, limit) && (r.Ok? ==> s.pos == r.value.at)
  {
    hide Search, Size, Sectors, Header;
    var header := ReadHeaderSector(s);
    if header.Stop? { return Stop(header.why); }
    var g := header.value;
    var position: int := 2;
    var skipped := s.Skip((g.tableLba - position) * SECTOR);
    if skipped.Stop? { return Stop(skipped.why); }
    position := g.tableLba;
    if Size(g) > limit { return Stop(Crash); }
    var table := s.ReadExact(Size(g));
    if table.Stop? { return Stop(table.why); }
    position := position + Sectors(Size(g));
    var part := SearchTable(table.value, g, wanted);
    if part.Stop? { return Stop(part.why); }
    r := Ok(Found(position, part.value, s.pos));
  }

  /** The header's fields, read from its sector. */
  lemma {:induction false} HeaderSector(img: seq<byte>, sector: seq<byte>)
    requires |img| >= 1024 && sector == img[512..1024]
    ensures sector[..8] == img[512..520] && Read(sector, 72, 8) == Read(img, 512 + 72, 8)
    ensures Read(sector, 80, 4) == Read(img, 512 + 80, 4) && Read(sector, 84, 4) == Read(img, 512 + 84, 4)
  {
    hide Read;
    SubSlice(img, 512, 1024, 0, 8);
    SubSlice(img, 512, 1024, 72, 80);
    SubSlice(img, 512, 1024, 80, 84);
    SubSlice(img, 512, 1024, 84, 88);
    ReadFrame(sector, img, 72, 584, 8);
    ReadFrame(sector, img, 80, 592, 4);
    ReadFrame(sector, img, 84, 596, 4);
  }

  /** The copy loop: chunks appended to the output, counted by remaining and written. */
  method Copy(s: Stream, remaining0: nat) returns (r: Res<seq<byte>>)
    requires s.Valid()
    modifies s
    ensures s.Valid() && r == Take(s.img, old(s.pos), remaining0)
  {
    ghost var start := s.pos;
    var remaining, written := remaining0, 0;
    var out: seq<byte> := [];
    while remaining != 0
      invariant s.Valid() && start <= s.pos && out == s.img[start..s.pos]
      invariant written == |out| && remaining >= 0 && remaining + written == remaining0
      decreases remaining
    {
      var chunk := s.ReadExact(Min(remaining, CHUNK));
      if chunk.Stop? { return Stop(chunk.why); }
      out := out + chunk.value;
      remaining := remaining - |chunk.value|;
      written := written + |chunk.value|;
    }
    r := Ok(out);
  }

  /** main: the bytes of the output file, in one pass over the stream. */
  method ExtractFrom(s: Stream, wanted: seq<nat>, limit: Limit) returns (r: Res<seq<byte>>)
    requires s.Valid() && s.pos == 0
    modifies s
    ensures r == Extract(s.img, wanted, limit)
  {
    hide FindPartition;
    var f := FindIn(s, wanted, limit);
    if f.Stop? { return Stop(f.why); }
    var part := f.value.part;
    var skipped := s.Skip((part.first - f.value.position) * SECTOR);
    if skipped.Stop? { return Stop(skipped.why); }
    var remaining := (part.last - part.first + 1) * SECTOR;
    if remaining < 0 { return Stop(Crash); }
    r := Copy(s, remaining);
  }
}
