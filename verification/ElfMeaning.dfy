/** What the output means: the same version needs with one more under libc.so.6, and
    nothing left to declare. */
module ElfMeaning {
  import opened Basics
  import opened ElfBytes
  import opened ElfFormat
  import opened ElfRewrite
  import opened ElfTables
  import opened ElfFrame
  import opened ElfTheorems
  import opened ElfOutput
  import ElfHash

  /** Every old offset into the string table still names the same string. */
  lemma {:induction false} OldStringsKept(d: seq<byte>, p: Parsed, q: Plan, out: seq<byte>, name: nat)
    requires GoodRun(d, p, q, out) && name < p.strsz.val
    ensures CString(d, p.strtabOff + name).Some?
    ensures CString(out, q.blobOff + name) == CString(d, p.strtabOff + name)
  {
    hide GoodRun, StrtabOk, Planned, At, CString;
    OutputTables(d, p, q, out);
    StrtabEnds(d, p);
    NameCopied(d, p, out, q.blobOff, name);
    NameThere(d, p, name);
  }

  lemma {:induction false} StrtabEnds(d: seq<byte>, p: Parsed)
    requires StrtabOk(d, p)
    ensures p.strsz.val > 0 && p.strtabOff + p.strsz.val <= |d| && d[p.strtabOff + p.strsz.val - 1] == 0
  {
    hide NamesInside;
  }

  lemma {:induction false} NameThere(d: seq<byte>, p: Parsed, name: nat)
    requires p.strsz.val > 0 && p.strtabOff + p.strsz.val <= |d| && d[p.strtabOff + p.strsz.val - 1] == 0
    requires name < p.strsz.val
    ensures CString(d, p.strtabOff + name).Some?
  {
    CStringCopied(d, p.strtabOff + name, d, p.strtabOff + name, p.strsz.val - name);
  }

  // ---- strings of a list of entries --------------------------------------

  /** Offsets below size name the same strings at o in out as at strtab in d. */
  predicate SameStrings(d: seq<byte>, strtab: nat, out: seq<byte>, o: nat, size: nat) {
    forall name :: 0 <= name < size ==> NameAt(out, o, name) == NameAt(d, strtab, name)
  }

  function NameAt(e: seq<byte>, strtab: nat, name: nat): Option<seq<byte>> {
    CString(e, strtab + name)
  }

  lemma {:induction false} SameString(d: seq<byte>, strtab: nat, out: seq<byte>, o: nat, size: nat, name: nat)
    requires SameStrings(d, strtab, out, o, size) && name < size
    ensures CString(out, o + name) == CString(d, strtab + name)
  {
    hide CString;
    assert NameAt(out, o, name) == NameAt(d, strtab, name);
  }

  lemma {:induction false} StringsSame(d: seq<byte>, p: Parsed, q: Plan, out: seq<byte>)
    requires GoodRun(d, p, q, out)
    ensures p.strsz.val > 0 && SameStrings(d, p.strtabOff, out, q.blobOff, p.strsz.val)
  {
    hide GoodRun, StrtabOk, CString, Planned, TablesAt;
    OutputTables(d, p, q, out);
    forall name | 0 <= name < p.strsz.val ensures NameAt(out, q.blobOff, name) == NameAt(d, p.strtabOff, name) {
      OldStringsKept(d, p, q, out, name);
    }
  }

  predicate NamesBelow(needs: seq<Need>, size: nat) {
    forall i :: 0 <= i < |needs| ==> NamesInside(needs[i].aux, size)
  }

  lemma {:induction false} NamesAreBelow(d: seq<byte>, p: Parsed)
    requires StrtabOk(d, p)
    ensures NamesBelow(p.needs, p.strsz.val)
  {
    hide NamesInside;
  }

  // ---- hashes ------------------------------------------------------------

  lemma {:induction false} AuxHashesKept(d: seq<byte>, strtab: nat, out: seq<byte>, o: nat, size: nat, aux: seq<Aux>)
    requires SameStrings(d, strtab, out, o, size) && NamesInside(aux, size) && AuxHashesOk(d, strtab, aux)
    ensures AuxHashesOk(out, o, aux)
  {
    hide CString, HashOf, SameStrings;
    forall i | 0 <= i < |aux| ensures CString(out, o + aux[i].name) == CString(d, strtab + aux[i].name) {
      SameString(d, strtab, out, o, size, aux[i].name);
    }
  }

  lemma {:induction false} AuxHashesAppend(out: seq<byte>, o: nat, aux: seq<Aux>, a: Aux)
    requires AuxHashesOk(out, o, aux)
    requires CString(out, o + a.name).Some? && HashOf(CString(out, o + a.name).value) == a.hash
    ensures AuxHashesOk(out, o, aux + [a])
  {
    hide CString, HashOf;
  }

  lemma {:induction false} HashesKept(d: seq<byte>, strtab: nat, out: seq<byte>, o: nat, size: nat, needs: seq<Need>, t: nat, a: Aux)
    requires SameStrings(d, strtab, out, o, size) && NamesBelow(needs, size) && HashesOk(d, strtab, needs)
    requires t < |needs| && CString(out, o + a.name).Some? && HashOf(CString(out, o + a.name).value) == a.hash
    ensures HashesOk(out, o, AppendAux(needs, t, a))
  {
    hide CString, HashOf, AuxHashesOk, NamesInside, SameStrings;
    forall i | 0 <= i < |needs| ensures AuxHashesOk(out, o, AppendAux(needs, t, a)[i].aux) {
      AuxHashesKept(d, strtab, out, o, size, needs[i].aux);
      if i == t { AuxHashesAppend(out, o, needs[i].aux, a); }
    }
  }

  /** The number compared with vna_hash is the gABI hash of the name's bytes w, cut to 32
      bits. */
  lemma {:induction false} HashOfIsGabi(s: seq<byte>, w: seq<bv32>, h: bv32)
    requires |w| == |s| && forall i :: 0 <= i < |s| ==> w[i] == s[i] as bv32
    requires h as bv64 == ElfHash.GabiFrom(0, w) & 0xffff_ffff
    ensures HashOf(s) == h as nat
  {
    hide ElfHash.GabiFrom, ElfHash.HashFrom;
    assert w == Words(s);
    hide Words;
    ElfHash.HashIsGabiHash(Words(s));
    SameWide(h, ElfHash.HashFrom(0, Words(s)));
  }

  lemma {:induction false} SameWide(h: bv32, k: bv32)
    requires h as bv64 == k as bv64
    ensures h == k
  {
    assert (h as bv64) as bv32 == h && (k as bv64) as bv32 == k;
  }

  // ---- running the tool again --------------------------------------------

  lemma {:induction false} LibcIs(needs: seq<Need>, i: nat)
    requires i < |needs| && needs[i].name == LIBC && forall k :: 0 <= k < i ==> needs[k].name != LIBC
    ensures FindLibc(needs) == Some(i)
  {
    var r := FindLibc(needs);
    assert needs[i].name == LIBC;
  }

  lemma {:induction false} LibcKept(needs: seq<Need>, t: nat, a: Aux)
    requires FindLibc(needs) == Some(t) && t < |needs|
    ensures FindLibc(AppendAux(needs, t, a)) == Some(t)
  {
    hide FindLibc;
    LibcIs(AppendAux(needs, t, a), t);
  }

  lemma {:induction false} DeclaresNew(out: seq<byte>, o: nat, needs: seq<Need>, t: nat, a: Aux)
    requires t < |needs| && At(out, o + a.name, VERSION + [0])
    ensures Declares(out, o, AppendAux(needs, t, a)[t].aux)
  {
    var aux := AppendAux(needs, t, a)[t].aux;
    var k := |aux| - 1;
    assert aux[k] == a;
    assert StartsWith(out, o + aux[k].name, VERSION + [0]);
  }

  /** The facts about the plan that the second run needs. */
  lemma {:induction false} PlanParts(d: seq<byte>, p: Parsed, q: Plan)
    requires PlanOk(d, p, q)
    ensures HashesOk(d, p.strtabOff, p.needs) && q.target < |p.needs| && FindLibc(p.needs) == Some(q.target)
    ensures p.strsz.val >= 0 && q.needs == AppendAux(p.needs, q.target, NewAux(p))
    ensures NewAux(p) == Aux(HashOf(VERSION), 0, MaxIndex(p.needs) + 1, p.strsz.val)
  {
    hide HashesOk, Declares, TableFits, Serialize, BlobOf, BlobVa, AppendAux, MaxIndex, FindLibc, Top, Slice, HashOf;
    hide RoundUp16, RoundUp8;
  }

  lemma {:induction false} SecondPlan(out: seq<byte>, p: Parsed, t: nat)
    requires HashesOk(out, p.strtabOff, p.needs) && FindLibc(p.needs) == Some(t) && t < |p.needs|
    requires Declares(out, p.strtabOff, p.needs[t].aux)
    ensures MakePlan(out, p) == Stop(AlreadyDeclared)
  {
    hide HashesOk, Declares, FindLibc;
  }

  lemma {:induction false} NewNameReads(d: seq<byte>, p: Parsed, q: Plan, out: seq<byte>)
    requires GoodRun(d, p, q, out)
    ensures p.strsz.val > 0 && At(out, q.blobOff + p.strsz.val, VERSION + [0])
    ensures CString(out, q.blobOff + p.strsz.val) == Some(VERSION)
  {
    hide GoodRun, Planned, StrtabOk, CString, At, NeedTable, AuxTables;
    OutputTables(d, p, q, out);
  }

  lemma {:induction false} SecondRunPlans(d: seq<byte>, p: Parsed, q: Plan, out: seq<byte>)
    requires GoodRun(d, p, q, out)
    ensures q.spare < |p.phs| && MakePlan(out, NewParsed(p, q)) == Stop(AlreadyDeclared)
  {
    hide GoodRun, PlanOk, ParsedOk, Apply, HashesOk, Declares, FindLibc, AppendAux, SameStrings, CString, HashOf, At;
    hide NamesBelow, MakePlan, NewAux, StrtabOk, Planned, TablesAt, MaxIndex;
    GoodRunParts(d, p, q, out);
    PlanVa(d, p, q);
    PlanParts(d, p, q);
    StringsSame(d, p, q, out);
    OutputTables(d, p, q, out);
    NamesAreBelow(d, p);
    NewNameReads(d, p, q, out);
    HashesKept(d, p.strtabOff, out, q.blobOff, p.strsz.val, p.needs, q.target, NewAux(p));
    LibcKept(p.needs, q.target, NewAux(p));
    DeclaresNew(out, q.blobOff, p.needs, q.target, NewAux(p));
    SecondPlan(out, NewParsed(p, q), q.target);
  }

  /** Running the tool on its own output always ends with "already declared". */
  lemma {:induction false} Idempotent(d: seq<byte>, p: Parsed, q: Plan, out: seq<byte>)
    requires GoodRun(d, p, q, out)
    ensures Declare(out) == Stop(AlreadyDeclared)
  {
    hide GoodRun, Parse, MakePlan, Apply, NewParsed;
    OutputParses(d, p, q, out);
    SecondRunPlans(d, p, q, out);
  }

  /** The layout the tool relies on without checking it. */
  predicate WellFormed(d: seq<byte>) {
    Parse(d).Ok? ==> LayoutOk(d, Parse(d).value) && StrtabOk(d, Parse(d).value)
  }

  lemma {:induction false} RanIsGood(d: seq<byte>, p: Parsed, q: Plan, out: seq<byte>)
    requires Ran(d, p, q, out) && WellFormed(d)
    ensures GoodRun(d, p, q, out)
  {
    hide Parse, MakePlan, Apply, LayoutOk, StrtabOk, ParsedOk, PlanOk;
    ParseGives(d, p);
    PlanGives(d, p, q);
  }

  /** For every file the tool rewrites, a second run has nothing to do. */
  lemma {:induction false} DeclareOnce(d: seq<byte>)
    requires Declare(d).Ok? && WellFormed(d)
    ensures Declare(Declare(d).value) == Stop(AlreadyDeclared)
  {
    hide Declare, WellFormed, GoodRun, Ran;
    DeclareRan(d);
    var p, q :| Ran(d, p, q, Declare(d).value);
    RanIsGood(d, p, q, Declare(d).value);
    Idempotent(d, p, q, Declare(d).value);
  }

  // ---- views -------------------------------------------------------------

  lemma {:induction false} AuxViewsKept(d: seq<byte>, strtab: nat, out: seq<byte>, o: nat, size: nat, aux: seq<Aux>)
    requires SameStrings(d, strtab, out, o, size) && NamesInside(aux, size)
    ensures AuxViews(out, o, aux) == AuxViews(d, strtab, aux)
    decreases |aux|
  {
    hide CString;
    hide SameStrings;
    if aux != [] {
      SameString(d, strtab, out, o, size, aux[0].name);
      AuxViewsKept(d, strtab, out, o, size, aux[1..]);
    }
  }

  lemma {:induction false} NeedViewsKept(d: seq<byte>, strtab: nat, out: seq<byte>, o: nat, size: nat, needs: seq<Need>)
    requires SameStrings(d, strtab, out, o, size) && NamesBelow(needs, size)
    ensures NeedViews(out, o, needs) == NeedViews(d, strtab, needs)
    decreases |needs|
  {
    hide CString, AuxViews, SameStrings, NamesInside;
    if needs != [] {
      AuxViewsKept(d, strtab, out, o, size, needs[0].aux);
      assert forall i :: 0 <= i < |needs[1..]| ==> needs[1..][i] == needs[i + 1];
      NeedViewsKept(d, strtab, out, o, size, needs[1..]);
    }
  }

  function ViewOf(a: Aux, name: seq<byte>): AuxView {
    AuxView(a.hash, a.flags, a.other, name)
  }

  lemma {:induction false} AuxViewsOne(e: seq<byte>, strtab: nat, a: Aux)
    requires CString(e, strtab + a.name).Some?
    ensures AuxViews(e, strtab, [a]) == Some([] + [ViewOf(a, CString(e, strtab + a.name).value)])
  {
    hide CString;
    assert [a][1..] == [];
    assert AuxViews(e, strtab, []) == Some([]);
    var v := ViewOf(a, CString(e, strtab + a.name).value);
    assert [v] + [] == [v] && [] + [v] == [v];
  }

  lemma {:induction false} AuxViewsAppend(e: seq<byte>, strtab: nat, aux: seq<Aux>, a: Aux)
    requires AuxViews(e, strtab, aux).Some? && CString(e, strtab + a.name).Some?
    ensures AuxViews(e, strtab, aux + [a])
            == Some(AuxViews(e, strtab, aux).value + [ViewOf(a, CString(e, strtab + a.name).value)])
    decreases |aux|
  {
    hide CString;
    if aux == [] {
      AuxViewsOne(e, strtab, a);
      assert aux + [a] == [a];
    } else {
      AuxViewsAppend(e, strtab, aux[1..], a);
      assert (aux + [a])[1..] == aux[1..] + [a];
      var v := ViewOf(aux[0], CString(e, strtab + aux[0].name).value);
      var w := ViewOf(a, CString(e, strtab + a.name).value);
      assert [v] + (AuxViews(e, strtab, aux[1..]).value + [w]) == AuxViews(e, strtab, aux).value + [w];
    }
  }

  /** Views of as many entries, each with as many auxiliaries. */
  lemma {:induction false} ViewsCount(e: seq<byte>, strtab: nat, needs: seq<Need>)
    requires NeedViews(e, strtab, needs).Some?
    ensures |NeedViews(e, strtab, needs).value| == |needs|
    ensures forall i :: 0 <= i < |needs| ==>
              && |NeedViews(e, strtab, needs).value[i].aux| == |needs[i].aux|
              && NeedViews(e, strtab, needs).value[i].file == needs[i].name
    decreases |needs|
  {
    hide AuxViews;
    if needs != [] {
      AuxViewsCount(e, strtab, needs[0].aux);
      ViewsCount(e, strtab, needs[1..]);
    }
  }

  lemma {:induction false} AuxViewsCount(e: seq<byte>, strtab: nat, aux: seq<Aux>)
    requires AuxViews(e, strtab, aux).Some?
    ensures |AuxViews(e, strtab, aux).value| == |aux|
    decreases |aux|
  {
    hide CString;
    if aux != [] { AuxViewsCount(e, strtab, aux[1..]); }
  }

  /** The views with one auxiliary appended to entry t. */
  function WithAux(vs: seq<NeedView>, t: nat, v: AuxView): seq<NeedView>
    requires t < |vs|
  {
    vs[t := vs[t].(aux := vs[t].aux + [v])]
  }

  lemma {:induction false} NeedViewsAppend(e: seq<byte>, strtab: nat, needs: seq<Need>, t: nat, a: Aux)
    requires NeedViews(e, strtab, needs).Some? && t < |needs| && CString(e, strtab + a.name).Some?
    requires |NeedViews(e, strtab, needs).value| == |needs|
    ensures NeedViews(e, strtab, AppendAux(needs, t, a))
            == Some(WithAux(NeedViews(e, strtab, needs).value, t, ViewOf(a, CString(e, strtab + a.name).value)))
    decreases |needs|
  {
    hide CString, AuxViews, ViewOf;
    var r := AppendAux(needs, t, a);
    if t == 0 {
      AuxViewsAppend(e, strtab, needs[0].aux, a);
      assert r[1..] == needs[1..];
      var v := NeedView(needs[0].ver, needs[0].name, AuxViews(e, strtab, needs[0].aux).value);
      var rest := NeedViews(e, strtab, needs[1..]).value;
      var w := ViewOf(a, CString(e, strtab + a.name).value);
      assert NeedViews(e, strtab, needs).value == [v] + rest;
      assert [v.(aux := v.aux + [w])] + rest == WithAux([v] + rest, 0, w);
    } else {
      ViewsCount(e, strtab, needs[1..]);
      NeedViewsAppend(e, strtab, needs[1..], t - 1, a);
      assert r[1..] == AppendAux(needs[1..], t - 1, a);
      var v := NeedView(needs[0].ver, needs[0].name, AuxViews(e, strtab, needs[0].aux).value);
      var rest := NeedViews(e, strtab, needs[1..]).value;
      var w := ViewOf(a, CString(e, strtab + a.name).value);
      assert [v] + WithAux(rest, t - 1, w) == WithAux([v] + rest, t, w);
    }
  }

  lemma {:induction false} AuxViewsExist(d: seq<byte>, strtab: nat, aux: seq<Aux>)
    requires AuxHashesOk(d, strtab, aux)
    ensures AuxViews(d, strtab, aux).Some?
    decreases |aux|
  {
    hide CString, HashOf;
    if aux != [] {
      assert forall i :: 0 <= i < |aux[1..]| ==> aux[1..][i] == aux[i + 1];
      AuxViewsExist(d, strtab, aux[1..]);
    }
  }

  lemma {:induction false} NeedViewsExist(d: seq<byte>, strtab: nat, needs: seq<Need>)
    requires HashesOk(d, strtab, needs)
    ensures NeedViews(d, strtab, needs).Some?
    decreases |needs|
  {
    hide AuxHashesOk, AuxViews;
    if needs != [] {
      AuxViewsExist(d, strtab, needs[0].aux);
      assert forall i :: 0 <= i < |needs[1..]| ==> needs[1..][i] == needs[i + 1];
      NeedViewsExist(d, strtab, needs[1..]);
    }
  }

  /** The version the tool adds. */
  function NewView(p: Parsed): AuxView {
    AuxView(HashOf(VERSION), 0, MaxIndex(p.needs) + 1, VERSION)
  }

  /** Parsed by counts, the output's version needs are those of the input with the new
      version appended to the first entry for libc.so.6. */
  lemma {:induction false} ToolViewExtended(d: seq<byte>, p: Parsed, q: Plan, out: seq<byte>)
    requires GoodRun(d, p, q, out)
    ensures NeedViews(d, p.strtabOff, p.needs).Some?
    ensures var vs := NeedViews(d, p.strtabOff, p.needs).value;
            && q.target < |vs| && vs[q.target].file == LIBC && (forall i :: 0 <= i < q.target ==> vs[i].file != LIBC)
            && NeedViews(out, q.blobOff, q.needs) == Some(WithAux(vs, q.target, NewView(p)))
  {
    hide GoodRun, PlanOk, ParsedOk, Apply, HashesOk, FindLibc, AppendAux, SameStrings, CString, HashOf, At, NamesBelow;
    hide StrtabOk, Planned, TablesAt, MaxIndex, NeedViews, NewAux;
    GoodRunParts(d, p, q, out);
    PlanParts(d, p, q);
    NeedViewsExist(d, p.strtabOff, p.needs);
    ViewsCount(d, p.strtabOff, p.needs);
    StringsSame(d, p, q, out);
    OutputTables(d, p, q, out);
    NamesAreBelow(d, p);
    NeedViewsKept(d, p.strtabOff, out, q.blobOff, p.strsz.val, p.needs);
    NewNameReads(d, p, q, out);
    NeedViewsAppend(out, q.blobOff, p.needs, q.target, NewAux(p));
  }

  // ---- the loader's reading ----------------------------------------------

  lemma {:induction false} LoaderViewIs(d: seq<byte>, p: Parsed)
    requires ParsedOk(d, p)
    ensures LoaderView(d) == ChainNeeds(d, p.strtabOff, p.verneedOff)
  {
    hide FirstOf, Lookup, VaToOff, ParseNeeds, ReadHeader, PhdrsAre, DynsAre, ChainNeeds;
    PhdrsExactly(d, p.h, p.phs);
    DynsTo(d, p.dynOff, p.dyn);
  }

  /** A chain has at least one auxiliary per entry. */
  lemma {:induction false} ChainsNonempty(d: seq<byte>, strtab: nat, o: nat)
    requires ChainNeeds(d, strtab, o).Some?
    ensures forall i :: 0 <= i < |ChainNeeds(d, strtab, o).value| ==> ChainNeeds(d, strtab, o).value[i].aux != []
    decreases |d| - o
  {
    hide CString, Read, ChainAux;
    var next := Read(d, o + 12, 4);
    ChainNonempty(d, strtab, o + Read(d, o + 8, 4));
    if next != 0 { ChainsNonempty(d, strtab, o + next); }
  }

  lemma {:induction false} ChainNonempty(d: seq<byte>, strtab: nat, o: nat)
    ensures ChainAux(d, strtab, o).Some? ==> ChainAux(d, strtab, o).value != []
    decreases |d| - o
  {
    hide CString, Read;
  }

  /** The list of version needs a loader follows is the one the counts describe. */
  predicate CountsAgree(d: seq<byte>, p: Parsed) {
    LoaderView(d) == NeedViews(d, p.strtabOff, p.needs)
  }

  lemma {:induction false} AuxNonempty(d: seq<byte>, p: Parsed)
    requires ParsedOk(d, p) && CountsAgree(d, p) && NeedViews(d, p.strtabOff, p.needs).Some?
    ensures forall i :: 0 <= i < |p.needs| ==> p.needs[i].aux != []
  {
    hide ParsedOk, NeedViews, LoaderView, ChainNeeds;
    LoaderViewIs(d, p);
    ChainsNonempty(d, p.strtabOff, p.verneedOff);
    ViewsCount(d, p.strtabOff, p.needs);
    var vs := NeedViews(d, p.strtabOff, p.needs).value;
    forall i | 0 <= i < |p.needs| ensures p.needs[i].aux != [] {
      assert vs[i].aux != [] && |vs[i].aux| == |p.needs[i].aux|;
    }
  }

  lemma {:induction false} AppendNonempty(needs: seq<Need>, t: nat, a: Aux)
    requires t < |needs| && forall i :: 0 <= i < |needs| ==> needs[i].aux != []
    ensures forall i :: 0 <= i < |needs| ==> AppendAux(needs, t, a)[i].aux != []
  {
  }

  lemma {:induction false} TableChains(d: seq<byte>, p: Parsed, q: Plan, out: seq<byte>)
    requires p.strsz.val >= 0 && p.strtabOff + p.strsz.val <= |d| && TablesAt(d, p, q, out)
    requires q.needs != [] && AllFit(q.needs) && GapsFit(q.needs, 16 * |q.needs|) && NamesAt(out, q.blobOff, q.needs)
    requires forall i :: 0 <= i < |q.needs| ==> q.needs[i].aux != []
    requires NeedViews(out, q.blobOff, q.needs).Some?
    ensures ChainNeeds(out, q.blobOff, q.blobOff + q.rel) == NeedViews(out, q.blobOff, q.needs)
  {
    hide NamesAt, At, CString, GapsFit, AllFit, NeedViews, ChainNeeds, NeedTable, AuxTables;
    NeedTableChains(out, q.blobOff, q.blobOff + q.rel, q.needs, 16 * |q.needs|);
  }

  lemma {:induction false} OutputChains(d: seq<byte>, p: Parsed, q: Plan, out: seq<byte>)
    requires GoodRun(d, p, q, out) && NeedViews(out, q.blobOff, q.needs).Some?
    requires forall i :: 0 <= i < |p.needs| ==> p.needs[i].aux != []
    ensures ChainNeeds(out, q.blobOff, q.blobOff + q.rel) == NeedViews(out, q.blobOff, q.needs)
  {
    hide GoodRun, ParsedOk, PlanOk, Apply, StrtabOk, Planned, NamesAt, At, CString, GapsFit, AllFit;
    hide NeedViews, ChainNeeds, TablesAt, NewAux, AppendAux;
    GoodRunParts(d, p, q, out);
    PlanParts(d, p, q);
    OutputTables(d, p, q, out);
    PlannedTable(d, p, q);
    ParsedNeeds(d, p);
    FilesNamed(d, p, q, out);
    AppendNonempty(p.needs, q.target, NewAux(p));
    TableChains(d, p, q, out);
  }

  lemma {:induction false} OutputLoaderView(d: seq<byte>, p: Parsed, q: Plan, out: seq<byte>)
    requires GoodRun(d, p, q, out)
    ensures LoaderView(out) == ChainNeeds(out, q.blobOff, q.blobOff + q.rel)
  {
    hide GoodRun, ParsedOk, LoaderView, ChainNeeds, Parse;
    OutputParses(d, p, q, out);
    ParseGives(out, NewParsed(p, q));
    LoaderViewIs(out, NewParsed(p, q));
  }

  /** What a loader reads from the output, resolving the new DT_STRTAB and DT_VERNEED
      through the new program headers and following the links, is what it read from the
      input with one version appended to libc.so.6. */
  lemma {:induction false} LoaderSeesVersion(d: seq<byte>, p: Parsed, q: Plan, out: seq<byte>)
    requires GoodRun(d, p, q, out) && CountsAgree(d, p)
    ensures LoaderView(d).Some?
    ensures var vs := LoaderView(d).value;
            && q.target < |vs| && vs[q.target].file == LIBC && (forall i :: 0 <= i < q.target ==> vs[i].file != LIBC)
            && LoaderView(out) == Some(WithAux(vs, q.target, NewView(p)))
  {
    hide GoodRun, ParsedOk, PlanOk, Apply, LoaderView, NeedViews, ChainNeeds, NewView;
    GoodRunParts(d, p, q, out);
    ToolViewExtended(d, p, q, out);
    AuxNonempty(d, p);
    OutputChains(d, p, q, out);
    OutputLoaderView(d, p, q, out);
  }

  // ---- the new index -----------------------------------------------------

  /** No version of the input carries this index, the hidden bit aside. */
  predicate Unused(needs: seq<Need>, index: nat) {
    forall i, j :: 0 <= i < |needs| && 0 <= j < |needs[i].aux| ==> needs[i].aux[j].other % 0x8000 != index % 0x8000
  }

  /** The new index is unused unless the largest index is the last one, 0x7fff, and index
      0 is taken: then it wraps to 0. */
  lemma {:induction false} NewIndexUnused(d: seq<byte>, p: Parsed, q: Plan)
    requires PlanOk(d, p, q)
    ensures Unused(p.needs, NewAux(p).other) <==> (MaxIndex(p.needs) < 0x7fff || Unused(p.needs, 0))
    ensures MaxIndex(p.needs) == 0x7fff ==> NewAux(p).other == 0x8000
  {
    hide PlanOk, MaxIndex, HashOf;
    PlanParts(d, p, q);
    IndexBound(d, p, q);
    var m := MaxIndex(p.needs);
    if m == 0x7fff { assert (m + 1) % 0x8000 == 0 % 0x8000; }
  }

  lemma {:induction false} IndexBound(d: seq<byte>, p: Parsed, q: Plan)
    requires PlanOk(d, p, q)
    ensures p.strsz.val >= 0 && 0 <= MaxIndex(p.needs) < 0x8000
  {
    hide HashesOk, Declares, TableFits, Serialize, BlobOf, BlobVa, AppendAux, MaxIndex, FindLibc, Top, Slice, HashOf;
    hide RoundUp16, RoundUp8, NewAux;
  }
}
