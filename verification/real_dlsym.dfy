/** The resolver bootstrap of the interposition layer: the real `dlopen` and
    `dlsym` are found by introspecting the loaded `libdl` rather than through
    the (interposed) dynamic linker, on the first call that needs them (once
    for calls that do not overlap; the C code takes no lock), and every later
    call goes through the captured pointers. Also the diagnostic formatter that names the
    `RTLD_*` bits of a `dlopen` flag word. */
module RealDlsym {
  import opened Common

  /** The three ways the bootstrap can fail; each one ends the process. */
  datatype BootError = NoLibdl | NoDlopen | NoDlsym

  /** What ELF introspection finds in the running process: whether an object
      matching `*libdl.so*` is loaded and, if so, the address reported for
      `dlopen` and for `dlsym` (Null when that symbol lookup fails). */
  datatype LibdlImage = Missing | Loaded(dlopenSym: Pointer, dlsymSym: Pointer) {
    predicate Complete() {
      Loaded? && dlopenSym != Null && dlsymSym != Null
    }
  }

  /** The outcome of the bootstrap: the three lookups are made in a fixed
      order and the first one that fails decides the error. */
  function Bootstrap(image: LibdlImage): (o: Outcome<BootError>)
    ensures o == Pass <==> image.Complete()
    ensures o == Fail(NoLibdl) <==> image.Missing?
    ensures o == Fail(NoDlopen) <==> image.Loaded? && image.dlopenSym == Null
    ensures o == Fail(NoDlsym) <==> image.Loaded? && image.dlopenSym != Null && image.dlsymSym == Null
  {
    match image
    case Missing => Fail(NoLibdl)
    case Loaded(dlopenSym, dlsymSym) =>
      if dlopenSym == Null then Fail(NoDlopen)
      else if dlsymSym == Null then Fail(NoDlsym)
      else Pass
  }

  // ---------------------------------------------------------------------
  // The dlopen flag formatter

  /** A `dlopen` mode bit together with the name the formatter prints for it. */
  datatype DlFlag = DlFlag(name: string, bit: bv32)

  /** The bits the formatter tests, with their values from glibc's
      <bits/dlfcn.h>. `RTLD_LOCAL` is 0 there. */
  const RtldLazy := DlFlag("RTLD_LAZY", 0x1)
  const RtldNow := DlFlag("RTLD_NOW", 0x2)
  const RtldGlobal := DlFlag("RTLD_GLOBAL", 0x100)
  const RtldLocal := DlFlag("RTLD_LOCAL", 0x0)
  const RtldNodelete := DlFlag("RTLD_NODELETE", 0x1000)
  const RtldNoload := DlFlag("RTLD_NOLOAD", 0x4)
  const RtldDeepbind := DlFlag("RTLD_DEEPBIND", 0x8)

  /** The tested bits in the order the formatter tests them. */
  const RtldFlags: seq<DlFlag> :=
    [RtldLazy, RtldNow, RtldGlobal, RtldLocal, RtldNodelete, RtldNoload, RtldDeepbind]

  /** The `flag & test` test of the formatter. */
  predicate IsSet(flag: bv32, f: DlFlag)
  {
    flag & f.bit != 0
  }

  /** The names in `table` whose bit is set in `flag`, in table order. */
  function ListedFlags(flag: bv32, table: seq<DlFlag>): (names: seq<string>)
    ensures |names| <= |table|
  {
    if table == [] then []
    else
      var last := table[|table| - 1];
      ListedFlags(flag, table[..|table| - 1]) + Listed(flag, last)
  }

  /** The names separated by `|`: the first without a prefix, each later one
      after a `|`; nothing at all for no names. */
  function Join(names: seq<string>): (out: string)
  {
    if |names| == 0 then ""
    else if |names| == 1 then names[0]
    else Join(names[..|names| - 1]) + "|" + names[|names| - 1]
  }

  /** The prefix the formatter puts before the next name (its `fmt`): none
      before the first name, `|` once a name has been printed. */
  function Prefix(printed: seq<string>): (fmt: string)
  {
    if printed == [] then "" else "|"
  }

  /** The names of `test`, if its bit is set in `flag`. */
  function Listed(flag: bv32, test: DlFlag): (names: seq<string>)
  {
    if IsSet(flag, test) then [test.name] else []
  }

  /** One `FLAG(test)` step: when the bit is set, print the name after the
      current prefix and switch the prefix to `|`. `printed` is the list of
      names printed so far. */
  method Flag(flag: bv32, test: DlFlag, ghost printed: seq<string>, out: string, fmt: string)
    returns (out': string, fmt': string)
    requires out == Join(printed) && fmt == Prefix(printed)
    ensures out' == Join(printed + Listed(flag, test))
    ensures fmt' == Prefix(printed + Listed(flag, test))
  {
    out', fmt' := out, fmt;
    if IsSet(flag, test) {
      var after := printed + [test.name];
      assert after[..|after| - 1] == printed;
      out' := out + fmt + test.name;
      fmt' := "|";
    } else {
      assert printed + [] == printed;
    }
  }

  /** Extending the table by one entry extends the listed names by that
      entry's name, when its bit is set. */
  lemma ListedStep(flag: bv32, table: seq<DlFlag>, i: nat)
    requires i < |table|
    ensures ListedFlags(flag, table[..i + 1]) == ListedFlags(flag, table[..i]) + Listed(flag, table[i])
  {
    assert table[..i + 1][..i] == table[..i];
  }

  /** The `FLAG(...)` sequence of `real_dlopen` over the seven tested bits
      `t`, in order: the flag list it prints between `dlopen(<file>, ` and
      `)`. `real_dlopen` runs it over `RtldFlags`. */
  method FormatFlags(flag: bv32, t: seq<DlFlag>) returns (out: string)
    requires |t| == 7
    ensures out == Join(ListedFlags(flag, t))
  {
    var fmt := "";
    out := "";
    ghost var printed: seq<string> := [];
    assert t[..0] == [];
    out, fmt := Flag(flag, t[0], printed, out, fmt);
    ListedStep(flag, t, 0);
    printed := ListedFlags(flag, t[..1]);
    out, fmt := Flag(flag, t[1], printed, out, fmt);
    ListedStep(flag, t, 1);
    printed := ListedFlags(flag, t[..2]);
    out, fmt := Flag(flag, t[2], printed, out, fmt);
    ListedStep(flag, t, 2);
    printed := ListedFlags(flag, t[..3]);
    out, fmt := Flag(flag, t[3], printed, out, fmt);
    ListedStep(flag, t, 3);
    printed := ListedFlags(flag, t[..4]);
    out, fmt := Flag(flag, t[4], printed, out, fmt);
    ListedStep(flag, t, 4);
    printed := ListedFlags(flag, t[..5]);
    out, fmt := Flag(flag, t[5], printed, out, fmt);
    ListedStep(flag, t, 5);
    printed := ListedFlags(flag, t[..6]);
    out, fmt := Flag(flag, t[6], printed, out, fmt);
    ListedStep(flag, t, 6);
    printed := ListedFlags(flag, t[..7]);
    assert t[..7] == t;
  }


  /** A name is listed exactly when some entry of the table carries that name
      and its bit is set in the flag word. */
  lemma {:induction false} ListedIff(flag: bv32, table: seq<DlFlag>, name: string)
    ensures name in ListedFlags(flag, table)
        <==> exists j :: 0 <= j < |table| && table[j].name == name && IsSet(flag, table[j])
  {
    if table != [] {
      var init, last := table[..|table| - 1], table[|table| - 1];
      ListedIff(flag, init, name);
      assert ListedFlags(flag, table) == ListedFlags(flag, init) + Listed(flag, last);
      if name in ListedFlags(flag, table) && name !in ListedFlags(flag, init) {
        assert last.name == name && IsSet(flag, last);
        assert table[|table| - 1] == last;
      }
      if exists j :: 0 <= j < |table| && table[j].name == name && IsSet(flag, table[j]) {
        var j :| 0 <= j < |table| && table[j].name == name && IsSet(flag, table[j]);
        if j < |table| - 1 {
          assert init[j] == table[j];
        }
      }
    }
  }

  /** A flag constant equal to 0 (`RTLD_LOCAL` in glibc) is never printed,
      whatever the flag word: `flag & 0` is always 0. */
  lemma LocalNeverListed(flag: bv32)
    ensures "RTLD_LOCAL" !in ListedFlags(flag, RtldFlags)
  {
    ListedIff(flag, RtldFlags, "RTLD_LOCAL");
  }

  /** When none of the tested bits is set, the formatter prints nothing. */
  lemma NoTestedBitPrintsNothing(flag: bv32)
    requires flag & 0x110F == 0
    ensures Join(ListedFlags(flag, RtldFlags)) == ""
  {
    forall j | 0 <= j < |RtldFlags|
      ensures !IsSet(flag, RtldFlags[j])
    {
    }
    if ListedFlags(flag, RtldFlags) != [] {
      var name := ListedFlags(flag, RtldFlags)[0];
      ListedIff(flag, RtldFlags, name);
      assert false;
    }
  }

  /** `dlopen(path, RTLD_NOW | RTLD_GLOBAL)` is traced with the list
      `RTLD_NOW|RTLD_GLOBAL`: names in test order, `|` between them only. */
  lemma NowGlobalListed()
    ensures Join(ListedFlags(0x102, RtldFlags)) == "RTLD_NOW|RTLD_GLOBAL"
  {
    var t := RtldFlags;
    assert t[..0] == [];
    ListedStep(0x102, t, 0);
    ListedStep(0x102, t, 1);
    ListedStep(0x102, t, 2);
    ListedStep(0x102, t, 3);
    ListedStep(0x102, t, 4);
    ListedStep(0x102, t, 5);
    ListedStep(0x102, t, 6);
    assert t[..7] == t;
    assert ListedFlags(0x102, t) == ["RTLD_NOW", "RTLD_GLOBAL"];
  }

  /** The output is empty exactly when no name is listed (no flag name is
      empty). */
  lemma JoinEmptyIff(names: seq<string>)
    requires forall k :: 0 <= k < |names| ==> names[k] != ""
    ensures Join(names) == "" <==> names == []
  {
  }

  // Reading the printed list back

  /** The position of the last `|` in `s`, if any. */
  function LastBar(s: string): (k: Option<nat>)
    ensures k.Some? ==> k.value < |s| && s[k.value] == '|' && '|' !in s[k.value + 1..]
    ensures k.None? ==> '|' !in s
  {
    if s == [] then None
    else if s[|s| - 1] == '|' then Some(|s| - 1)
    else
      var k := LastBar(s[..|s| - 1]);
      assert k.Some? ==> s[k.value + 1..] == s[..|s| - 1][k.value + 1..] + [s[|s| - 1]];
      k
  }

  /** Splits a `|`-separated list into its fields. */
  function Split(s: string): (fields: seq<string>)
    ensures |fields| >= 1
    decreases |s|
  {
    match LastBar(s)
    case None => [s]
    case Some(k) => Split(s[..k]) + [s[k + 1..]]
  }

  /** The list as a reader of the diagnostic line recovers it. */
  function ParseFlagList(s: string): (names: seq<string>)
  {
    if s == "" then [] else Split(s)
  }

  /** Reading the printed list back gives exactly the listed names, in order:
      the `|` separators are unambiguous because no flag name contains one. */
  lemma {:induction false} ParseJoin(names: seq<string>)
    requires forall k :: 0 <= k < |names| ==> Plain(names[k])
    ensures ParseFlagList(Join(names)) == names
  {
    JoinEmptyIff(names);
    if names != [] {
      SplitJoin(names);
    }
  }

  lemma {:induction false} SplitJoin(names: seq<string>)
    requires names != []
    requires forall k :: 0 <= k < |names| ==> '|' !in names[k]
    ensures Split(Join(names)) == names
  {
    if |names| == 1 {
    } else {
      var init, last := names[..|names| - 1], names[|names| - 1];
      var s := Join(init) + "|" + last;
      assert Join(names) == s;
      var k := |Join(init)|;
      assert s[k] == '|' && s[k + 1..] == last;
      assert s[..k] == Join(init);
      SplitJoin(init);
    }
  }

  /** A name that can stand in a `|`-separated list: non-empty, no `|`. */
  predicate Plain(name: string)
  {
    name != "" && '|' !in name
  }

  /** A table whose names are all plain lists only plain names. */
  lemma {:induction false} ListedPlain(flag: bv32, table: seq<DlFlag>)
    requires forall j :: 0 <= j < |table| ==> Plain(table[j].name)
    ensures forall k :: 0 <= k < |ListedFlags(flag, table)| ==> Plain(ListedFlags(flag, table)[k])
  {
    if table != [] {
      var init := table[..|table| - 1];
      assert forall j :: 0 <= j < |init| ==> init[j] == table[j];
      ListedPlain(flag, init);
    }
  }

  /** None of the seven names the formatter prints is empty or holds a `|`. */
  lemma RtldNamesPlain()
    ensures forall j :: 0 <= j < |RtldFlags| ==> Plain(RtldFlags[j].name)
  {
  }

  /** Every name the formatter can print is non-empty and free of `|`. */
  lemma FlagNamesPlain(flag: bv32)
    ensures forall k :: 0 <= k < |ListedFlags(flag, RtldFlags)| ==> Plain(ListedFlags(flag, RtldFlags)[k])
  {
    RtldNamesPlain();
    ListedPlain(flag, RtldFlags);
  }

  /** What `real_dlopen` prints, read back, is exactly the names of the set
      bits among the tested ones, in the fixed order. */
  lemma FormattedFlagsReadBack(flag: bv32)
    ensures ParseFlagList(Join(ListedFlags(flag, RtldFlags))) == ListedFlags(flag, RtldFlags)
  {
    FlagNamesPlain(flag);
    ParseJoin(ListedFlags(flag, RtldFlags));
  }

  // ---------------------------------------------------------------------
  // The resolver itself

  /** One diagnostic line printed when MANGOHUD_DEBUG_DLOPEN or
      MANGOHUD_DEBUG_DLSYM is set; a `dlopen` file name is `None` when it was
      NULL. */
  datatype TraceLine =
    | DlopenLine(filename: Option<string>, flags: string, result: Pointer)
    | DlsymLine(handle: Pointer, symbol: string, result: Pointer)

  /** The process-wide resolver state: the captured `__dlopen` and `__dlsym`
      pointers, behind which sit the real functions `openImpl` and
      `resolveImpl`. */
  class DlResolver {
    const image: LibdlImage
    const openImpl: (Option<string>, bv32) -> Pointer  // None is a NULL file name
    const resolveImpl: (Pointer, string) -> Pointer
    const printDlopen: bool   // MANGOHUD_DEBUG_DLOPEN is set
    const printDlsym: bool    // MANGOHUD_DEBUG_DLSYM is set

    var dlopenFn: Pointer     // __dlopen
    var dlsymFn: Pointer      // __dlsym
    var objLookups: nat       // how many times libdl has been searched for
    var trace: seq<TraceLine> // diagnostic output, oldest first

    /** A captured pointer is the one introspection reports, and `__dlsym` is
        only ever captured after `__dlopen`. */
    ghost predicate Valid()
      reads this
    {
      && (dlopenFn != Null ==> image.Loaded? && dlopenFn == image.dlopenSym)
      && (dlsymFn != Null ==> image.Loaded? && dlsymFn == image.dlsymSym && dlopenFn != Null)
    }

    constructor (image: LibdlImage, openImpl: (Option<string>, bv32) -> Pointer,
                 resolveImpl: (Pointer, string) -> Pointer,
                 printDlopen: bool, printDlsym: bool)
      ensures Valid()
      ensures this.image == image && this.openImpl == openImpl && this.resolveImpl == resolveImpl
      ensures this.printDlopen == printDlopen && this.printDlsym == printDlsym
      ensures dlopenFn == Null && dlsymFn == Null && objLookups == 0 && trace == []
    {
      this.image, this.openImpl, this.resolveImpl := image, openImpl, resolveImpl;
      this.printDlopen, this.printDlsym := printDlopen, printDlsym;
      dlopenFn, dlsymFn, objLookups, trace := Null, Null, 0, [];
    }

    /** `get_real_functions`: find libdl, then `dlopen` in it, then `dlsym`;
        the first lookup that fails ends the process. */
    method GetRealFunctions() returns (o: Outcome<BootError>)
      requires Valid()
      modifies this`dlopenFn, this`dlsymFn, this`objLookups
      ensures Valid()
      ensures o == Bootstrap(image)
      ensures objLookups == old(objLookups) + 1
      ensures o.Pass? ==> dlopenFn == image.dlopenSym != Null && dlsymFn == image.dlsymSym != Null
      ensures image.Missing? ==> dlopenFn == old(dlopenFn) && dlsymFn == old(dlsymFn)
      ensures image.Loaded? && image.dlopenSym == Null ==> dlopenFn == old(dlopenFn) && dlsymFn == old(dlsymFn)
      ensures o == Fail(NoDlsym) ==> dlopenFn == image.dlopenSym && dlsymFn == old(dlsymFn)
    {
      objLookups := objLookups + 1;
      if image.Missing? {
        return Fail(NoLibdl);
      }
      if image.dlopenSym == Null {
        return Fail(NoDlopen);
      }
      dlopenFn := image.dlopenSym;
      if image.dlsymSym == Null {
        return Fail(NoDlsym);
      }
      dlsymFn := image.dlsymSym;
      o := Pass;
    }

    /** `real_dlopen`: bootstrap if `__dlopen` is still null, then return what
        the real `dlopen` returns; the debug toggle only adds a trace line. A
        NULL file name (`None`, the main program) is forwarded and traced like
        any other. */
    method RealDlopen(filename: Option<string>, flag: bv32) returns (r: Result<Pointer, BootError>)
      requires Valid()
      modifies this
      ensures Valid()
      ensures old(dlopenFn) != Null ==>
        objLookups == old(objLookups) && dlopenFn == old(dlopenFn) && dlsymFn == old(dlsymFn)
      ensures old(dlopenFn) == Null ==> objLookups == old(objLookups) + 1
      ensures r.Failure? <==> old(dlopenFn) == Null && !image.Complete()
      ensures r.Failure? ==> Fail(r.error) == Bootstrap(image)
      ensures r.Success? ==> r.value == openImpl(filename, flag) && dlopenFn != Null
      ensures old(dlopenFn) == Null && r.Success? ==>
        dlopenFn == image.dlopenSym != Null && dlsymFn == image.dlsymSym != Null
      ensures trace == old(trace) +
        if r.Success? && printDlopen
        then [DlopenLine(filename, Join(ListedFlags(flag, RtldFlags)), r.value)]
        else []
    {
      if dlopenFn == Null {
        var o := GetRealFunctions();
        if o.Fail? {
          return Failure(o.error);
        }
      }
      var result := openImpl(filename, flag);
      if printDlopen {
        var flags := FormatFlags(flag, RtldFlags);
        trace := trace + [DlopenLine(filename, flags, result)];
      }
      r := Success(result);
    }

    /** `real_dlsym`: bootstrap if `__dlsym` is still null, then return what
        the real `dlsym` returns; the debug toggle only adds a trace line. */
    method RealDlsym(handle: Pointer, symbol: string) returns (r: Result<Pointer, BootError>)
      requires Valid()
      modifies this
      ensures Valid()
      ensures old(dlsymFn) != Null ==>
        objLookups == old(objLookups) && dlopenFn == old(dlopenFn) && dlsymFn == old(dlsymFn)
      ensures old(dlsymFn) == Null ==> objLookups == old(objLookups) + 1
      ensures r.Failure? <==> old(dlsymFn) == Null && !image.Complete()
      ensures r.Failure? ==> Fail(r.error) == Bootstrap(image)
      ensures r.Success? ==> r.value == resolveImpl(handle, symbol) && dlsymFn != Null
      ensures old(dlsymFn) == Null && r.Success? ==>
        dlopenFn == image.dlopenSym != Null && dlsymFn == image.dlsymSym != Null
      ensures trace == old(trace) +
        if r.Success? && printDlsym then [DlsymLine(handle, symbol, r.value)] else []
    {
      if dlsymFn == Null {
        var o := GetRealFunctions();
        if o.Fail? {
          return Failure(o.error);
        }
      }
      var result := resolveImpl(handle, symbol);
      if printDlsym {
        trace := trace + [DlsymLine(handle, symbol, result)];
      }
      r := Success(result);
    }
  }
}
