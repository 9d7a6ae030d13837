/** The ctypes binding to the MTML topology library
    (python/sglang/srt/distributed/device_communicators/mtml_wrapper.py).

    Every foreign call is an oracle: `Reply<T>` is what one call gives back
    (its return code and the value it wrote through its out-pointer, or an
    exception raised by ctypes), `Loader` stands for what ctypes.CDLL can
    open, and `MtmlOracle` answers the four device queries of the P2P
    check. What is verified is the control logic around those calls. */
module MtmlWrapper {
  import opened Results

  const MtmlSuccess: int := 0
  const P2PStatusOk: int := 0
  const P2PStatusNotOk: int := 1
  const MtLinkStateUp: nat := 1
  /** The only path the constructor ever loads. */
  const DefaultLibraryPath: string := "/usr/lib/libmtml.so"

  /** `mtml_funcs`: the names a bound symbol may be filed under. */
  const MtmlFuncs: seq<string> := [
    "mtmlLibraryInit",
    "mtmlLibraryShutDown",
    "mtmlLibraryInitDeviceByIndex",
    "mtmlDeviceGetMtLinkSpec",
    "mtmlDeviceGetMtLinkState",
    "mtmlDeviceGetMtLinkRemoteDevice",
    "mtmlDeviceGetUUID"
  ]

  /** An entry of `exported_functions`: a C symbol with its ctypes signature. */
  datatype CFunction = CFunction(name: string, restype: string, argtypes: seq<string>)

  const ExportedFunctions: seq<CFunction> := [
    CFunction("mtmlLibraryInit", "c_int", ["POINTER(POINTER(MtmlLibrary))"]),
    CFunction("mtmlLibraryShutDown", "c_int", ["POINTER(MtmlLibrary)"]),
    CFunction("mtmlLibraryInitDeviceByIndex", "c_int",
              ["POINTER(MtmlLibrary)", "c_uint", "POINTER(POINTER(MtmlDevice))"]),
    CFunction("mtmlDeviceGetMtLinkSpec", "c_int", ["POINTER(MtmlDevice)", "POINTER(MtmlMtLinkSpec)"]),
    CFunction("mtmlDeviceGetMtLinkState", "c_int", ["POINTER(MtmlDevice)", "c_uint", "POINTER(c_uint)"]),
    CFunction("mtmlDeviceGetMtLinkRemoteDevice", "c_int",
              ["POINTER(MtmlDevice)", "c_uint", "POINTER(POINTER(MtmlDevice))"]),
    CFunction("mtmlDeviceGetUUID", "c_int", ["POINTER(MtmlDevice)", "c_char_p", "c_uint"])
  ]

  /** A shared object opened by ctypes.CDLL: a handle and its symbols. */
  datatype SharedLibrary = SharedLibrary(handle: nat, symbols: set<string>)

  /** The shared objects ctypes.CDLL can open, by path. */
  type Loader = map<string, SharedLibrary>

  /** A symbol of a loaded library with restype and argtypes set on it. */
  datatype ForeignFunction = ForeignFunction(library: nat, name: string, restype: string, argtypes: seq<string>)

  /** An MtmlDevice pointer. */
  datatype Device = Device(address: nat)

  /** One foreign call: the MtmlReturn code and the out-value, or an
      exception raised by ctypes itself. */
  datatype Reply<T> = Returned(code: int, out: T) | Raised

  /** `_lib_handle`: never assigned until nvmlInit succeeds (absent),
      None after a successful shutdown, or a library pointer. */
  datatype LibHandle = Unset | Cleared | Handle(ptr: nat)

  datatype Error =
    | LibraryNotLoadable(path: string)   // OSError of ctypes.CDLL
    | MissingSymbol(name: string)        // AttributeError of getattr(self.lib, name)
    | FunctionNotListed(name: string)    // RuntimeError: not found in mtml_funcs
    | NvmlError(code: int, msg: string)  // MTMLLibrary.NVMLError
    | ShutdownFailed(code: int)          // RuntimeError of nvmlShutdown
    | HandleAttributeMissing             // AttributeError: _lib_handle was never set
    | ForeignException                   // an exception raised by a foreign call

  /** Python's int to ctypes.c_uint argument conversion, which wraps
      modulo 2^32 without an overflow check. */
  function CUint(i: int): (r: nat)
    ensures r < 0x1_0000_0000
    ensures 0 <= i < 0x1_0000_0000 ==> r == i
    ensures (r - i) % 0x1_0000_0000 == 0
  {
    i % 0x1_0000_0000
  }

  // ---------------------------------------------------------------------
  // The function table built by __init__

  function Bind(lib: SharedLibrary, f: CFunction): ForeignFunction {
    ForeignFunction(lib.handle, f.name, f.restype, f.argtypes)
  }

  /** The binding loop of __init__ from the `fs` it has still to visit,
      with the entries `acc` filed so far. */
  function BuildFrom(lib: SharedLibrary, fs: seq<CFunction>, known: seq<string>, acc: map<string, ForeignFunction>)
    : Result<map<string, ForeignFunction>, Error>
    decreases |fs|
  {
    if fs == [] then Success(acc)
    else if fs[0].name !in lib.symbols then Failure(MissingSymbol(fs[0].name))
    else if fs[0].name !in known then Failure(FunctionNotListed(fs[0].name))
    else BuildFrom(lib, fs[1..], known, acc[fs[0].name := Bind(lib, fs[0])])
  }

  /** A function of `exported` can be bound and filed. */
  predicate Bindable(lib: SharedLibrary, f: CFunction, known: seq<string>) {
    f.name in lib.symbols && f.name in known
  }

  function Names(fs: seq<CFunction>): set<string> {
    set i | 0 <= i < |fs| :: fs[i].name
  }

  predicate DistinctNames(fs: seq<CFunction>) {
    forall i, j :: 0 <= i < j < |fs| ==> fs[i].name != fs[j].name
  }

  /** The binding loop succeeds exactly when every function is exported by
      the library and listed in `known`. */
  lemma {:induction false} BuildFromSucceedsIff(lib: SharedLibrary, fs: seq<CFunction>, known: seq<string>, acc: map<string, ForeignFunction>)
    ensures BuildFrom(lib, fs, known, acc).Success? <==> forall i :: 0 <= i < |fs| ==> Bindable(lib, fs[i], known)
    decreases |fs|
  {
    if fs != [] && Bindable(lib, fs[0], known) {
      var tail := fs[1..];
      BuildFromSucceedsIff(lib, tail, known, acc[fs[0].name := Bind(lib, fs[0])]);
      assert forall i :: 1 <= i < |fs| ==> fs[i] == tail[i - 1];
    }
  }

  /** A successful build files each function under its own name, keeps the
      entries it started from under other names, and, when the names are
      distinct, binds each name to its own symbol and signature. */
  lemma {:induction false} BuildFromTable(lib: SharedLibrary, fs: seq<CFunction>, known: seq<string>, acc: map<string, ForeignFunction>)
    requires BuildFrom(lib, fs, known, acc).Success?
    ensures var t := BuildFrom(lib, fs, known, acc).value;
      && t.Keys == acc.Keys + Names(fs)
      && (forall k :: k in acc && k !in Names(fs) ==> t[k] == acc[k])
      && (DistinctNames(fs) ==> forall i :: 0 <= i < |fs| ==> t[fs[i].name] == Bind(lib, fs[i]))
    decreases |fs|
  {
    if fs != [] {
      var acc' := acc[fs[0].name := Bind(lib, fs[0])];
      var tail := fs[1..];
      BuildFromTable(lib, tail, known, acc');
      var t := BuildFrom(lib, fs, known, acc).value;
      assert t == BuildFrom(lib, tail, known, acc').value;
      assert Names(fs) == {fs[0].name} + Names(tail) by {
        forall x | x in Names(fs) ensures x in {fs[0].name} + Names(tail) {
          var i :| 0 <= i < |fs| && fs[i].name == x;
          if i > 0 { assert tail[i - 1].name == x; }
        }
        forall x | x in Names(tail) ensures x in Names(fs) {
          var i :| 0 <= i < |tail| && tail[i].name == x;
          assert fs[i + 1].name == x;
        }
      }
      if DistinctNames(fs) {
        assert DistinctNames(tail) by {
          forall i, j | 0 <= i < j < |tail| ensures tail[i].name != tail[j].name {
            assert tail[i] == fs[i + 1] && tail[j] == fs[j + 1];
          }
        }
        forall i | 0 <= i < |fs| ensures t[fs[i].name] == Bind(lib, fs[i]) {
          if i > 0 {
            assert tail[i - 1] == fs[i];
          } else {
            forall k | 0 <= k < |tail| ensures tail[k].name != fs[0].name {
              assert tail[k] == fs[k + 1];
            }
          }
        }
      }
    }
  }

  /** The position of the first function of `fs` that cannot be bound,
      or |fs| when there is none. */
  function FirstUnbindable(lib: SharedLibrary, fs: seq<CFunction>, known: seq<string>): (k: nat)
    ensures k <= |fs|
    ensures forall j :: 0 <= j < k ==> Bindable(lib, fs[j], known)
    ensures k < |fs| ==> !Bindable(lib, fs[k], known)
    decreases |fs|
  {
    if fs == [] || !Bindable(lib, fs[0], known) then 0
    else 1 + FirstUnbindable(lib, fs[1..], known)
  }

  /** A failed build stops at the first function that cannot be bound:
      AttributeError when its symbol is missing, RuntimeError when its name
      is not listed. */
  lemma {:induction false} BuildFromFailure(lib: SharedLibrary, fs: seq<CFunction>, known: seq<string>, acc: map<string, ForeignFunction>)
    requires BuildFrom(lib, fs, known, acc).Failure?
    ensures var k := FirstUnbindable(lib, fs, known);
      && k < |fs|
      && BuildFrom(lib, fs, known, acc).error ==
           (if fs[k].name !in lib.symbols then MissingSymbol(fs[k].name) else FunctionNotListed(fs[k].name))
    decreases |fs|
  {
    if Bindable(lib, fs[0], known) {
      var tail := fs[1..];
      BuildFromFailure(lib, tail, known, acc[fs[0].name := Bind(lib, fs[0])]);
      assert fs[FirstUnbindable(lib, fs, known)] == tail[FirstUnbindable(lib, tail, known)];
    }
  }

  /** The set of names `mtml_funcs` lists. */
  function MtmlFuncNames(): set<string> {
    set i | 0 <= i < |MtmlFuncs| :: MtmlFuncs[i]
  }

  /** `exported_functions` and `mtml_funcs` list the same seven distinct
      names in the same order. */
  lemma ExportedAreListed()
    ensures |ExportedFunctions| == |MtmlFuncs| == 7
    ensures forall i :: 0 <= i < 7 ==> ExportedFunctions[i].name == MtmlFuncs[i]
    ensures forall i :: 0 <= i < |ExportedFunctions| ==> ExportedFunctions[i].name in MtmlFuncs
    ensures Names(ExportedFunctions) == MtmlFuncNames()
    ensures DistinctNames(ExportedFunctions)
  {
    var fs := ExportedFunctions;
    assert fs[0].name == MtmlFuncs[0] && fs[1].name == MtmlFuncs[1] && fs[2].name == MtmlFuncs[2];
    assert fs[3].name == MtmlFuncs[3] && fs[4].name == MtmlFuncs[4] && fs[5].name == MtmlFuncs[5];
    assert fs[6].name == MtmlFuncs[6];
    // The seven names have seven different lengths.
    assert |MtmlFuncs[0]| == 15 && |MtmlFuncs[1]| == 19 && |MtmlFuncs[2]| == 28;
    assert |MtmlFuncs[3]| == 23 && |MtmlFuncs[4]| == 24 && |MtmlFuncs[5]| == 31;
    assert |MtmlFuncs[6]| == 17;
  }

  /** When every function is listed, the binding loop can only fail on a
      missing symbol, and it succeeds exactly when all names are exported. */
  lemma AllListedMeaning(lib: SharedLibrary, fs: seq<CFunction>, known: seq<string>)
    requires forall i :: 0 <= i < |fs| ==> fs[i].name in known
    ensures var r := BuildFrom(lib, fs, known, map[]);
      && (r.Success? <==> Names(fs) <= lib.symbols)
      && (r.Success? ==> r.value.Keys == Names(fs))
      && (r.Success? && DistinctNames(fs) ==>
            forall i :: 0 <= i < |fs| ==> r.value[fs[i].name] == Bind(lib, fs[i]))
      && (r.Failure? ==> r.error.MissingSymbol?)
  {
    BuildFromSucceedsIff(lib, fs, known, map[]);
    var r := BuildFrom(lib, fs, known, map[]);
    if r.Success? {
      BuildFromTable(lib, fs, known, map[]);
    } else {
      BuildFromFailure(lib, fs, known, map[]);
    }
    if Names(fs) <= lib.symbols {
      forall i | 0 <= i < |fs| ensures Bindable(lib, fs[i], known) {
        assert fs[i].name in Names(fs);
      }
    }
    if r.Success? {
      forall x | x in Names(fs) ensures x in lib.symbols {
        var i :| 0 <= i < |fs| && fs[i].name == x;
        assert Bindable(lib, fs[i], known);
      }
    }
  }

  /** The real tables: every exported name is listed in mtml_funcs, so for
      them the RuntimeError can never be raised, and a successful build has
      exactly the seven names as keys, each bound to its own symbol. */
  lemma BuiltinTableMeaning(lib: SharedLibrary)
    ensures var r := BuildFrom(lib, ExportedFunctions, MtmlFuncs, map[]);
      && (r.Success? <==> MtmlFuncNames() <= lib.symbols)
      && (r.Success? ==> r.value.Keys == MtmlFuncNames())
      && (r.Success? ==> forall i :: 0 <= i < |ExportedFunctions| ==>
            r.value[ExportedFunctions[i].name] == Bind(lib, ExportedFunctions[i]))
      && (r.Failure? ==> r.error.MissingSymbol?)
  {
    ExportedAreListed();
    AllListedMeaning(lib, ExportedFunctions, MtmlFuncs);
  }

  /** The inner search of __init__ for `func.name` in `mtml_funcs`. */
  method FindListed(name: string, known: seq<string>) returns (cname: Option<string>)
    ensures cname == if name in known then Some(name) else None
  {
    cname := None;
    for i := 0 to |known|
      invariant cname == None ==> name !in known[..i]
      invariant cname == None || (cname == Some(name) && name in known)
    {
      if known[i] == name {
        cname := Some(known[i]);
        break;
      }
    }
  }

  /** The loop of __init__ that fills `_funcs`. */
  method BuildFuncTable(lib: SharedLibrary, exported: seq<CFunction>, known: seq<string>)
    returns (r: Result<map<string, ForeignFunction>, Error>)
    ensures r == BuildFrom(lib, exported, known, map[])
  {
    var funcs: map<string, ForeignFunction> := map[];
    for i := 0 to |exported|
      invariant BuildFrom(lib, exported, known, map[]) == BuildFrom(lib, exported[i..], known, funcs)
    {
      var func := exported[i];
      assert exported[i..][1..] == exported[i + 1..];
      if func.name !in lib.symbols {
        return Failure(MissingSymbol(func.name));
      }
      var f := Bind(lib, func);
      var cname := FindListed(func.name, known);
      if cname.None? {
        return Failure(FunctionNotListed(func.name));
      }
      funcs := funcs[cname.value := f];
    }
    assert exported[|exported|..] == [];
    r := Success(funcs);
  }

  /** The class attributes `path_to_library_cache` and `path_to_dict_mapping`,
      shared by every MTMLLibrary. */
  class MtmlClassState {
    var libraryCache: map<string, SharedLibrary>
    var dictMapping: map<string, map<string, ForeignFunction>>
    /** The paths ctypes.CDLL opened successfully, in order. */
    ghost var loaded: seq<string>

    /** Each cached library was opened exactly once, and each cached
        function table is the one the binding loop builds for that
        path's library. */
    ghost predicate Valid()
      reads this
    {
      && NoDuplicates(loaded)
      && (forall i :: 0 <= i < |loaded| ==> loaded[i] in libraryCache)
      && (forall p :: p in libraryCache ==> p in loaded)
      && (forall p :: p in dictMapping ==>
            p in libraryCache
            && BuildFrom(libraryCache[p], ExportedFunctions, MtmlFuncs, map[]) == Success(dictMapping[p]))
    }

    constructor ()
      ensures Valid()
      ensures libraryCache == map[] && dictMapping == map[] && loaded == []
    {
      libraryCache := map[];
      dictMapping := map[];
      loaded := [];
    }
  }

  /** An MTMLLibrary instance. */
  class MtmlLibrary {
    const lib: SharedLibrary
    const funcs: map<string, ForeignFunction>
    var libHandle: LibHandle

    constructor Bound(lib: SharedLibrary, funcs: map<string, ForeignFunction>)
      ensures this.lib == lib && this.funcs == funcs && libHandle == Unset
    {
      this.lib := lib;
      this.funcs := funcs;
      libHandle := Unset;
    }

    /** `MTMLLibrary(so_file)`: `soFile` is overwritten by the default
        path; the library is opened only if the class cache lacks it, and
        the function table is built only if the class mapping lacks it. */
    static method Create(soFile: Option<string>, cls: MtmlClassState, loader: Loader)
      returns (r: Result<MtmlLibrary, Error>)
      requires cls.Valid()
      modifies cls
      ensures cls.Valid()
      ensures var path := DefaultLibraryPath;
        && (path in old(cls.libraryCache) ==>
              cls.libraryCache == old(cls.libraryCache) && cls.loaded == old(cls.loaded))
        && (path !in old(cls.libraryCache) && path !in loader ==>
              r == Failure(LibraryNotLoadable(path))
              && cls.libraryCache == old(cls.libraryCache) && cls.loaded == old(cls.loaded)
              && cls.dictMapping == old(cls.dictMapping))
        && (path !in old(cls.libraryCache) && path in loader ==>
              cls.libraryCache == old(cls.libraryCache)[path := loader[path]]
              && cls.loaded == old(cls.loaded) + [path])
        && (path in cls.libraryCache ==>
              var table := BuildFrom(cls.libraryCache[path], ExportedFunctions, MtmlFuncs, map[]);
              && (path in old(cls.dictMapping) ==> cls.dictMapping == old(cls.dictMapping) && r.Success?)
              && (path !in old(cls.dictMapping) && table.Failure? ==>
                    r == Failure(table.error) && cls.dictMapping == old(cls.dictMapping))
              && (path !in old(cls.dictMapping) && table.Success? ==>
                    cls.dictMapping == old(cls.dictMapping)[path := table.value] && r.Success?))
        && (r.Success? ==>
              fresh(r.value) && r.value.libHandle == Unset
              && r.value.lib == cls.libraryCache[path]
              && r.value.funcs == cls.dictMapping[path]
              && r.value.funcs.Keys == MtmlFuncNames())
    {
      var path := DefaultLibraryPath;
      if path !in cls.libraryCache {
        if path !in loader {
          return Failure(LibraryNotLoadable(path));
        }
        cls.libraryCache := cls.libraryCache[path := loader[path]];
        cls.loaded := cls.loaded + [path];
      }
      var lib := cls.libraryCache[path];
      if path !in cls.dictMapping {
        var table := BuildFuncTable(lib, ExportedFunctions, MtmlFuncs);
        if table.Failure? {
          return Failure(table.error);
        }
        cls.dictMapping := cls.dictMapping[path := table.value];
      }
      BuiltinTableMeaning(lib);
      var inst := new MtmlLibrary.Bound(lib, cls.dictMapping[path]);
      r := Success(inst);
    }

    /** `nvmlInit()`, given the reply of mtmlLibraryInit. */
    method NvmlInit(libraryInit: Reply<nat>) returns (r: Outcome<Error>)
      modifies this
      ensures match libraryInit
        case Raised => r == Fail(ForeignException) && libHandle == old(libHandle)
        case Returned(code, ptr) =>
          if code != 0 then r == Fail(NvmlError(code, "mtmlLibraryInit failed")) && libHandle == old(libHandle)
          else r == Pass && libHandle == Handle(ptr)
    {
      if libraryInit.Raised? {
        return Fail(ForeignException);
      }
      if libraryInit.code != 0 {
        return Fail(NvmlError(libraryInit.code, "mtmlLibraryInit failed"));
      }
      libHandle := Handle(libraryInit.out);
      r := Pass;
    }

    /** `nvmlShutdown()`, with mtmlLibraryShutDown as an oracle on the
        handle it is passed. */
    method NvmlShutdown(shutDown: nat -> Reply<()>) returns (r: Outcome<Error>)
      modifies this
      ensures old(libHandle) == Unset ==> r == Fail(HandleAttributeMissing) && libHandle == Unset
      ensures old(libHandle) == Cleared ==> r == Pass && libHandle == Cleared
      ensures old(libHandle).Handle? ==>
        match shutDown(old(libHandle).ptr)
        case Raised => r == Fail(ForeignException) && libHandle == old(libHandle)
        case Returned(code, _) =>
          if code != 0 then r == Fail(ShutdownFailed(code)) && libHandle == old(libHandle)
          else r == Pass && libHandle == Cleared
    {
      match libHandle
      case Unset =>
        return Fail(HandleAttributeMissing);
      case Cleared =>
        return Pass;
      case Handle(ptr) =>
        var ret := shutDown(ptr);
        if ret.Raised? {
          return Fail(ForeignException);
        }
        if ret.code != 0 {
          return Fail(ShutdownFailed(ret.code));
        }
        libHandle := Cleared;
        r := Pass;
    }

    /** `nvmlDeviceGetHandleByIndex(index)`, with
        mtmlLibraryInitDeviceByIndex as an oracle on the handle and the
        c_uint index it is passed. */
    method NvmlDeviceGetHandleByIndex(index: int, initDevice: (nat, nat) -> Reply<Device>)
      returns (r: Result<Device, Error>)
      ensures libHandle == Unset ==> r == Failure(HandleAttributeMissing)
      ensures libHandle == Cleared ==>
        r == Failure(NvmlError(-1, "Library not initialized. Call nvmlInit first."))
      ensures libHandle.Handle? ==>
        match initDevice(libHandle.ptr, CUint(index))
        case Raised => r == Failure(ForeignException)
        case Returned(code, dev) =>
          if code != MtmlSuccess then r == Failure(NvmlError(code, "mtmlDeviceGetHandleByIndex failed"))
          else r == Success(dev)
    {
      match libHandle
      case Unset =>
        return Failure(HandleAttributeMissing);
      case Cleared =>
        return Failure(NvmlError(-1, "Library not initialized. Call nvmlInit first."));
      case Handle(ptr) =>
        var ret := initDevice(ptr, CUint(index));
        if ret.Raised? {
          return Failure(ForeignException);
        }
        if ret.code != MtmlSuccess {
          return Failure(NvmlError(ret.code, "mtmlDeviceGetHandleByIndex failed"));
        }
        r := Success(ret.out);
    }

    /** `nvmlDeviceGetP2PStatus(dev1, dev2, caps)`; `caps` is never read. */
    method NvmlDeviceGetP2PStatus(dev1: Device, dev2: Device, caps: int, o: MtmlOracle, cmp: UuidComparison)
      returns (status: StatusReturn)
      ensures status == P2PStatus(o, dev1, dev2, cmp)
    {
      var value := P2PStatusNotOk;
      var uuid1 := o.getUuid(dev1);
      if uuid1.Raised? {
        return StatusValue(value);
      }
      if uuid1.code != MtmlSuccess {
        return StatusObject(value);
      }
      var uuid2 := o.getUuid(dev2);
      if uuid2.Raised? {
        return StatusValue(value);
      }
      if uuid2.code != MtmlSuccess {
        return StatusObject(value);
      }
      var spec := o.getMtLinkSpec(dev1);
      if spec.Raised? {
        return StatusValue(value);
      }
      if spec.code != MtmlSuccess {
        return StatusObject(value);
      }
      var linkNum := spec.out;
      ghost var scan := ScanLinks(o, dev1, uuid2.out, cmp, 0, linkNum);
      for linkId := 0 to linkNum
        invariant scan == ScanLinks(o, dev1, uuid2.out, cmp, linkId, linkNum)
        invariant value == P2PStatusNotOk
      {
        var linkState := o.getMtLinkState(dev1, linkId);
        if linkState.Raised? {
          return StatusValue(value);
        }
        if linkState.code != MtmlSuccess {
          continue;
        }
        var remote := o.getMtLinkRemoteDevice(dev1, linkId);
        if remote.Raised? {
          return StatusValue(value);
        }
        if remote.code != MtmlSuccess {
          continue;
        }
        var remoteUuid := o.getUuid(remote.out);
        if remoteUuid.Raised? {
          return StatusValue(value);
        }
        if remoteUuid.code != MtmlSuccess {
          continue;
        }
        if UuidEqual(cmp, uuid2.out, remoteUuid.out) && linkState.out == MtLinkStateUp {
          value := P2PStatusOk;
          assert scan == StatusValue(P2PStatusOk);
          break;
        }
      }
      status := StatusValue(value);
    }
  }

  // ---------------------------------------------------------------------
  // The P2P status decision

  /** `(ctypes.c_char * DEVICE_UUID_BUFFER_SIZE)()` after the call filled it. */
  type UuidBuffer = seq<char>

  /** The four foreign queries the P2P check makes. */
  datatype MtmlOracle = MtmlOracle(
    getUuid: Device -> Reply<UuidBuffer>,                  // mtmlDeviceGetUUID
    getMtLinkSpec: Device -> Reply<nat>,                   // mtmlDeviceGetMtLinkSpec, its linkNum
    getMtLinkState: (Device, nat) -> Reply<nat>,           // mtmlDeviceGetMtLinkState
    getMtLinkRemoteDevice: (Device, nat) -> Reply<Device>) // mtmlDeviceGetMtLinkRemoteDevice

  /** How `dev2_uuid == remote_dev_uuid` is read. The source compares two
      ctypes arrays; they define no value equality, so `==` falls back to
      object identity and two separately allocated buffers never compare
      equal (ObjectIdentity). ContentEquality is the evidently intended
      comparison of the UUID bytes. */
  datatype UuidComparison = ContentEquality | ObjectIdentity

  predicate UuidEqual(cmp: UuidComparison, a: UuidBuffer, b: UuidBuffer) {
    match cmp
    case ContentEquality => a == b
    case ObjectIdentity => false
  }

  /** What the function returns: `status.value`, a Python int, at the end
      and when an exception was swallowed, but the c_int object `status`
      itself on the three early returns. A c_int object is not equal to
      the int 0 under Python's `==`. */
  datatype StatusReturn = StatusValue(value: int) | StatusObject(value: int)

  /** What the search does with one link id. */
  datatype LinkOutcome = LinkRaised | LinkSkipped | LinkMatched

  function CheckLink(o: MtmlOracle, dev1: Device, dev2Uuid: UuidBuffer, cmp: UuidComparison, linkId: nat): LinkOutcome {
    match o.getMtLinkState(dev1, linkId)
    case Raised => LinkRaised
    case Returned(c1, state) =>
      if c1 != MtmlSuccess then LinkSkipped
      else match o.getMtLinkRemoteDevice(dev1, linkId)
        case Raised => LinkRaised
        case Returned(c2, remote) =>
          if c2 != MtmlSuccess then LinkSkipped
          else match o.getUuid(remote)
            case Raised => LinkRaised
            case Returned(c3, remoteUuid) =>
              if c3 != MtmlSuccess then LinkSkipped
              else if UuidEqual(cmp, dev2Uuid, remoteUuid) && state == MtLinkStateUp then LinkMatched
              else LinkSkipped
  }

  /** A link id matches exactly when its state query, its remote-device
      query and the remote device's UUID query all return success, the
      remote UUID equals dev2's under the comparison, and the link is up. */
  lemma CheckLinkMatchedIff(o: MtmlOracle, dev1: Device, dev2Uuid: UuidBuffer, cmp: UuidComparison, linkId: nat)
    ensures CheckLink(o, dev1, dev2Uuid, cmp, linkId) == LinkMatched <==>
      && Succeeded(o.getMtLinkState(dev1, linkId))
      && Succeeded(o.getMtLinkRemoteDevice(dev1, linkId))
      && Succeeded(o.getUuid(o.getMtLinkRemoteDevice(dev1, linkId).out))
      && UuidEqual(cmp, dev2Uuid, o.getUuid(o.getMtLinkRemoteDevice(dev1, linkId).out).out)
      && o.getMtLinkState(dev1, linkId).out == MtLinkStateUp
  {
  }

  /** The search over link ids [from, linkNum): a raise inside the try
      ends it with the value NOT_OK, a match ends it with OK. */
  function ScanLinks(o: MtmlOracle, dev1: Device, dev2Uuid: UuidBuffer, cmp: UuidComparison, from: nat, linkNum: nat)
    : StatusReturn
    decreases linkNum - from
  {
    if from >= linkNum then StatusValue(P2PStatusNotOk)
    else match CheckLink(o, dev1, dev2Uuid, cmp, from)
      case LinkRaised => StatusValue(P2PStatusNotOk)
      case LinkMatched => StatusValue(P2PStatusOk)
      case LinkSkipped => ScanLinks(o, dev1, dev2Uuid, cmp, from + 1, linkNum)
  }

  predicate Succeeded<T>(r: Reply<T>) {
    r.Returned? && r.code == MtmlSuccess
  }

  /** The whole decision: three preliminary queries, then the search. */
  function P2PStatus(o: MtmlOracle, dev1: Device, dev2: Device, cmp: UuidComparison): StatusReturn {
    var u1 := o.getUuid(dev1);
    var u2 := o.getUuid(dev2);
    var spec := o.getMtLinkSpec(dev1);
    if u1.Raised? then StatusValue(P2PStatusNotOk)
    else if u1.code != MtmlSuccess then StatusObject(P2PStatusNotOk)
    else if u2.Raised? then StatusValue(P2PStatusNotOk)
    else if u2.code != MtmlSuccess then StatusObject(P2PStatusNotOk)
    else if spec.Raised? then StatusValue(P2PStatusNotOk)
    else if spec.code != MtmlSuccess then StatusObject(P2PStatusNotOk)
    else ScanLinks(o, dev1, u2.out, cmp, 0, spec.out)
  }

  /** The search yields OK exactly when some link id passes every check
      and no earlier id raised; otherwise it yields the value NOT_OK. */
  lemma {:induction false} ScanLinksMeaning(o: MtmlOracle, dev1: Device, dev2Uuid: UuidBuffer, cmp: UuidComparison, from: nat, linkNum: nat)
    ensures var s := ScanLinks(o, dev1, dev2Uuid, cmp, from, linkNum);
      && (s == StatusValue(P2PStatusOk) || s == StatusValue(P2PStatusNotOk))
      && (s == StatusValue(P2PStatusOk) <==>
            exists i :: from <= i < linkNum
              && CheckLink(o, dev1, dev2Uuid, cmp, i) == LinkMatched
              && forall j :: from <= j < i ==> CheckLink(o, dev1, dev2Uuid, cmp, j) == LinkSkipped)
    decreases linkNum - from
  {
    if from < linkNum {
      ScanLinksMeaning(o, dev1, dev2Uuid, cmp, from + 1, linkNum);
      var c := CheckLink(o, dev1, dev2Uuid, cmp, from);
      if c == LinkSkipped {
        var s := ScanLinks(o, dev1, dev2Uuid, cmp, from, linkNum);
        if s == StatusValue(P2PStatusOk) {
          var i :| from + 1 <= i < linkNum
              && CheckLink(o, dev1, dev2Uuid, cmp, i) == LinkMatched
              && forall j :: from + 1 <= j < i ==> CheckLink(o, dev1, dev2Uuid, cmp, j) == LinkSkipped;
          assert forall j :: from <= j < i ==> CheckLink(o, dev1, dev2Uuid, cmp, j) == LinkSkipped;
        }
      }
    }
  }

  /** P2P status is OK exactly when dev1's UUID, dev2's UUID and dev1's
      link spec are obtained and some link id below linkNum passes every
      check, with every earlier id skipped rather than raising. Every
      result has value 0 or 1, and the c_int object comes back exactly
      when a preliminary query returned a failure code. */
  lemma P2PStatusMeaning(o: MtmlOracle, dev1: Device, dev2: Device, cmp: UuidComparison)
    ensures var s := P2PStatus(o, dev1, dev2, cmp);
      && (s.value == P2PStatusOk || s.value == P2PStatusNotOk)
      && (s.StatusObject? ==> s.value == P2PStatusNotOk)
      && (s.StatusObject? <==>
            || (o.getUuid(dev1).Returned? && o.getUuid(dev1).code != MtmlSuccess)
            || (Succeeded(o.getUuid(dev1)) && o.getUuid(dev2).Returned? && o.getUuid(dev2).code != MtmlSuccess)
            || (Succeeded(o.getUuid(dev1)) && Succeeded(o.getUuid(dev2))
                && o.getMtLinkSpec(dev1).Returned? && o.getMtLinkSpec(dev1).code != MtmlSuccess))
      && (s == StatusValue(P2PStatusOk) <==>
            && Succeeded(o.getUuid(dev1)) && Succeeded(o.getUuid(dev2)) && Succeeded(o.getMtLinkSpec(dev1))
            && exists i :: 0 <= i < o.getMtLinkSpec(dev1).out
                 && CheckLink(o, dev1, o.getUuid(dev2).out, cmp, i) == LinkMatched
                 && forall j :: 0 <= j < i ==> CheckLink(o, dev1, o.getUuid(dev2).out, cmp, j) == LinkSkipped)
  {
    if Succeeded(o.getUuid(dev1)) && Succeeded(o.getUuid(dev2)) && Succeeded(o.getMtLinkSpec(dev1)) {
      ScanLinksMeaning(o, dev1, o.getUuid(dev2).out, cmp, 0, o.getMtLinkSpec(dev1).out);
    }
  }

  /** With the identity comparison the source performs, no link ever
      matches, so the search never reports OK. */
  lemma {:induction false} ScanNeverOkByIdentity(o: MtmlOracle, dev1: Device, dev2Uuid: UuidBuffer, from: nat, linkNum: nat)
    ensures ScanLinks(o, dev1, dev2Uuid, ObjectIdentity, from, linkNum) == StatusValue(P2PStatusNotOk)
    decreases linkNum - from
  {
    if from < linkNum {
      ScanNeverOkByIdentity(o, dev1, dev2Uuid, from + 1, linkNum);
    }
  }

  /** As written, nvmlDeviceGetP2PStatus never reports OK. */
  lemma P2PStatusAsWrittenNeverOk(o: MtmlOracle, dev1: Device, dev2: Device)
    ensures P2PStatus(o, dev1, dev2, ObjectIdentity).value == P2PStatusNotOk
  {
    var u2 := o.getUuid(dev2);
    var spec := o.getMtLinkSpec(dev1);
    if Succeeded(o.getUuid(dev1)) && Succeeded(u2) && Succeeded(spec) {
      ScanNeverOkByIdentity(o, dev1, u2.out, 0, spec.out);
    }
  }

  /** Two devices joined by one link that is up: the comparison of UUID
      contents reports OK, the identity comparison of the source NOT_OK. */
  lemma LinkedPairShowsIdentityBug()
    ensures var o := MtmlOracle(
        d => Returned(0, if d == Device(2) then "GPU-2" else "GPU-1"),
        d => Returned(0, 1),
        (d, l) => Returned(0, MtLinkStateUp),
        (d, l) => Returned(0, Device(2)));
      && P2PStatus(o, Device(1), Device(2), ContentEquality) == StatusValue(P2PStatusOk)
      && P2PStatus(o, Device(1), Device(2), ObjectIdentity) == StatusValue(P2PStatusNotOk)
  {
    var o := MtmlOracle(
        d => Returned(0, if d == Device(2) then "GPU-2" else "GPU-1"),
        d => Returned(0, 1),
        (d, l) => Returned(0, MtLinkStateUp),
        (d, l) => Returned(0, Device(2)));
    assert CheckLink(o, Device(1), "GPU-2", ContentEquality, 0) == LinkMatched;
    assert ScanLinks(o, Device(1), "GPU-2", ObjectIdentity, 1, 1) == StatusValue(P2PStatusNotOk);
  }
}
