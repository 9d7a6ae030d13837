/** The custom-op backend registry (python/sglang/srt/custom_op_backend.py).

    A module-level table maps backend names to factories; a factory builds a
    LazyBackend, a fixed map from op names to LazyOp memo cells; the
    CustomOpRegistry caches one backend per name and remembers the last
    backend it resolved. What the foreign world provides is a parameter:
    `Env` stands for the modules `importlib.import_module` can find and
    `Probes` for the answers of the is_cuda(), is_hip(), ... probes. */
module CustomOpBackend {
  import opened Results

  // ---------------------------------------------------------------------
  // The foreign world

  /** A Python callable found in an imported module (a kernel entry point). */
  datatype Kernel = Kernel(id: nat)

  /** An importable module and its attributes. */
  datatype PyModule = PyModule(attrs: map<string, Kernel>)

  /** The modules importlib can import, by name. */
  type Env = map<string, PyModule>

  /** `lambda: import_from(module, attr)`: a deferred lookup of one attribute. */
  datatype ImportSpec = ImportSpec(moduleName: string, attrName: string)

  /** A cached op applied to the arguments a caller passed. */
  datatype Invocation<A> = Invocation(kernel: Kernel, args: A)

  /** The exceptions of the module, and those that pass through it. */
  datatype Error =
    | NotRegistered(name: string)               // ValueError of get_custom_op_backend
    | NoOp(op: string, backend: string)         // KeyError of LazyBackend.get
    | OpNotFound(op: string, backend: string)   // KeyError re-raised by get_op
    | ModuleNotFound(moduleName: string)        // ImportError from an import
    | AttributeMissing(moduleName: string, attrName: string)  // AttributeError of import_from

  /** `import_from(module_name, attr_name)`. */
  function ImportFrom(env: Env, spec: ImportSpec): (r: Result<Kernel, Error>)
    ensures r.Success? <==> spec.moduleName in env && spec.attrName in env[spec.moduleName].attrs
    ensures r.Success? ==> r.value == env[spec.moduleName].attrs[spec.attrName]
    ensures spec.moduleName !in env ==> r == Failure(ModuleNotFound(spec.moduleName))
    ensures spec.moduleName in env && r.Failure? ==> r == Failure(AttributeMissing(spec.moduleName, spec.attrName))
  {
    if spec.moduleName !in env then Failure(ModuleNotFound(spec.moduleName))
    else if spec.attrName !in env[spec.moduleName].attrs then
      Failure(AttributeMissing(spec.moduleName, spec.attrName))
    else Success(env[spec.moduleName].attrs[spec.attrName])
  }

  // ---------------------------------------------------------------------
  // LazyOp and LazyBackend

  /** `LazyOp`: calls its import function on first use and keeps the result. */
  class LazyOp {
    const importFn: ImportSpec
    var cached: Option<Kernel>
    /** How many times importFn has been called. */
    ghost var importCalls: nat

    constructor (importFn: ImportSpec)
      ensures this.importFn == importFn && cached == None && importCalls == 0
    {
      this.importFn := importFn;
      cached := None;
      importCalls := 0;
    }

    /** `__call__(*args)`: import while the cache is None, then forward the
        arguments to the cached op. A failing import leaves the cache None,
        so the next call tries again. */
    method Call<A>(args: A, env: Env) returns (r: Result<Invocation<A>, Error>)
      modifies this
      ensures old(cached).Some? ==>
        cached == old(cached) && importCalls == old(importCalls)
        && r == Success(Invocation(old(cached).value, args))
      ensures old(cached).None? ==>
        importCalls == old(importCalls) + 1
        && match ImportFrom(env, importFn)
           case Success(k) => cached == Some(k) && r == Success(Invocation(k, args))
           case Failure(e) => cached == None && r == Failure(e)
    {
      if cached.None? {
        importCalls := importCalls + 1;
        var imported := ImportFrom(env, importFn);
        if imported.Failure? {
          return Failure(imported.error);
        }
        cached := Some(imported.value);
      }
      r := Success(Invocation(cached.value, args));
    }
  }

  /** `LazyBackend`: the op table of one backend, fixed at construction. */
  class LazyBackend {
    const backendName: string
    const ops: map<string, LazyOp>

    /** Ops of distinct names are distinct cells. */
    predicate DistinctOps() {
      forall a, b :: a in ops && b in ops && a != b ==> ops[a] != ops[b]
    }

    /** The backend holds one fresh, empty LazyOp per entry of `specs`. */
    ghost predicate BuiltFrom(name: string, specs: map<string, ImportSpec>)
      reads ops.Values
    {
      && backendName == name
      && ops.Keys == specs.Keys
      && DistinctOps()
      && forall n :: n in ops ==> ops[n].importFn == specs[n] && ops[n].cached == None && ops[n].importCalls == 0
    }

    constructor (backendName: string, opSpecs: map<string, ImportSpec>)
      ensures BuiltFrom(backendName, opSpecs)
      ensures forall n :: n in ops ==> fresh(ops[n])
    {
      var m: map<string, LazyOp> := map[];
      var todo := opSpecs.Keys;
      while todo != {}
        invariant todo <= opSpecs.Keys
        invariant m.Keys == opSpecs.Keys - todo
        invariant forall n :: n in m ==> fresh(m[n])
        invariant forall n :: n in m ==> m[n].importFn == opSpecs[n] && m[n].cached == None && m[n].importCalls == 0
        invariant forall a, b :: a in m && b in m && a != b ==> m[a] != m[b]
        decreases todo
      {
        var n :| n in todo;
        var op := new LazyOp(opSpecs[n]);
        m := m[n := op];
        todo := todo - {n};
      }
      this.backendName := backendName;
      ops := m;
    }

    /** `get(name)` (and `__getattr__`): the op cell of that name, the same
        object on every call, or KeyError. */
    function Get(name: string): (r: Result<LazyOp, Error>)
      ensures r.Success? <==> name in ops
      ensures r.Success? ==> r.value == ops[name]
      ensures r.Failure? ==> r.error == NoOp(name, backendName)
    {
      if name !in ops then Failure(NoOp(name, backendName)) else Success(ops[name])
    }
  }

  // ---------------------------------------------------------------------
  // The factories defined by the module, as data

  /** A backend factory: the name it gives its LazyBackend, a module its
      body imports before building it (`import torch_npu`), and its op
      table. */
  datatype Factory = Factory(backendName: string, eagerImport: Option<string>, opSpecs: map<string, ImportSpec>)

  /** The exception a factory body raises before it builds its backend. */
  function FactoryError(f: Factory, env: Env): (e: Option<Error>)
    ensures e.Some? <==> f.eagerImport.Some? && f.eagerImport.value !in env
    ensures e.Some? ==> e.value == ModuleNotFound(f.eagerImport.value)
  {
    if f.eagerImport.Some? && f.eagerImport.value !in env then Some(ModuleNotFound(f.eagerImport.value))
    else None
  }

  const SglKernel: string := "sgl_kernel"

  function SglKernelOp(attr: string): ImportSpec {
    ImportSpec(SglKernel, attr)
  }

  const CommonOps: map<string, ImportSpec> :=
    map["silu_and_mul" := SglKernelOp("silu_and_mul"),
        "gelu_and_mul" := SglKernelOp("gelu_and_mul")]

  const CudaFactory: Factory := Factory("cuda", None, CommonOps)
  const HipFactory: Factory :=
    Factory("hip", None,
            CommonOps["gelu_quick" := SglKernelOp("gelu_quick")]
                     ["gelu_tanh_and_mul" := SglKernelOp("gelu_tanh_and_mul")])
  const XpuFactory: Factory := Factory("xpu", None, CommonOps)
  const NpuFactory: Factory := Factory("npu", Some("torch_npu"), map[])
  const CpuFactory: Factory := Factory("cpu", None, map[])

  /** `_CUSTOM_OP_BACKENDS` once the module has been imported. */
  const BuiltinFactories: map<string, Factory> :=
    map["cuda" := CudaFactory, "hip" := HipFactory, "xpu" := XpuFactory,
        "npu" := NpuFactory, "cpu" := CpuFactory]

  /** The registered names are exactly the five vendor names, each factory
      names its backend after its key, and every op of a built-in backend
      is the sgl_kernel attribute of the same name. */
  lemma BuiltinTable()
    ensures BuiltinFactories.Keys == {"cuda", "hip", "xpu", "npu", "cpu"}
    ensures forall n :: n in BuiltinFactories ==> BuiltinFactories[n].backendName == n
    ensures forall n, op :: n in BuiltinFactories && op in BuiltinFactories[n].opSpecs ==>
      BuiltinFactories[n].opSpecs[op] == SglKernelOp(op)
    ensures "cpu_amx" !in BuiltinFactories && "native" !in BuiltinFactories
  {
  }

  /** Which built-in backend offers which op: gelu_quick and
      gelu_tanh_and_mul only on hip; silu_and_mul and gelu_and_mul on cuda,
      hip and xpu; npu and cpu offer none. */
  lemma BuiltinOps()
    ensures forall n :: n in BuiltinFactories ==>
      ("gelu_quick" in BuiltinFactories[n].opSpecs <==> n == "hip")
      && ("gelu_tanh_and_mul" in BuiltinFactories[n].opSpecs <==> n == "hip")
      && ("silu_and_mul" in BuiltinFactories[n].opSpecs <==> n in {"cuda", "hip", "xpu"})
      && ("gelu_and_mul" in BuiltinFactories[n].opSpecs <==> n in {"cuda", "hip", "xpu"})
    ensures BuiltinFactories["npu"].opSpecs == map[] && BuiltinFactories["cpu"].opSpecs == map[]
    ensures BuiltinFactories["hip"].opSpecs.Keys ==
      {"silu_and_mul", "gelu_and_mul", "gelu_quick", "gelu_tanh_and_mul"}
  {
  }

  /** Registering the five built-ins one after another amounts to
      overriding the table with BuiltinFactories. */
  lemma SequentialRegistration(m: map<string, Factory>)
    ensures m["cuda" := CudaFactory]["hip" := HipFactory]["xpu" := XpuFactory]
             ["npu" := NpuFactory]["cpu" := CpuFactory] == m + BuiltinFactories
  {
    var lhs := m["cuda" := CudaFactory]["hip" := HipFactory]["xpu" := XpuFactory]
                ["npu" := NpuFactory]["cpu" := CpuFactory];
    assert lhs.Keys == m.Keys + BuiltinFactories.Keys;
    forall k | k in lhs
      ensures lhs[k] == (m + BuiltinFactories)[k]
    {
    }
  }

  /** Calls a factory: runs its eager import, then builds its LazyBackend. */
  method CallFactory(f: Factory, env: Env) returns (r: Result<LazyBackend, Error>)
    ensures FactoryError(f, env).Some? ==> r == Failure(FactoryError(f, env).value)
    ensures FactoryError(f, env).None? ==>
      r.Success? && fresh(r.value) && r.value.BuiltFrom(f.backendName, f.opSpecs)
      && forall n :: n in r.value.ops ==> fresh(r.value.ops[n])
  {
    var e := FactoryError(f, env);
    if e.Some? {
      return Failure(e.value);
    }
    var b := new LazyBackend(f.backendName, f.opSpecs);
    r := Success(b);
  }

  /** `_CUSTOM_OP_BACKENDS` with the decorator that fills it. */
  class BackendTable {
    var factories: map<string, Factory>

    constructor ()
      ensures factories == map[]
    {
      factories := map[];
    }

    /** `register_custom_op_backend(name)(fn)`: stores fn under name,
        replacing an earlier entry, and hands fn back unchanged. */
    method Register(name: string, fn: Factory) returns (r: Factory)
      modifies this
      ensures factories == old(factories)[name := fn]
      ensures r == fn
    {
      factories := factories[name := fn];
      r := fn;
    }

    /** The five decorated definitions, run in the order the module runs them. */
    method RegisterBuiltins()
      modifies this
      ensures factories == old(factories) + BuiltinFactories
    {
      ghost var before := factories;
      var _ := Register("cuda", CudaFactory);
      var _ := Register("hip", HipFactory);
      var _ := Register("xpu", XpuFactory);
      var _ := Register("npu", NpuFactory);
      var _ := Register("cpu", CpuFactory);
      SequentialRegistration(before);
    }

    /** `get_custom_op_backend(name)`: ValueError for an unregistered name,
        otherwise whatever a fresh call of the factory gives. */
    method GetCustomOpBackend(name: string, env: Env) returns (r: Result<LazyBackend, Error>)
      ensures name !in factories ==> r == Failure(NotRegistered(name))
      ensures name in factories && FactoryError(factories[name], env).Some? ==>
        r == Failure(FactoryError(factories[name], env).value)
      ensures name in factories && FactoryError(factories[name], env).None? ==>
        r.Success? && fresh(r.value)
        && r.value.BuiltFrom(factories[name].backendName, factories[name].opSpecs)
        && forall n :: n in r.value.ops ==> fresh(r.value.ops[n])
    {
      if name !in factories {
        return Failure(NotRegistered(name));
      }
      r := CallFactory(factories[name], env);
    }
  }

  // ---------------------------------------------------------------------
  // Detection and the registry

  /** The answers of is_cuda(), is_hip(), is_npu(), is_xpu(), is_cpu() and
      cpu_has_amx_support(). */
  datatype Probes = Probes(cuda: bool, hip: bool, npu: bool, xpu: bool, cpu: bool, amx: bool)

  /** `_detect_backend()`: the first probe that holds wins. */
  function DetectBackend(p: Probes): (r: string)
    ensures r == "cuda" <==> p.cuda
    ensures r == "hip" <==> !p.cuda && p.hip
    ensures r == "npu" <==> !p.cuda && !p.hip && p.npu
    ensures r == "xpu" <==> !p.cuda && !p.hip && !p.npu && p.xpu
    ensures r == "cpu" <==> !p.cuda && !p.hip && !p.npu && !p.xpu && p.cpu && !p.amx
    ensures r == "cpu_amx" <==> !p.cuda && !p.hip && !p.npu && !p.xpu && p.cpu && p.amx
    ensures r == "native" <==> !p.cuda && !p.hip && !p.npu && !p.xpu && !p.cpu
  {
    if p.cuda then "cuda"
    else if p.hip then "hip"
    else if p.npu then "npu"
    else if p.xpu then "xpu"
    else if p.cpu then (if p.amx then "cpu_amx" else "cpu")
    else "native"
  }

  /** A detected name has a built-in factory exactly when a vendor probe
      holds, or the CPU probe holds without AMX: "cpu_amx" and "native"
      are never registered. */
  lemma DetectedIsBuiltinIff(p: Probes)
    ensures DetectBackend(p) in BuiltinFactories <==>
      p.cuda || p.hip || p.npu || p.xpu || (p.cpu && !p.amx)
  {
    BuiltinTable();
  }

  /** Python truthiness of an optional name: None and "" are false. */
  predicate Truthy(name: Option<string>) {
    name.Some? && name.value != ""
  }

  /** `backend_name or self._active_backend_name or self._detect_backend()`. */
  function ResolveName(explicit: Option<string>, active: Option<string>, p: Probes): (r: string)
    ensures r != ""
    ensures Truthy(explicit) ==> r == explicit.value
    ensures !Truthy(explicit) && Truthy(active) ==> r == active.value
    ensures !Truthy(explicit) && !Truthy(active) ==> r == DetectBackend(p)
  {
    if Truthy(explicit) then explicit.value
    else if Truthy(active) then active.value
    else DetectBackend(p)
  }

  /** Once a name has been resolved and made active, a request without an
      explicit name resolves to it again, whatever the probes now say. */
  lemma ActiveNameIsSticky(explicit: Option<string>, active: Option<string>, p: Probes, q: Probes)
    ensures ResolveName(None, Some(ResolveName(explicit, active, p)), q) == ResolveName(explicit, active, p)
  {
  }

  /** `CustomOpRegistry`: a cache of built backends and a sticky active name. */
  class CustomOpRegistry {
    var cache: map<string, LazyBackend>
    var active: Option<string>
    /** The names whose factory this registry called successfully, in order. */
    ghost var built: seq<string>

    /** The active name is always one whose backend is cached, and every
        cached backend was built by exactly one successful factory call. */
    ghost predicate Valid()
      reads this
    {
      && (active.Some? ==> active.value in cache && active.value != "")
      && NoDuplicates(built)
      && (forall i :: 0 <= i < |built| ==> built[i] in cache)
      && (forall n :: n in cache ==> n in built)
    }

    constructor ()
      ensures Valid()
      ensures cache == map[] && active == None && built == []
    {
      cache := map[];
      active := None;
      built := [];
    }

    /** `_get_backend(backend_name)`, and `__getattr__(backend_name)` when
        `explicit` is Some: resolve the name, build and cache its backend on
        first use, then make it active. A failure changes nothing. */
    method GetBackend(explicit: Option<string>, table: BackendTable, env: Env, p: Probes)
      returns (r: Result<LazyBackend, Error>)
      requires Valid()
      modifies this
      ensures Valid()
      ensures var n := ResolveName(explicit, old(active), p);
        if n in old(cache) then
          r == Success(old(cache)[n]) && cache == old(cache) && built == old(built)
          && active == Some(n)
        else if n !in table.factories then
          r == Failure(NotRegistered(n)) && cache == old(cache) && built == old(built)
          && active == old(active)
        else if FactoryError(table.factories[n], env).Some? then
          r == Failure(FactoryError(table.factories[n], env).value)
          && cache == old(cache) && built == old(built) && active == old(active)
        else
          r.Success? && fresh(r.value)
          && r.value.BuiltFrom(table.factories[n].backendName, table.factories[n].opSpecs)
          && cache == old(cache)[n := r.value] && built == old(built) + [n]
          && active == Some(n)
    {
      var name := ResolveName(explicit, active, p);
      if name !in cache {
        var b := table.GetCustomOpBackend(name, env);
        if b.Failure? {
          return Failure(b.error);
        }
        cache := cache[name := b.value];
        built := built + [name];
      }
      active := Some(name);
      r := Success(cache[name]);
    }

    /** `get_op(op_name)`: the op cell of the backend resolved without an
        explicit name, or KeyError naming that backend. Errors of the
        resolution itself pass through unchanged. */
    method GetOp(opName: string, table: BackendTable, env: Env, p: Probes)
      returns (r: Result<LazyOp, Error>)
      requires Valid()
      modifies this
      ensures Valid()
      ensures var n := ResolveName(None, old(active), p);
        if n in old(cache) || (n in table.factories && FactoryError(table.factories[n], env).None?) then
          && n in cache && active == Some(n)
          && (n in old(cache) ==> cache == old(cache))
          && (n !in old(cache) ==>
                cache == old(cache)[n := cache[n]] && fresh(cache[n])
                && cache[n].BuiltFrom(table.factories[n].backendName, table.factories[n].opSpecs))
          && (opName in cache[n].ops ==> r == Success(cache[n].ops[opName]))
          && (opName !in cache[n].ops ==> r == Failure(OpNotFound(opName, cache[n].backendName)))
        else
          && cache == old(cache) && active == old(active)
          && r == Failure(if n !in table.factories then NotRegistered(n)
                          else FactoryError(table.factories[n], env).value)
    {
      var backend := GetBackend(None, table, env, p);
      if backend.Failure? {
        return Failure(backend.error);
      }
      var op := backend.value.Get(opName);
      if op.Failure? {
        return Failure(OpNotFound(opName, backend.value.backendName));
      }
      r := op;
    }
  }

  // ---------------------------------------------------------------------
  // What callers of the singleton observe

  /** On a CUDA host, `custom_ops.hip` makes hip the active backend, so a
      later `get_op("gelu_quick")` finds hip's op although detection would
      pick cuda, where that op does not exist. */
  method DotAccessRedirectsGetOp(env: Env) returns (op: Result<LazyOp, Error>)
    ensures op.Success? && op.value.importFn == SglKernelOp("gelu_quick")
  {
    var p := Probes(true, false, false, false, false, false);
    var table := new BackendTable();
    table.RegisterBuiltins();
    var registry := new CustomOpRegistry();
    assert table.factories["hip"] == HipFactory;
    assert "gelu_quick" in HipFactory.opSpecs;
    var hip := registry.GetBackend(Some("hip"), table, env, p);
    assert registry.active == Some("hip");
    op := registry.GetOp("gelu_quick", table, env, p);
  }

  /** Without a prior dot-access the same request on a CUDA host fails with
      the KeyError that names the cuda backend. */
  method CudaHostHasNoGeluQuick(env: Env) returns (op: Result<LazyOp, Error>)
    ensures op == Failure(OpNotFound("gelu_quick", "cuda"))
  {
    var p := Probes(true, false, false, false, false, false);
    var table := new BackendTable();
    table.RegisterBuiltins();
    var registry := new CustomOpRegistry();
    assert ResolveName(None, None, p) == "cuda";
    assert table.factories["cuda"] == CudaFactory;
    assert "gelu_quick" !in CudaFactory.opSpecs;
    op := registry.GetOp("gelu_quick", table, env, p);
  }

  /** On a CPU host with AMX, detection yields "cpu_amx", which has no
      factory, so get_op raises ValueError and the registry stays empty. */
  method AmxHostHasNoBackend(env: Env, opName: string) returns (op: Result<LazyOp, Error>, cached: nat)
    ensures op == Failure(NotRegistered("cpu_amx"))
    ensures cached == 0
  {
    var p := Probes(false, false, false, false, true, true);
    var table := new BackendTable();
    table.RegisterBuiltins();
    var registry := new CustomOpRegistry();
    op := registry.GetOp(opName, table, env, p);
    cached := |registry.cache|;
  }
}
