# MUSA adapters of sglang, modelled in Dafny

This project models the parts of sglang's MUSA (Moore Threads GPU) adapters
that contain logic of their own. The foreign world they bind is not modelled;
it enters only as parameters.

- **Custom-op backend registry** (`custom_op_backend.dfy`, module
  `CustomOpBackend`). `_CUSTOM_OP_BACKENDS` is modelled as the class
  `BackendTable`, filled by `Register`. Each of the five built-in factories is
  a `Factory` value: the backend name it uses, the module its body imports
  first (`torch_npu` for npu), and its op table. `LazyOp` is a memo cell
  class. `LazyBackend` is a fixed map from op names to distinct cells.
  `CustomOpRegistry` holds a backend cache and a sticky active name. Python
  truthiness in `backend_name or self._active_backend_name or
  self._detect_backend()` is kept: `None` and `""` both fall through. The
  importable modules are a parameter `Env`. The `is_*()` and AMX probes are a
  parameter `Probes`.
- **MTML topology wrapper** (`mtml_wrapper.dfy`, module `MtmlWrapper`). The
  class-level caches are the class `MtmlClassState`. Ghost fields record that
  each path is opened once and that each function table is the one the
  binding loop builds. `MtmlLibrary` has the `_lib_handle` three-state
  machine. "Unset" is the attribute being absent: `__init__` never assigns
  it, so before the first successful `nvmlInit` both `nvmlShutdown` and
  `nvmlDeviceGetHandleByIndex` raise `AttributeError`, not the `NVMLError(-1)`
  path. Every `mtml*` call is an oracle. It returns a `Reply` (return code
  plus out-value) or raises. The P2P decision is a loop over link ids,
  proved equal to a recursive reference function. That function is in turn
  characterised by an existential (lemma `P2PStatusMeaning`).
- **UUID comparison at mtml_wrapper.py:258.** The code compares two ctypes
  `c_char` arrays with `==`. ctypes arrays define no value equality, so
  Python compares them by identity, and two separately allocated buffers are
  never equal. The comparison is therefore a parameter `UuidComparison`:
  - `ObjectIdentity` is the code as written. Under it, the status is never OK.
  - `ContentEquality` is the evidently intended reading.

  Both are proved about (see Findings).
- **Early returns of the P2P check.** The three early returns give back the
  `c_int` object rather than its `.value`. `StatusReturn` keeps the two
  apart.
- **MUSA platform selectors** (`musa_platform.dfy`) and the **kernel-test
  device helpers** (`kernel_test_utils.dfy`). These are pure functions. The
  `torch_musa` import flag and the torch capability are parameters.
  `get_device` is checked against an independent parser (round trip).
  Capability checks use a model of Python tuple comparison.

The test file test/srt/test_custom_op_backend.py expects a "native" fallback
that returns `{}`. The code has no such fallback. It raises `ValueError` for
"native" and for "cpu_amx", and the model follows the code.

## Model

| member | source | states |
|---|---|---|
| CustomOpBackend.ImportFrom | python/sglang/srt/custom_op_backend.py:44-47 | succeeds exactly when the module is importable and has the attribute, returning that attribute; otherwise ImportError or AttributeError |
| CustomOpBackend.LazyOp.constructor | python/sglang/srt/custom_op_backend.py:53-55 | a new cell keeps its import function, has an empty cache and has made no import |
| CustomOpBackend.LazyOp.Call | python/sglang/srt/custom_op_backend.py:57-60 | with a cached op: no import, cache unchanged, the arguments are forwarded to the cached op; with an empty cache: exactly one import; on success it is cached and called, on failure the cache stays empty and the error propagates |
| CustomOpBackend.LazyBackend.constructor | python/sglang/srt/custom_op_backend.py:66-68 | the op names are exactly the keys of op_specs; each is a fresh, distinct, empty LazyOp over its own import function |
| CustomOpBackend.LazyBackend.Get | python/sglang/srt/custom_op_backend.py:70-76 | returns the op cell of a known name (the same object every time); for any other name, KeyError naming op and backend |
| CustomOpBackend.FactoryError | python/sglang/srt/custom_op_backend.py:122-127 | a factory raises before building exactly when it imports a module that is not importable (torch_npu for npu) |
| CustomOpBackend.BuiltinTable | python/sglang/srt/custom_op_backend.py:84-133 | the registered names are exactly cuda, hip, xpu, npu, cpu; each factory names its backend after its key; every op is the sgl_kernel attribute of the same name; cpu_amx and native are not registered |
| CustomOpBackend.BuiltinOps | python/sglang/srt/custom_op_backend.py:84-133 | gelu_quick and gelu_tanh_and_mul exist only on hip; silu_and_mul and gelu_and_mul exist exactly on cuda, hip, xpu; npu and cpu have no ops |
| CustomOpBackend.SequentialRegistration | python/sglang/srt/custom_op_backend.py:84-130 | the five decorations one after another equal overriding the table with the built-ins |
| CustomOpBackend.CallFactory | python/sglang/srt/custom_op_backend.py:85-133 | a factory raises ImportError for a missing eager import, otherwise returns a fresh LazyBackend built from its name and op table |
| CustomOpBackend.BackendTable.constructor | python/sglang/srt/custom_op_backend.py:19 | the table starts empty |
| CustomOpBackend.BackendTable.Register | python/sglang/srt/custom_op_backend.py:22-29 | the table maps name to fn, overwriting an earlier entry; all other names are unchanged; fn itself is returned |
| CustomOpBackend.BackendTable.RegisterBuiltins | python/sglang/srt/custom_op_backend.py:84-130 | after the module's five decorations the table is the old one overridden by the five built-in factories |
| CustomOpBackend.BackendTable.GetCustomOpBackend | python/sglang/srt/custom_op_backend.py:32-36 | ValueError for an unregistered name; otherwise the factory's error, or a freshly built backend on every call |
| CustomOpBackend.DetectBackend | python/sglang/srt/custom_op_backend.py:149-160 | fixed priority cuda, hip, npu, xpu, then cpu_amx or cpu, else native, each name stated as an if-and-only-if over the probes |
| CustomOpBackend.DetectedIsBuiltinIff | python/sglang/srt/custom_op_backend.py:149-160 | the detected name is registered exactly when a vendor probe holds, or the CPU probe holds without AMX |
| CustomOpBackend.ResolveName | python/sglang/srt/custom_op_backend.py:164-166 | the resolved name is never empty: a truthy explicit name wins, then a truthy active name, then detection |
| CustomOpBackend.ActiveNameIsSticky | python/sglang/srt/custom_op_backend.py:164-171 | once a name is active, a request without an explicit name resolves to it again whatever the probes say |
| CustomOpBackend.CustomOpRegistry.constructor | python/sglang/srt/custom_op_backend.py:144-146 | empty cache, no active name, no factory calls |
| CustomOpBackend.CustomOpRegistry.GetBackend | python/sglang/srt/custom_op_backend.py:163-172 | a cached name returns the identical cached backend without calling the factory; an uncached one calls the factory once and caches a fresh backend; on success the active name becomes the resolved name; an error changes neither cache nor active name; every cached name was built exactly once (Valid) |
| CustomOpBackend.CustomOpRegistry.GetOp | python/sglang/srt/custom_op_backend.py:175-183 | the op of the backend resolved without an explicit name; KeyError naming the op and that backend's name when absent; resolution errors pass through and change nothing |
| CustomOpBackend.DotAccessRedirectsGetOp | python/sglang/srt/custom_op_backend.py:185-187 | on a CUDA host, dot-access to hip makes a later get_op("gelu_quick") return hip's op |
| CustomOpBackend.CudaHostHasNoGeluQuick | python/sglang/srt/custom_op_backend.py:175-183 | on a fresh registry on a CUDA host, get_op("gelu_quick") raises the KeyError naming cuda |
| CustomOpBackend.AmxHostHasNoBackend | python/sglang/srt/custom_op_backend.py:158-159 | on a CPU host with AMX, get_op raises ValueError for cpu_amx and leaves the cache empty |
| MtmlWrapper.CUint | python/sglang/srt/distributed/device_communicators/mtml_wrapper.py:200-202 | a c_uint argument is the index modulo 2^32, equal to the index when it is in range |
| MtmlWrapper.BuildFromSucceedsIff | python/sglang/srt/distributed/device_communicators/mtml_wrapper.py:157-178 | the binding loop succeeds exactly when every function's symbol exists and its name is listed in mtml_funcs |
| MtmlWrapper.BuildFromTable | python/sglang/srt/distributed/device_communicators/mtml_wrapper.py:158-176 | a built table's keys are exactly the exported names, each bound to its own symbol with its declared restype and argtypes |
| MtmlWrapper.FirstUnbindable | python/sglang/srt/distributed/device_communicators/mtml_wrapper.py:159-175 | the first function whose symbol is missing or whose name is unlisted, every earlier one being bindable |
| MtmlWrapper.BuildFromFailure | python/sglang/srt/distributed/device_communicators/mtml_wrapper.py:159-175 | a failed build reports the first unbindable function: AttributeError if its symbol is missing, else RuntimeError |
| MtmlWrapper.ExportedAreListed | python/sglang/srt/distributed/device_communicators/mtml_wrapper.py:70-139 | exported_functions and mtml_funcs list the same seven distinct names in the same order |
| MtmlWrapper.AllListedMeaning | python/sglang/srt/distributed/device_communicators/mtml_wrapper.py:159-176 | when every name is listed, the build can fail only with AttributeError, and succeeds exactly when all symbols exist |
| MtmlWrapper.BuiltinTableMeaning | python/sglang/srt/distributed/device_communicators/mtml_wrapper.py:157-178 | for the real lists the RuntimeError is unreachable; the table has exactly the seven mtml_funcs names as keys |
| MtmlWrapper.FindListed | python/sglang/srt/distributed/device_communicators/mtml_wrapper.py:164-168 | the inner search finds the name exactly when mtml_funcs contains it, and returns that name |
| MtmlWrapper.BuildFuncTable | python/sglang/srt/distributed/device_communicators/mtml_wrapper.py:158-176 | the loop computes the reference binding BuildFrom, errors included |
| MtmlWrapper.MtmlClassState.constructor | python/sglang/srt/distributed/device_communicators/mtml_wrapper.py:141-147 | both class caches start empty |
| MtmlWrapper.MtmlLibrary.Create | python/sglang/srt/distributed/device_communicators/mtml_wrapper.py:149-178 | the so_file argument is ignored and /usr/lib/libmtml.so used; the library is opened only when not cached and each path is opened once; the table is built only when not cached; errors leave the table cache as it was; a new instance has the seven functions and no handle attribute |
| MtmlWrapper.MtmlLibrary.NvmlInit | python/sglang/srt/distributed/device_communicators/mtml_wrapper.py:180-186 | a nonzero code raises NVMLError with that code and leaves the handle; zero stores the pointer |
| MtmlWrapper.MtmlLibrary.NvmlShutdown | python/sglang/srt/distributed/device_communicators/mtml_wrapper.py:188-194 | AttributeError before any successful init; no-op when the handle is None; a failed call raises RuntimeError with the code and keeps the handle; success sets it to None |
| MtmlWrapper.MtmlLibrary.NvmlDeviceGetHandleByIndex | python/sglang/srt/distributed/device_communicators/mtml_wrapper.py:196-205 | AttributeError before any init; NVMLError(-1) when the handle is None; NVMLError(ret) on a failed call; otherwise the device pointer for the handle and the c_uint index |
| MtmlWrapper.MtmlLibrary.NvmlDeviceGetP2PStatus | python/sglang/srt/distributed/device_communicators/mtml_wrapper.py:207-267 | the loop returns exactly the reference decision P2PStatus; caps is not read |
| MtmlWrapper.CheckLinkMatchedIff | python/sglang/srt/distributed/device_communicators/mtml_wrapper.py:236-260 | a link id matches exactly when its state, remote-device and remote-UUID queries all succeed, the remote UUID equals dev2's and the link state is MTML_MTLINK_STATE_UP |
| MtmlWrapper.ScanLinksMeaning | python/sglang/srt/distributed/device_communicators/mtml_wrapper.py:234-262 | the search gives value 0 or 1; it gives OK exactly when some link id passes every check with every earlier id skipped, ids increasing, so it stops at the first match |
| MtmlWrapper.P2PStatusMeaning | python/sglang/srt/distributed/device_communicators/mtml_wrapper.py:207-267 | OK exactly when both UUID queries and the link-spec query succeed and some link below linkNum is UP and reaches dev2; the value is always 0 or 1; the c_int object is returned, always as NOT_OK, exactly when one of the three preliminary queries (dev1 UUID, dev2 UUID, link spec) returned a nonzero code after the earlier ones succeeded |
| MtmlWrapper.ScanNeverOkByIdentity | python/sglang/srt/distributed/device_communicators/mtml_wrapper.py:257-262 | under identity comparison no link matches, so the search is NOT_OK |
| MtmlWrapper.P2PStatusAsWrittenNeverOk | python/sglang/srt/distributed/device_communicators/mtml_wrapper.py:257-262 | as written, the P2P status is NOT_OK for every oracle and pair of devices |
| MtmlWrapper.LinkedPairShowsIdentityBug | python/sglang/srt/distributed/device_communicators/mtml_wrapper.py:257-262 | two devices joined by one UP link: content equality gives OK, the code as written gives NOT_OK |
| MusaPlatform.PlatformIdentity | python/sglang/multimodal_gen/runtime/platforms/musa.py:20-24 | device_name and device_type are "musa", dispatch_key "MUSA", control env var "MUSA_VISIBLE_DEVICES" |
| MusaPlatform.IsAsyncOutputSupported | python/sglang/multimodal_gen/runtime/platforms/musa.py:40-47 | false exactly when enforce_eager is True; None and False both give true |
| MusaPlatform.GetAttnBackendClsStr | python/sglang/multimodal_gen/runtime/platforms/musa.py:58-73 | ValueError naming the device and the backend exactly when a backend other than TORCH_SDPA is selected; otherwise the SDPA backend path |
| MusaPlatform.AttnBackendIgnoresShape | python/sglang/multimodal_gen/runtime/platforms/musa.py:70-73 | the result does not depend on head_size or dtype |
| MusaPlatform.GetDeviceCommunicatorCls | python/sglang/multimodal_gen/runtime/platforms/musa.py:76-77 | always the CudaCommunicator path |
| KernelTestUtils.DevicePrefix | sgl-kernel/tests/utils.py:17-20 | the prefix is "musa" exactly when torch_musa imported, else "cuda" |
| KernelTestUtils.NatToStringRoundTrip | sgl-kernel/tests/utils.py:15 | the decimal digits of a natural number parse back to it |
| KernelTestUtils.IntToStringRoundTrip | sgl-kernel/tests/utils.py:15 | str() of any int, negatives included, parses back to it |
| KernelTestUtils.GetDeviceRoundTrip | sgl-kernel/tests/utils.py:13-20 | get_device(None) is the bare prefix, get_device(i) is prefix:str(i); parsing the string gives back the MUSA flag and the index |
| KernelTestUtils.GetDeviceInjective | sgl-kernel/tests/utils.py:13-20 | two device strings are equal exactly when the flag and the index are |
| KernelTestUtils.GetCommunicationBackend | sgl-kernel/tests/utils.py:23-27 | "mccl" exactly when MUSA is present, else "nccl" |
| KernelTestUtils.BackendFollowsDevice | sgl-kernel/tests/utils.py:17-27 | the backend is mccl exactly when the device prefix is musa |
| KernelTestUtils.IsSm10xIff | sgl-kernel/tests/utils.py:30-31 | with Python tuple comparison, (major, minor) >= (10, 0) exactly when major > 10, or major is 10 and minor >= 0 |
| KernelTestUtils.IsHopperIff | sgl-kernel/tests/utils.py:34-35 | Hopper exactly when the capability is (9, 0) |
| KernelTestUtils.HopperIsNotSm10x | sgl-kernel/tests/utils.py:30-35 | a Hopper device is never SM10x |

## Left out

- sgl-kernel/setup_musa.py is not part of this model. It is build-time work: the CUDA-to-MUSA rewrite by an external porting tool, `setup()`, `sys.exit`, a file read and a torch query.
- sgl-kernel/csrc/common_extension_musa.cc is not part of this model. It holds only operator registration macros and schema strings.
- sgl-kernel/tests/test_dsv3_fused_a_gemm.py is not part of this model. It is a floating-point GEMM checked with `allclose`.
- Logging (`logger.info`, `logger.warning`, `logger.exception`) is a side effect and is dropped.
- `MusaPlatform.get_device_capability`, `get_device_name` and `get_device_total_memory` only forward torch queries. `get_current_memory_usage` resets torch statistics and returns a float. `log_warnings` does nothing. None of these is modelled.
- The ctypes struct layouts (`MtmlMtLinkSpec` and the rest) mirror a C ABI. Only `linkNum` is used, as the out-value of the link-spec oracle.
- `register_custom_op_backend` is curried in the source (`register(name)(fn)`). `BackendTable.Register` takes both arguments at once.
- Factories are data, not arbitrary callables. A factory registered later by user code is any `Factory` value.
- `LazyOp.Call`: the kernel itself is foreign. The call returns the `Invocation` of the cached kernel on the arguments, not what the kernel computes.
- `LazyOp.Call` does not model an import whose attribute is `None`. Such an import would leave the cache `None` and fail when it is called.
- `CustomOpRegistry.__getattr__` is `GetBackend` with an explicit name. Python calls it only for attribute names that are not real fields, and that lookup rule is not modelled. `LazyBackend.__getattr__` is `Get` in the same way.
- Setting `restype` and `argtypes` mutates the foreign function object. The model records them in the `ForeignFunction` value instead.
- The `funcs` dict shared by instances is a map value. The source never mutates it after it is built, so its aliasing is not observable.
- Exceptions raised by a foreign call outside the P2P check are one `ForeignException` value. Their Python type is not modelled.
- The module-level singleton `custom_ops`, and any concurrent use of the class-level caches, are not modelled. The source takes no locks.

## Findings

| source | as written | input that shows it | evidently intended | confidence | as-written member | corrected member |
|---|---|---|---|---|---|---|
| python/sglang/srt/distributed/device_communicators/mtml_wrapper.py:258 | `dev2_uuid == remote_dev_uuid` compares two separately allocated ctypes `c_char` arrays. Arrays define no value equality, so this is identity and always false. `nvmlDeviceGetP2PStatus` then never returns OK. | dev1 has one link, the link is UP, and its remote device is dev2 with the same UUID (`LinkedPairShowsIdentityBug`) | compare the UUID contents, e.g. `dev2_uuid.value == remote_dev_uuid.value` | high; not executed | MtmlWrapper.P2PStatusAsWrittenNeverOk | MtmlWrapper.P2PStatusMeaning |
