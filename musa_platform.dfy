/** The MUSA platform description of the multimodal runtime
    (python/sglang/multimodal_gen/runtime/platforms/musa.py): identity
    constants and three decision classmethods. None of them holds state.
    AttentionBackendEnum and torch.dtype belong to other files; they are
    modelled as the datatypes below. */
module MusaPlatform {
  import opened Results

  const DeviceName: string := "musa"
  const DeviceType: string := "musa"
  const DispatchKey: string := "MUSA"
  const DeviceControlEnvVar: string := "MUSA_VISIBLE_DEVICES"

  const SdpaBackendPath: string :=
    "sglang.multimodal_gen.runtime.layers.attention.backends.sdpa.SDPABackend"
  const CudaCommunicatorPath: string :=
    "sglang.multimodal_gen.runtime.distributed.device_communicators.cuda_communicator.CudaCommunicator"

  /** A member of AttentionBackendEnum. Enum members are truthy in Python,
      so any selected member takes part in the check of
      get_attn_backend_cls_str. */
  datatype AttentionBackend = TorchSdpa | OtherBackend(name: string)

  /** A torch dtype, by name; the selector never looks at it. */
  datatype DType = DType(name: string)

  /** The ValueError of get_attn_backend_cls_str: it names the device and
      the rejected backend. */
  datatype PlatformError = InvalidAttentionBackend(device: string, backend: AttentionBackend)

  /** The identity constants of the platform class. */
  lemma PlatformIdentity()
    ensures DeviceName == DeviceType == "musa"
    ensures DispatchKey == "MUSA"
    ensures DeviceControlEnvVar == "MUSA_VISIBLE_DEVICES"
  {
  }

  /** `is_async_output_supported(enforce_eager)`, with `enforce_eager` of
      Python type `bool | None`: only a truthy value turns async output off. */
  function IsAsyncOutputSupported(enforceEager: Option<bool>): (r: bool)
    ensures !r <==> enforceEager == Some(true)
    ensures enforceEager == None ==> r
    ensures enforceEager == Some(false) ==> r
  {
    match enforceEager
    case None => true
    case Some(eager) => !eager
  }

  /** `get_attn_backend_cls_str(selected_backend, head_size, dtype)`. */
  function GetAttnBackendClsStr(selected: Option<AttentionBackend>, headSize: int, dtype: DType)
    : (r: Result<string, PlatformError>)
    ensures r.Failure? <==> selected.Some? && selected.value != TorchSdpa
    ensures r.Failure? ==> r.error == InvalidAttentionBackend(DeviceName, selected.value)
    ensures r.Success? ==> r.value == SdpaBackendPath
  {
    if selected.Some? && selected.value != TorchSdpa then
      Failure(InvalidAttentionBackend(DeviceName, selected.value))
    else
      Success(SdpaBackendPath)
  }

  /** The chosen backend path depends only on the selection, never on the
      head size or the dtype. */
  lemma AttnBackendIgnoresShape(selected: Option<AttentionBackend>, h1: int, h2: int, d1: DType, d2: DType)
    ensures GetAttnBackendClsStr(selected, h1, d1) == GetAttnBackendClsStr(selected, h2, d2)
  {
  }

  /** `get_device_communicator_cls()`: MUSA reuses the CUDA communicator. */
  function GetDeviceCommunicatorCls(): (r: string)
    ensures r == CudaCommunicatorPath
  {
    CudaCommunicatorPath
  }
}
