/** The device-string and capability helpers of the kernel test suite
    (sgl-kernel/tests/utils.py). Whether `import torch_musa` succeeded is
    decided once when the helpers are imported; here it is the parameter
    `hasMusa`. The device capability reported by torch is the parameter
    `cap`. */
module KernelTestUtils {
  import opened Results

  const MusaPrefix: string := "musa"
  const CudaPrefix: string := "cuda"

  /** The device prefix the helpers use. */
  function DevicePrefix(hasMusa: bool): (p: string)
    ensures p == MusaPrefix <==> hasMusa
    ensures p == CudaPrefix <==> !hasMusa
  {
    if hasMusa then MusaPrefix else CudaPrefix
  }

  // ---------------------------------------------------------------------
  // Python's str() on integers

  function DigitChar(d: nat): (c: char)
    requires d < 10
  {
    "0123456789"[d]
  }

  predicate IsDigitChar(c: char) {
    '0' <= c <= '9'
  }

  function DigitValue(c: char): nat
    requires IsDigitChar(c)
  {
    (c as int - '0' as int) as nat
  }

  /** Decimal digits of `n`, most significant first, without leading zeros. */
  function NatToString(n: nat): (s: string)
    ensures |s| >= 1
    ensures forall i :: 0 <= i < |s| ==> IsDigitChar(s[i])
    decreases n
  {
    if n < 10 then [DigitChar(n)] else NatToString(n / 10) + [DigitChar(n % 10)]
  }

  /** Python's `str(i)` for an int: a minus sign for negatives, then the digits. */
  function IntToString(i: int): (s: string)
    ensures |s| >= 1
  {
    if i < 0 then "-" + NatToString(-i) else NatToString(i)
  }

  /** The value of a non-empty string of decimal digits. */
  function DigitsValue(s: string): (n: nat)
    requires |s| >= 1 && forall i :: 0 <= i < |s| ==> IsDigitChar(s[i])
    decreases |s|
  {
    if |s| == 1 then DigitValue(s[0])
    else DigitsValue(s[..|s| - 1]) * 10 + DigitValue(s[|s| - 1])
  }

  predicate AllDigits(s: string) {
    |s| >= 1 && forall i :: 0 <= i < |s| ==> IsDigitChar(s[i])
  }

  /** Parses what `str` prints for an int. */
  function ParseInt(s: string): (r: Option<int>)
  {
    if |s| >= 2 && s[0] == '-' && AllDigits(s[1..]) then Some(0 - DigitsValue(s[1..]) as int)
    else if AllDigits(s) then Some(DigitsValue(s))
    else None
  }

  lemma {:induction false} NatToStringRoundTrip(n: nat)
    ensures DigitsValue(NatToString(n)) == n
    decreases n
  {
    if n >= 10 {
      var s := NatToString(n);
      assert s[..|s| - 1] == NatToString(n / 10);
      NatToStringRoundTrip(n / 10);
      assert DigitValue(DigitChar(n % 10)) == n % 10;
    } else {
      assert DigitValue(DigitChar(n)) == n;
    }
  }

  /** `str` on ints is inverted by ParseInt. */
  lemma {:induction false} IntToStringRoundTrip(i: int)
    ensures ParseInt(IntToString(i)) == Some(i)
  {
    var s := IntToString(i);
    if i < 0 {
      var t := NatToString(-i);
      assert s == "-" + t;
      assert s[1..] == t;
      assert AllDigits(t);
      NatToStringRoundTrip(-i);
      assert ParseInt(s) == Some(0 - DigitsValue(t) as int);
    } else {
      var t := NatToString(i);
      assert s == t;
      assert AllDigits(t);
      assert IsDigitChar(s[0]);
      NatToStringRoundTrip(i);
      assert ParseInt(s) == Some(DigitsValue(t) as int);
    }
  }

  // ---------------------------------------------------------------------
  // get_device and get_communication_backend

  /** `get_device(index)`: the bare prefix for `None`, otherwise
      prefix + ":" + str(index). */
  function GetDevice(hasMusa: bool, index: Option<int>): (s: string)
  {
    match index
    case None => DevicePrefix(hasMusa)
    case Some(i) => DevicePrefix(hasMusa) + ":" + IntToString(i)
  }

  /** Reads a device string back into the MUSA flag and the index: the
      reference against which GetDevice is checked. */
  function ParseDevice(s: string): (r: Option<(bool, Option<int>)>)
  {
    if s == MusaPrefix then Some((true, None))
    else if s == CudaPrefix then Some((false, None))
    else if |s| >= 5 && s[4] == ':' && (s[..4] == MusaPrefix || s[..4] == CudaPrefix) then
      match ParseInt(s[5..])
      case None => None
      case Some(i) => Some((s[..4] == MusaPrefix, Some(i)))
    else None
  }

  /** The device string determines the prefix and the index it was built
      from, so distinct (flag, index) pairs give distinct device strings. */
  lemma GetDeviceRoundTrip(hasMusa: bool, index: Option<int>)
    ensures ParseDevice(GetDevice(hasMusa, index)) == Some((hasMusa, index))
  {
    var p := DevicePrefix(hasMusa);
    if index.Some? {
      var s := GetDevice(hasMusa, index);
      assert s[..4] == p;
      assert s[4] == ':';
      assert s[5..] == IntToString(index.value);
      IntToStringRoundTrip(index.value);
    }
  }

  lemma GetDeviceInjective(m1: bool, i1: Option<int>, m2: bool, i2: Option<int>)
    ensures GetDevice(m1, i1) == GetDevice(m2, i2) <==> m1 == m2 && i1 == i2
  {
    GetDeviceRoundTrip(m1, i1);
    GetDeviceRoundTrip(m2, i2);
  }

  /** `get_communication_backend()`. */
  function GetCommunicationBackend(hasMusa: bool): (b: string)
    ensures b == "mccl" <==> hasMusa
    ensures b == "nccl" <==> !hasMusa
  {
    if hasMusa then "mccl" else "nccl"
  }

  /** The collective backend follows the device prefix. */
  lemma BackendFollowsDevice(hasMusa: bool)
    ensures GetCommunicationBackend(hasMusa) == "mccl" <==> GetDevice(hasMusa, None) == MusaPrefix
  {
  }

  // ---------------------------------------------------------------------
  // Capability predicates over Python tuple comparison

  /** A device capability as torch reports it: the tuple (major, minor). */
  datatype Capability = Capability(major: int, minor: int)

  function AsTuple(cap: Capability): seq<int> {
    [cap.major, cap.minor]
  }

  /** Python's `a >= b` on tuples of ints: the first differing position
      decides; when one tuple is a prefix of the other, the longer one is
      greater. */
  predicate TupleGe(a: seq<int>, b: seq<int>)
    decreases |a|
  {
    if a == [] then b == []
    else if b == [] then true
    else if a[0] != b[0] then a[0] > b[0]
    else TupleGe(a[1..], b[1..])
  }

  /** `is_sm10x()`: the capability is at least (10, 0). */
  predicate IsSm10x(cap: Capability) {
    TupleGe(AsTuple(cap), [10, 0])
  }

  /** `is_hopper()`: the capability is exactly (9, 0). */
  predicate IsHopper(cap: Capability) {
    AsTuple(cap) == [9, 0]
  }

  lemma IsSm10xIff(cap: Capability)
    ensures IsSm10x(cap) <==> cap.major > 10 || (cap.major == 10 && cap.minor >= 0)
  {
    var t := AsTuple(cap);
    if cap.major == 10 {
      assert t[1..] == [cap.minor] && [10, 0][1..] == [0];
      assert TupleGe(t, [10, 0]) == TupleGe([cap.minor], [0]);
      assert [cap.minor][1..] == [] && [0][1..] == [];
      assert TupleGe([cap.minor], [0]) == (cap.minor != 0 ==> cap.minor > 0);
    }
  }

  lemma IsHopperIff(cap: Capability)
    ensures IsHopper(cap) <==> cap.major == 9 && cap.minor == 0
  {
    if IsHopper(cap) {
      assert AsTuple(cap)[0] == 9 && AsTuple(cap)[1] == 0;
    }
  }

  /** A Hopper device is never counted as SM10x. */
  lemma HopperIsNotSm10x(cap: Capability)
    ensures IsHopper(cap) ==> !IsSm10x(cap)
  {
    IsHopperIff(cap);
    IsSm10xIff(cap);
  }
}
