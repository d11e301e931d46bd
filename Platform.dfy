/**
 * The platform the native layer drives, as abstract state: the camera list and
 * what each camera's characteristics report, the torch, the persisted on/off
 * flag, the process-wide "service running" flag and the requests sent to the
 * foreground service. A Camera2 call that throws is a call the `Device` refuses.
 */
module Platform {
  import opened Wrappers

  type CameraId = string

  /** Build.VERSION_CODES.M and Build.VERSION_CODES.TIRAMISU */
  const SDK_M: int := 23
  const SDK_TIRAMISU: int := 33

  /**
   * One entry of `cameraIdList` and what `getCameraCharacteristics(id)` reports
   * for it: `readable == false` means that query throws; `flashAvailable` is
   * FLASH_INFO_AVAILABLE (a missing value reads as false); `maxStrength` is
   * FLASH_INFO_STRENGTH_MAXIMUM_LEVEL, `None` when the key is absent.
   */
  datatype Camera = Camera(id: CameraId, readable: bool, flashAvailable: bool, maxStrength: Option<int>)

  /**
   * The device as one call of the native layer sees it: the SDK level, whether
   * reading `cameraIdList` throws, the cameras, and whether the torch service
   * refuses torch requests (a CameraAccessException or SecurityException).
   */
  datatype Device = Device(sdk: int, listFails: bool, cameras: seq<Camera>, torchFails: bool)

  /** The torch: off, on through `setTorchMode(id, true)`, or on at a strength level. */
  datatype TorchMode = Off | OnDefault | OnAt(level: int) {
    predicate IsOn() { !Off? }
  }

  /** The outcome of a platform call that may throw. */
  datatype Call<+T> = Returns(value: T) | Throws {
    function GetOr(default: T): T
    {
      match this
      case Returns(v) => v
      case Throws => default
    }
  }

  /** An intent sent to the foreground service: ACTION_START with its brightness extra, or ACTION_STOP. */
  datatype ServiceRequest = StartService(brightness: real) | StopService

  /** The first listed camera with the given id: what `getCameraCharacteristics(id)` looks at. */
  function Lookup(cams: seq<Camera>, id: CameraId): (r: Option<Camera>)
    ensures r.Some? ==> r.value in cams && r.value.id == id
    ensures r.None? <==> forall c :: c in cams ==> c.id != id
    ensures r.Some? ==> exists k :: 0 <= k < |cams| && cams[k] == r.value && forall j :: 0 <= j < k ==> cams[j].id != id
  {
    if cams == [] then None
    else if cams[0].id == id then Some(cams[0])
    else Lookup(cams[1..], id)
  }

  /** True when `id` names a camera that has a flash unit. */
  predicate HasFlashUnit(d: Device, id: CameraId)
  {
    var c := Lookup(d.cameras, id);
    c.Some? && c.value.flashAvailable
  }

  /** The highest strength level the torch of `id` accepts (1 when the key is absent). */
  function MaxLevel(d: Device, id: CameraId): (m: int)
    ensures Lookup(d.cameras, id).Some? && Lookup(d.cameras, id).value.maxStrength.Some? ==>
      m == Lookup(d.cameras, id).value.maxStrength.value
    ensures Lookup(d.cameras, id).None? || Lookup(d.cameras, id).value.maxStrength.None? ==> m == 1
  {
    match Lookup(d.cameras, id)
    case Some(c) => c.maxStrength.GetOr(1)
    case None => 1
  }

  /**
   * True when the torch service carries out a request for `target` on `id`
   * instead of throwing: the service does not refuse, `id` has a flash unit and
   * a strength level lies in [1, MaxLevel].
   */
  predicate Accepts(d: Device, id: CameraId, target: TorchMode)
    ensures Accepts(d, id, target) ==> !d.torchFails && Lookup(d.cameras, id).Some? && Lookup(d.cameras, id).value.flashAvailable
    ensures !target.OnAt? ==> (Accepts(d, id, target) <==> !d.torchFails && HasFlashUnit(d, id))
    ensures target.OnAt? && (target.level < 1 || target.level > MaxLevel(d, id)) ==> !Accepts(d, id, target)
    ensures target.OnAt? && 1 <= target.level <= MaxLevel(d, id) ==>
      (Accepts(d, id, target) <==> !d.torchFails && HasFlashUnit(d, id))
  {
    && !d.torchFails
    && HasFlashUnit(d, id)
    && (target.OnAt? ==> 1 <= target.level <= MaxLevel(d, id))
  }

  /** A device whose cameras report strength maxima the way Camera2 documents them: at least 1. */
  predicate WellFormed(d: Device)
  {
    forall c :: c in d.cameras && c.maxStrength.Some? ==> c.maxStrength.value >= 1
  }

  /**
   * `getCameraCharacteristics(id).get(FLASH_INFO_STRENGTH_MAXIMUM_LEVEL) ?: 1`
   * guarded by the API-33 check and the null check on the camera id, with the
   * query's exception left to the caller (the activity's `getMaxTorchStrength`).
   */
  function GetMaxTorchStrength(d: Device, cameraId: Option<CameraId>): (r: Call<int>)
    ensures r.Throws? <==>
      d.sdk >= SDK_TIRAMISU && cameraId.Some? &&
      (Lookup(d.cameras, cameraId.value).None? || !Lookup(d.cameras, cameraId.value).value.readable)
    ensures d.sdk < SDK_TIRAMISU || cameraId.None? ==> r == Returns(1)
    ensures r.Returns? && d.sdk >= SDK_TIRAMISU && cameraId.Some? ==> r.value == MaxLevel(d, cameraId.value)
  {
    if d.sdk < SDK_TIRAMISU then Returns(1)
    else match cameraId
      case None => Returns(1)
      case Some(id) =>
        match Lookup(d.cameras, id)
        case None => Throws
        case Some(c) => if c.readable then Returns(c.maxStrength.GetOr(1)) else Throws
  }

  lemma WellFormedMaxLevel(d: Device, id: CameraId)
    requires WellFormed(d)
    ensures MaxLevel(d, id) >= 1
  {
    var c := Lookup(d.cameras, id);
    if c.Some? && c.value.maxStrength.Some? {
      assert c.value in d.cameras;
    }
  }

  /**
   * The camera `findCameraWithFlash` settles on: the first listed camera whose
   * characteristics report a flash. A characteristics query that throws ends
   * the `forEach` (the exception is caught outside it) with nothing chosen.
   */
  function FirstWithFlash(cams: seq<Camera>): (r: Option<CameraId>)
    ensures r.Some? ==> exists c :: c in cams && c.id == r.value && c.readable && c.flashAvailable
    ensures (forall c :: c in cams ==> !c.flashAvailable) ==> r.None?
  {
    if cams == [] then None
    else if !cams[0].readable then None
    else if cams[0].flashAvailable then Some(cams[0].id)
    else FirstWithFlash(cams[1..])
  }

  /** Every camera before index `k` was read and has no flash: the search reaches `k`. */
  ghost predicate ScannedTo(cams: seq<Camera>, k: int)
    requires 0 <= k <= |cams|
  {
    forall j :: 0 <= j < k ==> cams[j].readable && !cams[j].flashAvailable
  }

  /** Camera `k` is the one the search stops at with a result. */
  ghost predicate ChosenAt(cams: seq<Camera>, k: int)
  {
    0 <= k < |cams| && cams[k].readable && cams[k].flashAvailable && ScannedTo(cams, k)
  }

  /** FirstWithFlash picks `id` exactly when `id` belongs to the first flash camera the search reaches. */
  lemma {:induction false} FirstWithFlashChosen(cams: seq<Camera>, id: CameraId)
    ensures FirstWithFlash(cams) == Some(id) <==> exists k :: ChosenAt(cams, k) && cams[k].id == id
  {
    if cams == [] {
    } else if !cams[0].readable {
      assert forall k :: !ChosenAt(cams, k);
    } else if cams[0].flashAvailable {
      if FirstWithFlash(cams) == Some(id) {
        assert ChosenAt(cams, 0);
      }
      assert forall k :: ChosenAt(cams, k) ==> k == 0;
    } else {
      var tail := cams[1..];
      FirstWithFlashChosen(tail, id);
      if FirstWithFlash(cams) == Some(id) {
        var k :| ChosenAt(tail, k) && tail[k].id == id;
        assert ChosenAt(cams, k + 1) by {
          forall j | 0 <= j < k + 1 ensures cams[j].readable && !cams[j].flashAvailable {
            if j > 0 { assert cams[j] == tail[j - 1]; }
          }
        }
      }
      forall k | ChosenAt(cams, k) && cams[k].id == id ensures FirstWithFlash(tail) == Some(id) {
        assert k > 0;
        assert ChosenAt(tail, k - 1) by {
          forall j | 0 <= j < k - 1 ensures tail[j].readable && !tail[j].flashAvailable {
            assert tail[j] == cams[j + 1];
          }
        }
        assert tail[k - 1] == cams[k];
      }
    }
  }

  /**
   * `findCameraWithFlash`: walk the camera list and stop at the first camera
   * whose characteristics report a flash; a throwing list or query leaves no
   * camera chosen.
   */
  method FindCameraWithFlash(d: Device) returns (id: Option<CameraId>)
    ensures id == if d.listFails then None else FirstWithFlash(d.cameras)
  {
    if d.listFails {
      return None;
    }
    var i := 0;
    while i < |d.cameras|
      invariant 0 <= i <= |d.cameras|
      invariant FirstWithFlash(d.cameras[i..]) == FirstWithFlash(d.cameras)
    {
      var c := d.cameras[i];
      assert d.cameras[i..][0] == c && d.cameras[i..][1..] == d.cameras[i + 1..];
      if !c.readable {
        return None;
      }
      if c.flashAvailable {
        return Some(c.id);
      }
      i := i + 1;
    }
    return None;
  }

  /** The torch unit shared by the widget, the activity and the foreground service. */
  class Torch {
    var mode: TorchMode

    constructor ()
      ensures mode == Off
    {
      mode := Off;
    }

    /** `setTorchMode(id, enabled)`; `ok == false` stands for the exception it throws. */
    method SetTorchMode(d: Device, id: CameraId, enabled: bool) returns (ok: bool)
      modifies this
      ensures ok == Accepts(d, id, if enabled then OnDefault else Off)
      ensures mode == if ok then (if enabled then OnDefault else Off) else old(mode)
    {
      ok := Accepts(d, id, if enabled then OnDefault else Off);
      if ok {
        mode := if enabled then OnDefault else Off;
      }
    }

    /** `turnOnTorchWithStrengthLevel(id, level)`; `ok == false` stands for the exception it throws. */
    method TurnOnTorchWithStrengthLevel(d: Device, id: CameraId, level: int) returns (ok: bool)
      modifies this
      ensures ok == Accepts(d, id, OnAt(level))
      ensures mode == if ok then OnAt(level) else old(mode)
    {
      ok := Accepts(d, id, OnAt(level));
      if ok {
        mode := OnAt(level);
      }
    }
  }

  /** The persisted `is_flashlight_on` flag; `getBoolean(..., false)` reads false before any write. */
  class FlagStore {
    var isOn: bool

    constructor ()
      ensures !isOn
    {
      isOn := false;
    }
  }

  /** The foreground service's process-wide `isServiceRunning` flag. */
  class ServiceStatus {
    var isServiceRunning: bool

    constructor ()
      ensures !isServiceRunning
    {
      isServiceRunning := false;
    }
  }
}
