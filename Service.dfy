/**
 * The foreground service that keeps the torch lit while the app is in the
 * background: the ACTION_START / ACTION_STOP commands, the process-wide
 * running flag, and the torch-off safety net on teardown. Hardware exceptions
 * are swallowed here and never reach the running flag.
 */
module Service {
  import opened Wrappers
  import opened Platform
  import opened Brightness
  import opened WidgetView
  import opened Widget
  import opened Activity

  const ACTION_START: string := "com.chojiwoong.noadsflashlight.ACTION_START"
  const ACTION_STOP: string := "com.chojiwoong.noadsflashlight.ACTION_STOP"

  /** Service.START_NOT_STICKY */
  const START_NOT_STICKY: int := 2

  /**
   * The service's `turnOnFlashlight(b)`: the same request the activity makes
   * for `b` (a strength level on API 33+, plain on below), except that a
   * throwing query or torch call is caught and leaves the torch as it was.
   * The brightness extra is used as sent, without clamping.
   */
  function ServiceTorchOn(cameraId: Option<CameraId>, mode: TorchMode, b: real, d: Device): (m: TorchMode)
    ensures cameraId.None? ==> m == mode
    ensures m == mode || (cameraId.Some? && OnTarget(d, cameraId, b) == Returns(m) && m.IsOn())
    ensures cameraId.Some? && OnTarget(d, cameraId, b).Returns? && Accepts(d, cameraId.value, OnTarget(d, cameraId, b).value) ==>
      m == OnTarget(d, cameraId, b).value
    ensures cameraId.Some? && OnTarget(d, cameraId, b).Returns? && !Accepts(d, cameraId.value, OnTarget(d, cameraId, b).value) ==>
      m == mode
    ensures OnTarget(d, cameraId, b).Throws? ==> m == mode
  {
    match cameraId
    case None => mode
    case Some(id) =>
      match OnTarget(d, cameraId, b)
      case Throws => mode
      case Returns(t) => if Accepts(d, id, t) then t else mode
  }

  /** The service's `turnOffFlashlight`: off, unless there is no camera or the call throws (caught). */
  function ServiceTorchOff(cameraId: Option<CameraId>, mode: TorchMode, d: Device): (m: TorchMode)
    ensures m == Off || m == mode
    ensures cameraId.Some? && Accepts(d, cameraId.value, Off) ==> m == Off
    ensures cameraId.Some? && !Accepts(d, cameraId.value, Off) ==> m == mode
    ensures cameraId.None? ==> m == mode
  {
    match cameraId
    case None => mode
    case Some(id) => if Accepts(d, id, Off) then Off else mode
  }

  /**
   * The service does not clamp: on API 33 with a maximum of 5, an extra of
   * 2.0 asks for level 10, which the torch refuses (the exception is caught),
   * while the clamped 1.0 would have lit it at level 5.
   */
  lemma ServiceDoesNotClamp()
    ensures
      var d := Device(33, false, [Camera("0", true, true, Some(5))], false);
      ServiceTorchOn(Some("0"), Off, 2.0, d) == Off && ServiceTorchOn(Some("0"), Off, Clamp(2.0), d) == OnAt(5)
  {
    assert TruncToInt(2.0 * 5 as real) == 10;
    assert TruncToInt(1.0 * 5 as real) == 5;
  }

  /** The running flag and the torch, as the service leaves them. */
  datatype Keeper = Keeper(running: bool, mode: TorchMode)

  /**
   * `onStartCommand`: ACTION_START marks the service running, then lights the
   * torch with the brightness extra (1.0 when absent); ACTION_STOP turns the
   * torch off, then clears the flag; a null or unknown action changes nothing.
   */
  function StartCommand(action: Option<string>, brightness: Option<real>, k: Keeper, cameraId: Option<CameraId>, d: Device): (r: Keeper)
    ensures action == Some(ACTION_START) ==>
      r.running && r.mode == ServiceTorchOn(cameraId, k.mode, brightness.GetOr(1.0), d)
    ensures action == Some(ACTION_STOP) ==> !r.running && r.mode == ServiceTorchOff(cameraId, k.mode, d)
    ensures action != Some(ACTION_START) && action != Some(ACTION_STOP) ==> r == k
  {
    if action == Some(ACTION_START) then Keeper(true, ServiceTorchOn(cameraId, k.mode, brightness.GetOr(1.0), d))
    else if action == Some(ACTION_STOP) then Keeper(false, ServiceTorchOff(cameraId, k.mode, d))
    else k
  }

  /** The intent a request becomes: its action and its brightness extra. */
  function IntentAction(req: ServiceRequest): Option<string>
  {
    match req
    case StartService(_) => Some(ACTION_START)
    case StopService => Some(ACTION_STOP)
  }

  function IntentBrightness(req: ServiceRequest): Option<real>
  {
    match req
    case StartService(b) => Some(b)
    case StopService => None
  }

  /** The service's state after it handles `req`. */
  function Deliver(req: ServiceRequest, k: Keeper, cameraId: Option<CameraId>, d: Device): (r: Keeper)
    ensures r.running <==> req.StartService?
    ensures req.StartService? ==> r.mode == ServiceTorchOn(cameraId, k.mode, req.brightness, d)
    ensures req.StopService? ==> r.mode == ServiceTorchOff(cameraId, k.mode, d)
  {
    StartCommand(IntentAction(req), IntentBrightness(req), k, cameraId, d)
  }

  /**
   * The activity's start request relights the torch at the level the activity
   * chose: a service on the same camera computes the same torch mode, and it
   * ends up running.
   */
  lemma ServiceRepeatsActivityTurnOn(c: Controller, mode: TorchMode, b: real, d: Device, k: Keeper)
    requires !TurnOnStep(c, mode, b, d).threw && c.cameraId.Some?
    ensures
      var r := TurnOnStep(c, mode, b, d);
      Deliver(r.request.value, k, c.cameraId, d) == Keeper(true, r.mode)
  {
  }

  /**
   * The activity's stop request leaves the service stopped with the torch
   * off, matching the activity's flag: the running flag follows the torch.
   */
  lemma ServiceRepeatsActivityTurnOff(c: Controller, mode: TorchMode, d: Device, k: Keeper)
    requires !TurnOffStep(c, mode, d).threw && c.cameraId.Some?
    ensures
      var r := TurnOffStep(c, mode, d);
      Deliver(r.request.value, k, c.cameraId, d) == Keeper(false, Off) && !r.ctl.isOn
  {
  }

  /**
   * The flashlight widget asks the service for brightness 1.0; on API 33+ a
   * service on the same camera then lights the torch at the same maximum level
   * the widget chose.
   */
  lemma ServiceRepeatsWidgetTurnOn(cached: Option<CameraId>, mode: TorchMode, d: Device, k: Keeper)
    requires WellFormed(d) && d.sdk >= SDK_TIRAMISU
    requires Toggle(FlashlightApp, cached, false, mode, d).ok
    requires
      var id := Toggle(FlashlightApp, cached, false, mode, d).cameraId;
      GetMaxTorchStrength(d, id).Returns?
    ensures
      var r := Toggle(FlashlightApp, cached, false, mode, d);
      r.request == Some(StartService(1.0)) && Deliver(r.request.value, k, r.cameraId, d) == Keeper(true, r.mode)
  {
    var r := Toggle(FlashlightApp, cached, false, mode, d);
    var id := r.cameraId.value;
    WellFormedMaxLevel(d, id);
    StrengthLevelFull(MaxLevel(d, id));
    assert Clamp(1.0) == 1.0;
  }

  /**
   * The foreground service: its camera id, wired to the process-wide running
   * flag and the shared torch.
   */
  class FlashlightForegroundService {
    const status: ServiceStatus
    const torch: Torch
    var cameraId: Option<CameraId>

    /** `onCreate`: resolve the first camera with a flash (the notification channel is not modelled). */
    constructor OnCreate(d: Device, status: ServiceStatus, torch: Torch)
      ensures this.status == status && this.torch == torch
      ensures cameraId == (if d.listFails then None else FirstWithFlash(d.cameras))
    {
      this.status := status;
      this.torch := torch;
      var id := FindCameraWithFlash(d);
      cameraId := id;
    }

    /** `onStartCommand`; every call answers START_NOT_STICKY. */
    method OnStartCommand(action: Option<string>, brightness: Option<real>, d: Device) returns (r: int)
      modifies status, torch
      ensures r == START_NOT_STICKY
      ensures Keeper(status.isServiceRunning, torch.mode) ==
        StartCommand(action, brightness, Keeper(old(status.isServiceRunning), old(torch.mode)), cameraId, d)
    {
      if action == Some(ACTION_START) {
        var b := brightness.GetOr(1.0);
        StartForegroundService();
        TurnOnFlashlight(b, d);
      } else if action == Some(ACTION_STOP) {
        TurnOffFlashlight(d);
        StopForegroundService();
      }
      return START_NOT_STICKY;
    }

    /** `onDestroy`: always asks for the torch off and clears the running flag. */
    method OnDestroy(d: Device)
      modifies status, torch
      ensures !status.isServiceRunning
      ensures torch.mode == ServiceTorchOff(cameraId, old(torch.mode), d)
    {
      TurnOffFlashlight(d);
      status.isServiceRunning := false;
    }

    /** `startForegroundService`, reduced to the running flag (the notification is not modelled). */
    method StartForegroundService()
      modifies status
      ensures status.isServiceRunning
    {
      status.isServiceRunning := true;
    }

    /** `stopForegroundService`, reduced to the running flag. */
    method StopForegroundService()
      modifies status
      ensures !status.isServiceRunning
    {
      status.isServiceRunning := false;
    }

    /** `turnOnFlashlight(brightness)`; exceptions are caught inside. */
    method TurnOnFlashlight(b: real, d: Device)
      modifies torch
      ensures torch.mode == ServiceTorchOn(cameraId, old(torch.mode), b, d)
    {
      if cameraId.None? {
        return;
      }
      var id := cameraId.value;
      if d.sdk >= SDK_TIRAMISU {
        var maxStrength := GetMaxTorchStrength(d, cameraId);
        if maxStrength.Throws? {
          return;
        }
        var strengthLevel := StrengthLevel(b, maxStrength.value);
        var _ := torch.TurnOnTorchWithStrengthLevel(d, id, strengthLevel);
      } else {
        var _ := torch.SetTorchMode(d, id, true);
      }
    }

    /** `turnOffFlashlight`; exceptions are caught inside. */
    method TurnOffFlashlight(d: Device)
      modifies torch
      ensures torch.mode == ServiceTorchOff(cameraId, old(torch.mode), d)
    {
      if cameraId.None? {
        return;
      }
      var _ := torch.SetTorchMode(d, cameraId.value, false);
    }
  }
}
