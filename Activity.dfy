/**
 * The Flutter-facing activity of both app variants: the torch controller
 * (`turnOnFlashlight`, `turnOffFlashlight`, `setBrightness`), the method-call
 * bridge, and, in the com.chojiwoong.flashligth activity, the torch callback
 * and the event stream that replays the current state on subscription.
 */
module Activity {
  import opened Wrappers
  import opened Platform
  import opened Brightness
  import opened WidgetView

  /** The activity's fields `cameraId`, `isFlashlightOn` and `currentBrightness`. */
  datatype Controller = Controller(cameraId: Option<CameraId>, isOn: bool, brightness: real)

  /**
   * What one controller call does: whether it threw (to be turned into `false`
   * by the bridge), the controller and torch afterwards, and the request sent
   * to the foreground service.
   */
  datatype Step = Step(threw: bool, ctl: Controller, mode: TorchMode, request: Option<ServiceRequest>)

  /** The torch mode `turnOnFlashlight` asks for, when the strength query does not throw. */
  function OnTarget(d: Device, cameraId: Option<CameraId>, brightness: real): (t: Call<TorchMode>)
    ensures t.Throws? <==> d.sdk >= SDK_TIRAMISU && GetMaxTorchStrength(d, cameraId).Throws?
    ensures t.Returns? ==> t.value.IsOn() && (t.value.OnAt? <==> d.sdk >= SDK_TIRAMISU)
    ensures WellFormed(d) && cameraId.Some? && t.Returns? && t.value.OnAt? && 0.0 <= brightness <= 1.0 ==>
      1 <= t.value.level <= MaxLevel(d, cameraId.value)
    ensures t.Returns? && t.value.OnAt? ==>
      t.value.level == StrengthLevel(brightness, if cameraId.Some? then MaxLevel(d, cameraId.value) else 1)
  {
    if d.sdk < SDK_TIRAMISU then Returns(OnDefault)
    else match GetMaxTorchStrength(d, cameraId)
      case Throws => Throws
      case Returns(max) =>
        if WellFormed(d) && cameraId.Some? && 0.0 <= brightness <= 1.0 then
          WellFormedMaxLevel(d, cameraId.value);
          StrengthLevelInRange(brightness, max);
          Returns(OnAt(StrengthLevel(brightness, max)))
        else
          Returns(OnAt(StrengthLevel(brightness, max)))
  }

  /**
   * `turnOnFlashlight(b)`: without a camera nothing happens. Otherwise the
   * clamped brightness is stored first; then the strength query (API 33+) and
   * the torch call may throw, leaving the on flag, the torch and the service
   * as they were; on success the flag is set and the service is started with
   * the clamped brightness.
   */
  function TurnOnStep(c: Controller, mode: TorchMode, b: real, d: Device): (r: Step)
    ensures c.cameraId.None? ==> r == Step(false, c, mode, None)
    ensures r.ctl.cameraId == c.cameraId
    ensures c.cameraId.Some? ==> r.ctl.brightness == Clamp(b)
    ensures r.threw <==>
      (c.cameraId.Some? &&
       (OnTarget(d, c.cameraId, Clamp(b)).Throws? || !Accepts(d, c.cameraId.value, OnTarget(d, c.cameraId, Clamp(b)).value)))
    ensures c.cameraId.Some? && !r.threw ==>
      && r.ctl.isOn
      && r.mode == OnTarget(d, c.cameraId, Clamp(b)).value
      && r.request == Some(StartService(Clamp(b)))
    ensures r.threw ==> r.ctl.isOn == c.isOn && r.mode == mode && r.request.None?
  {
    match c.cameraId
    case None => Step(false, c, mode, None)
    case Some(id) =>
      var bright := Clamp(b);
      var stored := c.(brightness := bright);
      match OnTarget(d, c.cameraId, bright)
      case Throws => Step(true, stored, mode, None)
      case Returns(target) =>
        if Accepts(d, id, target) then Step(false, stored.(isOn := true), target, Some(StartService(bright)))
        else Step(true, stored, mode, None)
  }

  /**
   * `turnOffFlashlight`: without a camera nothing happens; otherwise a torch
   * call that throws changes nothing, and a successful one clears the flag and
   * stops the service.
   */
  function TurnOffStep(c: Controller, mode: TorchMode, d: Device): (r: Step)
    ensures c.cameraId.None? ==> r == Step(false, c, mode, None)
    ensures r.ctl.cameraId == c.cameraId && r.ctl.brightness == c.brightness
    ensures r.threw <==> c.cameraId.Some? && !Accepts(d, c.cameraId.value, Off)
    ensures c.cameraId.Some? && !r.threw ==> !r.ctl.isOn && r.mode == Off && r.request == Some(StopService)
    ensures r.threw ==> r == Step(true, c, mode, None)
  {
    match c.cameraId
    case None => Step(false, c, mode, None)
    case Some(id) =>
      if Accepts(d, id, Off) then Step(false, c.(isOn := false), Off, Some(StopService))
      else Step(true, c, mode, None)
  }

  /**
   * `setBrightness(b)`: while on it is `turnOnFlashlight(b)`; while off it only
   * stores the clamped brightness, with no torch call and no service request.
   */
  function SetBrightnessStep(c: Controller, mode: TorchMode, b: real, d: Device): (r: Step)
    ensures c.isOn ==> r == TurnOnStep(c, mode, b, d)
    ensures !c.isOn ==> r == Step(false, c.(brightness := Clamp(b)), mode, None)
  {
    if c.isOn then TurnOnStep(c, mode, b, d)
    else Step(false, c.(brightness := Clamp(b)), mode, None)
  }

  /**
   * Below API 33 brightness is ignored: `turnOn(0.3)` on a working torch makes
   * the plain on call and reports the flashlight on.
   */
  lemma TurnOnIgnoresBrightnessBeforeTiramisu(c: Controller, mode: TorchMode, d: Device)
    requires c.cameraId.Some? && d.sdk < SDK_TIRAMISU && Accepts(d, c.cameraId.value, OnDefault)
    ensures
      var r := TurnOnStep(c, mode, 0.3, d);
      !r.threw && r.ctl.isOn && r.mode == OnDefault && r.ctl.brightness == 0.3
  {
  }

  /**
   * On a working torch, turning on never throws: the level it asks for lies in
   * [1, MaxLevel] and grows with the brightness.
   */
  lemma TurnOnSucceedsOnWorkingTorch(c: Controller, mode: TorchMode, b: real, d: Device)
    requires c.cameraId.Some? && WellFormed(d) && !d.torchFails && HasFlashUnit(d, c.cameraId.value)
    requires Lookup(d.cameras, c.cameraId.value).value.readable
    ensures !TurnOnStep(c, mode, b, d).threw && TurnOnStep(c, mode, b, d).ctl.isOn
    ensures d.sdk >= SDK_TIRAMISU ==>
      TurnOnStep(c, mode, b, d).mode == OnAt(StrengthLevel(Clamp(b), MaxLevel(d, c.cameraId.value)))
  {
    var id := c.cameraId.value;
    if d.sdk >= SDK_TIRAMISU {
      WellFormedMaxLevel(d, id);
      StrengthLevelInRange(Clamp(b), MaxLevel(d, id));
    }
  }

  /** Turning off twice is turning off once: the second call sends only another stop request. */
  lemma TurnOffIdempotent(c: Controller, mode: TorchMode, d: Device)
    requires c.cameraId.None? ==> !c.isOn
    requires !TurnOffStep(c, mode, d).threw
    ensures
      var r1 := TurnOffStep(c, mode, d);
      var r2 := TurnOffStep(r1.ctl, r1.mode, d);
      && !r2.threw && !r1.ctl.isOn && r2.ctl == r1.ctl && r2.mode == r1.mode
      && (r2.request.None? || r2.request == Some(StopService))
  {
  }

  /** The service is asked to start exactly when a call turns the torch on, and to stop exactly when it turns it off. */
  lemma ServiceFollowsTorch(c: Controller, mode: TorchMode, b: real, d: Device)
    ensures TurnOnStep(c, mode, b, d).request.Some? <==> c.cameraId.Some? && !TurnOnStep(c, mode, b, d).threw
    ensures TurnOffStep(c, mode, d).request.Some? <==> c.cameraId.Some? && !TurnOffStep(c, mode, d).threw
    ensures TurnOnStep(c, mode, b, d).request.Some? ==> TurnOnStep(c, mode, b, d).ctl.isOn
    ensures TurnOffStep(c, mode, d).request.Some? ==> !TurnOffStep(c, mode, d).ctl.isOn
  {
  }

  /** A call over the method channel: its name and its optional `brightness` argument. */
  datatype MethodCall = MethodCall(name: string, brightness: Option<real>)

  /** `result.success(value)` or `result.notImplemented()` */
  datatype Reply = Success(value: bool) | NotImplemented

  /** `call.argument<Double>("brightness") ?: 1.0f` */
  function BrightnessArgument(call: MethodCall): (b: real)
    ensures call.brightness.None? ==> b == 1.0
    ensures call.brightness.Some? ==> b == call.brightness.value
  {
    call.brightness.GetOr(1.0)
  }

  /**
   * The MainActivity of either variant. `torch`, `store` and `host` are the
   * shared torch, flag store and widget host; `variant` names the widget it
   * renders. `sinkAttached` and `events` model the flashligth activity's event
   * channel: whether a subscriber's sink is held and what was emitted to it.
   */
  class MainActivity {
    const variant: Variant
    const store: FlagStore
    const torch: Torch
    const host: WidgetHost
    var cameraId: Option<CameraId>
    var isFlashlightOn: bool
    var currentBrightness: real
    var serviceRequests: seq<ServiceRequest>
    var sinkAttached: bool
    var events: seq<bool>

    /** The stored brightness is always clamped, and without a camera the flashlight is never on. */
    ghost predicate Valid()
      reads this
    {
      0.0 <= currentBrightness <= 1.0 && (cameraId.None? ==> !isFlashlightOn)
    }

    function State(): Controller
      reads this
    {
      Controller(cameraId, isFlashlightOn, currentBrightness)
    }

    /** `onCreate`: resolve the first camera with a flash. */
    constructor OnCreate(d: Device, variant: Variant, store: FlagStore, torch: Torch, host: WidgetHost)
      ensures Valid()
      ensures this.variant == variant && this.store == store && this.torch == torch && this.host == host
      ensures cameraId == (if d.listFails then None else FirstWithFlash(d.cameras))
      ensures !isFlashlightOn && currentBrightness == 1.0
      ensures serviceRequests == [] && !sinkAttached && events == []
    {
      this.variant := variant;
      this.store := store;
      this.torch := torch;
      this.host := host;
      var id := FindCameraWithFlash(d);
      cameraId := id;
      isFlashlightOn := false;
      currentBrightness := 1.0;
      serviceRequests := [];
      sinkAttached := false;
      events := [];
    }

    /** `turnOnFlashlight`; `threw` stands for the exception it lets through. */
    method TurnOnFlashlight(b: real, d: Device) returns (threw: bool)
      requires Valid()
      modifies this, torch
      ensures Valid()
      ensures
        var r := TurnOnStep(old(State()), old(torch.mode), b, d);
        && threw == r.threw && State() == r.ctl && torch.mode == r.mode
        && serviceRequests == old(serviceRequests) + r.request.ToSeq()
      ensures sinkAttached == old(sinkAttached) && events == old(events)
    {
      if cameraId.None? {
        return false;
      }
      var id := cameraId.value;
      currentBrightness := Clamp(b);
      var accepted: bool;
      if d.sdk >= SDK_TIRAMISU {
        var max := GetMaxTorchStrength(d, cameraId);
        if max.Throws? {
          return true;
        }
        var strengthLevel := StrengthLevel(currentBrightness, max.value);
        accepted := torch.TurnOnTorchWithStrengthLevel(d, id, strengthLevel);
      } else {
        accepted := torch.SetTorchMode(d, id, true);
      }
      if !accepted {
        return true;
      }
      isFlashlightOn := true;
      serviceRequests := serviceRequests + [StartService(currentBrightness)];
      return false;
    }

    /** `turnOffFlashlight`; `threw` stands for the exception it lets through. */
    method TurnOffFlashlight(d: Device) returns (threw: bool)
      requires Valid()
      modifies this, torch
      ensures Valid()
      ensures
        var r := TurnOffStep(old(State()), old(torch.mode), d);
        && threw == r.threw && State() == r.ctl && torch.mode == r.mode
        && serviceRequests == old(serviceRequests) + r.request.ToSeq()
      ensures sinkAttached == old(sinkAttached) && events == old(events)
    {
      if cameraId.None? {
        return false;
      }
      var accepted := torch.SetTorchMode(d, cameraId.value, false);
      if !accepted {
        return true;
      }
      isFlashlightOn := false;
      serviceRequests := serviceRequests + [StopService];
      return false;
    }

    /** `setBrightness`; `threw` stands for the exception it lets through. */
    method SetBrightness(b: real, d: Device) returns (threw: bool)
      requires Valid()
      modifies this, torch
      ensures Valid()
      ensures
        var r := SetBrightnessStep(old(State()), old(torch.mode), b, d);
        && threw == r.threw && State() == r.ctl && torch.mode == r.mode
        && serviceRequests == old(serviceRequests) + r.request.ToSeq()
      ensures sinkAttached == old(sinkAttached) && events == old(events)
    {
      if isFlashlightOn {
        threw := TurnOnFlashlight(b, d);
      } else {
        currentBrightness := Clamp(b);
        threw := false;
      }
    }

    /** `updateAllWidgets`: re-render the provider's instances `ids` from the persisted flag. */
    method UpdateAllWidgets(ids: seq<int>)
      modifies host`views
      ensures host.views == RenderAll(old(host.views), variant, store.isOn, host.options, ids)
    {
      if |ids| > 0 {
        host.UpdateAll(variant, store.isOn, ids);
      }
    }

    /** `onPause`: the app goes to the background; the widgets are re-rendered. */
    method OnPause(ids: seq<int>)
      modifies host`views
      ensures host.views == RenderAll(old(host.views), variant, store.isOn, host.options, ids)
    {
      UpdateAllWidgets(ids);
    }

    /** `onResume`: the app comes to the foreground; the widgets are re-rendered. */
    method OnResume(ids: seq<int>)
      modifies host`views
      ensures host.views == RenderAll(old(host.views), variant, store.isOn, host.options, ids)
    {
      UpdateAllWidgets(ids);
    }

    /**
     * The method-call handler: `isAvailable` answers whether a flash camera was
     * found; `turnOn`, `turnOff` and `setBrightness` answer false exactly when
     * the controller threw (a missing brightness is 1.0); `updateWidget`
     * re-renders the instances `ids`; any other name is not implemented and
     * changes nothing.
     */
    method OnMethodCall(call: MethodCall, d: Device, ids: seq<int>) returns (reply: Reply)
      requires Valid()
      modifies this, torch, host`views
      ensures Valid()
      ensures sinkAttached == old(sinkAttached) && events == old(events)
      ensures call.name == "isAvailable" ==>
        reply == Success(cameraId.Some?) && unchanged(this, torch) && host.views == old(host.views)
      ensures call.name == "turnOn" ==>
        var r := TurnOnStep(old(State()), old(torch.mode), BrightnessArgument(call), d);
        && reply == Success(!r.threw) && State() == r.ctl && torch.mode == r.mode
        && serviceRequests == old(serviceRequests) + r.request.ToSeq() && host.views == old(host.views)
      ensures call.name == "turnOff" ==>
        var r := TurnOffStep(old(State()), old(torch.mode), d);
        && reply == Success(!r.threw) && State() == r.ctl && torch.mode == r.mode
        && serviceRequests == old(serviceRequests) + r.request.ToSeq() && host.views == old(host.views)
      ensures call.name == "setBrightness" ==>
        var r := SetBrightnessStep(old(State()), old(torch.mode), BrightnessArgument(call), d);
        && reply == Success(!r.threw) && State() == r.ctl && torch.mode == r.mode
        && serviceRequests == old(serviceRequests) + r.request.ToSeq() && host.views == old(host.views)
      ensures call.name == "updateWidget" ==>
        reply == Success(true) && unchanged(this, torch)
        && host.views == RenderAll(old(host.views), variant, store.isOn, host.options, ids)
      ensures call.name !in {"isAvailable", "turnOn", "turnOff", "setBrightness", "updateWidget"} ==>
        reply == NotImplemented && unchanged(this, torch) && host.views == old(host.views)
    {
      if call.name == "isAvailable" {
        reply := Success(cameraId.Some?);
      } else if call.name == "turnOn" {
        var threw := TurnOnFlashlight(BrightnessArgument(call), d);
        reply := Success(!threw);
      } else if call.name == "turnOff" {
        var threw := TurnOffFlashlight(d);
        reply := Success(!threw);
      } else if call.name == "setBrightness" {
        var threw := SetBrightness(BrightnessArgument(call), d);
        reply := Success(!threw);
      } else if call.name == "updateWidget" {
        UpdateAllWidgets(ids);
        reply := Success(true);
      } else {
        reply := NotImplemented;
      }
    }

    /**
     * `torchCallback.onTorchModeChanged`: a change on the tracked camera sets
     * the flag, emits it to a held sink and, when the torch went off, asks the
     * service to stop; a change on any other camera is ignored.
     */
    method OnTorchModeChanged(id: CameraId, enabled: bool)
      requires Valid()
      modifies this
      ensures Valid()
      ensures cameraId != Some(id) ==> unchanged(this)
      ensures cameraId == Some(id) ==>
        && cameraId == old(cameraId) && currentBrightness == old(currentBrightness)
        && isFlashlightOn == enabled
        && sinkAttached == old(sinkAttached)
        && events == old(events) + (if sinkAttached then [enabled] else [])
        && serviceRequests == old(serviceRequests) + (if enabled then [] else [StopService])
    {
      if cameraId == Some(id) {
        isFlashlightOn := enabled;
        if sinkAttached {
          events := events + [enabled];
        }
        if !enabled {
          serviceRequests := serviceRequests + [StopService];
        }
      }
    }

    /** `onListen`: hold the new sink and emit the current state to it once, at once. */
    method OnListen()
      modifies this`sinkAttached, this`events
      ensures sinkAttached && events == old(events) + [isFlashlightOn]
    {
      sinkAttached := true;
      events := events + [isFlashlightOn];
    }

    /** `onCancel`: drop the sink; nothing is emitted. */
    method OnCancel()
      modifies this`sinkAttached
      ensures !sinkAttached
    {
      sinkAttached := false;
    }
  }

  /**
   * A subscriber sees the current state first, whatever was emitted before;
   * after it cancels, a torch change still updates the flag but emits nothing.
   */
  method SubscriptionScenario(a: MainActivity, id: CameraId)
    requires a.Valid() && a.cameraId == Some(id)
    modifies a
    ensures a.events == old(a.events) + [old(a.isFlashlightOn), false]
    ensures !a.isFlashlightOn && !a.sinkAttached
  {
    a.OnListen();
    a.OnTorchModeChanged(id, false);
    a.OnCancel();
    a.OnTorchModeChanged(id, true);
    a.OnTorchModeChanged(id, false);
  }
}
