/**
 * The home-screen widget provider of both app variants: the toggle broadcast,
 * the torch toggle with its lazily cached camera id, the persisted flag, the
 * re-rendering of every instance after a successful toggle, and `onDisabled`.
 */
module Widget {
  import opened Wrappers
  import opened Platform
  import opened WidgetView

  /**
   * The camera id after the lazy lookup in `toggleFlashlight`: a cached id is
   * kept for the life of the process; otherwise the first listed camera
   * (whether or not it has a flash) is taken, and a throwing or empty list
   * leaves none.
   */
  function ResolveCamera(cached: Option<CameraId>, d: Device): (r: Option<CameraId>)
    ensures cached.Some? ==> r == cached
    ensures cached.None? && !d.listFails && |d.cameras| > 0 ==> r == Some(d.cameras[0].id)
    ensures cached.None? && (d.listFails || |d.cameras| == 0) ==> r.None?
  {
    if cached.Some? then cached
    else if d.listFails || |d.cameras| == 0 then None
    else Some(d.cameras[0].id)
  }

  /** Once resolved, the id never changes, whatever the device reports later. */
  lemma ResolveCameraCached(cached: Option<CameraId>, d1: Device, d2: Device)
    requires ResolveCamera(cached, d1).Some?
    ensures ResolveCamera(ResolveCamera(cached, d1), d2) == ResolveCamera(cached, d1)
  {
  }

  /**
   * The widget's `getMaxTorchStrength`: the reported maximum level, or 1 below
   * API 33, without a camera id, or when the query throws (it is caught here).
   */
  function WidgetMaxStrength(d: Device, cameraId: Option<CameraId>): (m: int)
    ensures d.sdk < SDK_TIRAMISU || cameraId.None? ==> m == 1
    ensures GetMaxTorchStrength(d, cameraId).Throws? ==> m == 1
    ensures d.sdk >= SDK_TIRAMISU && cameraId.Some? && GetMaxTorchStrength(d, cameraId).Returns? ==>
      m == MaxLevel(d, cameraId.value)
  {
    GetMaxTorchStrength(d, cameraId).GetOr(1)
  }

  /**
   * The torch mode a widget toggle asks for when the flag reads `isOn`: off
   * when on; when off, the maximum strength level on API 33+ in a variant that
   * forces it, else plain `setTorchMode(id, true)`. The stored brightness plays
   * no part.
   */
  function WidgetTarget(v: Variant, isOn: bool, d: Device, cameraId: Option<CameraId>): (t: TorchMode)
    ensures t.IsOn() == !isOn
    ensures t.OnAt? <==> !isOn && v.widgetForcesMaxStrength && d.sdk >= SDK_TIRAMISU
    ensures t.OnAt? ==> t.level == WidgetMaxStrength(d, cameraId)
  {
    if isOn then Off
    else if v.widgetForcesMaxStrength && d.sdk >= SDK_TIRAMISU then OnAt(WidgetMaxStrength(d, cameraId))
    else OnDefault
  }

  /** What one `toggleFlashlight` call returns and leaves behind. */
  datatype Toggled = Toggled(
    ok: bool,
    cameraId: Option<CameraId>,
    isOn: bool,
    mode: TorchMode,
    request: Option<ServiceRequest>)

  /**
   * `toggleFlashlight`: with a camera id and API 23+, ask the torch for the
   * negation of the persisted flag; only when the torch accepts is the negated
   * flag written and (in a variant that keeps a service) the service started
   * with brightness 1.0 or stopped. Every failure returns false with the flag,
   * the torch and the service untouched; only the camera cache may be filled.
   */
  function Toggle(v: Variant, cached: Option<CameraId>, isOn: bool, mode: TorchMode, d: Device): (r: Toggled)
    ensures r.cameraId == ResolveCamera(cached, d)
    ensures r.ok <==>
      r.cameraId.Some? && d.sdk >= SDK_M && Accepts(d, r.cameraId.value, WidgetTarget(v, isOn, d, r.cameraId))
    ensures r.ok ==> r.isOn == !isOn && r.mode == WidgetTarget(v, isOn, d, r.cameraId) && r.mode.IsOn() == r.isOn
    ensures !r.ok ==> r.isOn == isOn && r.mode == mode && r.request.None?
    ensures r.ok && v.widgetStartsService ==> r.request == Some(if r.isOn then StartService(1.0) else StopService)
    ensures !v.widgetStartsService ==> r.request.None?
  {
    var id := ResolveCamera(cached, d);
    if id.None? || d.sdk < SDK_M then Toggled(false, id, isOn, mode, None)
    else
      var target := WidgetTarget(v, isOn, d, id);
      if !Accepts(d, id.value, target) then Toggled(false, id, isOn, mode, None)
      else
        var request := if v.widgetStartsService then Some(if target.IsOn() then StartService(1.0) else StopService) else None;
        Toggled(true, id, !isOn, target, request)
  }

  /** Two successful toggles restore the persisted flag and the torch's on/off state. */
  lemma ToggleTwiceRestores(v: Variant, cached: Option<CameraId>, isOn: bool, mode: TorchMode, d1: Device, d2: Device)
    requires Toggle(v, cached, isOn, mode, d1).ok
    requires
      var r1 := Toggle(v, cached, isOn, mode, d1);
      Toggle(v, r1.cameraId, r1.isOn, r1.mode, d2).ok
    ensures
      var r1 := Toggle(v, cached, isOn, mode, d1);
      var r2 := Toggle(v, r1.cameraId, r1.isOn, r1.mode, d2);
      r2.isOn == isOn && r2.mode.IsOn() == isOn && r2.cameraId == r1.cameraId
  {
  }

  /**
   * On a device whose first camera has a working flash and whose torch does
   * not refuse, the toggle succeeds from API 23 on, in both directions and in
   * both variants.
   */
  lemma ToggleSucceedsOnWorkingTorch(v: Variant, isOn: bool, mode: TorchMode, d: Device)
    requires WellFormed(d) && !d.listFails && |d.cameras| > 0 && !d.torchFails && d.sdk >= SDK_M
    requires d.cameras[0].flashAvailable
    ensures Toggle(v, None, isOn, mode, d).ok
  {
    var id := d.cameras[0].id;
    assert Lookup(d.cameras, id) == Some(d.cameras[0]);
    var target := WidgetTarget(v, isOn, d, Some(id));
    if target.OnAt? {
      WellFormedMaxLevel(d, id);
      assert target.level == 1 || target.level == MaxLevel(d, id);
    }
  }

  /**
   * The widget takes the first listed camera even when it has no flash, so a
   * torch on the second camera, which the activity finds, cannot be toggled
   * from the widget.
   */
  lemma WidgetIgnoresFlashCapability(v: Variant)
    ensures
      var d := Device(34, false, [Camera("0", true, false, None), Camera("1", true, true, Some(5))], false);
      FirstWithFlash(d.cameras) == Some("1") && !Toggle(v, None, false, Off, d).ok
  {
    var d := Device(34, false, [Camera("0", true, false, None), Camera("1", true, true, Some(5))], false);
    assert Lookup(d.cameras, "0") == Some(d.cameras[0]);
  }

  /** The widget broadcasts `AppWidgetProvider.onReceive` hands on to the provider's own callbacks. */
  const ACTION_APPWIDGET_UPDATE: string := "android.appwidget.action.APPWIDGET_UPDATE"
  const ACTION_APPWIDGET_OPTIONS_CHANGED: string := "android.appwidget.action.APPWIDGET_OPTIONS_CHANGED"
  const ACTION_APPWIDGET_DISABLED: string := "android.appwidget.action.APPWIDGET_DISABLED"

  predicate FrameworkAction(action: string)
  {
    action == ACTION_APPWIDGET_UPDATE || action == ACTION_APPWIDGET_OPTIONS_CHANGED || action == ACTION_APPWIDGET_DISABLED
  }

  /** EXTRA_APPWIDGET_ID with EXTRA_APPWIDGET_OPTIONS: the resized instance and its new size. */
  datatype Resize = Resize(id: int, size: Size)

  /**
   * A broadcast delivered to the provider: its action, the EXTRA_APPWIDGET_IDS
   * of an update, and the extras of an options change.
   */
  datatype Broadcast = Broadcast(action: string, widgetIds: seq<int>, resized: Option<Resize>)

  /** Neither variant's toggle action is one of the framework's widget actions. */
  lemma ToggleActionsAreOwn()
    ensures !FrameworkAction(FlashlightApp.toggleAction) && !FrameworkAction(NoAdsApp.toggleAction)
  {
  }

  /**
   * The widget provider (its companion object's camera cache and the service
   * requests it sends), wired to the shared flag store, torch and widget host.
   */
  class FlashlightWidget {
    const variant: Variant
    const store: FlagStore
    const torch: Torch
    const host: WidgetHost
    var cameraId: Option<CameraId>
    var serviceRequests: seq<ServiceRequest>

    constructor (variant: Variant, store: FlagStore, torch: Torch, host: WidgetHost)
      ensures this.variant == variant && this.store == store && this.torch == torch && this.host == host
      ensures cameraId == None && serviceRequests == []
    {
      this.variant := variant;
      this.store := store;
      this.torch := torch;
      this.host := host;
      cameraId := None;
      serviceRequests := [];
    }

    /** `toggleFlashlight` */
    method ToggleFlashlight(d: Device) returns (ok: bool)
      modifies this, store, torch
      ensures
        var r := Toggle(variant, old(cameraId), old(store.isOn), old(torch.mode), d);
        && ok == r.ok
        && cameraId == r.cameraId
        && store.isOn == r.isOn
        && torch.mode == r.mode
        && serviceRequests == old(serviceRequests) + r.request.ToSeq()
    {
      if cameraId.None? {
        if d.listFails {
          return false;
        }
        if |d.cameras| > 0 {
          cameraId := Some(d.cameras[0].id);
        }
      }
      if cameraId.None? || d.sdk < SDK_M {
        return false;
      }
      var id := cameraId.value;
      var newState := !store.isOn;
      var accepted: bool;
      if newState {
        if variant.widgetForcesMaxStrength && d.sdk >= SDK_TIRAMISU {
          var maxStrength := WidgetMaxStrength(d, cameraId);
          accepted := torch.TurnOnTorchWithStrengthLevel(d, id, maxStrength);
        } else {
          accepted := torch.SetTorchMode(d, id, true);
        }
        if !accepted {
          return false;
        }
        if variant.widgetStartsService {
          serviceRequests := serviceRequests + [StartService(1.0)];
        }
      } else {
        accepted := torch.SetTorchMode(d, id, false);
        if !accepted {
          return false;
        }
        if variant.widgetStartsService {
          serviceRequests := serviceRequests + [StopService];
        }
      }
      store.isOn := newState;
      return true;
    }

    /** `onUpdate`: re-render every listed instance from the persisted flag. */
    method OnUpdate(ids: seq<int>)
      modifies host`views
      ensures host.views == RenderAll(old(host.views), variant, store.isOn, host.options, ids)
    {
      host.UpdateAll(variant, store.isOn, ids);
    }

    /**
     * `onAppWidgetOptionsChanged`: the manager holds the instance's new size
     * options, and the resized instance is re-rendered from them.
     */
    method OnAppWidgetOptionsChanged(id: int, newOptions: Size)
      modifies host`options, host`views
      ensures host.options == old(host.options)[id := newOptions]
      ensures host.views == old(host.views)[id := Render(variant, store.isOn, newOptions)]
    {
      host.SetOptions(id, newOptions);
      host.UpdateAppWidget(variant, store.isOn, id);
    }

    /**
     * `onReceive`: `super.onReceive` first hands the framework's widget
     * broadcasts to `onUpdate` (when the update names instances),
     * `onAppWidgetOptionsChanged` (when the extras are present) and
     * `onDisabled`; then the toggle action toggles, and only a successful
     * toggle re-renders all of the provider's instances `ids`. Any other
     * action changes nothing.
     */
    method OnReceive(b: Broadcast, d: Device, ids: seq<int>)
      modifies this, store, torch, host
      ensures b.action == ACTION_APPWIDGET_UPDATE && b.action != variant.toggleAction ==>
        && unchanged(this, store, torch) && host.options == old(host.options)
        && host.views == if |b.widgetIds| > 0 then RenderAll(old(host.views), variant, store.isOn, host.options, b.widgetIds)
                         else old(host.views)
      ensures b.action == ACTION_APPWIDGET_OPTIONS_CHANGED && b.action != variant.toggleAction ==>
        && unchanged(this, store, torch)
        && (b.resized.None? ==> unchanged(host))
        && (b.resized.Some? ==>
             && host.options == old(host.options)[b.resized.value.id := b.resized.value.size]
             && host.views == old(host.views)[b.resized.value.id := Render(variant, store.isOn, b.resized.value.size)])
      ensures b.action == ACTION_APPWIDGET_DISABLED && b.action != variant.toggleAction ==>
        && unchanged(host)
        && (!old(store.isOn) ==> unchanged(this, store, torch))
        && (old(store.isOn) ==>
             var r := Toggle(variant, old(cameraId), true, old(torch.mode), d);
             && cameraId == r.cameraId
             && store.isOn == r.isOn
             && torch.mode == r.mode
             && serviceRequests == old(serviceRequests) + r.request.ToSeq())
      ensures b.action == variant.toggleAction && !FrameworkAction(b.action) ==>
        var r := Toggle(variant, old(cameraId), old(store.isOn), old(torch.mode), d);
        && cameraId == r.cameraId
        && store.isOn == r.isOn
        && torch.mode == r.mode
        && serviceRequests == old(serviceRequests) + r.request.ToSeq()
        && host.options == old(host.options)
        && host.views == if r.ok then RenderAll(old(host.views), variant, r.isOn, host.options, ids) else old(host.views)
      ensures b.action != variant.toggleAction && !FrameworkAction(b.action) ==>
        unchanged(this, store, torch, host)
    {
      if b.action == ACTION_APPWIDGET_UPDATE {
        if |b.widgetIds| > 0 {
          OnUpdate(b.widgetIds);
        }
      } else if b.action == ACTION_APPWIDGET_OPTIONS_CHANGED {
        if b.resized.Some? {
          OnAppWidgetOptionsChanged(b.resized.value.id, b.resized.value.size);
        }
      } else if b.action == ACTION_APPWIDGET_DISABLED {
        OnDisabled(d);
      }
      if b.action == variant.toggleAction {
        var success := ToggleFlashlight(d);
        if success {
          OnUpdate(ids);
        }
      }
    }

    /**
     * `onDisabled`: when the last instance goes, a flag that reads on is
     * toggled off; the flag ends off unless that toggle failed.
     */
    method OnDisabled(d: Device)
      modifies this, store, torch
      ensures !old(store.isOn) ==> unchanged(this, store, torch)
      ensures old(store.isOn) ==>
        var r := Toggle(variant, old(cameraId), true, old(torch.mode), d);
        && cameraId == r.cameraId
        && store.isOn == r.isOn
        && torch.mode == r.mode
        && serviceRequests == old(serviceRequests) + r.request.ToSeq()
      ensures store.isOn ==> old(store.isOn) && !Toggle(variant, old(cameraId), true, old(torch.mode), d).ok
    {
      if store.isOn {
        var _ := ToggleFlashlight(d);
      }
    }
  }
}
