# Flashlight native layer

This project models the Android native layer of a Flutter flashlight app, which ships as two variants, `com.chojiwoong.flashlight` and `com.chojiwoong.noadsflashlight`. The model covers:

- **The home-screen widget.** It takes its layout from the size the launcher reports and draws the torch state from a persisted on/off flag. A tap broadcasts a toggle action, and a successful toggle re-renders every instance.
- **The activity.** It finds the first camera with a flash and turns the torch on at a strength level taken from a brightness in [0, 1]. It turns the torch off, stores the brightness, and answers the Flutter method channel. In the `flashligth` activity it also tracks torch changes made elsewhere and streams them to a subscriber.
- **The foreground service.** It keeps the torch lit in the background through ACTION_START and ACTION_STOP commands. It keeps a process-wide running flag. When it is torn down it always asks for the torch to be turned off; a refusal is caught and the torch stays as it was.

The two variants are one parameterised model. `WidgetView.Variant` holds what differs between them:

- the toggle action;
- whether a widget toggle drives the foreground service;
- the colour of the OFF text;
- whether turning on from the widget asks for the maximum strength level on API 33 and later.

The platform is represented by plain values and small state objects:

- **The device** (`Platform.Device`) is a value. It gives the SDK level, whether the camera list can be read, what each camera's characteristics report, and whether the torch service refuses requests.
- **Camera2 calls** become checks against that value. A call the device refuses stands for the exception the Kotlin code would catch or let through.
- **Shared mutable state** is a set of small classes: the torch, the persisted flag, the service's running flag and the widget host (the last view pushed to each widget instance).
- **Requests to the foreground service** are recorded as a sequence of `ServiceRequest` values. `Service.Deliver` gives what the service does with each one.

The model follows the code in these places:

- **Strength levels are truncated.** `toInt()` rounds toward zero, so the level `(brightness * max).toInt().coerceAtLeast(1)` is the integer part of brightness × max, raised to at least 1 (`Brightness.StrengthLevel`, `Brightness.StrengthLevelTruncates`).
- **The `flashlight` widget's toggle action.** That widget declares its action constant as `ACTION_TOGGLE` but refers to it as `ACTION_TOGGLE_FLASHLIGHT`. The model gives the variant the single action string `com.chojiwoong.flashlight.TOGGLE_FLASHLIGHT` and uses it both for the click broadcast and for `onReceive`.
- **The `flashlight` widget's activity.** The activity that goes with the `flashlight` widget lives in the package `com.chojiwoong.flashligth`, and it is the only activity with the torch callback and the event stream. `Activity.MainActivity` covers both activities. A noads activity never receives `OnTorchModeChanged` or `OnListen`.
- **The service does not clamp brightness.** The service uses its brightness extra as it arrives, and only the activity clamps (`Service.ServiceDoesNotClamp`).
- **One service for both variants.** The `flashlight` widget and the `flashligth` activity start a `FlashlightForegroundService` that is not in their own packages. The only service in the source is the `noadsflashlight` one. The model delivers every start and stop request to that service, with its `ACTION_START` and `ACTION_STOP` strings. `Service.ServiceRepeatsWidgetTurnOn` and `Service.ServiceRepeatsActivityTurnOn` rest on that pairing.
- **The noads flag store is separate.** The noads widget keeps its flag in its own preferences file (`flashlight_widget_prefs`), not in Flutter's. The `FlagStore` object each class is wired to is a constructor parameter, so sharing it or not is up to whoever builds the classes.

## Model


| member | source | states |
|---|---|---|
| Platform.Lookup | android/app/src/main/kotlin/com/chojiwoong/flashligth/MainActivity.kt:198 | `getCameraCharacteristics(id)` looks at the first listed camera with that id. There is none exactly when no listed camera has the id. |
| Platform.MaxLevel | android/app/src/main/kotlin/com/chojiwoong/flashligth/MainActivity.kt:199 | The maximum strength level is the FLASH_INFO_STRENGTH_MAXIMUM_LEVEL the camera reports. It is 1 when the key is absent or the id is not listed. |
| Platform.Accepts | android/app/src/main/kotlin/com/chojiwoong/flashligth/MainActivity.kt:158-174 | A torch call goes through exactly when the torch service does not refuse and the camera has a flash unit. This holds for a plain on or off call and for a strength level in [1, MaxLevel]. A level outside that range is always refused, so the call throws. |
| Platform.GetMaxTorchStrength | android/app/src/main/kotlin/com/chojiwoong/flashligth/MainActivity.kt:195-204 | Returns 1 below API 33 or without a camera id. Otherwise the query throws exactly when the characteristics of the id cannot be read, and returns the reported maximum strength level, or 1 when the key is absent. |
| Platform.FirstWithFlash | android/app/src/main/kotlin/com/chojiwoong/flashligth/MainActivity.kt:135-149 | A found id belongs to a listed camera that is readable and has a flash. When no camera has a flash, none is found. |
| Platform.FirstWithFlashChosen | android/app/src/main/kotlin/com/chojiwoong/noadsflashlight/MainActivity.kt:81-95 | `findCameraWithFlash` chooses `id` exactly when some listed camera with that id reports a flash, and every camera before it is readable and has no flash. An unreadable camera ends the search with nothing chosen. |
| Platform.FindCameraWithFlash | android/app/src/main/kotlin/com/chojiwoong/flashligth/MainActivity.kt:135-149 | The `forEach` loop over the camera list yields no id when the list cannot be read, and otherwise yields the first camera with a flash (`FirstWithFlash`). |
| Platform.Torch.SetTorchMode | android/app/src/main/kotlin/com/chojiwoong/flashlight/FlashlightWidget.kt:124 | `setTorchMode(id, enabled)` switches the torch to plain on or to off when the device accepts the request. When the device refuses, it throws and the torch is untouched. |
| Platform.Torch.TurnOnTorchWithStrengthLevel | android/app/src/main/kotlin/com/chojiwoong/flashlight/FlashlightWidget.kt:120 | `turnOnTorchWithStrengthLevel(id, level)` lights the torch at `level` when the device accepts it: a flash unit, no refusal, and a level in [1, max]. Otherwise it throws and the torch is untouched. |
| Brightness.Clamp | android/app/src/main/kotlin/com/chojiwoong/flashligth/MainActivity.kt:153 | `coerceIn(0, 1)` gives the point of [0, 1] nearest to the input. It is the identity on [0, 1]. |
| Brightness.ClampIdempotent | android/app/src/main/kotlin/com/chojiwoong/flashligth/MainActivity.kt:190 | Clamping a stored brightness again changes nothing. |
| Brightness.TruncToInt | android/app/src/main/kotlin/com/chojiwoong/flashligth/MainActivity.kt:157 | Float `toInt()` rounds toward zero: the result is the integer part (floor for x ≥ 0, ceiling for x < 0). |
| Brightness.StrengthLevel | android/app/src/main/kotlin/com/chojiwoong/flashligth/MainActivity.kt:157 | The level is at least 1. It is exactly 1 while brightness × max is below 2. Once brightness × max reaches 1, the level is its integer part. Together these give `max(1, trunc(b·max))`. |
| Brightness.StrengthLevelInRange | android/app/src/main/kotlin/com/chojiwoong/flashligth/MainActivity.kt:157 | For a brightness in [0, 1] and a maximum of at least 1, the level lies in [1, max]. |
| Brightness.StrengthLevelMonotone | android/app/src/main/kotlin/com/chojiwoong/noadsflashlight/FlashlightForegroundService.kt:156 | A higher brightness never asks for a lower level. |
| Brightness.StrengthLevelFull | android/app/src/main/kotlin/com/chojiwoong/flashlight/FlashlightWidget.kt:115-120 | Brightness 1.0 asks for exactly the maximum level. |
| Brightness.StrengthLevelTruncates | android/app/src/main/kotlin/com/chojiwoong/flashligth/MainActivity.kt:157 | The level is the integer part, not the nearest integer: 0.5 of 3 is level 1, and 0.99 of 10 is level 9. |
| WidgetView.SelectLayout | android/app/src/main/kotlin/com/chojiwoong/flashlight/FlashlightWidget.kt:286-302 | Small exactly when both minimum sizes are below 100 dp. Otherwise horizontal exactly when width > 1.5 × height, and vertical exactly when it is not. |
| WidgetView.SelectLayoutExamples | android/app/src/main/kotlin/com/chojiwoong/flashlight/FlashlightWidget.kt:286-302 | 80×80 and 90×40 are small, 250×100 is horizontal, and 150×150 is vertical. |
| WidgetView.Render | android/app/src/main/kotlin/com/chojiwoong/flashlight/FlashlightWidget.kt:304-346 | The view's icon and background are "on" exactly when the flag is on. Only the two large layouts show text: "ON" in orange or "OFF" in the variant's grey. The click broadcasts the variant's toggle action. |
| WidgetView.RenderShowsFlag | android/app/src/main/kotlin/com/chojiwoong/flashlight/FlashlightWidget.kt:308-328 | The on/off flag can be read back from any rendered view's icon, and from its text on a large layout. |
| WidgetView.VariantsDifferInOffColourAndAction | android/app/src/main/kotlin/com/chojiwoong/noadsflashlight/FlashlightWidget.kt:206-230 | The two variants render the same layout, icon, background and ON text. The rendered views differ in the OFF text colour (0xFFE0E0E0 against 0xFF757575) and in the click broadcast (each variant's own toggle action). |
| WidgetView.SizeOf | android/app/src/main/kotlin/com/chojiwoong/flashlight/FlashlightWidget.kt:279-281 | An instance's size is its stored options. `getInt` reads 0 for both dimensions when there are none. |
| WidgetView.RenderAll | android/app/src/main/kotlin/com/chojiwoong/flashlight/FlashlightWidget.kt:204-213 | After re-rendering `ids`, each listed id holds the view rendered from the flag and its own size. Every other instance keeps its view. |
| WidgetView.WidgetHost.UpdateAppWidget | android/app/src/main/kotlin/com/chojiwoong/flashlight/FlashlightWidget.kt:265-350 | Pushes the view rendered from the flag and the instance's size to that one instance, and changes nothing else. |
| WidgetView.WidgetHost.UpdateAll | android/app/src/main/kotlin/com/chojiwoong/flashlight/FlashlightWidget.kt:210-212 | The loop over the instance ids leaves the host's views equal to `RenderAll`. |
| Widget.ResolveCamera | android/app/src/main/kotlin/com/chojiwoong/flashlight/FlashlightWidget.kt:100-106 | A cached camera id is kept. Otherwise the first listed camera is taken, whether or not it has a flash. An unreadable or empty list leaves no id. |
| Widget.ResolveCameraCached | android/app/src/main/kotlin/com/chojiwoong/noadsflashlight/FlashlightWidget.kt:58-64 | Once resolved, the cached id never changes, whatever the device reports later. |
| Widget.WidgetMaxStrength | android/app/src/main/kotlin/com/chojiwoong/flashlight/FlashlightWidget.kt:70-86 | The widget's maximum strength is the reported maximum level. It is 1 below API 33, without an id, or when the query throws: the widget catches that exception. |
| Widget.WidgetTarget | android/app/src/main/kotlin/com/chojiwoong/flashlight/FlashlightWidget.kt:112-137 | The widget asks for the negation of the flag. The maximum-level request is used exactly when turning on on API 33+ in the `flashlight` variant. |
| Widget.Toggle | android/app/src/main/kotlin/com/chojiwoong/flashlight/FlashlightWidget.kt:91-170 | The toggle succeeds exactly when there is a camera id, the API is 23 or later, and the torch accepts the negated state. A successful toggle flips the flag, leaves the torch in the new state, and starts (brightness 1.0) or stops the service in the `flashlight` variant. A failed toggle leaves the flag, the torch and the service untouched. |
| Widget.ToggleTwiceRestores | android/app/src/main/kotlin/com/chojiwoong/flashlight/FlashlightWidget.kt:108-139 | Two successful toggles restore the flag and the torch's on/off state, and keep the cached camera. |
| Widget.ToggleSucceedsOnWorkingTorch | android/app/src/main/kotlin/com/chojiwoong/noadsflashlight/FlashlightWidget.kt:58-82 | On API 23+, when the first listed camera has a flash and the torch does not refuse, the toggle succeeds in both directions and in both variants. |
| Widget.WidgetIgnoresFlashCapability | android/app/src/main/kotlin/com/chojiwoong/noadsflashlight/FlashlightWidget.kt:58-71 | Take a device whose flash is on its second camera. The activity's lookup finds that camera, but the widget's toggle picks camera 0 and fails. |
| Widget.FlashlightWidget.ToggleFlashlight | android/app/src/main/kotlin/com/chojiwoong/noadsflashlight/FlashlightWidget.kt:49-103 | The method leaves the camera cache, the flag, the torch and the service requests exactly as `Toggle` gives them, and returns its success. |
| Widget.FlashlightWidget.OnUpdate | android/app/src/main/kotlin/com/chojiwoong/noadsflashlight/FlashlightWidget.kt:106-115 | Every listed instance is re-rendered from the flag (`RenderAll`). |
| WidgetView.WidgetHost.SetOptions | android/app/src/main/kotlin/com/chojiwoong/flashlight/FlashlightWidget.kt:279-281 | The new size options of one instance replace its old ones; every other instance keeps its options. |
| Widget.FlashlightWidget.OnAppWidgetOptionsChanged | android/app/src/main/kotlin/com/chojiwoong/noadsflashlight/FlashlightWidget.kt:117-127 | The manager holds the resized instance's new size. Only that instance is re-rendered, with the layout the new size selects. |
| Widget.ToggleActionsAreOwn | android/app/src/main/kotlin/com/chojiwoong/flashlight/FlashlightWidget.kt:24 | Neither variant's toggle action is one of the framework's widget actions, so `onReceive` never does both a framework dispatch and a toggle. |
| Widget.FlashlightWidget.OnReceive | android/app/src/main/kotlin/com/chojiwoong/flashlight/FlashlightWidget.kt:227-250 | `super.onReceive` first routes the framework's broadcasts. An update that names instances re-renders them. An options change with its extras stores the new size and re-renders that instance. A disable runs `onDisabled`. Then the toggle action toggles, and all instances are re-rendered only when the toggle succeeded. Any other action changes nothing. |
| Widget.FlashlightWidget.OnDisabled | android/app/src/main/kotlin/com/chojiwoong/flashlight/FlashlightWidget.kt:252-259 | A flag that reads on is toggled off, and nothing else happens. The flag is left on only when that toggle failed. |
| Activity.OnTarget | android/app/src/main/kotlin/com/chojiwoong/flashligth/MainActivity.kt:155-164 | The request is always an "on" mode. It is a strength-level request exactly from API 33. It throws exactly when it is on API 33+ and the maximum-level query throws. A strength-level request asks for exactly `StrengthLevel(brightness, MaxLevel)`, that is `max(1, trunc(b·max))`, with no clamping of its own. On a well-formed device with a brightness in [0, 1] that level lies in [1, MaxLevel]. |
| Activity.TurnOnStep | android/app/src/main/kotlin/com/chojiwoong/flashligth/MainActivity.kt:151-170 | Without a camera nothing happens. With one, the clamped brightness is stored even when the call then throws, and it throws exactly when the query throws or the torch refuses. On success the flag is on, the torch is at the target, and the service is started with the clamped brightness. A throw leaves the flag, the torch and the service as they were. |
| Activity.TurnOffStep | android/app/src/main/kotlin/com/chojiwoong/flashligth/MainActivity.kt:172-181 | Without a camera nothing happens. With one, it throws exactly when the torch refuses off, and then changes nothing. On success the flag is cleared, the torch is off and the service is stopped. |
| Activity.SetBrightnessStep | android/app/src/main/kotlin/com/chojiwoong/flashligth/MainActivity.kt:183-193 | While on it is the turn-on step. While off it only stores the clamped brightness. |
| Activity.TurnOnIgnoresBrightnessBeforeTiramisu | android/app/src/main/kotlin/com/chojiwoong/flashligth/MainActivity.kt:160-164 | Below API 33 the brightness only gets stored: a working torch is switched plainly on. |
| Activity.TurnOnSucceedsOnWorkingTorch | android/app/src/main/kotlin/com/chojiwoong/noadsflashlight/MainActivity.kt:97-116 | On a camera with a readable flash and a torch that does not refuse, turning on never throws. On API 33+ it lights the torch at the strength level of the clamped brightness. |
| Activity.TurnOffIdempotent | android/app/src/main/kotlin/com/chojiwoong/noadsflashlight/MainActivity.kt:118-127 | Turning off a second time leaves the flag and the torch where the first call left them. |
| Activity.ServiceFollowsTorch | android/app/src/main/kotlin/com/chojiwoong/flashligth/MainActivity.kt:165-179 | A service start or stop request is sent exactly when a call has a camera and does not throw. A start comes with the flag on, and a stop with the flag off. |
| Activity.BrightnessArgument | android/app/src/main/kotlin/com/chojiwoong/flashligth/MainActivity.kt:93 | A missing brightness argument reads as 1.0. A given one is used as is. |
| Activity.MainActivity.OnCreate | android/app/src/main/kotlin/com/chojiwoong/flashligth/MainActivity.kt:54-61 | The activity starts with the first camera with a flash, the flashlight off, brightness 1.0 and no subscriber. |
| Activity.MainActivity.TurnOnFlashlight | android/app/src/main/kotlin/com/chojiwoong/noadsflashlight/MainActivity.kt:97-116 | The fields, the torch and the service requests follow `TurnOnStep`. The brightness stays in [0, 1], and there is no flashlight on without a camera. |
| Activity.MainActivity.TurnOffFlashlight | android/app/src/main/kotlin/com/chojiwoong/noadsflashlight/MainActivity.kt:118-127 | The fields, the torch and the service requests follow `TurnOffStep`, and the invariant is kept. |
| Activity.MainActivity.SetBrightness | android/app/src/main/kotlin/com/chojiwoong/noadsflashlight/MainActivity.kt:129-139 | The fields, the torch and the service requests follow `SetBrightnessStep`, and the invariant is kept. |
| Activity.MainActivity.UpdateAllWidgets | android/app/src/main/kotlin/com/chojiwoong/flashligth/MainActivity.kt:206-218 | Every listed widget instance is re-rendered from the flag. |
| Activity.MainActivity.OnPause | android/app/src/main/kotlin/com/chojiwoong/flashligth/MainActivity.kt:220-225 | Going to the background re-renders the widgets. |
| Activity.MainActivity.OnResume | android/app/src/main/kotlin/com/chojiwoong/flashligth/MainActivity.kt:227-232 | Coming to the foreground re-renders the widgets. |
| Activity.MainActivity.OnMethodCall | android/app/src/main/kotlin/com/chojiwoong/flashligth/MainActivity.kt:87-132 | `isAvailable` answers whether a flash camera was found. `turnOn`, `turnOff` and `setBrightness` answer false exactly when the call threw, and otherwise follow their steps. `updateWidget` re-renders and answers true. Any other name is not implemented and changes nothing. |
| Activity.MainActivity.OnTorchModeChanged | android/app/src/main/kotlin/com/chojiwoong/flashligth/MainActivity.kt:30-52 | A change on the tracked camera sets the flag and emits it when a sink is attached. When the torch went off, it also asks the service to stop. A change on any other camera is ignored. |
| Activity.MainActivity.OnListen | android/app/src/main/kotlin/com/chojiwoong/flashligth/MainActivity.kt:75-79 | A new subscriber is attached and receives the current state at once. |
| Activity.MainActivity.OnCancel | android/app/src/main/kotlin/com/chojiwoong/flashligth/MainActivity.kt:81-83 | The subscriber is dropped. |
| Activity.SubscriptionScenario | android/app/src/main/kotlin/com/chojiwoong/flashligth/MainActivity.kt:30-83 | A subscriber first sees the current state, then the changes. After it cancels, changes still update the flag but emit nothing. |
| Service.ServiceTorchOn | android/app/src/main/kotlin/com/chojiwoong/noadsflashlight/FlashlightForegroundService.kt:149-168 | The torch is unchanged in three cases: there is no camera, the strength query throws, or the torch refuses the request (both exceptions are caught). Otherwise the torch is lit at the activity's target for the unclamped brightness. |
| Service.ServiceTorchOff | android/app/src/main/kotlin/com/chojiwoong/noadsflashlight/FlashlightForegroundService.kt:170-179 | The torch ends off when there is a camera that accepts off. It is unchanged without a camera, or when the torch refuses (the exception is caught). |
| Service.ServiceDoesNotClamp | android/app/src/main/kotlin/com/chojiwoong/noadsflashlight/FlashlightForegroundService.kt:155-157 | The service uses its extra unclamped. On API 33 with a maximum of 5, an extra of 2.0 asks for level 10, which is refused and caught, so the torch stays off. The clamped 1.0 would have lit it at level 5. |
| Service.StartCommand | android/app/src/main/kotlin/com/chojiwoong/noadsflashlight/FlashlightForegroundService.kt:57-73 | ACTION_START sets the running flag and lights the torch with the extra (1.0 when absent). ACTION_STOP turns the torch off and clears the flag. A missing or unknown action changes nothing. |
| Service.Deliver | android/app/src/main/kotlin/com/chojiwoong/flashligth/MainActivity.kt:234-257 | After a request reaches the service, the service is running exactly when the request was a start. A start lights the torch as `ServiceTorchOn` does with the request's brightness. A stop leaves the torch as `ServiceTorchOff` does. |
| Service.ServiceRepeatsActivityTurnOn | android/app/src/main/kotlin/com/chojiwoong/noadsflashlight/FlashlightForegroundService.kt:61-64 | The activity's start request, delivered to a service on the same camera, leaves the service running with the torch exactly where the activity put it. |
| Service.ServiceRepeatsActivityTurnOff | android/app/src/main/kotlin/com/chojiwoong/noadsflashlight/FlashlightForegroundService.kt:66-69 | The activity's stop request leaves the service stopped with the torch off, matching the activity's cleared flag. |
| Service.ServiceRepeatsWidgetTurnOn | android/app/src/main/kotlin/com/chojiwoong/flashlight/FlashlightWidget.kt:113-129 | On API 33+ the `flashlight` widget's start request (brightness 1.0) makes the service light the torch at the same maximum level the widget chose. |
| Service.FlashlightForegroundService.OnCreate | android/app/src/main/kotlin/com/chojiwoong/noadsflashlight/FlashlightForegroundService.kt:34-55 | The service resolves the first camera with a flash. |
| Service.FlashlightForegroundService.OnStartCommand | android/app/src/main/kotlin/com/chojiwoong/noadsflashlight/FlashlightForegroundService.kt:57-73 | The running flag and the torch follow `StartCommand`, and every call answers START_NOT_STICKY (2). |
| Service.FlashlightForegroundService.OnDestroy | android/app/src/main/kotlin/com/chojiwoong/noadsflashlight/FlashlightForegroundService.kt:77-82 | Teardown always asks for the torch off and always clears the running flag. |
| Service.FlashlightForegroundService.StartForegroundService | android/app/src/main/kotlin/com/chojiwoong/noadsflashlight/FlashlightForegroundService.kt:101-131 | Sets the running flag. |
| Service.FlashlightForegroundService.StopForegroundService | android/app/src/main/kotlin/com/chojiwoong/noadsflashlight/FlashlightForegroundService.kt:133-147 | Clears the running flag. |
| Service.FlashlightForegroundService.TurnOnFlashlight | android/app/src/main/kotlin/com/chojiwoong/noadsflashlight/FlashlightForegroundService.kt:149-168 | Leaves the torch as `ServiceTorchOn` gives it: every exception is caught inside. |
| Service.FlashlightForegroundService.TurnOffFlashlight | android/app/src/main/kotlin/com/chojiwoong/noadsflashlight/FlashlightForegroundService.kt:170-179 | Leaves the torch as `ServiceTorchOff` gives it. |

## Left out

- `AppWidgetProvider.onReceive` is framework code outside this repository. `Widget.FlashlightWidget.OnReceive` routes the three broadcasts the provider overrides callbacks for (update, options changed, disabled), as that method documents. The enabled, deleted and restored broadcasts are treated as changing nothing: the provider does not override `onEnabled`, `onDeleted` or `onRestored`, and the update that follows a restore is not modelled.
- RemoteViews resources, PendingIntent flags, Toasts, log lines and the service's notification and notification channel: they are presentation only and change none of the modelled state.
- The lazy initialisation of `cameraManager`: `getSystemService(CAMERA_SERVICE)` is taken to always return the camera manager, so the manager is always present.
- SharedPreferences `commit` against `apply`, and races between the widget, the activity and the service: every call is modelled as one atomic step on a single thread, and `runOnUiThread` is folded into that step.
- `getCurrentBrightness` in the `flashlight` widget: it is never called, because the widget always asks for the maximum level.
- Brightness.TruncToInt: IEEE single-precision rounding, NaN, and the saturation of `toInt()` beyond the Int range are not modelled. Brightness is a real number.
- The method channel's transport and argument typing: a non-numeric `brightness` argument (a ClassCastException) is not modelled, and a call carries an optional real.
- `AppWidgetManager.getAppWidgetIds`: the provider's instance ids are passed in as a parameter.
- The SDK level, the camera list and the torch's refusals are inputs (`Platform.Device`), not probed from a device.
- Registering and unregistering the torch callback (`onCreate`, `onDestroy`): the platform's callbacks are not fired by the torch model. `OnTorchModeChanged` is called explicitly.
- `stopSelf` leading to `onDestroy`: the OS lifecycle is not modelled, and `OnDestroy` is a separate call.
- The service's `isRunning()` getter, and the brightness parameter of `startForegroundService`: the getter is a field read, and the parameter is only logged.
- `onBind`: it always returns null, and no binding exists in the app.
- `startFlashlightService` and `stopFlashlightService` catch their own exceptions, both in the activity and in the `flashlight` widget. The request is recorded as sent; a failure to start or stop the service is not modelled.
