/**
 * The home-screen widget's rendering, shared by both app variants: the layout
 * chosen from the size the launcher reports, the view bound from the persisted
 * on/off flag, and the widget host that keeps the last view of every instance.
 */
module WidgetView {
  import opened Wrappers

  /**
   * What differs between the two app variants' widgets: the toggle broadcast
   * action, whether a widget toggle starts and stops the foreground service,
   * the colour of the OFF text, and whether turning on from the widget asks for
   * the maximum strength level on API 33 and later.
   */
  datatype Variant = Variant(
    toggleAction: string,
    widgetStartsService: bool,
    offTextColor: int,
    widgetForcesMaxStrength: bool)

  /** com.chojiwoong.flashlight's widget, paired with the com.chojiwoong.flashligth activity */
  const FlashlightApp: Variant :=
    Variant("com.chojiwoong.flashlight.TOGGLE_FLASHLIGHT", true, 0xFFE0E0E0, true)

  /** com.chojiwoong.noadsflashlight's widget */
  const NoAdsApp: Variant :=
    Variant("com.chojiwoong.noadsflashlight.TOGGLE_FLASHLIGHT", false, 0xFF757575, false)

  /** ARGB colour of the ON text (unsigned; the source's `toInt()` only reinterprets the bits) */
  const ON_TEXT_COLOR: int := 0xFFFF6F00

  /** flashlight_widget_small, flashlight_widget_horizontal, flashlight_widget */
  datatype Layout = Small | Horizontal | Vertical

  /** OPTION_APPWIDGET_MIN_WIDTH and OPTION_APPWIDGET_MIN_HEIGHT, in dp */
  datatype Size = Size(minWidth: int, minHeight: int)

  datatype Icon = IconOn | IconOff
  datatype Background = BackgroundOn | BackgroundOff
  datatype Text = Text(content: string, color: int)

  /** A RemoteViews reduced to what the widget binds: layout, icon, background, text and the click broadcast. */
  datatype View = View(layout: Layout, icon: Icon, background: Background, text: Option<Text>, clickAction: string)

  /**
   * The layout `when`: small below 100 dp in both directions, otherwise
   * horizontal when the width exceeds 1.5 times the height, otherwise vertical.
   */
  function SelectLayout(s: Size): (l: Layout)
    ensures l == Small <==> s.minWidth < 100 && s.minHeight < 100
    ensures l == Horizontal <==> !(s.minWidth < 100 && s.minHeight < 100) && 2 * s.minWidth > 3 * s.minHeight
    ensures l == Vertical <==> !(s.minWidth < 100 && s.minHeight < 100) && 2 * s.minWidth <= 3 * s.minHeight
  {
    if s.minWidth < 100 && s.minHeight < 100 then Small
    else if s.minWidth as real > s.minHeight as real * 1.5 then Horizontal
    else Vertical
  }

  lemma SelectLayoutExamples()
    ensures SelectLayout(Size(80, 80)) == Small
    ensures SelectLayout(Size(250, 100)) == Horizontal
    ensures SelectLayout(Size(150, 150)) == Vertical
    ensures SelectLayout(Size(90, 40)) == Small
  {
  }

  /**
   * `updateAppWidget`'s binding: the on icon and background exactly when the
   * flag is on; the ON/OFF text and its colour only on the two larger layouts;
   * the click target broadcasts the variant's toggle action.
   */
  function Render(v: Variant, isOn: bool, s: Size): (view: View)
    ensures view.layout == SelectLayout(s)
    ensures view.icon == IconOn <==> isOn
    ensures view.background == BackgroundOn <==> isOn
    ensures view.text.Some? <==> view.layout != Small
    ensures view.text.Some? && isOn ==> view.text.value == Text("ON", ON_TEXT_COLOR)
    ensures view.text.Some? && !isOn ==> view.text.value == Text("OFF", v.offTextColor)
    ensures view.clickAction == v.toggleAction
  {
    var layout := SelectLayout(s);
    var small := layout == Small;
    if isOn then
      View(layout, IconOn, BackgroundOn, if small then None else Some(Text("ON", ON_TEXT_COLOR)), v.toggleAction)
    else
      View(layout, IconOff, BackgroundOff, if small then None else Some(Text("OFF", v.offTextColor)), v.toggleAction)
  }

  /** The flag can be read back from any rendered view, in both variants. */
  lemma RenderShowsFlag(v: Variant, isOn: bool, s: Size)
    ensures (Render(v, isOn, s).icon == IconOn) == isOn
    ensures SelectLayout(s) != Small ==> Render(v, isOn, s).text.value.content == (if isOn then "ON" else "OFF")
  {
  }

  /**
   * The two variants draw the same layout, icon, background and ON text; the
   * rendered views differ in the OFF text colour and in the broadcast the
   * click sends.
   */
  lemma VariantsDifferInOffColourAndAction(isOn: bool, s: Size)
    ensures Render(FlashlightApp, isOn, s).layout == Render(NoAdsApp, isOn, s).layout
    ensures Render(FlashlightApp, isOn, s).icon == Render(NoAdsApp, isOn, s).icon
    ensures Render(FlashlightApp, isOn, s).background == Render(NoAdsApp, isOn, s).background
    ensures isOn ==> Render(FlashlightApp, isOn, s).text == Render(NoAdsApp, isOn, s).text
    ensures !isOn && SelectLayout(s) != Small ==>
      Render(FlashlightApp, isOn, s).text.value.color == 0xFFE0E0E0 &&
      Render(NoAdsApp, isOn, s).text.value.color == 0xFF757575
    ensures Render(FlashlightApp, isOn, s).clickAction == "com.chojiwoong.flashlight.TOGGLE_FLASHLIGHT"
    ensures Render(NoAdsApp, isOn, s).clickAction == "com.chojiwoong.noadsflashlight.TOGGLE_FLASHLIGHT"
    ensures Render(FlashlightApp, isOn, s).clickAction != Render(NoAdsApp, isOn, s).clickAction
  {
  }

  /** `options.getInt(...)` of a widget instance: a missing bundle entry reads as 0. */
  function SizeOf(options: map<int, Size>, id: int): (s: Size)
    ensures id in options ==> s == options[id]
    ensures id !in options ==> s == Size(0, 0)
  {
    if id in options then options[id] else Size(0, 0)
  }

  /** The host's views after every id in `ids` was re-rendered from the flag. */
  function RenderAll(views: map<int, View>, v: Variant, isOn: bool, options: map<int, Size>, ids: seq<int>): (r: map<int, View>)
    ensures r.Keys == views.Keys + (set id | id in ids)
    ensures forall id :: id in ids ==> r[id] == Render(v, isOn, SizeOf(options, id))
    ensures forall id :: id in views && id !in ids ==> r[id] == views[id]
  {
    map id | id in views.Keys + (set i | i in ids) ::
      if id in ids then Render(v, isOn, SizeOf(options, id)) else views[id]
  }

  /**
   * The AppWidgetManager of one provider: the size options the launcher
   * reports for each instance, and the last view pushed to each.
   */
  class WidgetHost {
    var options: map<int, Size>
    var views: map<int, View>

    constructor (options: map<int, Size>)
      ensures this.options == options && views == map[]
    {
      this.options := options;
      views := map[];
    }

    /** The launcher reports new size options for instance `id`; the manager keeps them. */
    method SetOptions(id: int, size: Size)
      modifies this`options
      ensures options == old(options)[id := size]
    {
      options := options[id := size];
    }

    /** `updateAppWidget(context, manager, id)`: re-render one instance from the flag. */
    method UpdateAppWidget(v: Variant, isOn: bool, id: int)
      modifies this`views
      ensures views == old(views)[id := Render(v, isOn, SizeOf(options, id))]
    {
      views := views[id := Render(v, isOn, SizeOf(options, id))];
    }

    /** The `for (appWidgetId in appWidgetIds)` loop of `onUpdate` and `updateAllWidgets`. */
    method UpdateAll(v: Variant, isOn: bool, ids: seq<int>)
      modifies this`views
      ensures views == RenderAll(old(views), v, isOn, options, ids)
    {
      for k := 0 to |ids|
        invariant views == RenderAll(old(views), v, isOn, options, ids[..k])
      {
        assert ids[..k + 1] == ids[..k] + [ids[k]];
        UpdateAppWidget(v, isOn, ids[k]);
      }
      assert ids[..|ids|] == ids;
    }
  }
}
