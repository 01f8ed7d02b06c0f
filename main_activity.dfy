/**
 * The Flutter host activity's `krab/widget_pin` method channel: the app asks for a
 * HomeScreenWidget to be pinned, with or without its text overlay.
 */
module MainActivity {
  import opened Wrappers
  import opened Decimal
  import opened Prefs
  import opened Render
  import HomeScreenWidget
  import WidgetPinnedReceiver

  const CHANNEL: string := "krab/widget_pin"
  const PIN_WIDGET: string := "pinWidget"
  const HOME_SCREEN_WIDGET: string := "fr.zatomos.krab.HomeScreenWidget"
  const PINNED_RECEIVER: string := "fr.zatomos.krab.WidgetPinnedReceiver"

  /** The answer on the channel: `result.success(null)` or `result.notImplemented()`. */
  datatype Reply = SuccessNull | NotImplemented

  /** What a method call does outside the preferences store, in order. */
  datatype Effect =
    | PinRequested(provider: string, callbackReceiver: string)
    | Replied(reply: Reply)

  /**
   * `handleWidgetPin`: stores the choice as the pending flag, then asks the launcher
   * to pin a HomeScreenWidget with WidgetPinnedReceiver as the callback.
   */
  method HandleWidgetPin(prefs: HomeScreenWidget.WidgetPrefs, showText: bool) returns (effects: seq<Effect>)
    modifies prefs
    ensures prefs.bools == old(prefs.bools)[WidgetPinnedReceiver.PENDING_SHOW_TEXT_KEY := showText]
    ensures prefs.stringSets == old(prefs.stringSets)
    ensures WidgetPinnedReceiver.PendingShowText(prefs.bools) == showText
    ensures effects == [PinRequested(HOME_SCREEN_WIDGET, PINNED_RECEIVER)]
  {
    prefs.bools := prefs.bools[WidgetPinnedReceiver.PENDING_SHOW_TEXT_KEY := showText];
    effects := [PinRequested(HOME_SCREEN_WIDGET, PINNED_RECEIVER)];
  }

  /**
   * The method-call handler: `pinWidget` (its `showText` argument defaulting to
   * false) pins and replies success; any other method replies not-implemented and
   * touches nothing.
   */
  method OnMethodCall(prefs: HomeScreenWidget.WidgetPrefs, name: string, showTextArg: Option<bool>) returns (effects: seq<Effect>)
    modifies prefs
    ensures prefs.stringSets == old(prefs.stringSets)
    ensures name == PIN_WIDGET ==>
              && prefs.bools == old(prefs.bools)[WidgetPinnedReceiver.PENDING_SHOW_TEXT_KEY := showTextArg.GetOr(false)]
              && effects == [PinRequested(HOME_SCREEN_WIDGET, PINNED_RECEIVER), Replied(SuccessNull)]
    ensures name != PIN_WIDGET ==> prefs.bools == old(prefs.bools) && effects == [Replied(NotImplemented)]
  {
    if name == PIN_WIDGET {
      var showText := showTextArg.GetOr(false);
      effects := HandleWidgetPin(prefs, showText);
      effects := effects + [Replied(SuccessNull)];
    } else {
      effects := [Replied(NotImplemented)];
    }
  }

  /**
   * A pin request followed by the launcher's callback: when the receiver determines
   * the new widget's id, that widget's flag is the value the app asked for, and its
   * first update renders with it.
   */
  method PinThenCallback(prefs: HomeScreenWidget.WidgetPrefs, showTextArg: Option<bool>, extra: Option<Int32>,
                         currentIds: seq<Int32>, data: WidgetData, env: RunEnv)
    returns (resolved: Option<Int32>, events: seq<RenderEvent>)
    modifies prefs
    ensures resolved == WidgetPinnedReceiver.ResolveWidgetId(extra, WidgetPinnedReceiver.StoredOldIds(old(prefs.stringSets)), currentIds)
    ensures prefs.stringSets == old(prefs.stringSets)
    ensures resolved.Some? ==>
              && HomeScreenWidget.GetShowTextPref(prefs, resolved.value) == showTextArg.GetOr(false)
              && events == HomeScreenWidget.Renders(resolved.value, data, showTextArg.GetOr(false), env)
    ensures resolved.None? ==> events == []
  {
    var effects := OnMethodCall(prefs, PIN_WIDGET, showTextArg);
    assert WidgetPinnedReceiver.PendingShowText(prefs.bools) == showTextArg.GetOr(false);
    resolved, events := WidgetPinnedReceiver.OnReceive(prefs, extra, currentIds, data, env);
  }
}
