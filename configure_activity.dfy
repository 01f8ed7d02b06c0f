/**
 * The configuration screen of HomeScreenWidget: it reads the widget id it was
 * launched for, shows that widget's saved title, and on confirmation saves the
 * title, runs one widget update and returns the id to the host.
 */
module HomeScreenWidgetConfigureActivity {
  import opened Wrappers
  import opened Decimal
  import opened Prefs
  import opened Render
  import HomeScreenWidget

  const PREFS_NAME: string := "fr.zatomos.krab.HomeScreenWidget"
  const PREF_PREFIX_KEY: string := "appwidget_"

  /** The title store (`PREFS_NAME` SharedPreferences): key to string. */
  class TitlePrefs {
    var strings: map<string, string>

    constructor(strings: map<string, string>)
      ensures this.strings == strings
    {
      this.strings := strings;
    }
  }

  function TitleKey(appWidgetId: Int32): (key: string) {
    KeyFor(PREF_PREFIX_KEY, appWidgetId)
  }

  /** `loadTitlePref`: the saved title, or the `appwidget_text` resource string when there is none. */
  function LoadTitle(strings: map<string, string>, appWidgetId: Int32, defaultTitle: string): (title: string) {
    Get(strings, TitleKey(appWidgetId), defaultTitle)
  }

  /** A saved title reads back for its widget, and no other widget's title changes. */
  lemma LoadAfterSave(strings: map<string, string>, appWidgetId: Int32, text: string, other: Int32, defaultTitle: string)
    ensures LoadTitle(strings[TitleKey(appWidgetId) := text], other, defaultTitle)
            == if other == appWidgetId then text else LoadTitle(strings, other, defaultTitle)
  {
    GetAfterPut(strings, PREF_PREFIX_KEY, appWidgetId, text, other, defaultTitle);
  }

  /** After a delete the widget reads the default title, and no other widget's title changes. */
  lemma LoadAfterDelete(strings: map<string, string>, appWidgetId: Int32, other: Int32, defaultTitle: string)
    ensures LoadTitle(strings - {TitleKey(appWidgetId)}, other, defaultTitle)
            == if other == appWidgetId then defaultTitle else LoadTitle(strings, other, defaultTitle)
  {
    GetAfterRemove(strings, PREF_PREFIX_KEY, appWidgetId, other, defaultTitle);
  }

  /** A widget with no saved title reads the default, whatever titles other widgets have. */
  lemma LoadDefault(strings: map<string, string>, appWidgetId: Int32, defaultTitle: string)
    requires TitleKey(appWidgetId) !in strings
    ensures LoadTitle(strings, appWidgetId, defaultTitle) == defaultTitle
  {
  }

  /** `saveTitlePref`. */
  method SaveTitlePref(prefs: TitlePrefs, appWidgetId: Int32, text: string)
    modifies prefs
    ensures prefs.strings == old(prefs.strings)[TitleKey(appWidgetId) := text]
    ensures forall other: Int32 :: LoadTitle(prefs.strings, other, "") ==
              if other == appWidgetId then text else LoadTitle(old(prefs.strings), other, "")
  {
    prefs.strings := prefs.strings[TitleKey(appWidgetId) := text];
    forall other: Int32
      ensures LoadTitle(prefs.strings, other, "") ==
                if other == appWidgetId then text else LoadTitle(old(prefs.strings), other, "")
    {
      LoadAfterSave(old(prefs.strings), appWidgetId, text, other, "");
    }
  }

  /** `deleteTitlePref`. */
  method DeleteTitlePref(prefs: TitlePrefs, appWidgetId: Int32)
    modifies prefs
    ensures prefs.strings == old(prefs.strings) - {TitleKey(appWidgetId)}
    ensures forall other: Int32 :: LoadTitle(prefs.strings, other, "") ==
              if other == appWidgetId then "" else LoadTitle(old(prefs.strings), other, "")
  {
    prefs.strings := prefs.strings - {TitleKey(appWidgetId)};
    forall other: Int32
      ensures LoadTitle(prefs.strings, other, "") ==
                if other == appWidgetId then "" else LoadTitle(old(prefs.strings), other, "")
    {
      LoadAfterDelete(old(prefs.strings), appWidgetId, other, "");
    }
  }

  /** The result handed back to the widget host. */
  datatype ActivityResult = Canceled | Ok(appWidgetId: Int32)

  /** The launching Intent's extras: absent, or a bundle that may hold `EXTRA_APPWIDGET_ID`. */
  datatype LaunchExtras = NoExtras | Extras(appWidgetId: Option<Int32>)

  /** The widget id the activity ends up with after `onCreate` reads the extras. */
  function ExtrasWidgetId(extras: LaunchExtras, current: Int32): (id: Int32) {
    match extras
    case NoExtras => current
    case Extras(id) => id.GetOr(INVALID_APPWIDGET_ID)
  }

  class ConfigureActivity {
    var appWidgetId: Int32
    /** The contents of the title text field. */
    var appWidgetText: string
    var result: ActivityResult
    var finished: bool

    constructor()
      ensures appWidgetId == INVALID_APPWIDGET_ID && appWidgetText == ""
      ensures result == Canceled && !finished
    {
      appWidgetId := INVALID_APPWIDGET_ID;
      appWidgetText := "";
      result := Canceled;
      finished := false;
    }

    /**
     * `onCreate`: sets the result to CANCELED, takes the widget id from the extras,
     * and finishes at once when there is no valid id; otherwise fills the text field
     * with the widget's saved title.
     */
    method OnCreate(extras: LaunchExtras, titles: TitlePrefs, defaultTitle: string)
      modifies this
      ensures result == Canceled
      ensures appWidgetId == ExtrasWidgetId(extras, old(appWidgetId))
      ensures finished == (old(finished) || appWidgetId == INVALID_APPWIDGET_ID)
      ensures appWidgetText == if appWidgetId == INVALID_APPWIDGET_ID then old(appWidgetText)
                               else LoadTitle(titles.strings, appWidgetId, defaultTitle)
    {
      result := Canceled;
      if extras.Extras? {
        appWidgetId := extras.appWidgetId.GetOr(INVALID_APPWIDGET_ID);
      }
      if appWidgetId == INVALID_APPWIDGET_ID {
        finished := true;
        return;
      }
      appWidgetText := LoadTitle(titles.strings, appWidgetId, defaultTitle);
    }

    /**
     * The add button's click listener: saves the text field as the widget's title,
     * runs HomeScreenWidget's update for the widget (`env`), then returns OK with
     * the widget id and finishes.
     */
    method OnClick(titles: TitlePrefs, widgetPrefs: HomeScreenWidget.WidgetPrefs, data: WidgetData, env: RunEnv)
      returns (events: seq<RenderEvent>)
      modifies this, titles
      ensures appWidgetId == old(appWidgetId) && appWidgetText == old(appWidgetText)
      ensures titles.strings == old(titles.strings)[TitleKey(appWidgetId) := appWidgetText]
      ensures LoadTitle(titles.strings, appWidgetId, "") == appWidgetText
      ensures events == HomeScreenWidget.Renders(appWidgetId, data, HomeScreenWidget.GetShowTextPref(widgetPrefs, appWidgetId), env)
      ensures result == Ok(appWidgetId) && finished
    {
      var widgetText := appWidgetText;
      SaveTitlePref(titles, appWidgetId, widgetText);
      events := HomeScreenWidget.UpdateAppWidget(widgetPrefs, appWidgetId, data, env);
      result := Ok(appWidgetId);
      finished := true;
    }
  }
}
