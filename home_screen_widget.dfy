/**
 * The plain home-screen widget: no image cache, and a per-widget "show text" flag
 * kept in the HomeScreenWidgetPrefs file under `showText_<id>`.
 */
module HomeScreenWidget {
  import opened Wrappers
  import opened Decimal
  import opened Prefs
  import opened Render

  const ACTION_IMAGE_UPDATED: string := "fr.zatomos.krab.ACTION_IMAGE_UPDATED"
  const PREFS_NAME: string := "HomeScreenWidgetPrefs"
  const PREF_SHOW_TEXT_PREFIX: string := "showText_"

  /**
   * The HomeScreenWidgetPrefs file. It holds booleans (the `showText_<id>` flags and
   * `pending_showText`) and string sets (`old_widget_ids`, written elsewhere).
   */
  class WidgetPrefs {
    var bools: map<string, bool>
    var stringSets: map<string, set<string>>

    constructor (bools: map<string, bool>, stringSets: map<string, set<string>>)
      ensures this.bools == bools && this.stringSets == stringSets
    {
      this.bools := bools;
      this.stringSets := stringSets;
    }
  }

  function ShowTextKey(id: Int32): (key: string) {
    KeyFor(PREF_SHOW_TEXT_PREFIX, id)
  }

  /** `getShowTextPref` on the booleans of the file: false unless set. */
  function ShowText(bools: map<string, bool>, id: Int32): (show: bool) {
    Get(bools, ShowTextKey(id), false)
  }

  function GetShowTextPref(prefs: WidgetPrefs, id: Int32): (show: bool)
    reads prefs
  {
    ShowText(prefs.bools, id)
  }

  /** A widget whose flag was never written reads false. */
  lemma ShowTextDefault(bools: map<string, bool>, id: Int32)
    requires ShowTextKey(id) !in bools
    ensures !ShowText(bools, id)
  {
  }

  /** `setShowTextPref`: widget `id` now reads `show`; every other widget reads what it read before. */
  method SetShowTextPref(prefs: WidgetPrefs, id: Int32, show: bool)
    modifies prefs
    ensures prefs.bools == old(prefs.bools)[ShowTextKey(id) := show]
    ensures prefs.stringSets == old(prefs.stringSets)
    ensures GetShowTextPref(prefs, id) == show
    ensures forall other: Int32 :: other != id ==> GetShowTextPref(prefs, other) == old(GetShowTextPref(prefs, other))
  {
    prefs.bools := prefs.bools[ShowTextKey(id) := show];
    forall other: Int32 | other != id
      ensures GetShowTextPref(prefs, other) == old(GetShowTextPref(prefs, other))
    {
      GetAfterPut(old(prefs.bools), PREF_SHOW_TEXT_PREFIX, id, show, other, false);
    }
  }

  /** `deletePrefs`: widget `id` reads false again; every other widget is unaffected. */
  method DeletePrefs(prefs: WidgetPrefs, id: Int32)
    modifies prefs
    ensures prefs.bools == old(prefs.bools) - {ShowTextKey(id)}
    ensures prefs.stringSets == old(prefs.stringSets)
    ensures !GetShowTextPref(prefs, id)
    ensures forall other: Int32 :: other != id ==> GetShowTextPref(prefs, other) == old(GetShowTextPref(prefs, other))
  {
    prefs.bools := prefs.bools - {ShowTextKey(id)};
    forall other: Int32 | other != id
      ensures GetShowTextPref(prefs, other) == old(GetShowTextPref(prefs, other))
    {
      GetAfterRemove(old(prefs.bools), PREF_SHOW_TEXT_PREFIX, id, other, false);
    }
  }

  /** `onDeleted`: removes the flag of every deleted widget, and only those. */
  method OnDeleted(prefs: WidgetPrefs, appWidgetIds: seq<Int32>)
    modifies prefs
    ensures prefs.bools == old(prefs.bools) - KeysFor(PREF_SHOW_TEXT_PREFIX, appWidgetIds)
    ensures prefs.stringSets == old(prefs.stringSets)
    ensures forall other: Int32 :: GetShowTextPref(prefs, other)
                                == if other in appWidgetIds then false else old(GetShowTextPref(prefs, other))
  {
    var i := 0;
    while i < |appWidgetIds|
      invariant 0 <= i <= |appWidgetIds|
      invariant prefs.bools == old(prefs.bools) - KeysFor(PREF_SHOW_TEXT_PREFIX, appWidgetIds[..i])
      invariant prefs.stringSets == old(prefs.stringSets)
    {
      assert appWidgetIds[..i + 1][..i] == appWidgetIds[..i];
      DeletePrefs(prefs, appWidgetIds[i]);
      i := i + 1;
    }
    assert appWidgetIds[..i] == appWidgetIds;
    forall other: Int32
      ensures GetShowTextPref(prefs, other) == if other in appWidgetIds then false else old(GetShowTextPref(prefs, other))
    {
      GetAfterRemoveAll(old(prefs.bools), PREF_SHOW_TEXT_PREFIX, appWidgetIds, other, false);
    }
  }

  /**
   * One `updateAppWidget` run of widget `id`: the placeholder, then nothing when
   * there is no URL or no file, otherwise the decoded bitmap or the error drawable.
   */
  function Renders(id: Int32, data: WidgetData, showText: bool, env: RunEnv): (events: seq<RenderEvent>)
    ensures IsRunOf(events, id, OverlayFor(showText, data.description, data.sender))
    // a missing URL or file never shows an error: the placeholder stays
    ensures |events| == 1 <==> IsNullOrEmpty(data.imageUrl) || env.file.Missing?
    // a decoded bitmap is shown; a null decode or an exception shows the error drawable
    ensures |events| == 2 ==> (events[1].image == ErrorIcon <==> !env.load.Loaded?)
    ensures |events| == 2 && env.load.Loaded? ==> events[1].image == ImageBitmap(env.load.bitmap)
  {
    var overlay := OverlayFor(showText, data.description, data.sender);
    var placeholder := RenderEvent(id, PlaceholderIcon, overlay);
    if IsNullOrEmpty(data.imageUrl) || env.file.Missing? then [placeholder]
    else match env.load
      case Loaded(b) => [placeholder, RenderEvent(id, ImageBitmap(b), overlay)]
      case _ => [placeholder, RenderEvent(id, ErrorIcon, overlay)]
  }

  /** Runs for `ids` in order; the flags are read from `bools`, which no run changes. */
  function AllRenders(bools: map<string, bool>, ids: seq<Int32>, data: WidgetData, envs: seq<RunEnv>): (events: seq<RenderEvent>)
    requires |envs| == |ids|
    decreases |ids|
  {
    if ids == [] then []
    else
      var n := |ids| - 1;
      AllRenders(bools, ids[..n], data, envs[..n]) + Renders(ids[n], data, ShowText(bools, ids[n]), envs[n])
  }

  /** Extending the id list by one id appends that widget's run. */
  lemma AllRendersSnoc(bools: map<string, bool>, ids: seq<Int32>, data: WidgetData, envs: seq<RunEnv>, i: nat)
    requires |envs| == |ids| && i < |ids|
    ensures AllRenders(bools, ids[..i + 1], data, envs[..i + 1])
         == AllRenders(bools, ids[..i], data, envs[..i]) + Renders(ids[i], data, ShowText(bools, ids[i]), envs[i])
  {
    assert ids[..i + 1][..i] == ids[..i];
    assert envs[..i + 1][..i] == envs[..i];
  }

  /** A run renders exactly one placeholder, for its own widget. */
  lemma RendersPlaceholder(id: Int32, data: WidgetData, showText: bool, env: RunEnv)
    ensures Placeholders(Renders(id, data, showText, env)) == [id]
  {
    RunPlaceholders(Renders(id, data, showText, env), id, OverlayFor(showText, data.description, data.sender));
  }

  /** A fan-out renders one placeholder per id, in order: every registered widget is updated once. */
  lemma {:induction false} AllRendersPlaceholders(bools: map<string, bool>, ids: seq<Int32>, data: WidgetData, envs: seq<RunEnv>)
    requires |envs| == |ids|
    ensures Placeholders(AllRenders(bools, ids, data, envs)) == ids
    decreases |ids|
  {
    if ids != [] {
      var n := |ids| - 1;
      var show := ShowText(bools, ids[n]);
      var previous := AllRenders(bools, ids[..n], data, envs[..n]);
      var last := Renders(ids[n], data, show, envs[n]);
      assert Placeholders(previous) == ids[..n] by {
        AllRendersPlaceholders(bools, ids[..n], data, envs[..n]);
      }
      assert Placeholders(last) == [ids[n]] by {
        RendersPlaceholder(ids[n], data, show, envs[n]);
      }
      calc {
        Placeholders(AllRenders(bools, ids, data, envs));
        Placeholders(previous + last);
        { PlaceholdersAppend(previous, last); }
        Placeholders(previous) + Placeholders(last);
        ids[..n] + [ids[n]];
      }
      assert ids[..n] + [ids[n]] == ids;
    }
  }

  /** `updateAppWidget`: reads the widget's flag and returns the renders it hands the host. */
  method UpdateAppWidget(prefs: WidgetPrefs, id: Int32, data: WidgetData, env: RunEnv) returns (events: seq<RenderEvent>)
    ensures events == Renders(id, data, GetShowTextPref(prefs, id), env)
  {
    var showText := GetShowTextPref(prefs, id);
    var overlay := OverlayFor(showText, data.description, data.sender);
    events := [RenderEvent(id, PlaceholderIcon, overlay)];
    if IsNullOrEmpty(data.imageUrl) {
      return;
    }
    if env.file.Missing? {
      return;
    }
    match env.load {
      case Loaded(bitmap) =>
        events := events + [RenderEvent(id, ImageBitmap(bitmap), overlay)];
      case NoResult =>
        events := events + [RenderEvent(id, ErrorIcon, overlay)];
      case Threw =>
        events := events + [RenderEvent(id, ErrorIcon, overlay)];
    }
  }

  /** `onUpdate`: one run per id, in array order. */
  method OnUpdate(prefs: WidgetPrefs, ids: seq<Int32>, data: WidgetData, envs: seq<RunEnv>) returns (events: seq<RenderEvent>)
    requires |envs| == |ids|
    ensures events == AllRenders(prefs.bools, ids, data, envs)
  {
    events := [];
    var i := 0;
    while i < |ids|
      invariant 0 <= i <= |ids|
      invariant events == AllRenders(prefs.bools, ids[..i], data, envs[..i])
    {
      var run := UpdateAppWidget(prefs, ids[i], data, envs[i]);
      AllRendersSnoc(prefs.bools, ids, data, envs, i);
      events := events + run;
      i := i + 1;
    }
    assert ids[..i] == ids && envs[..i] == envs;
  }

  /**
   * `onReceive`: the image-updated broadcast runs an update for every widget the
   * host has registered for this provider (`registered`); other actions do nothing here.
   */
  method OnReceive(prefs: WidgetPrefs, intent: Intent, registered: seq<Int32>, data: WidgetData, envs: seq<RunEnv>)
    returns (events: seq<RenderEvent>)
    requires |envs| == |registered|
    ensures events == if intent.action == Some(ACTION_IMAGE_UPDATED) then AllRenders(prefs.bools, registered, data, envs) else []
  {
    events := [];
    if intent.action == Some(ACTION_IMAGE_UPDATED) {
      events := OnUpdate(prefs, registered, data, envs);
    }
  }
}
