/**
 * The broadcast receiver called back after the launcher pins a new widget: it works
 * out the new widget's id and copies the pending "show text" choice into that
 * widget's flag.
 */
module WidgetPinnedReceiver {
  import opened Wrappers
  import opened Decimal
  import opened Prefs
  import opened Render
  import HomeScreenWidget

  const OLD_WIDGET_IDS_KEY: string := "old_widget_ids"
  const PENDING_SHOW_TEXT_KEY: string := "pending_showText"

  /** `oldIds`: the stored strings that parse as an `Int`, as numbers; the others are dropped. */
  function OldIds(stored: set<string>): (ids: set<Int32>) {
    set s | s in stored && ParseInt(s).Some? :: ParseInt(s).value
  }

  /** Ids written with `toString()` come back as the same ids. */
  lemma OldIdsOfWritten(ids: set<Int32>)
    ensures OldIds(set n | n in ids :: IntToString(n)) == ids
  {
    var stored := set n | n in ids :: IntToString(n);
    forall n | n in ids
      ensures n in OldIds(stored)
    {
      ParseIntRoundTrip(n);
      assert IntToString(n) in stored;
    }
    forall m | m in OldIds(stored)
      ensures m in ids
    {
      var s :| s in stored && ParseInt(s).Some? && ParseInt(s).value == m;
      var n :| n in ids && s == IntToString(n);
      ParseIntRoundTrip(n);
    }
  }

  /** Strings that do not parse add nothing to `oldIds`. */
  lemma OldIdsIgnoresUnparsable(stored: set<string>, junk: set<string>)
    requires forall s :: s in junk ==> ParseInt(s).None?
    ensures OldIds(stored + junk) == OldIds(stored)
  {
  }

  /** The position of the first id of `current` outside `oldIds`, or `|current|` when there is none. */
  function FirstNewIndex(current: seq<Int32>, oldIds: set<Int32>): (k: nat)
    ensures k <= |current|
    ensures forall j :: 0 <= j < k ==> current[j] in oldIds
    ensures k < |current| ==> current[k] !in oldIds
    decreases |current|
  {
    if current == [] || current[0] !in oldIds then 0 else 1 + FirstNewIndex(current[1..], oldIds)
  }

  /**
   * `newIds.first()` for `newIds = currentIds.toSet() - oldIds`: the set is empty
   * exactly when no id of `current` is new, and otherwise its first element, in the
   * array order a LinkedHashSet keeps, is `current[FirstNewIndex(current, oldIds)]`.
   */
  lemma FirstNewIsFirstOfDifference(current: seq<Int32>, oldIds: set<Int32>)
    ensures var k := FirstNewIndex(current, oldIds);
      && ((set x | x in current) - oldIds == {} <==> k == |current|)
      && (k < |current| ==> current[k] in (set x | x in current) - oldIds)
  {
    var k := FirstNewIndex(current, oldIds);
    if k < |current| {
      assert current[k] in (set x | x in current) - oldIds;
    } else {
      forall x | x in current
        ensures x in oldIds
      {
        var j :| 0 <= j < |current| && current[j] == x;
      }
    }
  }

  /** The stored `old_widget_ids` set, empty when absent. */
  function StoredOldIds(stringSets: map<string, set<string>>): (stored: set<string>) {
    Get(stringSets, OLD_WIDGET_IDS_KEY, {})
  }

  /** The pending choice, false when absent. */
  function PendingShowText(bools: map<string, bool>): (pending: bool) {
    Get(bools, PENDING_SHOW_TEXT_KEY, false)
  }

  /**
   * The widget id `onReceive` settles on, or None when it cannot determine one. A
   * valid id in the extras (absent reads as INVALID) wins and the stored ids are not
   * consulted; otherwise the first current id that is not an old one.
   */
  function ResolveWidgetId(extra: Option<Int32>, stored: set<string>, current: seq<Int32>): (r: Option<Int32>)
    ensures r.Some? ==> r.value != INVALID_APPWIDGET_ID
    ensures extra.Some? && extra.value != INVALID_APPWIDGET_ID ==> r == extra
    ensures extra.GetOr(INVALID_APPWIDGET_ID) == INVALID_APPWIDGET_ID ==>
              (r.Some? <==> exists k :: 0 <= k < |current| && current[k] !in OldIds(stored) && current[k] != INVALID_APPWIDGET_ID
                                        && forall j :: 0 <= j < k ==> current[j] in OldIds(stored))
    ensures extra.GetOr(INVALID_APPWIDGET_ID) == INVALID_APPWIDGET_ID && r.Some? ==>
              r.value in current && r.value !in OldIds(stored)
    // the fallback takes the FIRST current id that is not an old one
    ensures extra.GetOr(INVALID_APPWIDGET_ID) == INVALID_APPWIDGET_ID && r.Some? ==>
              exists k :: 0 <= k < |current| && r.value == current[k] && current[k] !in OldIds(stored)
                          && forall j :: 0 <= j < k ==> current[j] in OldIds(stored)
  {
    var fromExtras := extra.GetOr(INVALID_APPWIDGET_ID);
    if fromExtras != INVALID_APPWIDGET_ID then Some(fromExtras)
    else
      var oldIds := OldIds(stored);
      var k := FirstNewIndex(current, oldIds);
      if k < |current| && current[k] != INVALID_APPWIDGET_ID then Some(current[k]) else None
  }

  /** The pending key is not any widget's flag key, so applying the flag keeps the pending choice. */
  lemma PendingKeyIsNoFlagKey(id: Int32)
    ensures HomeScreenWidget.ShowTextKey(id) != PENDING_SHOW_TEXT_KEY
  {
    assert HomeScreenWidget.ShowTextKey(id)[0] == 's';
  }

  /**
   * `onReceive`: resolves the new widget's id from the extras (`extra`), the stored
   * old ids and the host's current ids for HomeScreenWidget; on success sets that
   * widget's flag to the pending choice and runs one update for it (`env`).
   */
  method OnReceive(prefs: HomeScreenWidget.WidgetPrefs, extra: Option<Int32>, currentIds: seq<Int32>, data: WidgetData, env: RunEnv)
    returns (resolved: Option<Int32>, events: seq<RenderEvent>)
    modifies prefs
    ensures resolved == ResolveWidgetId(extra, StoredOldIds(old(prefs.stringSets)), currentIds)
    ensures prefs.stringSets == old(prefs.stringSets)
    ensures resolved.None? ==> prefs.bools == old(prefs.bools) && events == []
    ensures resolved.Some? ==>
              && prefs.bools == old(prefs.bools)[HomeScreenWidget.ShowTextKey(resolved.value) := PendingShowText(old(prefs.bools))]
              && HomeScreenWidget.GetShowTextPref(prefs, resolved.value) == PendingShowText(old(prefs.bools))
              && PendingShowText(prefs.bools) == PendingShowText(old(prefs.bools))
              && events == HomeScreenWidget.Renders(resolved.value, data, PendingShowText(old(prefs.bools)), env)
  {
    var appWidgetId := extra.GetOr(INVALID_APPWIDGET_ID);
    if appWidgetId == INVALID_APPWIDGET_ID {
      var oldIds := OldIds(StoredOldIds(prefs.stringSets));
      var k := FirstNewIndex(currentIds, oldIds);
      if k < |currentIds| {
        appWidgetId := currentIds[k];
      }
    }
    if appWidgetId == INVALID_APPWIDGET_ID {
      return None, [];
    }
    resolved := Some(appWidgetId);
    var showText := PendingShowText(prefs.bools);
    HomeScreenWidget.SetShowTextPref(prefs, appWidgetId, showText);
    PendingKeyIsNoFlagKey(appWidgetId);
    events := HomeScreenWidget.UpdateAppWidget(prefs, appWidgetId, data, env);
  }
}
