/**
 * The home-screen widget variant that always tries to show overlay text and keeps a
 * process-wide, single-slot cache of the last decoded image (the four variables of
 * its companion object).
 */
module HomeScreenWidgetWithText {
  import opened Wrappers
  import opened Decimal
  import opened Render

  const ACTION_IMAGE_UPDATED: string := "fr.zatomos.krab.ACTION_IMAGE_UPDATED"
  const PREF_IMAGE_URL_KEY: string := "recentImageUrl"
  const PREF_IMAGE_DESC_KEY: string := "recentImageDescription"
  /** The component name of this provider, the target of the broadcast that saveImageData sends. */
  const PROVIDER: string := "fr.zatomos.krab.HomeScreenWidgetWithText"
  /** The preference file saveImageData writes; updateAppWidget never reads it. */
  const SAVED_PREFS_NAME: string := "fr.zatomos.krab.WidgetPrefs"

  /** The cache slot: URL, bitmap, file timestamp and description of the last successful load. */
  datatype CacheState = CacheState(url: Option<string>, bitmap: Option<Bitmap>, timestamp: int, description: Option<string>)

  /** The initial slot, and the slot after saveImageData. */
  const Cleared: CacheState := CacheState(None, None, 0, None)

  /** The slot is either cleared or holds a bitmap loaded from a non-empty URL. */
  ghost predicate CacheInvariant(c: CacheState) {
    c == Cleared || (c.url.Some? && c.url.value != "" && c.bitmap.Some?)
  }

  /** The file's last-modified time, or 0 when it does not exist. */
  function CurrentTimestamp(file: FileState): (t: int) {
    match file
    case Missing => 0
    case Present(t) => t
  }

  /** The freshness check: the slot holds a bitmap for this URL, timestamp and description. */
  predicate IsHit(c: CacheState, url: string, timestamp: int, description: Option<string>) {
    c.url == Some(url) && c.bitmap.Some? && timestamp == c.timestamp && description == c.description
  }

  /** The renders of one run and the cache slot after it. */
  datatype Outcome = Outcome(events: seq<RenderEvent>, cache: CacheState)

  /** The overlay of this variant: there is no per-widget flag, so text is always wanted. */
  function TextOverlay(data: WidgetData): (o: Overlay) {
    OverlayFor(true, data.description, data.sender)
  }

  /**
   * One `updateAppWidget` run of widget `id` from cache slot `c`: the placeholder
   * render, and then a cache hit, a fresh load, silence or an error render.
   */
  function Update(c: CacheState, id: Int32, data: WidgetData, env: RunEnv): (r: Outcome)
    ensures IsRunOf(r.events, id, TextOverlay(data))
    // the slot changes only by being refilled, all four fields at once, from a successful load
    ensures r.cache == c
         || (env.load.Loaded? && r.cache == CacheState(data.imageUrl, Some(env.load.bitmap), CurrentTimestamp(env.file), data.description))
    // an error is shown exactly when the URL is set, the slot is stale and loading threw
    ensures (|r.events| == 2 && r.events[1].image == ErrorIcon)
        <==> (!IsNullOrEmpty(data.imageUrl)
              && !IsHit(c, data.imageUrl.value, CurrentTimestamp(env.file), data.description)
              && env.load.Threw?)
    // a bitmap shown is the cached one on a hit, otherwise the one just loaded and now cached
    ensures |r.events| == 2 && r.events[1].image.ImageBitmap? ==>
              r.cache.bitmap == Some(r.events[1].image.bitmap)
              && r.cache.url == data.imageUrl && r.cache.description == data.description
              && r.cache.timestamp == CurrentTimestamp(env.file)
  {
    var placeholder := RenderEvent(id, PlaceholderIcon, TextOverlay(data));
    if IsNullOrEmpty(data.imageUrl) then Outcome([placeholder], c)
    else
      var url := data.imageUrl.value;
      var timestamp := CurrentTimestamp(env.file);
      if IsHit(c, url, timestamp, data.description) then
        Outcome([placeholder, RenderEvent(id, ImageBitmap(c.bitmap.value), TextOverlay(data))], c)
      else
        match env.load
        case Loaded(b) =>
          Outcome([placeholder, RenderEvent(id, ImageBitmap(b), TextOverlay(data))],
                  CacheState(Some(url), Some(b), timestamp, data.description))
        case NoResult => Outcome([placeholder], c)
        case Threw => Outcome([placeholder, RenderEvent(id, ErrorIcon, TextOverlay(data))], c)
  }

  /** `onUpdate`: one run per id, in array order, each starting from the slot the previous one left. */
  function FanOut(c: CacheState, ids: seq<Int32>, data: WidgetData, envs: seq<RunEnv>): (r: Outcome)
    requires |envs| == |ids|
    decreases |ids|
  {
    if ids == [] then Outcome([], c)
    else
      var n := |ids| - 1;
      var previous := FanOut(c, ids[..n], data, envs[..n]);
      var last := Update(previous.cache, ids[n], data, envs[n]);
      Outcome(previous.events + last.events, last.cache)
  }

  /** A null or empty URL leaves the placeholder as the only render and the slot as it was. */
  lemma NoUrlOnlyPlaceholder(c: CacheState, id: Int32, data: WidgetData, env: RunEnv)
    requires IsNullOrEmpty(data.imageUrl)
    ensures Update(c, id, data, env) == Outcome([RenderEvent(id, PlaceholderIcon, TextOverlay(data))], c)
  {
  }

  /** On a hit the cached bitmap is shown without loading, and the slot stays as it was. */
  lemma HitRendersCached(c: CacheState, id: Int32, data: WidgetData, env: RunEnv)
    requires !IsNullOrEmpty(data.imageUrl)
    requires IsHit(c, data.imageUrl.value, CurrentTimestamp(env.file), data.description)
    ensures Update(c, id, data, env).events[1..] == [RenderEvent(id, ImageBitmap(c.bitmap.value), TextOverlay(data))]
    ensures Update(c, id, data, env).cache == c
  {
  }

  /** On a miss, the loader's outcome decides: refill and show, stay silent, or show the error drawable. */
  lemma MissFollowsLoader(c: CacheState, id: Int32, data: WidgetData, env: RunEnv)
    requires !IsNullOrEmpty(data.imageUrl)
    requires !IsHit(c, data.imageUrl.value, CurrentTimestamp(env.file), data.description)
    ensures var r := Update(c, id, data, env);
      match env.load
      case Loaded(b) =>
        r.events[1..] == [RenderEvent(id, ImageBitmap(b), TextOverlay(data))]
        && r.cache == CacheState(data.imageUrl, Some(b), CurrentTimestamp(env.file), data.description)
      case NoResult => |r.events| == 1 && r.cache == c
      case Threw => r.events[1..] == [RenderEvent(id, ErrorIcon, TextOverlay(data))] && r.cache == c
  {
  }

  /** Every run keeps the slot either cleared or holding a bitmap for a non-empty URL. */
  lemma UpdateKeepsInvariant(c: CacheState, id: Int32, data: WidgetData, env: RunEnv)
    requires CacheInvariant(c)
    ensures CacheInvariant(Update(c, id, data, env).cache)
  {
  }

  /** A cleared slot never hits: the first run after saveImageData shows only what the loader gives. */
  lemma ClearedNeverHits(id: Int32, data: WidgetData, env: RunEnv)
    requires !IsNullOrEmpty(data.imageUrl)
    ensures !IsHit(Cleared, data.imageUrl.value, CurrentTimestamp(env.file), data.description)
    ensures var r := Update(Cleared, id, data, env);
      |r.events| == 2 && r.events[1].image.ImageBitmap? ==> env.load == Loaded(r.events[1].image.bitmap)
  {
  }

  /**
   * After a run that loaded a bitmap, a later run with the same descriptor and an
   * unchanged file timestamp is a hit: it shows that bitmap whatever the loader
   * would give, and leaves the slot alone.
   */
  lemma LoadThenHit(c: CacheState, id: Int32, id': Int32, data: WidgetData, env: RunEnv, env': RunEnv)
    requires !IsNullOrEmpty(data.imageUrl) && env.load.Loaded?
    requires CurrentTimestamp(env'.file) == CurrentTimestamp(env.file)
    ensures var first := Update(c, id, data, env);
      var second := Update(first.cache, id', data, env');
      first.cache.bitmap.Some?
      && second.events == [RenderEvent(id', PlaceholderIcon, TextOverlay(data)),
                           RenderEvent(id', ImageBitmap(first.cache.bitmap.value), TextOverlay(data))]
      && second.cache == first.cache
  {
  }

  /** `onUpdate` renders one placeholder per id, in array order. */
  lemma {:induction false} FanOutPlaceholders(c: CacheState, ids: seq<Int32>, data: WidgetData, envs: seq<RunEnv>)
    requires |envs| == |ids|
    ensures Placeholders(FanOut(c, ids, data, envs).events) == ids
    decreases |ids|
  {
    if ids != [] {
      var n := |ids| - 1;
      var previous := FanOut(c, ids[..n], data, envs[..n]);
      var last := Update(previous.cache, ids[n], data, envs[n]);
      FanOutPlaceholders(c, ids[..n], data, envs[..n]);
      RunPlaceholders(last.events, ids[n], TextOverlay(data));
      PlaceholdersAppend(previous.events, last.events);
      assert ids[..n] + [ids[n]] == ids;
    }
  }

  /** `onUpdate` keeps the cache invariant, however many runs it makes. */
  lemma {:induction false} FanOutKeepsInvariant(c: CacheState, ids: seq<Int32>, data: WidgetData, envs: seq<RunEnv>)
    requires |envs| == |ids|
    requires CacheInvariant(c)
    ensures CacheInvariant(FanOut(c, ids, data, envs).cache)
    decreases |ids|
  {
    if ids != [] {
      var n := |ids| - 1;
      FanOutKeepsInvariant(c, ids[..n], data, envs[..n]);
      UpdateKeepsInvariant(FanOut(c, ids[..n], data, envs[..n]).cache, ids[n], data, envs[n]);
    }
  }

  /** The preference file saveImageData writes (a string map; `putString(key, null)` removes the key). */
  class SavedImagePrefs {
    var strings: map<string, string>

    constructor ()
      ensures strings == map[]
    {
      strings := map[];
    }
  }

  /** The companion object's cache variables. */
  class WidgetCache {
    var lastLoadedImageUrl: Option<string>
    var lastLoadedBitmap: Option<Bitmap>
    var lastImageTimestamp: int
    var lastImageDescription: Option<string>

    constructor ()
      ensures State() == Cleared
    {
      lastLoadedImageUrl := None;
      lastLoadedBitmap := None;
      lastImageTimestamp := 0;
      lastImageDescription := None;
    }

    function State(): (s: CacheState)
      reads this
    {
      CacheState(lastLoadedImageUrl, lastLoadedBitmap, lastImageTimestamp, lastImageDescription)
    }

    ghost predicate Valid()
      reads this
    {
      CacheInvariant(State())
    }

    /** `updateAppWidget`: returns the renders it hands the host, in order. */
    method UpdateAppWidget(appWidgetId: Int32, data: WidgetData, env: RunEnv) returns (events: seq<RenderEvent>)
      requires Valid()
      modifies this
      ensures Valid()
      ensures Outcome(events, State()) == Update(old(State()), appWidgetId, data, env)
    {
      var overlay := TextOverlay(data);
      events := [RenderEvent(appWidgetId, PlaceholderIcon, overlay)];
      if IsNullOrEmpty(data.imageUrl) {
        return;
      }
      var imageUrl := data.imageUrl.value;
      var currentTimestamp := CurrentTimestamp(env.file);
      if Some(imageUrl) == lastLoadedImageUrl && lastLoadedBitmap.Some?
         && currentTimestamp == lastImageTimestamp && data.description == lastImageDescription
      {
        events := events + [RenderEvent(appWidgetId, ImageBitmap(lastLoadedBitmap.value), overlay)];
        return;
      }
      match env.load {
        case Loaded(bitmap) =>
          lastLoadedImageUrl := Some(imageUrl);
          lastLoadedBitmap := Some(bitmap);
          lastImageTimestamp := currentTimestamp;
          lastImageDescription := data.description;
          events := events + [RenderEvent(appWidgetId, ImageBitmap(bitmap), overlay)];
        case NoResult =>
        case Threw =>
          events := events + [RenderEvent(appWidgetId, ErrorIcon, overlay)];
      }
    }

    /** `onUpdate`: runs `updateAppWidget` for each id in turn; `envs[k]` is what run `k` meets. */
    method OnUpdate(appWidgetIds: seq<Int32>, data: WidgetData, envs: seq<RunEnv>) returns (events: seq<RenderEvent>)
      requires |envs| == |appWidgetIds|
      requires Valid()
      modifies this
      ensures Valid()
      ensures Outcome(events, State()) == FanOut(old(State()), appWidgetIds, data, envs)
    {
      events := [];
      var i := 0;
      while i < |appWidgetIds|
        invariant 0 <= i <= |appWidgetIds|
        invariant Valid()
        invariant Outcome(events, State()) == FanOut(old(State()), appWidgetIds[..i], data, envs[..i])
      {
        assert appWidgetIds[..i + 1][..i] == appWidgetIds[..i];
        assert envs[..i + 1][..i] == envs[..i];
        var run := UpdateAppWidget(appWidgetIds[i], data, envs[i]);
        events := events + run;
        i := i + 1;
      }
      assert appWidgetIds[..i] == appWidgetIds && envs[..i] == envs;
    }

    /**
     * `onReceive`: the image-updated broadcast refreshes every widget the host has
     * registered for the intent's component (`registered`); any other intent, or one
     * without a component, does nothing here.
     */
    method OnReceive(intent: Intent, registered: seq<Int32>, data: WidgetData, envs: seq<RunEnv>) returns (events: seq<RenderEvent>)
      requires |envs| == |registered|
      requires Valid()
      modifies this
      ensures Valid()
      ensures if intent.action == Some(ACTION_IMAGE_UPDATED) && intent.component.Some?
              then Outcome(events, State()) == FanOut(old(State()), registered, data, envs)
              else events == [] && State() == old(State())
    {
      events := [];
      if intent.action == Some(ACTION_IMAGE_UPDATED) {
        if intent.component.None? {
          return;
        }
        events := OnUpdate(registered, data, envs);
      }
    }

    /**
     * `saveImageData`: writes the URL and description to its own preference file,
     * clears the cache slot and returns the broadcast it sends to this provider.
     */
    method SaveImageData(prefs: SavedImagePrefs, url: string, description: Option<string>) returns (broadcast: Intent)
      modifies this, prefs
      ensures Valid() && State() == Cleared
      ensures prefs.strings == (match description
                                case Some(d) => old(prefs.strings)[PREF_IMAGE_URL_KEY := url][PREF_IMAGE_DESC_KEY := d]
                                case None => old(prefs.strings)[PREF_IMAGE_URL_KEY := url] - {PREF_IMAGE_DESC_KEY})
      ensures broadcast == Intent(Some(ACTION_IMAGE_UPDATED), Some(PROVIDER))
    {
      var edited := prefs.strings[PREF_IMAGE_URL_KEY := url];
      match description {
        case Some(d) => edited := edited[PREF_IMAGE_DESC_KEY := d];
        case None => edited := edited - {PREF_IMAGE_DESC_KEY};
      }
      prefs.strings := edited;
      lastLoadedImageUrl := None;
      lastLoadedBitmap := None;
      lastImageTimestamp := 0;
      lastImageDescription := None;
      broadcast := Intent(Some(ACTION_IMAGE_UPDATED), Some(PROVIDER));
    }
  }
}
