# KRAB widgets and notification webhooks, in Dafny

This project models the decision logic of the KRAB photo-sharing app's Android
home-screen widgets and its two Supabase notification webhooks, and proves what
that logic promises.

- **HomeScreenWidgetWithText** (`home_screen_widget_with_text.dfy`) is the widget
  variant with a single-slot image cache. The four companion-object variables are
  the fields of class `WidgetCache`.
  - `UpdateAppWidget` returns the renders it hands the widget host. A render is
    one `RenderEvent`: the image slot plus the overlay text.
  - The method is proved equal to the pure function `Update`. The cache-hit,
    refill, silent-miss and error behaviour is proved about `Update`.
  - `SaveImageData` writes its own preference file (`fr.zatomos.krab.WidgetPrefs`),
    clears the cache and returns the broadcast it sends.
  - The widget data that `updateAppWidget` reads comes from the home_widget
    plugin's store, which is a different file. So it is an input here, and no
    save-then-update round trip is claimed.
- **HomeScreenWidget** (`home_screen_widget.dfy`) is the cache-less variant. It
  keeps a per-widget `showText_<id>` flag in `HomeScreenWidgetPrefs`, modelled
  as class `WidgetPrefs`. The model covers get/set/delete of that flag,
  `onDeleted`, the broadcast fan-out, and the placeholder/image/error sequence.
- **Prefs** and **Decimal** (`prefs.dfy`, `decimal.dfy`) model the
  `prefix + id` keys. Kotlin's `Int.toString()` and `String.toIntOrNull()`
  are written out, so that "one widget's entry never touches another's" is proved,
  not assumed.
- **WidgetPinnedReceiver** (`widget_pinned_receiver.dfy`) resolves a freshly pinned
  widget's id. It takes the id from the extras, or else the first current id that is
  not among the stored old ids. It then copies the `pending_showText` choice into
  that widget's flag.
- **MainActivity** (`main_activity.dfy`) handles the `krab/widget_pin` method
  channel: it stores the pending choice and then requests the pin.
  `PinThenCallback` chains this method with the receiver.
- **HomeScreenWidgetConfigureActivity** (`configure_activity.dfy`) covers the
  `appwidget_<id>` title store and the activity's result protocol.
- **NewImageNotify** and **NewCommentNotify** (`new_image_notify.dfy`,
  `new_comment_notify.dfy`, sharing `notify.dfy`) model the two webhooks.
  - Database lookups, the FCM access token and each FCM request's outcome are
    inputs.
  - The observable outcome is the HTTP response, the tables queried and the
    messages sent.

I/O and framework calls become inputs:

- the file's existence and last-modified time;
- the image loader's or decoder's outcome;
- the widget ids the host has registered;
- database rows;
- FCM results.

Renders, preference writes, broadcasts and messages are outputs.

## Model

| member | source | states |
|---|---|---|
| Decimal.NatToDigitsValue | android/app/src/main/java/fr/zatomos/krab/HomeScreenWidget.kt:67 | the decimal text of a natural is a non-empty ASCII digit string without a leading zero, and it denotes that number |
| Decimal.ParseIntRoundTrip | android/app/src/main/kotlin/fr/zatomos/krab/WidgetPinnedReceiver.kt:38-40 | `toIntOrNull` of `toString` of any Int gives the Int back, so ids stored as strings are read back as the same ids |
| Decimal.IntToStringInjective | android/app/src/main/java/fr/zatomos/krab/HomeScreenWidget.kt:63-77 | different integers have different decimal text |
| Prefs.KeyForInjective | android/app/src/main/java/fr/zatomos/krab/HomeScreenWidget.kt:67-77 | two different widget ids never yield the same `prefix + id` key |
| Prefs.GetAfterPut | android/app/src/main/java/fr/zatomos/krab/HomeScreenWidget.kt:70-73 | after putting a value under widget id's key, that id reads the value and every other id reads what it read before |
| Prefs.GetAfterRemove | android/app/src/main/java/fr/zatomos/krab/HomeScreenWidget.kt:75-78 | after removing widget id's key, that id reads the default and every other id is unaffected |
| Prefs.KeysForMembership | android/app/src/main/java/fr/zatomos/krab/HomeScreenWidget.kt:31-35 | a widget's key is among the keys of a list of ids exactly when the widget is in the list |
| Prefs.GetAfterRemoveAll | android/app/src/main/java/fr/zatomos/krab/HomeScreenWidget.kt:31-35 | after removing the keys of a list of ids, the listed ids read the default and every other id is unaffected |
| Render.OverlayFor | android/app/src/main/java/fr/zatomos/krab/HomeScreenWidget.kt:101-106 | the overlay is visible exactly when text is wanted and sender and description are both non-null and non-empty; its text is the sender, then ": ", then the description |
| Render.PlaceholdersAppend | android/app/src/main/java/fr/zatomos/krab/HomeScreenWidget.kt:24-28 | the placeholder renders of two consecutive runs are those of the first, then those of the second |
| Render.RunPlaceholders | android/app/src/main/java/fr/zatomos/krab/HomeScreenWidget.kt:123-126 | a single run renders exactly one placeholder, for its own widget |
| HomeScreenWidgetWithText.Update | android/app/src/main/java/fr/zatomos/krab/HomeScreenWidgetWithText.kt:58-151 | a run renders the placeholder first and at most one more render for the same widget and overlay; the cache changes only by a refill of all four fields from a successful load; an error render appears exactly when the URL is set, the cache is stale and loading threw; a bitmap shown is the one the cache then holds, with the current URL, description and file timestamp |
| HomeScreenWidgetWithText.NoUrlOnlyPlaceholder | android/app/src/main/java/fr/zatomos/krab/HomeScreenWidgetWithText.kt:99-150 | a null or empty URL gives only the placeholder render and leaves the cache unchanged |
| HomeScreenWidgetWithText.HitRendersCached | android/app/src/main/java/fr/zatomos/krab/HomeScreenWidgetWithText.kt:102-113 | when URL, cached bitmap, file timestamp (0 if the file is missing) and description all match, the cached bitmap is rendered and the cache is unchanged |
| HomeScreenWidgetWithText.MissFollowsLoader | android/app/src/main/java/fr/zatomos/krab/HomeScreenWidgetWithText.kt:115-147 | on a miss, a loaded bitmap is rendered and refills all four cache fields; a non-success result renders nothing more; an exception renders the error drawable; neither of the last two changes the cache |
| HomeScreenWidgetWithText.UpdateKeepsInvariant | android/app/src/main/java/fr/zatomos/krab/HomeScreenWidgetWithText.kt:125-132 | the cache stays either cleared or holding a bitmap for a non-empty URL |
| HomeScreenWidgetWithText.ClearedNeverHits | android/app/src/main/java/fr/zatomos/krab/HomeScreenWidgetWithText.kt:162-166 | a cleared cache never hits, so any bitmap the next run shows is the one the loader just returned |
| HomeScreenWidgetWithText.LoadThenHit | android/app/src/main/java/fr/zatomos/krab/HomeScreenWidgetWithText.kt:102-132 | after a successful load, a later run with the same data and file timestamp is a hit: it shows the same bitmap whatever the loader would give |
| HomeScreenWidgetWithText.FanOutPlaceholders | android/app/src/main/java/fr/zatomos/krab/HomeScreenWidgetWithText.kt:27-33 | `onUpdate` renders one placeholder per given id, in array order |
| HomeScreenWidgetWithText.FanOutKeepsInvariant | android/app/src/main/java/fr/zatomos/krab/HomeScreenWidgetWithText.kt:27-33 | the cache invariant survives any number of runs |
| HomeScreenWidgetWithText.WidgetCache.constructor | android/app/src/main/java/fr/zatomos/krab/HomeScreenWidgetWithText.kt:51-55 | the cache starts cleared: no URL, no bitmap, timestamp 0, no description |
| HomeScreenWidgetWithText.WidgetCache.UpdateAppWidget | android/app/src/main/java/fr/zatomos/krab/HomeScreenWidgetWithText.kt:58-151 | the renders returned and the new cache fields are those of `Update` on the old fields, and the cache invariant is kept |
| HomeScreenWidgetWithText.WidgetCache.OnUpdate | android/app/src/main/java/fr/zatomos/krab/HomeScreenWidgetWithText.kt:27-33 | runs `updateAppWidget` once per id in array order, each run starting from the cache the previous one left |
| HomeScreenWidgetWithText.WidgetCache.OnReceive | android/app/src/main/java/fr/zatomos/krab/HomeScreenWidgetWithText.kt:35-42 | the image-updated action with a component runs `onUpdate` over the widgets registered for it; any other intent renders nothing and leaves the cache alone |
| HomeScreenWidgetWithText.WidgetCache.SaveImageData | android/app/src/main/java/fr/zatomos/krab/HomeScreenWidgetWithText.kt:154-173 | writes the URL and the description into its own file (a null description removes the key), resets the cache to (null, null, 0, null), and broadcasts the image-updated action to this provider |
| HomeScreenWidget.ShowTextDefault | android/app/src/main/java/fr/zatomos/krab/HomeScreenWidget.kt:65-68 | a widget whose flag was never written reads false |
| HomeScreenWidget.SetShowTextPref | android/app/src/main/java/fr/zatomos/krab/HomeScreenWidget.kt:70-73 | the widget reads the new value, every other widget reads what it read before, and the string sets are untouched |
| HomeScreenWidget.DeletePrefs | android/app/src/main/java/fr/zatomos/krab/HomeScreenWidget.kt:75-78 | the widget reads false again and every other widget is unaffected |
| HomeScreenWidget.OnDeleted | android/app/src/main/java/fr/zatomos/krab/HomeScreenWidget.kt:31-35 | the flag of every deleted widget is removed and no other entry changes |
| HomeScreenWidget.Renders | android/app/src/main/java/fr/zatomos/krab/HomeScreenWidget.kt:80-161 | the placeholder comes first, with at most one more render; there is only the placeholder exactly when the URL is null or empty or the file does not exist; otherwise a decoded bitmap is rendered, and a null decode or an exception renders the error drawable |
| HomeScreenWidget.RendersPlaceholder | android/app/src/main/java/fr/zatomos/krab/HomeScreenWidget.kt:123-126 | each run renders exactly one placeholder, for its own widget |
| HomeScreenWidget.AllRendersPlaceholders | android/app/src/main/java/fr/zatomos/krab/HomeScreenWidget.kt:40-51 | a fan-out renders one placeholder per registered id, in order, so every widget is updated once |
| HomeScreenWidget.UpdateAppWidget | android/app/src/main/java/fr/zatomos/krab/HomeScreenWidget.kt:80-161 | the renders returned are `Renders` for the widget's stored flag |
| HomeScreenWidget.OnUpdate | android/app/src/main/java/fr/zatomos/krab/HomeScreenWidget.kt:19-29 | the renders are the runs for all given ids, in order |
| HomeScreenWidget.OnReceive | android/app/src/main/java/fr/zatomos/krab/HomeScreenWidget.kt:37-52 | the image-updated action runs one update per registered id of this provider; any other action renders nothing |
| WidgetPinnedReceiver.OldIdsOfWritten | android/app/src/main/kotlin/fr/zatomos/krab/WidgetPinnedReceiver.kt:38-40 | a set of ids stored as their decimal strings is read back as exactly that set |
| WidgetPinnedReceiver.OldIdsIgnoresUnparsable | android/app/src/main/kotlin/fr/zatomos/krab/WidgetPinnedReceiver.kt:38-40 | stored strings that do not parse as integers add nothing to the old ids |
| WidgetPinnedReceiver.FirstNewIndex | android/app/src/main/kotlin/fr/zatomos/krab/WidgetPinnedReceiver.kt:42-47 | the position of the first current id that is not an old id: every earlier id is old, and the one there is not |
| WidgetPinnedReceiver.FirstNewIsFirstOfDifference | android/app/src/main/kotlin/fr/zatomos/krab/WidgetPinnedReceiver.kt:42-47 | the set difference current minus old is empty exactly when no position is found; otherwise the id found belongs to it |
| WidgetPinnedReceiver.ResolveWidgetId | android/app/src/main/kotlin/fr/zatomos/krab/WidgetPinnedReceiver.kt:28-54 | a valid id in the extras is used as is; otherwise the result is the first current id, in array order, that is not an old id (the first element of the ordered difference), when that id exists and is valid; the result is never the invalid id |
| WidgetPinnedReceiver.PendingKeyIsNoFlagKey | android/app/src/main/kotlin/fr/zatomos/krab/WidgetPinnedReceiver.kt:58-61 | no widget's `showText_` key is the `pending_showText` key |
| WidgetPinnedReceiver.OnReceive | android/app/src/main/kotlin/fr/zatomos/krab/WidgetPinnedReceiver.kt:21-66 | when no id can be determined, nothing is written and nothing is rendered; otherwise the resolved widget's flag becomes the pending choice (false if absent), the pending choice survives, and one update runs for exactly that widget |
| HomeScreenWidgetConfigureActivity.LoadAfterSave | android/app/src/main/java/fr/zatomos/krab/HomeScreenWidgetConfigureActivity.kt:81-92 | loading a widget's title after saving it returns the saved text, and other widgets' titles are unchanged |
| HomeScreenWidgetConfigureActivity.LoadAfterDelete | android/app/src/main/java/fr/zatomos/krab/HomeScreenWidgetConfigureActivity.kt:88-99 | after a delete the widget's title is the default again, and other widgets' titles are unchanged |
| HomeScreenWidgetConfigureActivity.LoadDefault | android/app/src/main/java/fr/zatomos/krab/HomeScreenWidgetConfigureActivity.kt:88-92 | a widget with no saved title loads the default title, whatever titles other widgets have |
| HomeScreenWidgetConfigureActivity.SaveTitlePref | android/app/src/main/java/fr/zatomos/krab/HomeScreenWidgetConfigureActivity.kt:81-85 | the store gains the widget's title, and every other widget loads what it loaded before |
| HomeScreenWidgetConfigureActivity.DeleteTitlePref | android/app/src/main/java/fr/zatomos/krab/HomeScreenWidgetConfigureActivity.kt:95-99 | the widget's title key is removed, and every other widget loads what it loaded before |
| HomeScreenWidgetConfigureActivity.ConfigureActivity.constructor | android/app/src/main/java/fr/zatomos/krab/HomeScreenWidgetConfigureActivity.kt:21-22 | the activity starts with the invalid widget id and is not finished |
| HomeScreenWidgetConfigureActivity.ConfigureActivity.OnCreate | android/app/src/main/java/fr/zatomos/krab/HomeScreenWidgetConfigureActivity.kt:49-74 | the result is CANCELED; the id comes from the extras (the invalid id if absent); without a valid id the activity finishes and loads no title; otherwise the text field shows the widget's stored title or the default |
| HomeScreenWidgetConfigureActivity.ConfigureActivity.OnClick | android/app/src/main/java/fr/zatomos/krab/HomeScreenWidgetConfigureActivity.kt:25-47 | saves the text field as the widget's title, runs HomeScreenWidget's update for that widget, then sets the result to OK with the widget id and finishes |
| MainActivity.HandleWidgetPin | android/app/src/main/kotlin/fr/zatomos/krab/MainActivity.kt:39-65 | `pending_showText` holds the choice before the single pin request for HomeScreenWidget, with the pinned receiver as callback |
| MainActivity.OnMethodCall | android/app/src/main/kotlin/fr/zatomos/krab/MainActivity.kt:26-36 | `pinWidget` stores the `showText` argument (false when absent), requests the pin, then answers success; any other method answers not-implemented, writes nothing and requests nothing |
| MainActivity.PinThenCallback | android/app/src/main/kotlin/fr/zatomos/krab/MainActivity.kt:28-33 | after a pin request and the receiver's callback, the id resolved is the one the receiver's resolution picks from the stored old ids as they were; that widget's flag is the value the app asked for and its first update renders with it; the stored string sets are untouched |
| Notify.Template | supabase/functions/new_image_notify/index.ts:135 | a title is the left-hand name, then the fixed middle text (" sent an image in group ", or " commented on your image in " at new_comment_notify/index.ts:100), then the right-hand name, each recoverable by position |
| NewImageNotify.ValidTokens | supabase/functions/new_image_notify/index.ts:103-105 | the surviving tokens are at most as many as the rows, and none is empty |
| NewImageNotify.ValidTokensAppend | supabase/functions/new_image_notify/index.ts:103-105 | the token filter keeps row order: it distributes over concatenation |
| NewImageNotify.ValidTokensMembership | supabase/functions/new_image_notify/index.ts:103-105 | a token survives exactly when some row holds it and it is not empty |
| NewImageNotify.Messages | supabase/functions/new_image_notify/index.ts:122-146 | built token by token as the loop does: one message per token, the i-th carrying the i-th token and the shared title, body and data |
| NewImageNotify.SendsIff | supabase/functions/new_image_notify/index.ts:31-122 | the send loop is reached exactly when group, image, members and token rows were found, and there is at least one member, at least one valid token, and credentials |
| NewImageNotify.EarlyStatus | supabase/functions/new_image_notify/index.ts:37-110 | an early stop answers 200 exactly when the group and image were found and there are no members or no valid tokens; every other early stop answers 500 |
| NewImageNotify.PlanMessages | supabase/functions/new_image_notify/index.ts:122-146 | exactly one message per valid token in order, with the title, the image description as body, and type new_image with the image and group ids |
| NewImageNotify.UnknownSender | supabase/functions/new_image_notify/index.ts:66-70 | a failed sender lookup does not stop the handler; the titles name 'Unknown' |
| NewImageNotify.ImageLookupOrder | supabase/functions/new_image_notify/index.ts:31-95 | the group is looked up first and its failure stops all further lookups; next the image, whose failure stops the rest; then the sender, the members and the members' tokens, in that order |
| NewImageNotify.FirstThrow | supabase/functions/new_image_notify/index.ts:122-154 | the index of the first FCM request that throws: no earlier request threw |
| NewImageNotify.SendAll | supabase/functions/new_image_notify/index.ts:122-154 | every message is requested in order, up to and including the first that throws; a not-ok answer does not stop the loop |
| NewImageNotify.HandleNewImage | supabase/functions/new_image_notify/index.ts:27-157 | the early returns answer as the plan says and send nothing; otherwise messages go out in order until one throws (Deno's 500) or all are sent, and the answer is "Notifications sent" |
| NewCommentNotify.HandleNewComment | supabase/functions/new_comment_notify/index.ts:28-146 | a payload that is not an INSERT into Comments answers 200, makes no lookups and sends nothing; at most one message is sent, exactly when the image is found, the uploader has a non-empty token and credentials were obtained; the status is 200 exactly for a non-comment payload, a tokenless uploader, or an ok send; every other answer is an empty 500; only an ok send answers "Notification sent" |
| NewCommentNotify.NameFallbacks | supabase/functions/new_comment_notify/index.ts:61-90 | failed commenter and group lookups give the title "Someone commented on your image in your group" |
| NewCommentNotify.LookupOrder | supabase/functions/new_comment_notify/index.ts:33-85 | the image is looked up first, then the commenter and the uploader, then the group; a non-comment payload makes no lookups |

## Left out

- Rendering is abstract. `RemoteViews`, click `PendingIntent`s, the `AppWidgetManager` and `requestPinAppWidget` are reduced to render events and a pin-request effect. A render the host fails to apply is not modelled.
- Image loading and files are inputs: Coil requests and cache policies, `BitmapFactory.decodeFile`, `toBitmap`, and `File.exists`/`lastModified`.
  - In HomeScreenWidget, an exception from `File.exists` counts as a load failure.
  - In HomeScreenWidgetWithText, `File.exists` is assumed not to throw.
- Concurrency is left out. Runs are sequential, one at a time. The coroutine dispatchers and races of concurrent runs on the shared cache are not modelled.
- Preference writes take effect at once. The asynchrony of `apply()` is not modelled. A typed getter meeting a value of another type (a `ClassCastException`) is not modelled either.
- `old_widget_ids` is an input. No code in this model writes it.
- Framework dispatch through `super.onReceive` is not modelled: `APPWIDGET_UPDATE` and the other framework broadcasts reaching `onUpdate`/`onDeleted`.
- Decimal.ParseInt: accepts only ASCII digits. Kotlin's `toIntOrNull` also accepts other Unicode decimal digits.
- The Flutter engine cache and the `onWidgetPinned` channel notification are not modelled. They are foreign calls.
- The configure activity's `deleteTitlePref` is modelled, but nothing here calls it. The title it saves is never read by the widget.
- The webhooks' I/O is abstracted:
  - `req.json()` becomes the parsed payload fields.
  - Supabase queries become `Lookup` values.
  - `Deno.env`, `JSON.parse` of the service account, the dynamic `service-account.json` import and `getAccessToken` become one optional access token.
  - Each FCM `fetch` together with `res.json()` becomes a `SendResult`.
  - The request's URL and headers are not modelled.
- NewImageNotify.HandleNewImage: an uncaught exception is modelled as Deno's default 500 answer. Only the crashes the handler can meet with well-formed rows are covered: a null token list, a credentials failure, and a send that throws.
- A malformed payload (no `record`) is not modelled.
- Logging (`Log.*`, `console.*`) has no behavioural effect and is left out.
