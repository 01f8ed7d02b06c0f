/**
 * What a widget update run sees and what it hands to the widget host, shared by the
 * two widget providers. Android's RemoteViews are reduced to the image slot and the
 * overlay text view; each `appWidgetManager.updateAppWidget(id, views)` call is one
 * RenderEvent.
 */
module Render {
  import opened Wrappers
  import opened Decimal

  /** A decoded image; the pixels are irrelevant to the widget logic. */
  datatype Bitmap = Bitmap(handle: nat)

  /** The `recent_image` view: the placeholder drawable, a bitmap, or the error drawable. */
  datatype ImageSlot = PlaceholderIcon | ImageBitmap(bitmap: Bitmap) | ErrorIcon

  /** The `overlay_text` view: GONE, or VISIBLE with a text. */
  datatype Overlay = Hidden | Visible(text: string)

  datatype RenderEvent = RenderEvent(widgetId: Int32, image: ImageSlot, overlay: Overlay)

  /** The shared image descriptor read from the home_widget plugin's store. */
  datatype WidgetData = WidgetData(imageUrl: Option<string>, description: Option<string>, sender: Option<string>)

  /** The image file named by the URL: missing, or present with its last-modified time. */
  datatype FileState = Missing | Present(lastModified: int)

  /**
   * What the image loader gave: a bitmap, nothing (Coil's non-success result, or
   * `BitmapFactory.decodeFile` returning null), or an exception.
   */
  datatype LoadResult = Loaded(bitmap: Bitmap) | NoResult | Threw

  /** The environment of one update run. */
  datatype RunEnv = RunEnv(file: FileState, load: LoadResult)

  /** A broadcast Intent: its action and its explicit target component, if any. */
  datatype Intent = Intent(action: Option<string>, component: Option<string>)

  /** `AppWidgetManager.INVALID_APPWIDGET_ID`, the id no widget has. */
  const INVALID_APPWIDGET_ID: Int32 := 0

  /** Kotlin's `String?.isNullOrEmpty()`. */
  predicate IsNullOrEmpty(s: Option<string>) {
    s.None? || s.value == ""
  }

  /**
   * The overlay rule: the text "sender: description" is shown exactly when the
   * widget wants text and both strings are non-null and non-empty.
   */
  function OverlayFor(showText: bool, description: Option<string>, sender: Option<string>): (o: Overlay)
    ensures o.Visible? <==> showText && !IsNullOrEmpty(description) && !IsNullOrEmpty(sender)
    ensures o.Visible? ==> |o.text| == |sender.value| + 2 + |description.value|
    ensures o.Visible? ==>
              && o.text[..|sender.value|] == sender.value
              && o.text[|sender.value|..|sender.value| + 2] == ": "
              && o.text[|sender.value| + 2..] == description.value
  {
    if showText && !IsNullOrEmpty(description) && !IsNullOrEmpty(sender)
    then Visible(sender.value + ": " + description.value)
    else Hidden
  }

  /** The widget ids of the placeholder renders in `events`, in order. */
  function Placeholders(events: seq<RenderEvent>): (ids: seq<Int32>) {
    if events == [] then [] else PlaceholderOf(events[0]) + Placeholders(events[1..])
  }

  function PlaceholderOf(e: RenderEvent): (ids: seq<Int32>) {
    if e.image == PlaceholderIcon then [e.widgetId] else []
  }

  lemma {:induction false} PlaceholdersAppend(a: seq<RenderEvent>, b: seq<RenderEvent>)
    ensures Placeholders(a + b) == Placeholders(a) + Placeholders(b)
  {
    if a == [] {
      assert a + b == b;
    } else {
      assert (a + b)[0] == a[0];
      assert (a + b)[1..] == a[1..] + b;
      PlaceholdersAppend(a[1..], b);
      calc {
        Placeholders(a + b);
        PlaceholderOf(a[0]) + Placeholders(a[1..] + b);
        PlaceholderOf(a[0]) + (Placeholders(a[1..]) + Placeholders(b));
        (PlaceholderOf(a[0]) + Placeholders(a[1..])) + Placeholders(b);
      }
    }
  }

  /**
   * One update run's renders: the placeholder for `id` first, then at most one
   * image or error render for the same id, all with the same overlay.
   */
  ghost predicate IsRunOf(events: seq<RenderEvent>, id: Int32, overlay: Overlay): (b: bool) {
    && 1 <= |events| <= 2
    && events[0] == RenderEvent(id, PlaceholderIcon, overlay)
    && (|events| == 2 ==> events[1].widgetId == id && events[1].overlay == overlay
                          && events[1].image != PlaceholderIcon)
  }

  /** A run's only placeholder render is its first. */
  lemma RunPlaceholders(events: seq<RenderEvent>, id: Int32, overlay: Overlay)
    requires IsRunOf(events, id, overlay)
    ensures Placeholders(events) == [id]
  {
    assert events[1..] == if |events| == 2 then [events[1]] else [];
    if |events| == 2 {
      var rest := events[1..];
      assert rest[0] == events[1] && rest[1..] == [];
      assert Placeholders(rest) == [];
    }
  }
}
