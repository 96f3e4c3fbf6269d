/**
  The gallery view of `show_image_gallery(user_id, index)` and the button
  handler `handle_gallery_navigation`. Navigation keeps no cursor: the index
  to show next travels inside the "prev"/"next" button payloads.
*/
module Gallery {
  import opened Wrappers
  import opened Numbers
  import opened Payload

  /** A user's gallery; a user without an entry has none, which reads like an empty one. */
  function GalleryOf(galleries: map<int, seq<string>>, u: int): (g: seq<string>)
    ensures u in galleries ==> g == galleries[u]
    ensures u !in galleries ==> g == []
  {
    if u in galleries then galleries[u] else []
  }

  /** What `show_image_gallery` sends. */
  datatype View =
    | EmptyGallery                                          // "gallery is empty"
    | Unavailable                                           // index out of range
    | Show(image: string, prev: Option<string>, next: Option<string>)

  /** `f"gallery_{user_id}_{index}"`. */
  function NavData(u: int, index: int): string
  {
    Encode("gallery", IntToString(u), IntToString(index))
  }

  /**
    `show_image_gallery(u, index)`. A missing or empty gallery gives
    `EmptyGallery`; an index outside `[0, len)` gives `Unavailable` and nothing
    else; otherwise the image at `index` is shown, with a "prev" button to
    `index - 1` exactly when `index > 0` and a "next" button to `index + 1`
    exactly when `index < len - 1`.
  */
  function Render(galleries: map<int, seq<string>>, u: int, index: int): (v: View)
    ensures v.EmptyGallery? <==> GalleryOf(galleries, u) == []
    ensures v.Unavailable? <==>
      GalleryOf(galleries, u) != [] && (index < 0 || index >= |GalleryOf(galleries, u)|)
    ensures v.Show? ==>
      && 0 <= index < |GalleryOf(galleries, u)|
      && v.image == GalleryOf(galleries, u)[index]
      && (v.prev.Some? <==> index > 0)
      && (v.next.Some? <==> index < |GalleryOf(galleries, u)| - 1)
      && (v.prev.Some? ==> v.prev.value == NavData(u, index - 1))
      && (v.next.Some? ==> v.next.value == NavData(u, index + 1))
  {
    if u in galleries && galleries[u] != [] then
      var images := galleries[u];
      if index < 0 || index >= |images| then Unavailable
      else
        Show(images[index],
             if index > 0 then Some(NavData(u, index - 1)) else None,
             if index < |images| - 1 then Some(NavData(u, index + 1)) else None)
    else
      EmptyGallery
  }

  /** What `handle_gallery_navigation` does with a payload. */
  datatype NavOutcome =
    | NavCorrupted          // not exactly three parts: "data corrupted"
    | NavBadNumber          // `int(...)` raised ValueError; the handler aborts
    | Rendered(view: View)

  /** `handle_gallery_navigation(call)`: parse the payload, then `show_image_gallery(uid, index)`. */
  function Navigate(galleries: map<int, seq<string>>, data: string): (r: NavOutcome)
    ensures r == NavCorrupted <==> Decode(data).None?
  {
    match Decode(data)
    case None => NavCorrupted
    case Some(f) =>
      match (ParseInt(f.uid), ParseInt(f.field))
      case (Some(u), Some(index)) => Rendered(Render(galleries, u, index))
      case _ => NavBadNumber
  }

  /** A gallery payload the bot writes is read back as the user and index it names. */
  lemma NavigateNavData(galleries: map<int, seq<string>>, u: int, index: int)
    ensures Navigate(galleries, NavData(u, index)) == Rendered(Render(galleries, u, index))
  {
    IntToStringHasNo(u, Sep);
    IntToStringHasNo(index, Sep);
    DecodeEncode("gallery", IntToString(u), IntToString(index));
    ParseIntToString(u);
    ParseIntToString(index);
  }

  /**
    Every button of a shown page leads to a shown page: pressing "prev" or
    "next" shows the neighbouring image, never `Unavailable`.
  */
  lemma ButtonsStayInGallery(galleries: map<int, seq<string>>, u: int, index: int)
    requires Render(galleries, u, index).Show?
    ensures var v := Render(galleries, u, index);
      && (v.prev.Some? ==>
            Navigate(galleries, v.prev.value) == Rendered(Render(galleries, u, index - 1)) &&
            Render(galleries, u, index - 1).Show? &&
            Render(galleries, u, index - 1).image == GalleryOf(galleries, u)[index - 1])
      && (v.next.Some? ==>
            Navigate(galleries, v.next.value) == Rendered(Render(galleries, u, index + 1)) &&
            Render(galleries, u, index + 1).Show? &&
            Render(galleries, u, index + 1).image == GalleryOf(galleries, u)[index + 1])
  {
    NavigateNavData(galleries, u, index - 1);
    NavigateNavData(galleries, u, index + 1);
  }

  /** Python's `images[i]`: negative indexes count from the end; anything else raises `IndexError`. */
  function PyIndex(images: seq<string>, i: int): (r: Option<string>)
    ensures r.Some? <==> -|images| <= i < |images|
    ensures 0 <= i < |images| ==> r == Some(images[i])
    ensures -|images| <= i < 0 ==> r == Some(images[|images| + i])
  {
    if 0 <= i < |images| then Some(images[i])
    else if -|images| <= i < 0 then Some(images[|images| + i])
    else None
  }
}
