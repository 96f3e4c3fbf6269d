/**
  The inline-button payloads of the bot. A payload is written as
  `f"{type}_{uid}_{field}"` and read back with `split("_")` followed by a
  check that there are exactly three parts; the callback handlers are
  selected by the payload's prefix (`add_`, `retry_`, `gallery_`).
*/
module Payload {
  import opened Wrappers
  import opened Text

  const Sep: char := '_'

  /** The three parts of a parsed payload, in the order they are written. */
  datatype Fields = Fields(kind: string, uid: string, field: string)

  /** `f"{kind}_{uid}_{field}"`. */
  function Encode(kind: string, uid: string, field: string): (data: string)
    ensures data == Join([kind, uid, field], Sep)
  {
    assert [kind, uid, field][1..] == [uid, field];
    assert [uid, field][1..] == [field];
    assert Join([uid, field], Sep) == uid + [Sep] + field;
    assert Join([kind, uid, field], Sep) == kind + [Sep] + (uid + [Sep] + field);
    kind + [Sep] + uid + [Sep] + field
  }

  /**
    `parts = data.split("_")` and `if len(parts) != 3: reject`. A payload is
    accepted exactly when it holds two separators; the parts are then its
    pieces between them.
  */
  function Decode(data: string): (r: Option<Fields>)
    ensures r.Some? <==> CountOf(data, Sep) == 2
    ensures r.Some? ==> Sep !in r.value.kind && Sep !in r.value.uid && Sep !in r.value.field
  {
    SplitShape(data, Sep);
    var parts := Split(data, Sep);
    if |parts| != 3 then None else Some(Fields(parts[0], parts[1], parts[2]))
  }

  /** A payload whose parts are free of `_` is read back as exactly those parts. */
  lemma DecodeEncode(kind: string, uid: string, field: string)
    requires Sep !in kind && Sep !in uid && Sep !in field
    ensures Decode(Encode(kind, uid, field)) == Some(Fields(kind, uid, field))
  {
    SplitJoin([kind, uid, field], Sep);
  }

  /** A payload one of whose parts holds `_` has more than three pieces and is rejected. */
  lemma DecodeEncodeRejects(kind: string, uid: string, field: string)
    requires Sep in kind || Sep in uid || Sep in field
    ensures Decode(Encode(kind, uid, field)) == None
  {
    var data := Encode(kind, uid, field);
    var t1 := [Sep] + field;
    var t2 := uid + t1;
    var t3 := [Sep] + t2;
    assert data == kind + t3;
    CountOfAppend(kind, t3, Sep);
    CountOfAppend([Sep], t2, Sep);
    CountOfAppend(uid, t1, Sep);
    CountOfAppend([Sep], field, Sep);
    assert CountOf([Sep], Sep) == 1;
    assert CountOf(data, Sep) == CountOf(kind, Sep) + CountOf(uid, Sep) + CountOf(field, Sep) + 2;
  }

  /** Every accepted payload is the encoding of the parts it was read as. */
  lemma EncodeDecode(data: string)
    requires Decode(data).Some?
    ensures var f := Decode(data).value; Encode(f.kind, f.uid, f.field) == data
  {
    JoinSplit(data, Sep);
    var parts := Split(data, Sep);
    assert parts == [parts[0], parts[1], parts[2]];
  }

  /** The three callback handlers, in the order they are registered. */
  datatype Route = AddRoute | RetryRoute | GalleryRoute

  /**
    The handler whose `call.data.startswith(...)` filter accepts the payload;
    `None` when no handler does and the button press is ignored.
  */
  function RouteOf(data: string): (r: Option<Route>)
    ensures r == Some(AddRoute) <==> StartsWith(data, "add_")
    ensures r == Some(RetryRoute) <==> StartsWith(data, "retry_")
    ensures r == Some(GalleryRoute) <==> StartsWith(data, "gallery_")
  {
    assert StartsWith(data, "add_") ==> data[0] == 'a';
    assert StartsWith(data, "retry_") ==> data[0] == 'r';
    assert StartsWith(data, "gallery_") ==> data[0] == 'g';
    if StartsWith(data, "add_") then Some(AddRoute)
    else if StartsWith(data, "retry_") then Some(RetryRoute)
    else if StartsWith(data, "gallery_") then Some(GalleryRoute)
    else None
  }

  /** The type word a route's payloads are written with. */
  function KindOf(route: Route): string
  {
    match route
    case AddRoute => "add"
    case RetryRoute => "retry"
    case GalleryRoute => "gallery"
  }

  /** A payload written with a route's type word is delivered to that route. */
  lemma RouteOfEncode(route: Route, uid: string, field: string)
    ensures RouteOf(Encode(KindOf(route), uid, field)) == Some(route)
  {
    var data := Encode(KindOf(route), uid, field);
    var prefix := KindOf(route) + [Sep];
    assert data[..|prefix|] == prefix;
  }
}
