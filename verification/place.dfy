/**
 * Place: a lodging, with string, integer and float class attributes and the
 * list of amenity ids. Floats are opaque here and carry their printed text.
 */
module PlaceModel {
  import opened Wrappers
  import opened Values
  import opened Timestamps
  import C = Classes
  import opened Records
  import opened Engine

  /** `Place.all()`: the objects of the storage whose class is Place, and no others. */
  function All(storage: FileStorage): (r: map<string, BaseModel>)
    reads storage
    ensures forall k :: k in r <==> k in storage.objects && storage.objects[k].cls == C.Place
    ensures forall k :: k in r ==> r[k] == storage.objects[k]
  {
    storage.All(OfClass(C.Place))
  }

  /** Read through a fresh Place, the four string attributes are empty. */
  lemma FreshStrings(freshId: string, now: Timestamp)
    ensures var i := FreshInstance(freshId, now);
      && GetAttr(C.Place, i, "city_id") == Some(Plain(Str("")))
      && GetAttr(C.Place, i, "user_id") == Some(Plain(Str("")))
      && GetAttr(C.Place, i, "name") == Some(Plain(Str("")))
      && GetAttr(C.Place, i, "description") == Some(Plain(Str("")))
  {
  }

  /** Read through a fresh Place, the four integer attributes are 0. */
  lemma FreshCounts(freshId: string, now: Timestamp)
    ensures var i := FreshInstance(freshId, now);
      && GetAttr(C.Place, i, "number_rooms") == Some(Plain(Int(0)))
      && GetAttr(C.Place, i, "number_bathrooms") == Some(Plain(Int(0)))
      && GetAttr(C.Place, i, "max_guest") == Some(Plain(Int(0)))
      && GetAttr(C.Place, i, "price_by_night") == Some(Plain(Int(0)))
  {
  }

  /** Read through a fresh Place, the coordinates are 0.0 and the amenity list is empty. */
  lemma FreshLocation(freshId: string, now: Timestamp)
    ensures var i := FreshInstance(freshId, now);
      && GetAttr(C.Place, i, "latitude") == Some(Plain(Float("0.0")))
      && GetAttr(C.Place, i, "longitude") == Some(Plain(Float("0.0")))
      && GetAttr(C.Place, i, "amenity_ids") == Some(Plain(List([])))
  {
  }

  /** The `to_dict()` of a fresh Place holds only the reserved keys and names the class "Place". */
  lemma FreshProjectionTag(freshId: string, now: Timestamp)
    ensures var d := Project(C.Place, FreshInstance(freshId, now));
      && d.Keys == Reserved
      && d["__class__"] == Str("Place")
  {
    FreshProjection(C.Place, freshId, now);
  }
}
