/** City: a named city of a state, with two string class attributes. */
module CityModel {
  import opened Wrappers
  import opened Values
  import opened Timestamps
  import C = Classes
  import opened Records
  import opened Engine

  /** `City.all()`: the objects of the storage whose class is City, and no others. */
  function All(storage: FileStorage): (r: map<string, BaseModel>)
    reads storage
    ensures forall k :: k in r <==> k in storage.objects && storage.objects[k].cls == C.City
    ensures forall k :: k in r ==> r[k] == storage.objects[k]
  {
    storage.All(OfClass(C.City))
  }

  /**
   * A fresh City reads its class attributes through the instance, while
   * `to_dict()` holds only the reserved keys and names the class "City".
   */
  lemma FreshAttributes(freshId: string, now: Timestamp)
    ensures var i := FreshInstance(freshId, now);
      && GetAttr(C.City, i, "state_id") == Some(Plain(Str("")))
      && GetAttr(C.City, i, "name") == Some(Plain(Str("")))
    ensures var d := Project(C.City, FreshInstance(freshId, now));
      && d.Keys == Reserved
      && d["__class__"] == Str("City")
  {
  }
}
