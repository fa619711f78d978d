/** State: a named region, with one string class attribute. */
module StateModel {
  import opened Wrappers
  import opened Values
  import opened Timestamps
  import C = Classes
  import opened Records
  import opened Engine

  /** `State.all()`: the objects of the storage whose class is State, and no others. */
  function All(storage: FileStorage): (r: map<string, BaseModel>)
    reads storage
    ensures forall k :: k in r <==> k in storage.objects && storage.objects[k].cls == C.State
    ensures forall k :: k in r ==> r[k] == storage.objects[k]
  {
    storage.All(OfClass(C.State))
  }

  /**
   * A fresh State reads its class attributes through the instance, while
   * `to_dict()` holds only the reserved keys and names the class "State".
   */
  lemma FreshAttributes(freshId: string, now: Timestamp)
    ensures var i := FreshInstance(freshId, now);
      && GetAttr(C.State, i, "name") == Some(Plain(Str("")))
    ensures var d := Project(C.State, FreshInstance(freshId, now));
      && d.Keys == Reserved
      && d["__class__"] == Str("State")
  {
  }
}
