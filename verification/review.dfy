/** Review: a text about a place by a user, with three string class attributes. */
module ReviewModel {
  import opened Wrappers
  import opened Values
  import opened Timestamps
  import C = Classes
  import opened Records
  import opened Engine

  /** `Review.all()`: the objects of the storage whose class is Review, and no others. */
  function All(storage: FileStorage): (r: map<string, BaseModel>)
    reads storage
    ensures forall k :: k in r <==> k in storage.objects && storage.objects[k].cls == C.Review
    ensures forall k :: k in r ==> r[k] == storage.objects[k]
  {
    storage.All(OfClass(C.Review))
  }

  /**
   * A fresh Review reads its class attributes through the instance, while
   * `to_dict()` holds only the reserved keys and names the class "Review".
   */
  lemma FreshAttributes(freshId: string, now: Timestamp)
    ensures var i := FreshInstance(freshId, now);
      && GetAttr(C.Review, i, "place_id") == Some(Plain(Str("")))
      && GetAttr(C.Review, i, "user_id") == Some(Plain(Str("")))
      && GetAttr(C.Review, i, "text") == Some(Plain(Str("")))
    ensures var d := Project(C.Review, FreshInstance(freshId, now));
      && d.Keys == Reserved
      && d["__class__"] == Str("Review")
  {
  }
}
