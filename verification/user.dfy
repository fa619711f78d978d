/** User: an account, with four string class attributes. */
module UserModel {
  import opened Wrappers
  import opened Values
  import opened Timestamps
  import C = Classes
  import opened Records
  import opened Engine

  /** `User.all()`: the objects of the storage whose class is User, and no others. */
  function All(storage: FileStorage): (r: map<string, BaseModel>)
    reads storage
    ensures forall k :: k in r <==> k in storage.objects && storage.objects[k].cls == C.User
    ensures forall k :: k in r ==> r[k] == storage.objects[k]
  {
    storage.All(OfClass(C.User))
  }

  /**
   * A fresh User reads its class attributes through the instance, while
   * `to_dict()` holds only the reserved keys and names the class "User".
   */
  lemma FreshAttributes(freshId: string, now: Timestamp)
    ensures var i := FreshInstance(freshId, now);
      && GetAttr(C.User, i, "email") == Some(Plain(Str("")))
      && GetAttr(C.User, i, "password") == Some(Plain(Str("")))
      && GetAttr(C.User, i, "first_name") == Some(Plain(Str("")))
      && GetAttr(C.User, i, "last_name") == Some(Plain(Str("")))
    ensures var d := Project(C.User, FreshInstance(freshId, now));
      && d.Keys == Reserved
      && d["__class__"] == Str("User")
  {
  }

  /**
   * `User(**kwargs)`: the constructor defers to BaseModel's, so a User is
   * built, and registered under "User.<id>", exactly as a BaseModel is.
   */
  method New(storage: FileStorage, kwargs: map<string, Value>, freshId: string, now: Timestamp)
    returns (r: Result<BaseModel, C.Error>)
    modifies storage`objects
    ensures r.Success? <==> Constructible(kwargs)
    ensures r.Failure? ==> r.error == Init(freshId, now, kwargs).error && storage.objects == old(storage.objects)
    ensures r.Success? ==> fresh(r.value) && r.value.cls == C.User
    ensures r.Success? ==> r.value.State() == Init(freshId, now, kwargs).value
    ensures r.Success? ==> storage.objects == old(storage.objects)["User." + Text(r.value.id) := r.value]
  {
    r := BaseModel.Create(storage, C.User, kwargs, freshId, now);
    if r.Success? {
      assert C.Name(C.User) + "." == "User.";
      assert r.value.Key() == C.Name(C.User) + "." + Text(r.value.id);
    }
  }
}
