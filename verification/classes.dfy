/**
 * The type registry (`FileStorage.classes()`), the class-level attribute
 * defaults each subtype declares, the subclass test used by filtering, and the
 * registry key "<ClassName>.<id>" with its decoding on reload.
 */
module Classes {
  import opened Wrappers
  import opened Values

  /** The registered classes; every one but BaseModel is a direct subclass of BaseModel. */
  datatype ClassName = BaseModel | User | State | City | Amenity | Place | Review

  /** `cls.__name__` */
  function Name(c: ClassName): string {
    match c
    case BaseModel => "BaseModel"
    case User => "User"
    case State => "State"
    case City => "City"
    case Amenity => "Amenity"
    case Place => "Place"
    case Review => "Review"
  }

  /** `FileStorage.classes().get(name)`: the class registered under a name, if any. */
  function Lookup(name: string): (r: Option<ClassName>)
    ensures r.Some? ==> Name(r.value) == name
    ensures r.None? ==> forall c: ClassName :: Name(c) != name
  {
    if name == "BaseModel" then Some(BaseModel)
    else if name == "User" then Some(User)
    else if name == "State" then Some(State)
    else if name == "City" then Some(City)
    else if name == "Amenity" then Some(Amenity)
    else if name == "Place" then Some(Place)
    else if name == "Review" then Some(Review)
    else None
  }

  /** Every class is found under its own name, so the registry and `__name__` are inverse. */
  lemma LookupName(c: ClassName)
    ensures Lookup(Name(c)) == Some(c)
  {
  }

  /** Class names contain neither the key separator '.' nor the display bracket ']'. */
  lemma NameChars(c: ClassName)
    ensures '.' !in Name(c) && ']' !in Name(c) && |Name(c)| > 0
  {
  }

  /** `isinstance(obj, target)` for an object whose class is `c`. */
  predicate IsInstance(c: ClassName, target: ClassName): (b: bool)
    ensures c == target ==> b
    ensures target == BaseModel ==> b
    ensures b && target != BaseModel ==> c == target
  {
    target == BaseModel || c == target
  }

  /**
   * Class-level attributes, read when the instance has no attribute of that
   * name. The schema of Amenity is not part of this model; it has none here.
   */
  function Defaults(c: ClassName): (d: map<string, Value>)
    ensures "id" !in d && "created_at" !in d && "updated_at" !in d && "__class__" !in d
  {
    match c
    case BaseModel => map[]
    case Amenity => map[]
    case User =>
      map["email" := Str(""), "password" := Str(""), "first_name" := Str(""), "last_name" := Str("")]
    case State => map["name" := Str("")]
    case City => map["state_id" := Str(""), "name" := Str("")]
    case Review => map["place_id" := Str(""), "user_id" := Str(""), "text" := Str("")]
    case Place =>
      map["city_id" := Str(""), "user_id" := Str(""), "name" := Str(""), "description" := Str(""),
          "number_rooms" := Int(0), "number_bathrooms" := Int(0), "max_guest" := Int(0),
          "price_by_night" := Int(0), "latitude" := Float("0.0"), "longitude" := Float("0.0"),
          "amenity_ids" := List([])]
  }

  /** `"{}.{}".format(obj.__class__.__name__, obj.id)` */
  function Key(c: ClassName, id: Value): (k: string)
    ensures |k| > |Name(c)| && k[..|Name(c)| + 1] == Name(c) + "."
    ensures Count(k, '.') == Count(Text(id), '.') + 1
  {
    NameChars(c);
    CountZero(Name(c), '.');
    CountAppend(Name(c), "." + Text(id), '.');
    assert ("." + Text(id))[1..] == Text(id);
    assert Name(c) + "." + Text(id) == Name(c) + ("." + Text(id));
    Name(c) + "." + Text(id)
  }

  /** What makes a reload or a construction raise. */
  datatype Error =
    | BadKey(key: string)          // the key does not split into exactly two parts on '.'
    | UnknownClass(name: string)   // the first part names no registered class
    | SelfArgument                 // a keyword named "self" clashes with the instance parameter of __init__
    | BadKeyword                   // the keyword loop raised: a timestamp that is not "%Y-%m-%dT%H:%M:%S.%f"
                                   // text, or a name setattr refuses
    | ShadowedMethod(name: string) // an instance attribute hides the method of that name, which is then not callable

  /** `class_name, obj_id = key.split('.')` followed by the registry lookup of `class_name`. */
  function DecodeKey(key: string): (r: Result<ClassName, Error>)
    ensures r.Success? ==> Name(r.value) == Split(key, '.')[0]
    ensures r.Failure? ==> r.error == BadKey(key) || r.error == UnknownClass(Split(key, '.')[0])
  {
    var parts := Split(key, '.');
    if |parts| != 2 then Failure(BadKey(key))
    else match Lookup(parts[0])
      case None => Failure(UnknownClass(parts[0]))
      case Some(c) => Success(c)
  }

  /** A key that decodes holds exactly one '.', and what precedes it is the name of the class it decodes to. */
  lemma DecodeKeyShape(key: string)
    ensures DecodeKey(key).Success? ==> Count(key, '.') == 1
    ensures DecodeKey(key).Success? ==> exists id :: key == Name(DecodeKey(key).value) + "." + id
  {
    var parts := Split(key, '.');
    SplitCount(key, '.');
    if DecodeKey(key).Success? {
      JoinSplit(key, '.');
      assert key == Name(DecodeKey(key).value) + "." + parts[1];
    }
  }

  /**
   * The two ways a key fails to decode: it does not hold exactly one '.', or
   * the part before the '.' is not a registered class name.
   */
  lemma DecodeKeyFailures(key: string)
    ensures Count(key, '.') != 1 ==> DecodeKey(key) == Failure(BadKey(key))
    ensures Count(key, '.') == 1 && Lookup(Split(key, '.')[0]).None? ==>
      DecodeKey(key) == Failure(UnknownClass(Split(key, '.')[0]))
  {
    SplitCount(key, '.');
  }

  /** A key "<name>.<id>" whose name is not registered fails with that name. */
  lemma DecodeUnknownName(name: string, id: string)
    requires '.' !in name && '.' !in id && Lookup(name).None?
    ensures DecodeKey(name + "." + id) == Failure(UnknownClass(name))
  {
    SplitPair(name, id, '.');
  }

  /**
   * The key of an object decodes to its class exactly when the text of its id
   * has no '.'; an id with a dot makes the key split into three or more parts.
   */
  lemma KeyDecodes(c: ClassName, id: Value)
    ensures DecodeKey(Key(c, id)) == Success(c) <==> '.' !in Text(id)
  {
    var key := Key(c, id);
    if '.' !in Text(id) {
      SplitPair(Name(c), Text(id), '.');
      LookupName(c);
    } else {
      DecodeKeyShape(key);
      CountAppend(Name(c) + ".", Text(id), '.');
      CountAppend(Name(c), ".", '.');
      CountZero(Text(id), '.');
      CountZero(Name(c), '.');
      assert Count(key, '.') >= 2;
    }
  }
}
