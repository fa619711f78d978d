/**
 * The value-level behaviour of BaseModel: what the constructor computes from
 * its keyword arguments, the projection `to_dict`, attribute lookup (instance
 * first, then the class default) and the display form `__str__`.
 */
module Records {
  import opened Wrappers
  import opened Values
  import opened Timestamps
  import opened Classes

  /** An instance's own attributes (its `__dict__`): id, the two timestamps, and all the others. */
  datatype Instance = Instance(id: Value, createdAt: Timestamp, updatedAt: Timestamp,
                               attrs: map<string, Value>)

  /** The projection's keys that are not ordinary attributes. */
  const Reserved: set<string> := {"id", "created_at", "updated_at", "__class__"}

  /**
   * Names `setattr` refuses on an instance: "__weakref__" is read-only and
   * "__dict__" only takes a dictionary, which is not among the values here.
   */
  const Unwritable: set<string> := {"__dict__", "__weakref__"}

  /** `attrs` holds only the attributes that have no field of their own, and none that setattr refuses. */
  predicate WellFormed(i: Instance) {
    forall k :: k in i.attrs ==> k !in Reserved && k !in Unwritable
  }

  /** The state a construction without keyword arguments produces. */
  function FreshInstance(id: string, now: Timestamp): Instance {
    Instance(Str(id), now, now, map[])
  }

  /** `datetime.strptime(value, tform)`; a value that is not a string raises as well. */
  function ParseValue(v: Value): Option<Timestamp> {
    if v.Str? then Parse(v.s) else None
  }

  /** The timestamp attribute `name` after construction: parsed from kwargs if given there, else `now`. */
  function TimeArg(kwargs: map<string, Value>, name: string, now: Timestamp): Option<Timestamp> {
    if name in kwargs then ParseValue(kwargs[name]) else Some(now)
  }

  /** Every timestamp given in kwargs parses. */
  predicate TimestampsParse(kwargs: map<string, Value>) {
    && ("created_at" in kwargs ==> ParseValue(kwargs["created_at"]).Some?)
    && ("updated_at" in kwargs ==> ParseValue(kwargs["updated_at"]).Some?)
  }

  /** The keyword loop of `__init__` runs to its end: every timestamp parses and setattr refuses no name. */
  predicate KeywordsAssign(kwargs: map<string, Value>) {
    TimestampsParse(kwargs) && kwargs.Keys !! Unwritable
  }

  /** `cls(**kwargs)` returns: the call binds (no keyword "self") and the keyword loop completes. */
  predicate Constructible(kwargs: map<string, Value>) {
    "self" !in kwargs && KeywordsAssign(kwargs)
  }

  /**
   * The outcome of `cls(**kwargs)`, given the uuid and the time it draws. A
   * keyword "self" makes the call itself raise. Otherwise the id and both
   * timestamps are set first, then every keyword except "__class__" is
   * assigned on top, the two timestamp keywords after parsing; a timestamp
   * that does not parse or a name setattr refuses raises.
   */
  function Init(freshId: string, now: Timestamp, kwargs: map<string, Value>): (r: Result<Instance, Error>)
    ensures r.Failure? ==> r.error == SelfArgument || r.error == BadKeyword
    ensures r.Success? ==> r.value.attrs.Keys == kwargs.Keys - Reserved
  {
    if "self" in kwargs then Failure(SelfArgument)
    else
      var created := TimeArg(kwargs, "created_at", now);
      var updated := TimeArg(kwargs, "updated_at", now);
      if created.None? || updated.None? || !(kwargs.Keys !! Unwritable) then Failure(BadKeyword)
      else
        var id := if "id" in kwargs then kwargs["id"] else Str(freshId);
        Success(Instance(id, created.value, updated.value, kwargs - Reserved))
  }

  /**
   * Construction succeeds exactly when the call binds and the keyword loop
   * completes; a failure reports which of the two went wrong; what it builds
   * is well formed.
   */
  lemma InitOutcome(freshId: string, now: Timestamp, kwargs: map<string, Value>)
    ensures Init(freshId, now, kwargs).Success? <==> Constructible(kwargs)
    ensures Init(freshId, now, kwargs).Failure? ==>
      Init(freshId, now, kwargs).error == if "self" in kwargs then SelfArgument else BadKeyword
    ensures Init(freshId, now, kwargs).Success? ==> WellFormed(Init(freshId, now, kwargs).value)
  {
  }

  /** An attribute as Python returns it: a plain value, a datetime, or the class itself. */
  datatype Attr = Plain(v: Value) | Time(t: Timestamp) | ClassRef(c: ClassName)

  /** `getattr(obj, name)`: the instance's own attribute first, then the class default; None is AttributeError. */
  function GetAttr(c: ClassName, i: Instance, name: string): (r: Option<Attr>)
    ensures r.Some? <==> name in Reserved || name in i.attrs || name in Defaults(c)
    ensures name in i.attrs && name !in Reserved ==> r == Some(Plain(i.attrs[name]))
  {
    if name == "id" then Some(Plain(i.id))
    else if name == "created_at" then Some(Time(i.createdAt))
    else if name == "updated_at" then Some(Time(i.updatedAt))
    else if name == "__class__" then Some(ClassRef(c))
    else if name in i.attrs then Some(Plain(i.attrs[name]))
    else if name in Defaults(c) then Some(Plain(Defaults(c)[name]))
    else None
  }

  /** `to_dict()`: a copy of `__dict__` with the timestamps as isoformat() text and "__class__" naming the class. */
  function Project(c: ClassName, i: Instance): (d: map<string, Value>)
    ensures d.Keys == i.attrs.Keys + Reserved
    ensures d["__class__"] == Str(Name(c))
  {
    i.attrs["id" := i.id]
           ["created_at" := Str(IsoFormat(i.createdAt))]
           ["updated_at" := Str(IsoFormat(i.updatedAt))]
           ["__class__" := Str(Name(c))]
  }

  /** `__str__`: "[<ClassName>] (<id>) " followed by the rendering of `__dict__`, which is a parameter here. */
  function Display(c: ClassName, i: Instance, reprDict: Instance -> string): (s: string)
    ensures |s| > |Name(c)| + 1 && s[..|Name(c)| + 2] == "[" + Name(c) + "]"
    ensures |s| >= |Name(c)| + |Text(i.id)| + 6
    ensures s[..|Name(c)| + |Text(i.id)| + 6] == "[" + Name(c) + "] (" + Text(i.id) + ") "
    ensures s[|Name(c)| + |Text(i.id)| + 6..] == reprDict(i)
  {
    var prefix := "[" + Name(c) + "] (" + Text(i.id) + ") ";
    assert |prefix| == |Name(c)| + |Text(i.id)| + 6;
    assert prefix[..|Name(c)| + 2] == "[" + Name(c) + "]";
    assert (prefix + reprDict(i))[..|prefix|] == prefix;
    prefix + reprDict(i)
  }

  /** Index of the first `x` in `s`, or |s| when there is none. */
  function IndexOf(s: string, x: char): (n: nat)
    ensures n <= |s|
    ensures forall k :: 0 <= k < n ==> s[k] != x
    ensures n < |s| ==> s[n] == x
  {
    if s == [] then 0 else if s[0] == x then 0 else 1 + IndexOf(s[1..], x)
  }

  /** The class a display string names between its leading '[' and the first ']'. */
  function DisplayedClass(s: string): Option<ClassName> {
    if |s| == 0 || s[0] != '[' then None
    else
      var rest := s[1..];
      Lookup(rest[..IndexOf(rest, ']')])
  }

  /** A fresh instance: created_at equals updated_at, the id is the drawn uuid, and nothing else is set. */
  lemma FreshConstruction(freshId: string, now: Timestamp)
    ensures Init(freshId, now, map[]) == Success(FreshInstance(freshId, now))
    ensures FreshInstance(freshId, now).createdAt == FreshInstance(freshId, now).updatedAt
  {
  }

  /**
   * The projection of a fresh instance has exactly the four reserved keys,
   * with equal timestamps; the class defaults are readable as attributes
   * but are not part of it.
   */
  lemma FreshProjection(c: ClassName, freshId: string, now: Timestamp)
    ensures var d := Project(c, FreshInstance(freshId, now));
      && d.Keys == Reserved
      && d["id"] == Str(freshId)
      && d["created_at"] == d["updated_at"] == Str(IsoFormat(now))
    ensures forall k :: k in Defaults(c) && k !in Reserved ==>
      && GetAttr(c, FreshInstance(freshId, now), k) == Some(Plain(Defaults(c)[k]))
      && k !in Project(c, FreshInstance(freshId, now))
  {
  }

  /**
   * Assigning one more keyword: the keywords can be taken in any order, each
   * one changes exactly its own attribute, and a timestamp that does not
   * parse or a name setattr refuses makes the whole construction fail.
   */
  lemma InitStep(freshId: string, now: Timestamp, done: map<string, Value>, k: string, v: Value)
    requires k !in done && Init(freshId, now, done).Success?
    ensures var i := Init(freshId, now, done).value;
      var r := Init(freshId, now, done[k := v]);
      if k == "created_at" || k == "updated_at" then
        if ParseValue(v).None? then r.Failure?
        else if k == "created_at" then r == Success(i.(createdAt := ParseValue(v).value))
        else r == Success(i.(updatedAt := ParseValue(v).value))
      else if k == "self" then r == Failure(SelfArgument)
      else if k == "id" then r == Success(i.(id := v))
      else if k == "__class__" then r == Success(i)
      else if k in Unwritable then r == Failure(BadKeyword)
      else r == Success(i.(attrs := i.attrs[k := v]))
  {
    var i := Init(freshId, now, done).value;
    var d := done[k := v];
    if k !in Reserved {
      assert d - Reserved == (done - Reserved)[k := v];
    } else {
      assert d - Reserved == done - Reserved;
    }
  }

  /**
   * In kwargs mode every keyword except "__class__" becomes an attribute as
   * given, except the timestamps, which are parsed; a keyword id replaces the
   * drawn uuid; names not given fall back to the class defaults.
   */
  lemma InitAttributes(c: ClassName, freshId: string, now: Timestamp, kwargs: map<string, Value>)
    requires Constructible(kwargs)
    ensures var i := Init(freshId, now, kwargs).value;
      && GetAttr(c, i, "id") == Some(Plain(if "id" in kwargs then kwargs["id"] else Str(freshId)))
      && GetAttr(c, i, "created_at") == Some(Time(TimeArg(kwargs, "created_at", now).value))
      && GetAttr(c, i, "updated_at") == Some(Time(TimeArg(kwargs, "updated_at", now).value))
      && (forall k :: k in kwargs && k !in Reserved ==> GetAttr(c, i, k) == Some(Plain(kwargs[k])))
      && (forall k :: k !in kwargs && k !in Reserved ==>
            GetAttr(c, i, k) == if k in Defaults(c) then Some(Plain(Defaults(c)[k])) else None)
  {
  }

  /**
   * The projection carries every attribute of the instance: the id and the
   * other own attributes as they are, the timestamps as isoformat() text.
   * Class defaults are not part of it.
   */
  lemma ProjectCarriesAttributes(c: ClassName, i: Instance)
    ensures forall k :: k in Project(c, i) && k !in {"created_at", "updated_at", "__class__"} ==>
      GetAttr(c, i, k) == Some(Plain(Project(c, i)[k]))
    ensures Project(c, i)["created_at"] == Str(IsoFormat(i.createdAt))
    ensures Project(c, i)["updated_at"] == Str(IsoFormat(i.updatedAt))
    ensures forall k :: k in Defaults(c) && k !in i.attrs && k !in Reserved ==> k !in Project(c, i)
  {
  }

  /** As keywords, the projection of a well-formed instance holds "self" only if the instance does, no name setattr refuses, and its attributes. */
  lemma ProjectKeywords(c: ClassName, i: Instance)
    requires WellFormed(i)
    ensures "self" in Project(c, i) <==> "self" in i.attrs
    ensures Project(c, i).Keys !! Unwritable
    ensures Project(c, i) - Reserved == i.attrs
  {
    var d := Project(c, i);
    assert d.Keys == i.attrs.Keys + Reserved;
  }

  /**
   * Rebuilding from the projection reproduces the instance exactly when both
   * timestamps have a non-zero microsecond and no attribute is named "self";
   * otherwise isoformat() has dropped the fraction the format requires, or
   * the keyword "self" clashes with the instance parameter, and the
   * construction raises.
   */
  lemma RoundTrip(c: ClassName, i: Instance, freshId: string, now: Timestamp)
    requires WellFormed(i)
    ensures Init(freshId, now, Project(c, i)).Success? <==>
              i.createdAt.microsecond != 0 && i.updatedAt.microsecond != 0 && "self" !in i.attrs
    ensures Init(freshId, now, Project(c, i)).Success? ==> Init(freshId, now, Project(c, i)).value == i
  {
    ProjectKeywords(c, i);
    ParseIsoFormat(i.createdAt);
    ParseIsoFormat(i.updatedAt);
  }

  lemma {:induction false} IndexOfAfter(a: string, x: char, b: string)
    requires x !in a
    ensures IndexOf(a + [x] + b, x) == |a|
  {
    if a != [] {
      assert (a + [x] + b)[1..] == a[1..] + [x] + b;
      IndexOfAfter(a[1..], x, b);
    }
  }

  /** The display form names the instance's class: reading the bracketed prefix back gives the class. */
  lemma DisplayNamesClass(c: ClassName, i: Instance, reprDict: Instance -> string)
    ensures DisplayedClass(Display(c, i, reprDict)) == Some(c)
  {
    var s := Display(c, i, reprDict);
    NameChars(c);
    var rest := Name(c) + "]" + (" (" + Text(i.id) + ") " + reprDict(i));
    assert s[1..] == rest;
    IndexOfAfter(Name(c), ']', " (" + Text(i.id) + ") " + reprDict(i));
    assert rest[..|Name(c)|] == Name(c);
    LookupName(c);
  }

  /**
   * How reload rebuilds the record stored under `key`: split the key, look its
   * class up in the registry, then construct that class from the record with
   * the uuid and time the construction draws.
   */
  function Rebuild(key: string, record: map<string, Value>, freshId: string, now: Timestamp)
    : (r: Result<(ClassName, Instance), Error>)
    ensures DecodeKey(key).Failure? ==> r == Failure(DecodeKey(key).error)
    ensures r.Success? <==> DecodeKey(key).Success? && Init(freshId, now, record).Success?
    ensures r.Success? ==> r.value == (DecodeKey(key).value, Init(freshId, now, record).value)
  {
    match DecodeKey(key)
    case Failure(e) => Failure(e)
    case Success(c) =>
      match Init(freshId, now, record)
      case Failure(e) => Failure(e)
      case Success(i) => Success((c, i))
  }
}
