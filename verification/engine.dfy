/**
 * The persistence engine: BaseModel instances as mutable objects, and the
 * storage that keeps every live instance under "<ClassName>.<id>", writes them
 * all to the backing file and rebuilds them from it.
 *
 * The two classes reference each other (construction registers with the
 * storage, BaseModel.save persists it), so they share one module.
 */
module Engine {
  import opened Wrappers
  import opened Values
  import opened Timestamps
  import C = Classes
  import opened Records

  /** The argument of `FileStorage.all`: none, a class, or a class name. */
  datatype Filter = Everything | OfClass(c: C.ClassName) | OfName(name: string)

  /**
   * Whether `all(f)` keeps an object of class `c`. A name is resolved in the
   * registry; a name that is not registered leaves no filter at all.
   */
  predicate Selects(f: Filter, c: C.ClassName) {
    match f
    case Everything => true
    case OfClass(t) => C.IsInstance(c, t)
    case OfName(n) =>
      match C.Lookup(n)
      case None => true
      case Some(t) => C.IsInstance(c, t)
  }

  /** What `del d[key]` raises for a key the dictionary does not hold. */
  datatype KeyError = KeyError(key: string)

  /** The contents of the backing file: key -> projected record. */
  type FileContents = map<string, map<string, Value>>

  /** For each key of the file, the class and state its record rebuilds to, or the error rebuilding raises. */
  type Outcomes = map<string, Result<(C.ClassName, Instance), C.Error>>

  /** An instance of BaseModel or of one of its subclasses, named by `cls`. */
  class BaseModel {
    const cls: C.ClassName
    var id: Value
    var createdAt: Timestamp
    var updatedAt: Timestamp
    var attrs: map<string, Value>

    function State(): Instance
      reads this
    {
      Instance(id, createdAt, updatedAt, attrs)
    }

    /** The key the storage keeps this object under. */
    function Key(): (k: string)
      reads this
      ensures C.DecodeKey(k) == Success(cls) <==> '.' !in Text(id)
    {
      C.KeyDecodes(cls, id);
      C.Key(cls, id)
    }

    /** `to_dict()` */
    function ToDict(): (d: map<string, Value>)
      reads this
      ensures d.Keys == attrs.Keys + Reserved
      ensures d["id"] == id && d["__class__"] == Str(C.Name(cls))
      ensures forall k :: k in attrs && k !in Reserved ==> d[k] == attrs[k]
    {
      Project(cls, State())
    }

    /** `__str__()`, with the rendering of `__dict__` supplied. */
    function ToString(reprDict: Instance -> string): (s: string)
      reads this
      ensures |s| > |C.Name(cls)| + 1 && s[..|C.Name(cls)| + 2] == "[" + C.Name(cls) + "]"
      ensures |s| >= |C.Name(cls)| + |Text(id)| + 6
      ensures s[..|C.Name(cls)| + |Text(id)| + 6] == "[" + C.Name(cls) + "] (" + Text(id) + ") "
      ensures s[|C.Name(cls)| + |Text(id)| + 6..] == reprDict(State())
    {
      Display(cls, State(), reprDict)
    }

    /** `getattr(self, name)` */
    function Get(name: string): (r: Option<Attr>)
      reads this
      ensures r.Some? <==> name in Reserved || name in attrs || name in C.Defaults(cls)
    {
      GetAttr(cls, State(), name)
    }

    /** The first three assignments of `__init__`: a drawn uuid and `created_at = updated_at = now`. */
    constructor (cls: C.ClassName, freshId: string, now: Timestamp)
      ensures this.cls == cls && State() == FreshInstance(freshId, now)
    {
      this.cls := cls;
      id := Str(freshId);
      createdAt := now;
      updatedAt := now;
      attrs := map[];
    }

    /**
     * `cls(**kwargs)`: draw the uuid and the time, assign the keywords, then
     * register with the storage; the registration happens in kwargs mode too.
     * A timestamp that does not parse raises before anything is registered.
     */
    static method Create(storage: FileStorage, cls: C.ClassName, kwargs: map<string, Value>,
                         freshId: string, now: Timestamp)
      returns (r: Result<BaseModel, C.Error>)
      modifies storage`objects
      ensures r.Success? <==> Constructible(kwargs)
      ensures r.Failure? ==> r.error == Init(freshId, now, kwargs).error && storage.objects == old(storage.objects)
      ensures r.Success? ==> fresh(r.value) && r.value.cls == cls
      ensures r.Success? ==> r.value.State() == Init(freshId, now, kwargs).value
      ensures r.Success? ==> storage.objects == old(storage.objects)[r.value.Key() := r.value]
    {
      if "self" in kwargs {
        return Failure(C.SelfArgument);
      }
      var obj := new BaseModel(cls, freshId, now);
      var ok := obj.Assign(kwargs, freshId, now);
      if !ok {
        return Failure(C.BadKeyword);
      }
      storage.New(obj);
      r := Success(obj);
    }

    /**
     * The keyword loop of `__init__`: every keyword but "__class__" is set as
     * an attribute, the two timestamps after parsing; one that does not parse
     * raises. Starting from a fresh state, the result is what `Init` describes.
     */
    method Assign(kwargs: map<string, Value>, freshId: string, now: Timestamp) returns (ok: bool)
      requires State() == FreshInstance(freshId, now) && "self" !in kwargs
      modifies this
      ensures ok <==> KeywordsAssign(kwargs)
      ensures ok ==> State() == Init(freshId, now, kwargs).value
    {
      FreshConstruction(freshId, now);
      var todo := kwargs.Keys;
      ghost var done: map<string, Value> := map[];
      while todo != {}
        invariant todo <= kwargs.Keys
        invariant done.Keys == kwargs.Keys - todo
        invariant forall k :: k in done ==> done[k] == kwargs[k]
        invariant Init(freshId, now, done) == Success(State())
      {
        var k :| k in todo;
        InitStep(freshId, now, done, k, kwargs[k]);
        if k == "created_at" || k == "updated_at" {
          var t := ParseValue(kwargs[k]);
          if t.None? {
            return false;
          }
          if k == "created_at" {
            createdAt := t.value;
          } else {
            updatedAt := t.value;
          }
        } else if k == "id" {
          id := kwargs[k];
        } else if k in Unwritable {
          return false;
        } else if k != "__class__" {
          attrs := attrs[k := kwargs[k]];
        }
        done := done[k := kwargs[k]];
        todo := todo - {k};
      }
      assert done == kwargs;
      return true;
    }

    /**
     * `obj.save()`: stamp `updated_at` with the current time, then write the
     * whole storage to the file. Because the storage holds this very object,
     * the file carries the new time under each key the object is stored at.
     * An instance attribute named "save" hides the method, and the call
     * raises before anything changes. The clock is taken to have advanced.
     */
    method Save(storage: FileStorage, now: Timestamp) returns (r: Outcome<C.Error>)
      requires Before(updatedAt, now)
      modifies this`updatedAt, storage`file
      ensures "save" in attrs ==>
        r == Fail(C.ShadowedMethod("save")) && updatedAt == old(updatedAt) && storage.file == old(storage.file)
      ensures "save" !in attrs ==> updatedAt == now && Before(old(updatedAt), updatedAt)
      ensures "save" !in attrs ==> storage.Written(r, old(storage.file))
      ensures id == old(id) && createdAt == old(createdAt) && attrs == old(attrs)
      ensures storage.objects == old(storage.objects)
    {
      if "save" in attrs {
        return Fail(C.ShadowedMethod("save"));
      }
      updatedAt := now;
      r := storage.Save();
    }
  }

  /** The storage engine: the shared map of live objects and the backing file. */
  class FileStorage {
    /** `FileStorage.__objects` */
    var objects: map<string, BaseModel>
    /** The backing file: None while it does not exist. */
    var file: Option<FileContents>

    /** A process start: no live objects, and whatever the file holds. */
    constructor (onDisk: Option<FileContents>)
      ensures objects == map[] && file == onDisk
    {
      objects := map[];
      file := onDisk;
    }

    /**
     * `all(f)`: with no argument, or a name the registry does not know, the
     * whole map; otherwise exactly the entries whose object is an instance of
     * the class, subclasses included.
     */
    function All(f: Filter): (r: map<string, BaseModel>)
      reads this
      ensures forall k :: k in r <==> k in objects && Selects(f, objects[k].cls)
      ensures forall k :: k in r ==> r[k] == objects[k]
    {
      match f
      case Everything => objects
      case OfClass(t) => map k | k in objects && C.IsInstance(objects[k].cls, t) :: objects[k]
      case OfName(n) =>
        match C.Lookup(n)
        case None => objects
        case Some(t) => map k | k in objects && C.IsInstance(objects[k].cls, t) :: objects[k]
    }

    /** `new(obj)`: store the object under its key, replacing what was there. */
    method New(obj: BaseModel)
      modifies this`objects
      ensures objects == old(objects)[obj.Key() := obj]
    {
      objects := objects[obj.Key() := obj];
    }

    /**
     * `del all()[key]`: `all()` hands out the live map itself, so a caller
     * deletes through it; a key that is not stored raises KeyError.
     */
    method Remove(key: string) returns (r: Outcome<KeyError>)
      modifies this`objects
      ensures r.Pass? <==> key in old(objects)
      ensures r.Pass? ==> objects == old(objects) - {key}
      ensures r.Fail? ==> r.error == KeyError(key) && objects == old(objects)
    {
      if key !in objects {
        return Fail(KeyError(key));
      }
      objects := objects - {key};
      r := Pass;
    }

    /** `d` is what `save()` writes for the live objects: every key, with its object's `to_dict()`. */
    predicate IsSnapshot(d: FileContents)
      reads this`objects, objects.Values
    {
      d.Keys == objects.Keys && forall k :: k in d ==> d[k] == objects[k].ToDict()
    }

    /** No live object hides `to_dict` behind an instance attribute of that name. */
    predicate ToDictCallable()
      reads this`objects, objects.Values
    {
      forall k :: k in objects ==> "to_dict" !in objects[k].attrs
    }

    /**
     * How a `save()` ended, given the file before it: it passes exactly when
     * every object's `to_dict` can be called, and the file then holds the
     * projection of every live object; otherwise it raises before the file
     * is opened, which keeps its old contents.
     */
    predicate Written(r: Outcome<C.Error>, before: Option<FileContents>)
      reads this`objects, this`file, objects.Values
    {
      && (r.Pass? <==> ToDictCallable())
      && (r.Pass? ==> file.Some? && IsSnapshot(file.value))
      && (r.Fail? ==> r.error == C.ShadowedMethod("to_dict") && file == before)
    }

    /**
     * The loop of `save()`: project every live object into a new dictionary;
     * an object whose `to_dict` is hidden by an attribute makes the call raise.
     */
    method Collect() returns (out: Result<FileContents, C.Error>)
      ensures out.Success? <==> ToDictCallable()
      ensures out.Success? ==> IsSnapshot(out.value)
      ensures out.Failure? ==> out.error == C.ShadowedMethod("to_dict")
    {
      var built: FileContents := map[];
      var todo := objects.Keys;
      while todo != {}
        invariant todo <= objects.Keys
        invariant built.Keys == objects.Keys - todo
        invariant forall k :: k in built ==> built[k] == objects[k].ToDict() && "to_dict" !in objects[k].attrs
      {
        var k :| k in todo;
        if "to_dict" in objects[k].attrs {
          return Failure(C.ShadowedMethod("to_dict"));
        }
        built := built[k := objects[k].ToDict()];
        todo := todo - {k};
      }
      return Success(built);
    }

    /** `save()`: overwrite the file with the projection of every live object; what it held before is gone. */
    method Save() returns (r: Outcome<C.Error>)
      modifies this`file
      ensures r.Pass? <==> ToDictCallable()
      ensures r.Pass? ==> file.Some? && IsSnapshot(file.value)
      ensures r.Fail? ==> r.error == C.ShadowedMethod("to_dict") && file == old(file)
    {
      var out := Collect();
      if out.Failure? {
        return Fail(out.error);
      }
      var snapshot := out.value;
      assert IsSnapshot(snapshot);
      file := Some(snapshot);
      r := Pass;
    }

    /** What rebuilding each record of the file gives, with the uuid and the time drawn for its key. */
    static function Rebuilt(records: FileContents, newId: string -> string, clock: string -> Timestamp)
      : (results: Outcomes)
      ensures results.Keys == records.Keys
    {
      map k | k in records :: Rebuild(k, records[k], newId(k), clock(k))
    }

    /** `results` are the rebuilds of `records` (the form the loop works with). */
    static predicate Predicts(results: Outcomes, records: FileContents, newId: string -> string, clock: string -> Timestamp) {
      && results.Keys == records.Keys
      && forall k {:trigger Rebuild(k, records[k], newId(k), clock(k))} :: k in records ==>
           results[k] == Rebuild(k, records[k], newId(k), clock(k))
    }

    /** Every record of the file can be rebuilt. */
    static predicate Loadable(results: Outcomes) {
      forall k :: k in results ==> results[k].Success?
    }

    /** The key under which construction registers the object rebuilt from `key` (the key itself if there is none). */
    static function RegisteredKey(results: Outcomes, key: string): string {
      if key in results && results[key].Success? then
        C.Key(results[key].value.0, results[key].value.1.id)
      else key
    }

    /**
     * Every rebuilt object registers under the very key its record is stored
     * at: what `save()` writes while every object still sits under its own key.
     */
    static predicate SelfKeyed(results: Outcomes) {
      forall k :: k in results ==> RegisteredKey(results, k) == k
    }

    /** The keys that reloading the records in `loaded` writes: their own and those construction registers. */
    static ghost function Touched(results: Outcomes, loaded: set<string>): set<string> {
      loaded + set k | k in loaded :: RegisteredKey(results, k)
    }

    /** `o` is the object rebuilt from the record under `key`. */
    static predicate RebuiltFrom(o: BaseModel, results: Outcomes, key: string)
      reads o
    {
      key in results && results[key].Success? && o.cls == results[key].value.0 && o.State() == results[key].value.1
    }

    /**
     * `reload()`: with no file, nothing happens. Otherwise each record is
     * rebuilt in turn (split the key, resolve the class, construct it, which
     * also registers the object) and stored under its key. The first record
     * that fails aborts the reload; what was stored before it stays.
     * `loaded` is the set of records stored before the reload ended.
     */
    method Reload(newId: string -> string, clock: string -> Timestamp)
      returns (r: Outcome<C.Error>, ghost loaded: set<string>)
      modifies this`objects
      ensures old(file).None? ==> r == Pass && objects == old(objects) && loaded == {}
      ensures old(file).Some? ==> Loaded(Rebuilt(old(file).value, newId, clock), r, loaded)
      ensures old(file).Some? ==>
        objects.Keys == old(objects).Keys + Touched(Rebuilt(old(file).value, newId, clock), loaded)
      ensures old(file).Some? ==> forall k :: k in objects && k !in Touched(Rebuilt(old(file).value, newId, clock), loaded) ==>
        objects[k] == old(objects)[k]
      ensures old(file).Some? ==> forall k :: k in Touched(Rebuilt(old(file).value, newId, clock), loaded) ==> fresh(objects[k])
      ensures old(file).Some? ==> SelfKeyed(Rebuilt(old(file).value, newId, clock)) ==>
        forall k :: k in loaded ==> RebuiltFrom(objects[k], Rebuilt(old(file).value, newId, clock), k)
    {
      if file.None? {
        return Pass, {};
      }
      r, loaded := LoadRecords(file.value, newId, clock, Rebuilt(file.value, newId, clock));
    }

    /**
     * How a reload over `results` ended: every record in `loaded` was rebuilt;
     * it passed exactly when every record can be, having then loaded them all;
     * and a failure reports the error of a record it did not load.
     */
    static predicate Loaded(results: Outcomes, r: Outcome<C.Error>, loaded: set<string>) {
      && loaded <= results.Keys
      && (forall k :: k in loaded ==> results[k].Success?)
      && (r.Pass? <==> Loadable(results))
      && (r.Pass? ==> loaded == results.Keys)
      && (r.Fail? ==> exists k :: k in results && k !in loaded && results[k] == Failure(r.error))
    }

    /**
     * The loop of `reload()` over the records read from the file: rebuild
     * each in turn and store it under its key; the first failure ends it.
     */
    method LoadRecords(records: FileContents, newId: string -> string, clock: string -> Timestamp,
                       ghost results: Outcomes)
      returns (r: Outcome<C.Error>, ghost loaded: set<string>)
      requires Predicts(results, records, newId, clock)
      modifies this`objects
      ensures Loaded(results, r, loaded)
      ensures objects.Keys == old(objects).Keys + Touched(results, loaded)
      ensures forall k :: k in objects && k !in Touched(results, loaded) ==> objects[k] == old(objects)[k]
      ensures forall k :: k in Touched(results, loaded) ==> fresh(objects[k])
      ensures SelfKeyed(results) ==> forall k :: k in loaded ==> RebuiltFrom(objects[k], results, k)
    {
      r, loaded := LoadEach(records, newId, clock, results);
    }

    /** The loop itself, with its outcome stated record by record. */
    method LoadEach(records: FileContents, newId: string -> string, clock: string -> Timestamp,
                    ghost results: Outcomes)
      returns (r: Outcome<C.Error>, ghost loaded: set<string>)
      requires Predicts(results, records, newId, clock)
      modifies this`objects
      ensures loaded <= records.Keys && forall k :: k in loaded ==> results[k].Success?
      ensures r.Pass? ==> loaded == records.Keys
      ensures r.Fail? ==> exists k :: k in results && k !in loaded && results[k] == Failure(r.error)
      ensures objects.Keys == old(objects).Keys + Touched(results, loaded)
      ensures forall k :: k in objects && k !in Touched(results, loaded) ==> objects[k] == old(objects)[k]
      ensures forall k :: k in Touched(results, loaded) ==> fresh(objects[k])
      ensures SelfKeyed(results) ==> forall k :: k in loaded ==> RebuiltFrom(objects[k], results, k)
    {
      loaded := {};
      ghost var touched: set<string> := {};
      r := Pass;
      var todo := records.Keys;
      while todo != {}
        invariant todo == records.Keys - loaded
        invariant loaded <= records.Keys
        invariant forall k :: k in loaded ==> results[k].Success?
        invariant touched == Touched(results, loaded)
        invariant objects.Keys == old(objects).Keys + touched
        invariant forall k :: k in objects && k !in touched ==> objects[k] == old(objects)[k]
        invariant forall k :: k in touched ==> fresh(objects[k])
        invariant SelfKeyed(results) ==> forall k :: k in loaded ==> RebuiltFrom(objects[k], results, k)
      {
        var k :| k in todo;
        ghost var prev := objects;
        var created := LoadOne(records, k, newId, clock, results);
        if created.Failure? {
          assert k in results && k !in loaded && results[k] == Failure(created.error);
          return Fail(created.error), loaded;
        }
        TouchedStep(results, loaded, k);
        StoredStep(old(objects), prev, objects, touched, k, RegisteredKey(results, k), created.value);
        loaded := loaded + {k};
        touched := touched + {k, RegisteredKey(results, k)};
        todo := todo - {k};
      }
    }

    /**
     * One iteration of the loop of `reload()`: split the key into class name
     * and id, resolve the class, construct it from the record (which
     * registers the new object under the key construction computes), and
     * store the object under the record's key as well.
     */
    method LoadOne(records: FileContents, key: string, newId: string -> string, clock: string -> Timestamp,
                   ghost results: Outcomes)
      returns (r: Result<BaseModel, C.Error>)
      requires key in records && Predicts(results, records, newId, clock)
      modifies this`objects
      ensures r.Failure? <==> results[key].Failure?
      ensures r.Failure? ==> r.error == results[key].error && objects == old(objects)
      ensures r.Success? ==> fresh(r.value) && RebuiltFrom(r.value, results, key)
      ensures r.Success? ==> objects == old(objects)[RegisteredKey(results, key) := r.value][key := r.value]
    {
      assert results[key] == Rebuild(key, records[key], newId(key), clock(key));
      var decoded := C.DecodeKey(key);
      if decoded.Failure? {
        return Failure(decoded.error);
      }
      r := BaseModel.Create(this, decoded.value, records[key], newId(key), clock(key));
      if r.Success? {
        objects := objects[key := r.value];
      }
    }

    /**
     * The filters of `all`: none, `BaseModel`, and a name the registry does
     * not know all give the whole map, and a registered name filters as its class does.
     */
    lemma AllFilters()
      ensures All(Everything) == objects
      ensures All(OfClass(C.BaseModel)) == objects
      ensures forall n :: C.Lookup(n).None? ==> All(OfName(n)) == objects
      ensures forall c :: All(OfName(C.Name(c))) == All(OfClass(c))
    {
      forall c: C.ClassName
        ensures All(OfName(C.Name(c))) == All(OfClass(c))
      {
        C.LookupName(c);
      }
    }

    /** A subclass filter keeps exactly the objects of that class; every object passes the BaseModel filter. */
    lemma AllOfSubclass(k: string, t: C.ClassName)
      requires k in objects && t != C.BaseModel
      ensures k in All(OfClass(t)) <==> objects[k].cls == t
      ensures k in All(OfClass(C.BaseModel))
    {
    }

    /** `o` is stored under its own key, and its record survives the trip through the file. */
    static predicate Restorable(key: string, o: BaseModel)
      reads o
    {
      && o.Key() == key
      && '.' !in Text(o.id)
      && WellFormed(o.State())
      && "self" !in o.attrs
      && "to_dict" !in o.attrs
      && o.createdAt.microsecond != 0
      && o.updatedAt.microsecond != 0
    }

    /** Every live object is restorable. */
    predicate Consistent()
      reads this`objects, objects.Values
    {
      forall k :: k in objects ==> Restorable(k, objects[k])
    }

    /**
     * What `save()` writes for a consistent storage reloads record by record:
     * each key rebuilds to the very class and state of the object saved under
     * it, and registers under that same key.
     */
    lemma SavedFileReloads(d: FileContents, newId: string -> string, clock: string -> Timestamp)
      requires IsSnapshot(d) && Consistent()
      ensures forall k :: k in d ==> Rebuilt(d, newId, clock)[k] == Success((objects[k].cls, objects[k].State()))
      ensures Loadable(Rebuilt(d, newId, clock)) && SelfKeyed(Rebuilt(d, newId, clock))
    {
      var results := Rebuilt(d, newId, clock);
      forall k | k in d
        ensures results[k] == Success((objects[k].cls, objects[k].State()))
      {
        var o := objects[k];
        assert Restorable(k, o);
        C.KeyDecodes(o.cls, o.id);
        RoundTrip(o.cls, o.State(), newId(k), clock(k));
      }
    }

    /** A consistent storage can be saved: no object hides its `to_dict`. */
    lemma ConsistentCallable()
      requires Consistent()
      ensures ToDictCallable()
    {
      forall k | k in objects
        ensures "to_dict" !in objects[k].attrs
      {
        assert Restorable(k, objects[k]);
      }
    }

    /**
     * A saved object whose timestamp has microsecond 0 does not reload:
     * isoformat() left out the fraction that the parse format demands (an
     * attribute named "self" makes the record fail even earlier).
     */
    lemma SavedZeroMicrosecondFails(d: FileContents, k: string, newId: string -> string, clock: string -> Timestamp)
      requires IsSnapshot(d) && k in d
      requires objects[k].Key() == k && '.' !in Text(objects[k].id) && WellFormed(objects[k].State())
      requires objects[k].createdAt.microsecond == 0 || objects[k].updatedAt.microsecond == 0
      ensures Rebuilt(d, newId, clock)[k] ==
        Failure(if "self" in objects[k].attrs then C.SelfArgument else C.BadKeyword)
      ensures !Loadable(Rebuilt(d, newId, clock))
    {
      var o := objects[k];
      var i := o.State();
      assert d[k] == Project(o.cls, i);
      C.KeyDecodes(o.cls, o.id);
      RoundTrip(o.cls, i, newId(k), clock(k));
      InitOutcome(newId(k), clock(k), d[k]);
      ProjectKeywords(o.cls, i);
      assert Rebuild(k, d[k], newId(k), clock(k)) ==
        Failure(if "self" in i.attrs then C.SelfArgument else C.BadKeyword);
    }

    /** When every record registers under its own key, reloading writes exactly the loaded keys. */
    static lemma TouchedSelfKeyed(results: Outcomes, loaded: set<string>)
      requires SelfKeyed(results) && loaded <= results.Keys
      ensures Touched(results, loaded) == loaded
    {
    }

    /** Storing `o` under `key` and `registered` extends the written keys by those two and leaves every other entry. */
    static lemma StoredStep(before: map<string, BaseModel>, prev: map<string, BaseModel>, next: map<string, BaseModel>,
                            touched: set<string>, key: string, registered: string, o: BaseModel)
      requires prev.Keys == before.Keys + touched
      requires forall k :: k in prev && k !in touched ==> prev[k] == before[k]
      requires next == prev[registered := o][key := o]
      ensures next.Keys == before.Keys + (touched + {key, registered})
      ensures forall k :: k in next && k !in touched + {key, registered} ==> next[k] == before[k]
    {
    }

    static lemma TouchedStep(results: Outcomes, loaded: set<string>, key: string)
      ensures Touched(results, loaded + {key}) == Touched(results, loaded) + {key, RegisteredKey(results, key)}
    {
    }
  }

  /**
   * A process start on the file contents `d`, then `reload()`: when every
   * record rebuilds under its own key, the reload passes and the new storage
   * holds exactly the file's keys, each with the object rebuilt from its record.
   */
  method Restart(d: FileContents, newId: string -> string, clock: string -> Timestamp)
    returns (restarted: FileStorage, r: Outcome<C.Error>)
    requires FileStorage.Loadable(FileStorage.Rebuilt(d, newId, clock))
    requires FileStorage.SelfKeyed(FileStorage.Rebuilt(d, newId, clock))
    ensures r == Pass
    ensures restarted.objects.Keys == d.Keys
    ensures forall k :: k in d ==> FileStorage.RebuiltFrom(restarted.objects[k], FileStorage.Rebuilt(d, newId, clock), k)
  {
    restarted := new FileStorage(Some(d));
    ghost var loaded;
    r, loaded := restarted.Reload(newId, clock);
    FileStorage.TouchedSelfKeyed(FileStorage.Rebuilt(d, newId, clock), loaded);
  }

  /**
   * A save followed by a restart: a new storage over the written file,
   * reloaded, holds under the same keys objects of the same classes and
   * states as the consistent storage that saved it.
   */
  method SaveThenRestart(storage: FileStorage, newId: string -> string, clock: string -> Timestamp)
    returns (restarted: FileStorage, r: Outcome<C.Error>)
    requires storage.Consistent()
    modifies storage`file
    ensures r == Pass
    ensures restarted.objects.Keys == storage.objects.Keys
    ensures forall k :: k in restarted.objects ==>
      restarted.objects[k].cls == storage.objects[k].cls && restarted.objects[k].State() == storage.objects[k].State()
  {
    storage.ConsistentCallable();
    var saved := storage.Save();
    var d := storage.file.value;
    storage.SavedFileReloads(d, newId, clock);
    ghost var results := FileStorage.Rebuilt(d, newId, clock);
    restarted, r := Restart(d, newId, clock);
    forall k | k in restarted.objects
      ensures restarted.objects[k].cls == storage.objects[k].cls
      ensures restarted.objects[k].State() == storage.objects[k].State()
    {
      assert FileStorage.RebuiltFrom(restarted.objects[k], results, k);
    }
  }
}
