# HBnB persistence engine in Dafny

This project models the storage engine of the HBnB clone. It covers:

- `FileStorage`: the map of every live object, keyed `"<ClassName>.<id>"`, and its JSON file.
- `BaseModel`: construction with and without keyword arguments, `save`, `to_dict` and `__str__`.
- The five subclasses `User`, `State`, `City`, `Review` and `Place`: their class-level defaults and their `all()`.

Where state changes in place, the model does too:

- `BaseModel` and `FileStorage` are Dafny classes.
- Construction registers the object with the storage.
- `BaseModel.save` stamps the object, then rewrites the file from the live map.
- `reload` rebuilds every record of the file and stores the new objects.

Everything else is pure and lives in its own modules:

- `Values`: the JSON value space, Python's `str()` and `str.split`.
- `Timestamps`: `isoformat()` and `strptime` with `"%Y-%m-%dT%H:%M:%S.%f"`.
- `Classes`: the registry, the defaults and the key codec.
- `Records`: the keyword semantics of `__init__`, `to_dict`, `getattr` and `__str__`.

Things outside the program's control are parameters:

- The backing file is `Option<map<key, record>>`; `None` means the file does not exist.
- The uuid a construction draws and the time it reads are inputs. `reload` receives them as functions of the record's key.
- The rendering of `__dict__` inside `__str__` is a parameter.

The main results:

- **Save then reload.** Some storages can be saved and reloaded, with every object coming back with the same class and state under the same key (`SavedFileReloads`, `SaveThenRestart`). Every object must meet these conditions:
  - It sits under its own key `"<ClassName>.<id>"`. Setting `obj.id` after construction breaks this.
  - Its `str(id)` has no `.`.
  - Both of its timestamps have a non-zero microsecond.
  - It is well formed in the model's representation. The model keeps `id`, `created_at` and `updated_at` in fields of their own, and it keeps every other attribute in a separate map. That map must not hold a reserved name (`id`, `created_at`, `updated_at`, `__class__`), `__dict__` or `__weakref__`. This is a rule about how the model stores an object, not a property of the Python object, whose `__dict__` always holds id and the two timestamps.
  - It has no instance attribute named `self`, since that would clash with `__init__`'s own parameter, and none named `to_dict`, since that would hide the method `save` calls.
- **Microsecond 0 fails.** If an object's timestamp has microsecond 0, reloading its record raises, because `isoformat()` leaves out the fraction that the parse format requires (`SavedZeroMicrosecondFails`, `RoundTrip`).
- **Special names.**
  - A keyword named `self` makes construction raise before `__init__` runs.
  - Assigning `__dict__` or `__weakref__` raises.
  - An instance attribute named `to_dict` or `save` hides that method, so `storage.save()` or `obj.save()` raises. The file is left as it was.

## Model

| member | source | states |
|---|---|---|
| `Classes.Lookup` | models/engine/file_storage.py:11-33 | the registry finds a class exactly under that class's name and finds nothing under any other string |
| `Classes.LookupName` | models/engine/file_storage.py:25-33 | every registered class is found under its own `__name__` |
| `Classes.NameChars` | models/engine/file_storage.py:25-33 | no class name is empty or contains '.' or ']' |
| `Engine.FileStorage.constructor` | models/engine/file_storage.py:8-9 | a new storage starts with no objects and whatever the file holds |
| `Engine.FileStorage.All` | models/engine/file_storage.py:35-48 | `all(f)` keeps an entry iff its object is an instance of the filter's class; subclasses count, and no filter or an unregistered name keeps everything; values are the live objects |
| `Engine.FileStorage.AllFilters` | models/engine/file_storage.py:35-48 | `all()`, `all(BaseModel)` and `all(<unregistered name>)` all return a map equal to the live one; `all("<Name>")` equals `all(<class>)` |
| `Engine.FileStorage.AllOfSubclass` | models/engine/file_storage.py:42-47 | a subclass filter keeps an object iff its class is that subclass; the BaseModel filter keeps every object |
| `Engine.FileStorage.New` | models/engine/file_storage.py:50-57 | the object is stored under `"<ClassName>.<id>"`, replacing any earlier entry; no other key changes |
| `Engine.FileStorage.Remove` | models/engine/file_storage.py:48 | deleting through the live map returned by `all()` succeeds iff the key is stored, and then removes that key and nothing else; an absent key raises KeyError and nothing changes |
| `Engine.FileStorage.Collect` | models/engine/file_storage.py:63-65 | the loop succeeds iff no live object has an instance attribute `to_dict`; the dictionary then has exactly the live keys, each mapped to its object's `to_dict()`; otherwise it raises naming the hidden method |
| `Engine.FileStorage.Save` | models/engine/file_storage.py:59-68 | it passes iff every `to_dict` is callable, and then the file holds exactly that dictionary and earlier contents are gone; on failure the file is untouched, because the loop raises before `open` |
| `Engine.FileStorage.Reload` | models/engine/file_storage.py:70-82 | no file: nothing changes. Otherwise it passes iff every record rebuilds; a failure carries the error of an unloaded record; entries written before the failure stay; keys that are neither in the file nor registered by a rebuilt object keep their objects; stored objects are new; for a file in which every record registers under its own key (what `save` writes while every object still sits under its own key, see `SavedFileReloads`), each loaded key holds the object rebuilt from its record |
| `Engine.FileStorage.LoadRecords` | models/engine/file_storage.py:74-80 | the body of the reload once the file is read: it passes iff every record rebuilds, and its other guarantees are those of the loop |
| `Engine.FileStorage.LoadEach` | models/engine/file_storage.py:77-80 | the loop over the records, in any iteration order: the loaded records all rebuilt; a pass loads every record; a failure carries the error of a record not loaded; only the keys of loaded records and the keys their objects register change, each to a new object; for a file in which every record registers under its own key (what `save` writes while every object still sits under its own key, see `SavedFileReloads`), each loaded key holds the object rebuilt from its record |
| `Engine.FileStorage.LoadOne` | models/engine/file_storage.py:78-80 | one record either fails with its rebuild error and changes nothing, or stores a new object with the rebuilt class and state under the record's key and the key construction registers |
| `Engine.FileStorage.Rebuilt` | models/engine/file_storage.py:77-80 | there is one rebuild outcome for every record of the file |
| `Engine.FileStorage.SavedFileReloads` | models/engine/file_storage.py:59-80 | when every live object is restorable, every record that `save` writes rebuilds to that object's class and state and registers under its own key. Restorable means: the object is under its own key, its id has no '.', it has no reserved, unwritable, `self` or `to_dict` attribute, and its microseconds are non-zero |
| `Engine.FileStorage.ConsistentCallable` | models/engine/file_storage.py:63-65 | in a storage of restorable objects, every `to_dict` is callable, so `save` passes |
| `Engine.FileStorage.SavedZeroMicrosecondFails` | models/engine/file_storage.py:63-80 | a saved object with a timestamp whose microsecond is 0 makes its record fail, so the file does not reload. The error is the timestamp error, or the `self` clash when the object also has a `self` attribute, which Python raises first |
| `Engine.Restart` | models/engine/file_storage.py:70-82 | a new storage over a file whose records all rebuild under their own keys reloads without error, with exactly the file's keys, each holding the object rebuilt from its record |
| `Engine.SaveThenRestart` | models/engine/file_storage.py:59-82 | save, then start a new storage on that file and reload: the reload passes, and the new storage has the same keys, each holding an object of the same class and state |
| `Classes.IsInstance` | models/engine/file_storage.py:46 | `isinstance` over the registry: every class is an instance of itself and of BaseModel, and of no other class |
| `Classes.Defaults` | models/user.py:11-14 | the class-level attributes of each class are those declared in its body (also models/state.py:16, models/city.py:10-11, models/review.py:16-18, models/place.py:16-26), and they never provide one of the reserved names |
| `Classes.Key` | models/engine/file_storage.py:56 | `"<ClassName>.<id>"` starts with the class name and a '.', and has one '.' more than `str(id)` |
| `Classes.DecodeKey` | models/engine/file_storage.py:78-79 | a key that decodes names that class in its first part; a failure is either the bad-key error or the unknown-class error for the first part |
| `Classes.DecodeKeyShape` | models/engine/file_storage.py:78-79 | a key that decodes has exactly one '.', and the class name before it is the class it decodes to |
| `Classes.DecodeKeyFailures` | models/engine/file_storage.py:78-79 | a key without exactly one '.' fails as a bad key; one whose first part is not registered fails as an unknown class |
| `Classes.DecodeUnknownName` | models/engine/file_storage.py:78-79 | `"<name>.<id>"` with an unregistered name fails naming that name |
| `Classes.KeyDecodes` | models/engine/file_storage.py:56-79 | the key `new` computes decodes back to the object's class iff `str(id)` has no '.' |
| `Values.Split` | models/engine/file_storage.py:78 | `str.split(sep)` always gives at least one part |
| `Values.Text` | models/base_model.py:47 | `str()` of a string is the string itself |
| `Values.SplitCount` | models/engine/file_storage.py:78 | `str.split(sep)` gives one more part than there are separators |
| `Values.SplitPartsFree` | models/engine/file_storage.py:78 | no part of a split contains the separator |
| `Values.JoinSplit` | models/engine/file_storage.py:78 | joining the parts with the separator gives back the string |
| `Values.SplitPair` | models/engine/file_storage.py:78 | splitting `a + sep + b`, where neither contains `sep`, gives exactly `[a, b]` |
| `Values.SplitNoSeparator` | models/engine/file_storage.py:78 | a string without the separator splits to itself alone |
| `Engine.BaseModel.constructor` | models/base_model.py:19-20 | a new object has the drawn uuid as id, `created_at == updated_at == now`, and no other attribute |
| `Engine.BaseModel.Create` | models/base_model.py:11-27 | construction succeeds iff there is no `self` keyword, every given timestamp parses and no keyword is `__dict__` or `__weakref__`. A failure carries the error of the keyword semantics and changes nothing in the storage. A success is a new object whose state is the keyword semantics, registered under its key, in kwargs mode too |
| `Engine.BaseModel.Assign` | models/base_model.py:21-25 | the keyword loop returns true iff every timestamp parses and no keyword is an unwritable name, and then leaves the state the keyword semantics describe |
| `Records.Init` | models/base_model.py:11-25 | the keyword semantics of `__init__`: it fails only with the `self` clash or a keyword error, and a success has exactly the non-reserved keywords as its plain attributes |
| `Records.InitOutcome` | models/base_model.py:11-25 | construction succeeds iff there is no `self` keyword, the timestamps parse and no keyword is unwritable. A failure is the `self` clash when there is a `self` keyword and a keyword error otherwise. A result never holds a reserved or unwritable name among its plain attributes |
| `Records.InitStep` | models/base_model.py:11-25 | one more keyword: `self` fails, a timestamp is parsed or fails, `id` replaces the id, `__class__` is ignored, `__dict__`/`__weakref__` fail, and anything else sets exactly that attribute |
| `Records.InitAttributes` | models/base_model.py:11-25 | after construction, each keyword except `__class__` reads back as given, timestamps parsed; a keyword id overrides the uuid; other names fall back to class defaults |
| `Records.FreshConstruction` | models/base_model.py:19-20 | no keywords: the state is the fresh state, with equal timestamps |
| `Records.FreshProjection` | models/base_model.py:34-42 | a fresh object's `to_dict()` has exactly the keys id, created_at, updated_at and `__class__`, with equal timestamps; class defaults read through the object but are not in it |
| `Engine.BaseModel.Save` | models/base_model.py:29-32 | with an instance attribute `save`, the call raises and nothing changes. Otherwise `updated_at` becomes now, strictly later than before, and the file is written as `FileStorage.Save` writes it. Id, `created_at`, the other attributes and the live map are unchanged |
| `Engine.BaseModel.Key` | models/engine/file_storage.py:56 | the object's key decodes back to its class iff `str(id)` has no '.' |
| `Engine.BaseModel.ToDict` | models/base_model.py:34-42 | `to_dict()` has the object's attribute names plus the four reserved keys; it carries the id, the class name and every plain attribute unchanged |
| `Engine.BaseModel.Get` | models/base_model.py:21-25 | `getattr` finds a name iff it is reserved, an instance attribute or a class default |
| `Engine.BaseModel.ToString` | models/base_model.py:44-47 | `__str__` is `"[<ClassName>] (<str(id)>) "` followed by the rendering of the object's `__dict__` |
| `Records.GetAttr` | models/base_model.py:21-25 | `getattr` finds a name iff it is reserved, an instance attribute or a class default; an instance attribute wins over the class default |
| `Records.Display` | models/base_model.py:44-47 | `__str__` is `"[<ClassName>] (<str(id)>) "` followed by the rendering of `__dict__`, and so starts with `"[<ClassName>]"` |
| `Records.Rebuild` | models/engine/file_storage.py:77-80 | one record of `reload`: a key that does not decode fails with its key error before the record is looked at; otherwise it succeeds iff construction does, giving the decoded class and the constructed state |
| `Records.Project` | models/base_model.py:34-42 | `to_dict()` has the instance's own attribute names plus the four reserved keys, and `__class__` names the class |
| `Records.ProjectCarriesAttributes` | models/base_model.py:34-42 | every non-timestamp entry of `to_dict()` is the attribute `getattr` returns; the timestamps are their `isoformat()` text; unset class defaults are absent |
| `Records.ProjectKeywords` | models/base_model.py:34-42 | `to_dict()` of a well-formed instance has a `self` key iff the instance has that attribute, has no unwritable key, and gives back exactly the plain attributes once the reserved keys are removed |
| `Records.RoundTrip` | models/base_model.py:18-42 | constructing from `to_dict()` succeeds iff both timestamps have a non-zero microsecond and there is no `self` attribute, and then reproduces the instance exactly |
| `Records.DisplayNamesClass` | models/base_model.py:44-47 | `__str__` starts with the class name in brackets, and reading it back gives the class |
| `Timestamps.BeforeStrictTotal` | models/base_model.py:31 | the order of datetimes is a strict total order |
| `Timestamps.IsoFormat` | models/base_model.py:38-39 | `isoformat()` is 19 characters with microsecond 0 and 26 otherwise, and starts with the seconds-precision text |
| `Timestamps.IsoSecondsFields` | models/base_model.py:38-39 | the seconds-precision text has the fields zero-padded at fixed positions, separated by '-', 'T' and ':' |
| `Timestamps.IsoSecondsDate` | models/base_model.py:38-39 | the date half of that text: year, month and day, zero-padded, separated by '-' |
| `Timestamps.IsoSecondsTime` | models/base_model.py:38-39 | the time half: 'T', then hour, minute and second, zero-padded, separated by ':' |
| `Timestamps.Parse` | models/base_model.py:18-23 | a string that parses has the shape of the format: fixed-width date and time fields and a fraction of one to six digits |
| `Timestamps.ParseIsoFormat` | models/base_model.py:18-39 | `strptime(isoformat(t))` gives back `t` iff the microsecond is non-zero, and raises otherwise |
| `Timestamps.ParseIsoFormatWithFraction` | models/base_model.py:18-39 | with a non-zero microsecond, parsing the `isoformat()` text gives back the timestamp |
| `Timestamps.IsoFormatOfParse` | models/base_model.py:18-39 | a 26-character canonical text that parses is exactly the `isoformat()` of what it parses to |
| `UserModel.All` | models/user.py:28-34 | `User.all()` holds exactly the storage's User objects |
| `UserModel.FreshAttributes` | models/user.py:11-14 | email, password, first_name and last_name read as "" on a fresh User; its `to_dict()` has only the reserved keys and the tag "User" |
| `UserModel.New` | models/user.py:16-26 | constructing a User succeeds or fails exactly as BaseModel's constructor does, with the same error, and a success is a User registered under "User.<id>" |
| `StateModel.All` | models/state.py:10-15 | `State.all()` holds exactly the storage's State objects |
| `StateModel.FreshAttributes` | models/state.py:16 | name reads as "" on a fresh State; its `to_dict()` has only the reserved keys and the tag "State" |
| `CityModel.All` | models/city.py:13-18 | `City.all()` holds exactly the storage's City objects |
| `CityModel.FreshAttributes` | models/city.py:10-11 | state_id and name read as "" on a fresh City; its `to_dict()` has only the reserved keys and the tag "City" |
| `ReviewModel.All` | models/review.py:10-15 | `Review.all()` holds exactly the storage's Review objects |
| `ReviewModel.FreshAttributes` | models/review.py:16-18 | place_id, user_id and text read as "" on a fresh Review; its `to_dict()` has only the reserved keys and the tag "Review" |
| `PlaceModel.All` | models/place.py:10-15 | `Place.all()` holds exactly the storage's Place objects |
| `PlaceModel.FreshStrings` | models/place.py:16-19 | city_id, user_id, name and description read as "" on a fresh Place |
| `PlaceModel.FreshCounts` | models/place.py:20-23 | the room, bathroom, guest and price counts read as 0 on a fresh Place |
| `PlaceModel.FreshLocation` | models/place.py:24-26 | latitude and longitude read as 0.0 and amenity_ids as the empty list on a fresh Place |
| `PlaceModel.FreshProjectionTag` | models/place.py:16-26 | a fresh Place's `to_dict()` has only the reserved keys and the tag "Place" |

## Left out

- JSON text and file I/O: the file is modelled by its decoded contents. An error raised by `json.load` or `json.dump` is not modelled.
- JSON objects as attribute values: a value is a string, integer, boolean, float, None or a list of values, and lists nest. Dict-valued attributes are not modelled.
- Values.Render: strings inside a list are quoted without `repr`'s escaping of quotes and backslashes.
- Floats are opaque tokens that carry their printed text.
- `uuid4()` and `datetime.today()` are inputs. Distinct objects get distinct ids only when the caller passes distinct uuids.
- `strptime` leniency: `Timestamps.Parse` accepts only fixed-width ASCII date and time fields. Python's `_strptime` is more lenient in three ways:
  - It accepts one-digit month, day, hour, minute and second fields.
  - It compiles its pattern without the ASCII flag, so `%Y`, `%m`, `%d`, `%H`, `%M` and `%S` also accept non-ASCII decimal digits.
  - `%d` also accepts a leading space before a single digit.

  For `%f`, the fraction may have one to six ASCII digits and is padded on the right. The model does the same.
- `__str__` renders `__dict__` with Python's `repr`; the model takes that rendering as a parameter. It states the `"[<ClassName>] (<id>) "` prefix exactly, and that the rest is that rendering.
- `amenity_ids` is one list shared by every Place in Python, so mutating it in place changes the default for all of them. The model treats it as a value.
- The schema of `Amenity` (`models/amenity.py`) is not part of this model; Amenity is registered with no class attributes.
- Name resolution is modelled as intended, as a registry lookup. The code as written fails in several places:
  - `all(<str>)` reads `models.classes`, which does not exist.
  - `reload` resolves class names with `eval` in a module that imports none of the classes.
  - The `all()` class methods of Place, Review, City and State use a `storage` name they never import.
- Python iterates `reload`'s records in file order. The model takes them in an arbitrary order, so its guarantees hold for every order.
- `FileStorage.__objects` is one class-level dictionary shared by every storage instance; the model has one storage object passed explicitly.
- `Engine.FileStorage.Reload` states the per-key "rebuilt from its own record" guarantee only for a file in which every record registers under its own key. That is what `save` writes while every object still sits under its own key; see `SavedFileReloads`. In other files a later record's registration can overwrite an earlier key, and the model states only which keys were written and that they hold new objects. A file like that arises when `id` is reassigned after construction and the object is saved again.
- `Engine.FileStorage.LoadRecords` states the per-key "rebuilt from its own record" guarantee under the same condition. It applies only to a file in which every record registers under its own key (what `save` writes while every object still sits under its own key, see `SavedFileReloads`).
- `Engine.FileStorage.LoadEach` states the per-key "rebuilt from its own record" guarantee, both as a loop invariant and as an ensures, under the same condition. It applies only to a file in which every record registers under its own key (what `save` writes while every object still sits under its own key, see `SavedFileReloads`).
- Errors inside the keyword loop are one error: a timestamp that does not parse, or a name `setattr` refuses. Python raises ValueError for the first and AttributeError or TypeError for the second. Which one surfaces depends on the order of the keywords, and the model takes the keywords in any order.
- Assigning `__dict__` a dict is allowed in Python. The model has no dict values, so every `__dict__` keyword fails.
- `getattr` is modelled for the reserved names, instance attributes and class defaults only. The implicit attributes every object has, such as `__module__`, `__doc__` and `__dict__`, are not modelled, and `Records.GetAttr` and `Engine.BaseModel.Get` report them missing. Methods are not values either, so an instance attribute that hides a method is modelled only through the `to_dict` and `save` failures.
- Aliasing of `all()` results: `all()` and `all(<unregistered name>)` return the live `__objects` dictionary itself. `all(<class>)` and `all("<Name>")` build a new dictionary, so deleting from one of those leaves the storage unchanged. The model returns map values, so it does not capture this aliasing. `Engine.FileStorage.Remove` stands only for deletion through the results that alias the live map.
- Engine.BaseModel.Save requires the clock to have advanced past `updated_at`. `datetime.today()` is an input here, and the strictly later `updated_at` holds only for such a clock.
- `console.py` and the tests are not part of this model.
