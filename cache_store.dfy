/**
 * The on-disk cache: one folder per movie under the cache root, keyed by the
 * movie's storage key, holding an optional poster `thumb.jpg`, an optional
 * `data.json` and an optional copy of the default poster `default.jpg`.
 */
module CacheStore {
  import opened Wrappers
  import opened Text
  import opened Net

  /** What an image file holds. */
  datatype Poster =
    | Fetched(url: String)                              // the body of a successful download
    | Resized(source: Poster, width: nat, height: nat)  // rewritten by PIL
    | DefaultArt                                        // a copy of the bundled default poster

  /** A JSON document. */
  datatype Json =
    | JNull
    | JBool(b: bool)
    | JInt(i: int)
    | JStr(s: String)
    | JList(items: seq<Json>)
    | JObject(fields: map<String, Json>)

  /** The text of a `.json` file: either it parses, or `json.load` raises `JSONDecodeError`. */
  datatype JsonFile = Garbled | Parsed(value: Json)

  datatype Entry =
    | PlainFile
    | Folder(thumb: Option<Poster>, data: Option<JsonFile>, defaultJpg: bool)

  /** The cache directory: whether it exists, and its entries by name. */
  datatype Fs = Fs(rootExists: bool, entries: map<String, Entry>)

  /** The collections directory: whether it exists, and its `.json` files by name. */
  datatype Shelf = Shelf(present: bool, files: map<String, JsonFile>)

  /** The names the pattern `*.json` matches. */
  predicate JsonName(name: String) {
    |name| >= 5 && name[|name| - 5..] == ".json"
  }

  /** The files `glob("*.json")` lists: a `.json` name that does not start with a dot. */
  predicate Globbed(name: String) {
    JsonName(name) && name[0] != '.'
  }

  ghost predicate WellFormed(fs: Fs) {
    !fs.rootExists ==> fs.entries == map[]
  }

  const EmptyFolder: Entry := Folder(None, None, false)

  /** Python truthiness of a JSON value. */
  predicate Truthy(j: Json) {
    match j
    case JNull => false
    case JBool(b) => b
    case JInt(i) => i != 0
    case JStr(s) => s != []
    case JList(items) => items != []
    case JObject(fields) => fields != map[]
  }

  /** The `data.json` of the folder `key`, if there is one. */
  function DataFile(fs: Fs, key: String): Option<JsonFile> {
    if key in fs.entries && fs.entries[key].Folder? then fs.entries[key].data else None
  }

  /** The `thumb.jpg` of the folder `key`, if there is one. */
  function Thumb(fs: Fs, key: String): Option<Poster> {
    if key in fs.entries && fs.entries[key].Folder? then fs.entries[key].thumb else None
  }

  predicate IsFolder(fs: Fs, key: String) {
    key in fs.entries && fs.entries[key].Folder?
  }

  /** `load_file_content` of `data_import.py`: `{}` instead of `FileNotFoundError` or `JSONDecodeError`. */
  function LoadFileContent(f: Option<JsonFile>): (r: Json)
    ensures f.Some? && f.value.Parsed? ==> r == f.value.value
    ensures (f.None? || f.value.Garbled?) ==> r == JObject(map[])
  {
    match f
    case Some(Parsed(j)) => j
    case _ => JObject(map[])
  }

  /** `dict.get(name, default)` on a JSON value; `None` stands for the `AttributeError` of a non-dict. */
  function Get(j: Json, name: String, default: Json): (r: Option<Json>)
    ensures r.Some? <==> j.JObject?
    ensures j.JObject? && name !in j.fields ==> r == Some(default)
  {
    match j
    case JObject(fields) => Some(if name in fields then fields[name] else default)
    case _ => None
  }

  /** Exceptions raised while reading JSON content. */
  datatype Raised = AttributeError | TypeError | KeyError | FileNotFound | JsonDecodeError

  /**
   * `load_file_content` of `dataimport.py`, the one `movie.py` imports: a
   * missing file raises `FileNotFoundError` and a garbled one `JSONDecodeError`.
   */
  function ReadJson(f: Option<JsonFile>): (r: Result<Json, Raised>)
    ensures r.Ok? <==> f.Some? && f.value.Parsed?
    ensures r.Ok? ==> r.value == f.value.value
    ensures f.None? ==> r == Err(FileNotFound)
    ensures f == Some(Garbled) ==> r == Err(JsonDecodeError)
  {
    match f
    case None => Err(FileNotFound)
    case Some(Garbled) => Err(JsonDecodeError)
    case Some(Parsed(j)) => Ok(j)
  }

  /** The size `modify_raw_poster` resizes to. */
  const PosterWidth: nat := 185
  const PosterHeight: nat := 275

  /**
   * `modify_raw_poster`: rewrites an existing poster at the display size and
   * leaves a missing one alone. The Python function returns `None` on both
   * paths, which is the second component here.
   */
  function ModifyRawPoster(file: Option<Poster>): (r: (Option<Poster>, Option<bool>))
    ensures r.1 == None
    ensures file.None? <==> r.0.None?
    ensures file.Some? ==> r.0.value.Resized? && r.0.value.source == file.value
  {
    match file
    case None => (None, None)
    case Some(p) => (Some(Resized(p, PosterWidth, PosterHeight)), None)
  }

  /** `mkdir(exist_ok=True, parents=True)` of the folder `key`: a plain file in the way raises `FileExistsError`. */
  function MakeFolder(fs: Fs, key: String): (r: Result<Fs, Fault>)
    ensures r.Err? <==> key in fs.entries && fs.entries[key].PlainFile?
    ensures r.Ok? ==> IsFolder(r.value, key)
    ensures r.Ok? && IsFolder(fs, key) ==> r.value == fs
    ensures r.Ok? && !IsFolder(fs, key) ==> r.value.rootExists && r.value.entries[key] == EmptyFolder
    ensures r.Ok? ==> forall k :: k != key ==> (k in fs.entries <==> k in r.value.entries)
    ensures r.Ok? ==> forall k :: k in fs.entries && k != key ==> r.value.entries[k] == fs.entries[k]
  {
    if IsFolder(fs, key) then Ok(fs)
    else if key in fs.entries then Err(NotAFolder(key))
    else Ok(Fs(true, fs.entries[key := EmptyFolder]))
  }

  /** Writing `data.json` in the folder `key`; `open(..., 'w')` fails when the folder is not there. */
  function WriteData(fs: Fs, key: String, j: Json): (r: Result<Fs, Fault>)
    ensures r.Ok? <==> IsFolder(fs, key)
    ensures r.Ok? ==> DataFile(r.value, key) == Some(Parsed(j)) && Thumb(r.value, key) == Thumb(fs, key)
    ensures r.Ok? ==> r.value.rootExists == fs.rootExists && r.value.entries.Keys == fs.entries.Keys
    ensures r.Ok? ==> r.value.entries[key].defaultJpg == fs.entries[key].defaultJpg
    ensures r.Ok? ==> forall k :: k in fs.entries && k != key ==> r.value.entries[k] == fs.entries[k]
  {
    if IsFolder(fs, key) then Ok(Fs(fs.rootExists, fs.entries[key := fs.entries[key].(data := Some(Parsed(j)))]))
    else if key in fs.entries then Err(NotAFolder(key))
    else Err(MissingFolder(key))
  }

  /** Writing `thumb.jpg` in the folder `key`. */
  function WriteThumb(fs: Fs, key: String, p: Poster): (r: Result<Fs, Fault>)
    ensures r.Ok? <==> IsFolder(fs, key)
    ensures r.Ok? ==> Thumb(r.value, key) == Some(p) && DataFile(r.value, key) == DataFile(fs, key)
    ensures r.Ok? ==> r.value.rootExists == fs.rootExists && r.value.entries.Keys == fs.entries.Keys
    ensures r.Ok? ==> r.value.entries[key].defaultJpg == fs.entries[key].defaultJpg
    ensures r.Ok? ==> forall k :: k in fs.entries && k != key ==> r.value.entries[k] == fs.entries[k]
  {
    if IsFolder(fs, key) then Ok(Fs(fs.rootExists, fs.entries[key := fs.entries[key].(thumb := Some(p))]))
    else if key in fs.entries then Err(NotAFolder(key))
    else Err(MissingFolder(key))
  }
}
