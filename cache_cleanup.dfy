/**
 * `clear_cache`: deletes every cache folder that no saved movie uses. A
 * folder is in use when its name is the storage key of a movie some saved
 * collection holds; plain files in the cache root are left alone.
 */
module CacheCleanup {
  import opened Wrappers
  import opened Text
  import opened CacheStore
  import opened MovieModel
  import DataImport

  /** The cache with every folder outside `keep` removed. */
  function Cleared(fs: Fs, keep: set<String>): (r: Fs)
    ensures r.rootExists == fs.rootExists
    ensures forall k :: k in r.entries <==> k in fs.entries && (fs.entries[k].PlainFile? || k in keep)
    ensures forall k :: k in r.entries ==> r.entries[k] == fs.entries[k]
  {
    Fs(fs.rootExists, map k | k in fs.entries && (fs.entries[k].PlainFile? || k in keep) :: fs.entries[k])
  }

  /** The storage keys of the saved movies. */
  function SavedKeys(saved: seq<MovieData>): set<String> {
    set d | d in saved :: StorageKey(d.title)
  }

  /** The cache after `clear_cache`, or the exception loading the collections raised. */
  function ClearedCache(fs: Fs, shelf: Shelf, listing: seq<String>, rd: DataImport.Reading, currentYear: int, disk: set<String>)
    : (r: Result<Fs, Raised>)
    requires Enumerates(listing, DataImport.ListedNames(shelf, rd))
    ensures !fs.rootExists ==> r == Ok(fs)
    ensures fs.rootExists ==> (r.Ok? <==> DataImport.AllMovies(shelf, listing, rd, currentYear, disk).Ok?)
  {
    if !fs.rootExists then Ok(fs)
    else match DataImport.AllMovies(shelf, listing, rd, currentYear, disk)
      case Err(e) => Err(e)
      case Ok(saved) => Ok(Cleared(fs, SavedKeys(saved)))
  }

  /**
   * With the cache root there, `clear_cache` reads every collection file
   * the glob lists, and the folder of every movie in them survives,
   * unchanged.
   */
  lemma ClearedKeepsCollected(fs: Fs, shelf: Shelf, listing: seq<String>, rd: DataImport.Reading, currentYear: int,
                              disk: set<String>, n: String, d: MovieData)
    requires Enumerates(listing, DataImport.ListedNames(shelf, rd))
    requires ClearedCache(fs, shelf, listing, rd, currentYear, disk).Ok? && n in DataImport.ListedNames(shelf, rd)
    ensures fs.rootExists ==> DataImport.CollectionMovies(DataImport.ShelfFile(shelf, n), rd, currentYear, disk).Ok?
    ensures DataImport.CollectionMovies(DataImport.ShelfFile(shelf, n), rd, currentYear, disk).Ok?
            && d in DataImport.CollectionMovies(DataImport.ShelfFile(shelf, n), rd, currentYear, disk).value
            && StorageKey(d.title) in fs.entries ==>
              StorageKey(d.title) in ClearedCache(fs, shelf, listing, rd, currentYear, disk).value.entries
              && ClearedCache(fs, shelf, listing, rd, currentYear, disk).value.entries[StorageKey(d.title)] == fs.entries[StorageKey(d.title)]
  {
    if fs.rootExists {
      DataImport.ListedFilesRead(shelf, listing, rd, currentYear, disk);
      var saved := DataImport.AllMovies(shelf, listing, rd, currentYear, disk).value;
      if DataImport.CollectionMovies(DataImport.ShelfFile(shelf, n), rd, currentYear, disk).Ok?
         && d in DataImport.CollectionMovies(DataImport.ShelfFile(shelf, n), rd, currentYear, disk).value {
        assert d in saved;
        assert StorageKey(d.title) in SavedKeys(saved);
      }
    }
  }

  /** The folder of every saved movie survives, unchanged, and so does every plain file. */
  lemma ClearKeepsSaved(fs: Fs, saved: seq<MovieData>, d: MovieData, k: String)
    requires d in saved && k in fs.entries
    ensures StorageKey(d.title) in fs.entries ==> Cleared(fs, SavedKeys(saved)).entries[StorageKey(d.title)] == fs.entries[StorageKey(d.title)]
    ensures fs.entries[k].PlainFile? ==> k in Cleared(fs, SavedKeys(saved)).entries
  {
  }

  /** Clearing twice removes nothing more. */
  lemma ClearIdempotent(fs: Fs, keep: set<String>)
    ensures Cleared(Cleared(fs, keep), keep) == Cleared(fs, keep)
  {
    var once := Cleared(fs, keep);
    var twice := Cleared(once, keep);
    assert twice.entries.Keys == once.entries.Keys;
  }

  /**
   * The loop of `clear_cache` over the cache root, in whatever order
   * `iterdir` lists it: a folder whose name is not a saved storage key is
   * deleted with everything in it.
   */
  method RemoveUnused(fs: Fs, keep: set<String>) returns (fs': Fs)
    ensures fs' == Cleared(fs, keep)
  {
    var entries := fs.entries;
    var todo := fs.entries.Keys;
    while todo != {}
      invariant todo <= fs.entries.Keys
      invariant forall k :: k in entries <==> k in fs.entries && (k in todo || fs.entries[k].PlainFile? || k in keep)
      invariant forall k :: k in entries ==> entries[k] == fs.entries[k]
      decreases |todo|
    {
      var k :| k in todo;
      if k !in keep && entries[k].Folder? {
        entries := entries - {k};
      }
      todo := todo - {k};
    }
    fs' := Fs(fs.rootExists, entries);
    assert fs'.entries == Cleared(fs, keep).entries;
  }

  /** `clear_cache`, with the collections read by the given version of the import module. */
  method ClearCache(fs: Fs, shelf: Shelf, listing: seq<String>, rd: DataImport.Reading, currentYear: int, disk: set<String>)
    returns (r: Result<Fs, Raised>)
    requires Enumerates(listing, DataImport.ListedNames(shelf, rd))
    ensures r == ClearedCache(fs, shelf, listing, rd, currentYear, disk)
  {
    if !fs.rootExists {
      return Ok(fs);
    }
    var movies := DataImport.LoadAllMovies(shelf, listing, rd, currentYear, disk);
    if movies.Err? {
      return Err(movies.error);
    }
    var saved := set i | 0 <= i < |movies.value| :: movies.value[i].Storage();
    assert saved == SavedKeys(DataOf(movies.value)) by {
      var ds := DataOf(movies.value);
      forall key | key in SavedKeys(ds) ensures key in saved {
        var d :| d in ds && StorageKey(d.title) == key;
        var i :| 0 <= i < |ds| && ds[i] == d;
        assert movies.value[i].Storage() == key;
      }
    }
    var cleaned := RemoveUnused(fs, saved);
    return Ok(cleaned);
  }
}
