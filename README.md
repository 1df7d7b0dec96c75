# Pymoman logic core in Dafny

Pymoman is a desktop movie manager. It keeps collections of movies in JSON files. It also keeps a cache folder per movie, holding a poster `thumb.jpg` and a metadata file `data.json`. Posters and metadata come from a handful of websites: IMP Awards, CineMaterial, MoviePosterDB, Wikipedia, YouTube, IMDb and TasteDive.

This project models the application's logic layer. The logic exists in several historical versions, side by side, and the model keeps each version as written, with one exception: `download_info` of the newest scraper, which as written cannot finish (see Findings). Where two versions differ, the difference is stated as a lemma.

The modules are:

- `Text`: the Python string operations the rules use. It covers ASCII case mapping, `strip`, `replace`, `split`/`join`, and searching for substrings.
- `Net`: web answers as oracle functions. It defines `Http` (a URL maps to a reply or no reply) and the Wikipedia calls, which answer found, timed out, or with a lookup error. `FirstStop` gives the index at which a "try each link until one answers" loop stops.
- `CacheStore`: the cache as a value.
  - The cache root exists or not.
  - Each storage key maps to a plain file or to a folder, with an optional poster, an optional data file and a `default.jpg` flag.
  - It also covers the JSON-reading helpers and `modify_raw_poster`.
- `DataProcess`: `filter_name` (`data_process.py`). This is the name rule for movie titles: a regex table of forbidden shapes, then deletion of `/ \ : ; "` and a strip.
- `MovieModel`: the `Movie` class (`movie.py`).
  - The four validators.
  - The storage key, which lowercases, turns spaces into `_` and drops one leading `the_`.
  - `__eq__`, `official_title` and `rename`.
  - The cache operations `remove_cache` and `set_default_poster`.
- `Collections`: the `Collection` class (`collection.py`).
  - The name filter and the collection file name.
  - `add_movie`, `remove_movie`, `remove`, `save` and `rename`, which change the object in place.
  - `retrieve_collections`.
- `DataImport` and `LegacyImport`: the two import modules (`data_import.py`, `dataimport.py`). They cover finding video files, gathering actors, and reading collection files.
- `CacheCleanup`: `clear_cache` of both processing modules. It deletes every cache folder that no saved movie uses.
- `DataRetrieve`: the newest `MovieScraper` (`data_retrieve.py`).
  - IMP Awards links.
  - YouTube, IMDb and TasteDive lookups.
  - The poster loop.
  - The Wikipedia loop and genre inference.
  - The six-key metadata record.
- `LegacyRetrieve`: the older `MovieScraper` (`dataretrieve.py`).
  - Its IMP Awards title and links.
  - Actor clean-up.
  - The poster loop, which can never answer `True` after a download.
  - The page and summary loops, and the genre list.
- `MovData`: the oldest scraper, `MovieScrapper` (`movdata.py`). It tries the default link, then the variants, and falls back to a copy of the bundled default poster.
- `ScraperThreads`: `ScraperThread` (`qthread.py`). It covers the settings check and the sequential body of `run`.
- `Recommendations`: `recommendations.py`. It covers the random picks, the conversion of titles into movies, the trailer links and the control flow of `main`.

Several facts about the code as written are proved as lemmas. Apart from the genre table of the newest `download_info`, none of them is patched in the model:

- **A newline defeats the length limit.** A name that starts with a newline passes `filter_name`'s length limit, and `filter_name` is then no longer idempotent (`DataProcess.NewlineDefeatsLimit`).
- **Saving can lose a movie.** A one-letter title can be saved but never reloaded (`Collections.OneLetterTitleLost`).
- **Renaming a collection can delete its file.** Renaming to a name whose file is the same file deletes that file (`Collections.RenameToSameFileDeletes`).
- **A missing comma.** In `movdata.py` a comma is missing, which fuses `"_ver5" "_xlg"` into one suffix (`MovData.FusedSuffix`).
- **A precedence slip.** An operator-precedence slip in `qthread.py` means only the argument count is checked (`ScraperThreads.Defined`).
- **The older poster loop never answers `True` after a download** (`LegacyRetrieve.DownloadPoster`).
- **The older summary loop always asks twice** (`LegacyRetrieve.SummaryAskedTwice`).
- **A title can name the whole cache.** The titles `"The_"`, `"The_."` and `"The_.."` have the storage keys `""`, `"."` and `".."`, so `remove_cache` deletes the whole cache (`MovieModel.OutsideKeysReachable`, `MovieModel.Movie.RemoveCache`).
- **The newest `download_info` never writes.** `MOVIE_GENRES` is a list, so its `.items()` raises (`DataRetrieve.InfoAsWrittenNeverWrites`). This one is corrected in the model.

`recommendations.py` has two problems as written:

- It looks up `PATHS["recommendations"]`, an entry `packages/constants/constants.py:15-23` does not define.
- It imports the older `MovieScraper`, which has neither `get_recommendations` nor `get_youtube_link`.

`Recommendations.Env` records both facts. `Recommendations.AsWritten` is the environment of the code as written, and in it `RunRecommendations` ends in an error or does nothing. The configured environment with the newer scraper is the run the module was written to make.

## Model

| member | source | states |
|---|---|---|
| DataProcess.FirstViolation | packages/logic/data_process.py:38-47 | The forbidden-name check reports nothing exactly when no pattern of the table matches. Otherwise it reports the error of a matching entry that has no matching entry before it. |
| DataProcess.FilterName | packages/logic/data_process.py:27-57 | The check loop and the deletion loop compute the name rule: the first forbidden shape raises; otherwise `/ \ : ; "` are deleted and the result stripped. |
| DataProcess.RejectsBlankNames | packages/logic/data_process.py:38-47 | The empty name, a name made only of spaces, and a name without a word character are refused. |
| DataProcess.RejectsLongNames | packages/logic/data_process.py:42-47 | A name of `limit` or more characters without a newline is refused. The length is measured before deletion and strip. |
| DataProcess.AcceptedLength | packages/logic/data_process.py:42-47 | An accepted name is shorter than `limit`, or has a newline among its first `limit` characters. |
| DataProcess.WordCharSurvives | packages/logic/data_process.py:49-53 | A word character of the input survives deletion and strip, so the result is not empty. |
| DataProcess.FilterNameOk | packages/logic/data_process.py:45-57 | A name is accepted if and only if it matches no forbidden pattern. The "unknown error" branch is never taken. |
| DataProcess.FilterNameShape | packages/logic/data_process.py:49-53 | An accepted result is non-empty and stripped, and no longer than the input. It contains none of the deleted characters and keeps a word character. |
| DataProcess.FilterNameIdempotent | packages/logic/data_process.py:27-57 | For a name without a newline, filtering an accepted result again gives the same result. |
| DataProcess.FilterNameFixedPoint | packages/logic/data_process.py:49-53 | A stripped, short, word-bearing name without deleted characters comes back unchanged. |
| DataProcess.NewlineHidesLength | packages/logic/data_process.py:42-47 | A newline followed by a word of `limit` or more characters is accepted, and the newline is stripped. |
| DataProcess.LongWordRefused | packages/logic/data_process.py:42-47 | The same word without the newline is refused as too long. |
| DataProcess.NewlineDefeatsLimit | packages/logic/data_process.py:27-57 | Filtering is not idempotent in general: the accepted result of a newline-led long word is refused when filtered again. |
| DataProcess.SeparatorsDeleted | packages/logic/data_process.py:45-57 | Two words of word characters with `: /` between them and `\` after them, shorter than the limit, are accepted as the two words joined by one space. |
| DataProcess.FilterNameExample | packages/logic/data_process.py:49-53 | `"My: /movie\\"` with limit 60 gives `"My movie"`. |
| CacheStore.LoadFileContent | packages/logic/data_import.py:77-92 | A parsed file gives its content. A missing or garbled file gives `{}` instead of raising. |
| CacheStore.ReadJson | packages/logic/dataimport.py:80-85 | A missing file raises `FileNotFoundError` and a garbled one `JSONDecodeError`; otherwise the content is returned. |
| CacheStore.ModifyRawPoster | packages/logic/dataprocess.py:17-32 | A missing poster is left missing and an existing one is rewritten at the display size. Both paths return `None`. |
| CacheStore.MakeFolder | packages/logic/movdata.py:96-97 | Creating a folder fails only on a plain file in the way. An existing folder is kept as it is, and every other entry is unchanged. |
| CacheStore.WriteData | packages/logic/data_retrieve.py:91-101 | Writing `data.json` succeeds exactly in an existing folder. It sets the data file, keeps that folder's poster and `default.jpg`, and leaves every other entry unchanged. |
| CacheStore.WriteThumb | packages/logic/movdata.py:108-115 | Writing `thumb.jpg` succeeds exactly in an existing folder. It sets the poster only: the data file, `default.jpg` and every other entry are unchanged. |
| MovieModel.CheckTitle | packages/logic/movie.py:108-123 | A non-string raises, and so does a string shorter than 2. A long title without a newline raises. An accepted title is non-empty and stripped, with no deleted characters, and no longer than the input. |
| MovieModel.CheckTitleStable | packages/logic/movie.py:118-123 | Checking an accepted title again, as a reload does, gives it back unchanged when the raw title had no newline and the result has two or more characters. |
| MovieModel.CheckYear | packages/logic/movie.py:126-143 | An int, or a string of decimal digits, is accepted exactly when it lies in `[1900, currentYear + 5]`, and then its value is returned. Anything else raises. |
| MovieModel.CheckPath | packages/logic/movie.py:68-87 | `None` gives the empty path. A string or path is accepted exactly when it exists on disk. Any other type raises. |
| MovieModel.CheckRating | packages/logic/movie.py:90-105 | A rating is accepted exactly when it is one of the keys `-`, `1`..`5` of the rating table, and it is returned unchanged. |
| MovieModel.Validate | packages/logic/movie.py:19-24 | Construction succeeds exactly when all four checks pass, with the checked values. The title check's error comes first. |
| MovieModel.StorageKey | packages/logic/movie.py:257-266 | The storage key has no space and no upper-case letter, and is no longer than the title. |
| MovieModel.StorageKeyOfTheMatrix | packages/logic/movie.py:264-266 | `"The Matrix"` is stored under `matrix`. |
| MovieModel.StorageKeyDropsOneThe | packages/logic/movie.py:264-266 | Only one leading `the_` is dropped: `"The The"` gives `the`, and `"The_"` gives the empty key. |
| MovieModel.StorageKeyIgnoresCase | packages/logic/movie.py:264-266 | Titles that differ only in letter case have the same storage key. |
| MovieModel.StorageKeyOfTitleCase | packages/logic/movie.py:264-266 | Title-casing a title does not change its storage key. |
| MovieModel.OutsideKeysReachable | packages/logic/movie.py:256-266 | The accepted titles `"The_.."`, `"The_."` and `"The_"` have the storage keys `".."`, `"."` and `""`. |
| MovieModel.SameMovieEquivalence | packages/logic/movie.py:34-38 | Movie equality (same storage key and year) is reflexive, symmetric and transitive. |
| MovieModel.SameMovieExample | packages/logic/movie.py:34-38 | `"The Matrix"` and `"matrix"` of the same year are the same movie. |
| MovieModel.EqIsSameMovie | packages/logic/movie.py:34-38 | `__eq__` holds between movies exactly when key and year agree, and never against a non-movie. |
| MovieModel.CleanUpsRemoveSlashes | packages/logic/movie.py:204-216 | The replacement table of `official_title` leaves no `/` and no `\`. |
| MovieModel.OfficialTitleClean | packages/logic/movie.py:197-216 | When a data file exists, the official title has no `/`, no `\` and no surrounding whitespace. |
| MovieModel.OfficialTitleDefaults | packages/logic/movie.py:197-216 | Without a data file the title is `title.title()`. An empty record gives its cleaned form, and a garbled file raises. |
| MovieModel.CopyTree | packages/logic/movie.py:234-245 | The copy succeeds exactly when the source is a folder and the target is absent, and then the target becomes a copy of the source. |
| MovieModel.Movie.New | packages/logic/movie.py:19-24 | A new movie exists exactly when its arguments validate, and then it holds the validated fields. Otherwise the validation error is raised. |
| MovieModel.Movie.NoErrors | packages/logic/movie.py:176-194 | The result is `None` exactly when construction raises; otherwise it is the validated movie. |
| MovieModel.Movie.OfficialTitle | packages/logic/movie.py:197-216 | The loop of replacements computes the official title read from the movie's data file. |
| MovieModel.Movie.Rename | packages/logic/movie.py:224-245 | A bad title raises and changes nothing. Otherwise the title is always replaced. An unchanged key answers `True` without copying. A successful copy answers `True`, a folder-copy error raises, and any other failure answers `False`. |
| MovieModel.Movie.RemoveCache | packages/logic/movie.py:218-222 | Only a plain file at the storage path raises. Otherwise the movie's cache folder is gone and every other entry is kept. For the keys `""`, `"."` and `".."`, whose path is the cache root or the directory holding it, the whole cache goes. |
| MovieModel.Movie.SetDefaultPoster | packages/logic/movie.py:247-254 | Unless a plain file is in the way, the folder is created if missing and gets the default poster as `thumb.jpg`, keeping its data file. Every other entry is unchanged. |
| Collections.NameFilter | packages/logic/collection.py:36-46 | The filtered name is never longer than the given one. |
| Collections.NameFilterMembers | packages/logic/collection.py:46 | A character is in the filtered name exactly when it is in the name and is not one of `/ \ : ' "`. |
| Collections.NameFilterIdempotent | packages/logic/collection.py:46 | Filtering twice is filtering once. |
| Collections.NameFilterExample | packages/logic/collection.py:46 | `"My: /collection\\"` becomes `"My collection"`. |
| Collections.BlankNamesKept | packages/logic/collection.py:36-46 | A name made of spaces is kept as it is; collection names are never refused. |
| Collections.FileName | packages/logic/collection.py:49-56 | The file name has no space and ends in `.json` after the name's own length. |
| Collections.StemOfFileName | packages/logic/collection.py:56 | The file's stem is the name with spaces turned into `_`. |
| Collections.NameRoundTrip | packages/logic/collection.py:56-69 | A name survives the trip to a file name and back, and is found by the `*.json` glob, exactly when it is non-empty, does not start with `.`, and contains no `_`. |
| Collections.Records | packages/logic/collection.py:152-159 | `save` writes one record per movie, in list order. |
| Collections.RecordValidates | packages/logic/collection.py:142-163 | A saved record whose fields are still valid validates back to the same movie. |
| Collections.RecordFields | packages/logic/collection.py:152-159 | Both import versions read a saved record's four fields back as written. |
| Collections.RecordReloads | packages/logic/collection.py:142-163 | A valid saved movie is rebuilt unchanged by either import version. |
| Collections.SavedElements | packages/logic/collection.py:142-163 | Either import version reads a saved file back as exactly the saved records. |
| Collections.SaveReload | packages/logic/collection.py:142-163 | Loading a saved collection of reloadable movies gives back the same movies, in order, with either import version. |
| Collections.OneLetterTitle | packages/logic/movie.py:118-123 | The title `"A:"` is accepted and becomes `"A"`. |
| Collections.OneLetterTitleLost | packages/logic/collection.py:142-163 | A movie titled `"A"` is saved but dropped on reload, because the title check refuses one letter. |
| Collections.FirstSame | packages/logic/collection.py:113-123 | The index found is that of the first movie equal to the given one, or -1 when none is equal. |
| Collections.AddThenRemove | packages/logic/collection.py:73-123 | Adding a movie not yet in the list and then removing it gives back the list. |
| Collections.RenameOutcome | packages/logic/collection.py:125-140 | After a rename the old file is gone and the new file holds the saved records. Every other file is unchanged. |
| Collections.RenameToSameFileDeletes | packages/logic/collection.py:125-140 | Renaming to a name with the same file name leaves no file at all. |
| Collections.Collection.RenameToOwnName | packages/logic/collection.py:125-140 | A collection's name never holds a character the filter deletes, as the constructor and `rename` keep it. So renaming a collection to its own name keeps the name, and its saved file is deleted. |
| Collections.Collection.constructor | packages/logic/collection.py:19-25 | The name is filtered. A missing list becomes a fresh empty list. |
| Collections.Collection.AddMovie | packages/logic/collection.py:73-83 | The movie is appended with no de-duplication; earlier movies and the name are unchanged. |
| Collections.Collection.RemoveMovie | packages/logic/collection.py:113-123 | The first equal movie is removed and the rest kept in order. Without an equal movie, `ValueError` is raised and the list is unchanged. |
| Collections.Collection.Remove | packages/logic/collection.py:99-111 | The answer is `True` and the collection file is absent afterwards. No other file appears, disappears or changes. |
| Collections.Collection.Save | packages/logic/collection.py:142-163 | The collection file holds exactly the records of the list, and the other files are unchanged. |
| Collections.Collection.Rename | packages/logic/collection.py:125-140 | The name becomes the filtered new name, the list is unchanged, and the file is moved as `RenameOutcome` states. |
| Collections.RetrieveCollections | packages/logic/collection.py:59-71 | The listing is what `glob` gives for `*.json`: each collection file with that suffix whose name does not start with a dot, once, and nothing when the folder is missing. There is one collection per listed file, named from its file and holding the file's movies. Every such file has its collection. A file that cannot be read raises its error. |
| Collections.LoadListed | packages/logic/collection.py:66-71 | The loop reads the listed files in order. Collection `i` is named from file `i` and holds its movies, and the first file that cannot be read raises its error. |
| Collections.EveryListedLoaded | packages/logic/collection.py:66-71 | When the listing enumerates the globbed files, there are as many collections as files, and every file has a collection loaded from it. |
| DataImport.FindMovieFiles | packages/logic/data_import.py:12-25 | A missing folder gives nothing. Otherwise a file is returned exactly when its lower-cased suffix is one of the nine video extensions. |
| DataImport.FileActors | packages/logic/data_import.py:28-41 | A garbled data file contributes no actors, and a record that is not a dictionary raises. |
| DataImport.GatherActors | packages/logic/data_import.py:28-41 | The set loop fails exactly when some file raises or gives a non-string. Otherwise it returns every actor of every file once, sorted by case-folded order. |
| DataImport.LoadAllActors | packages/logic/data_import.py:28-41 | `load_all_actors` returns the distinct actors of all data files, sorted case-insensitively, or raises as above. |
| DataImport.ActorsFromFiles | packages/logic/data_import.py:28-41 | Every actor a data file lists is among those gathered, and a garbled file contributes none. |
| DataImport.Elements | packages/logic/data_import.py:58-74 | Empty content gives no elements. Otherwise the elements are the list items, and any other shape raises. |
| DataImport.Fields | packages/logic/data_import.py:58-74 | A record is read exactly when it is a dictionary with all four keys. Otherwise it raises `TypeError` or `KeyError`. |
| DataImport.ArgsOf | packages/logic/data_import.py:68-74 | All records are read in order, or the error of the first unreadable one is raised. |
| DataImport.ElementMovie | packages/logic/data_import.py:68-74 | A movie built from a record holds valid data. |
| DataImport.Accepted | packages/logic/data_import.py:68-74 | The kept movies are valid and no more numerous than the records. |
| DataImport.CollectionMovies | packages/logic/data_import.py:58-74 | A file's movies are valid. Reading fails exactly when the elements or a record cannot be read. |
| DataImport.CurrentCollectionMovies | packages/logic/data_import.py:58-74 | Empty content gives no movies, and a record without `title` makes the whole file raise. |
| DataImport.MoviesOf | packages/logic/data_import.py:68-74 | The comprehension builds fresh movies holding exactly the accepted data, in order. |
| DataImport.LoadCollectionMovies | packages/logic/data_import.py:58-74 | `load_collection_movies` returns fresh movies holding exactly `CollectionMovies`, or raises its error. |
| DataImport.ListedNames | packages/logic/data_import.py:53 | The files the glob lists are collection files ending in `.json`. `glob.glob`, used by the older module and by `Collection`, also skips names that start with a dot (packages/logic/dataimport.py:63). A missing folder lists nothing. |
| DataImport.AllMovies | packages/logic/data_import.py:44-55 | No collection files give no movies. |
| DataImport.AllMoviesOk | packages/logic/data_import.py:52-55 | `load_all_movies` succeeds exactly when every listed file loads. |
| DataImport.AllMoviesReadsEvery | packages/logic/data_import.py:52-55 | After a success, every movie of every listed file is among the movies returned. |
| DataImport.ListedFilesRead | packages/logic/data_import.py:52-55 | When the listing enumerates the globbed files, success means that every globbed file loads, and then all of each file's movies are returned. |
| DataImport.AllMoviesStops | packages/logic/data_import.py:44-55 | Once one collection file raises, reading more files keeps that error. |
| DataImport.AllMoviesFromFiles | packages/logic/data_import.py:44-55 | Every loaded movie is valid and comes from some listed collection file. |
| DataImport.LoadAllMovies | packages/logic/data_import.py:44-55 | The listing is what the glob gives for `*.json`: each matching collection file once, and nothing when the folder is missing. The `extend` loop returns the movies of all collection files, in order, or the first error. It succeeds exactly when every globbed file loads, and then every movie of every such file is returned. |
| LegacyImport.FindMovieFiles | packages/logic/dataimport.py:16-29 | A missing folder gives nothing. Otherwise a file is returned exactly when its suffix is one of six extensions, matched case-sensitively. |
| LegacyImport.LegacySuffixAccepted | packages/logic/dataimport.py:16-29 | Every older extension is also accepted by the newer module. |
| LegacyImport.NewerFindsMore | packages/logic/dataimport.py:16-29 | Every file the older module finds, the newer one finds too. |
| LegacyImport.FileActors | packages/logic/dataimport.py:32-51 | A garbled file is skipped. A dictionary without `actors` contributes `Unknown`, and a non-dictionary raises. |
| LegacyImport.LoadAllActors | packages/logic/dataimport.py:32-51 | The distinct actors, sorted case-insensitively, or an error when a file raises or gives a non-string. |
| LegacyImport.UnknownActor | packages/logic/dataimport.py:39-51 | A data file without `actors` puts `Unknown` among the actors. |
| LegacyImport.Elements | packages/logic/dataimport.py:68-85 | A missing file raises `FileNotFoundError` and a garbled one `JSONDecodeError`; a list gives its items. |
| LegacyImport.Fields | packages/logic/dataimport.py:68-77 | Any dictionary is read, with missing keys as `None`; anything else raises `AttributeError`. |
| LegacyImport.MakeMovie | packages/logic/dataimport.py:88-101 | The result is empty exactly when construction raises; it never raises itself. It agrees with the newer import's element rule. |
| LegacyImport.VersionsDiffer | packages/logic/dataimport.py:68-101 | On a record without `title`, the newer module raises and the older drops the movie. On a missing file, the newer returns nothing and the older raises. |
| CacheCleanup.Cleared | packages/logic/data_process.py:20-24 | A cache entry remains exactly when it is a plain file or a folder named by a kept key, and it is unchanged. |
| CacheCleanup.ClearedCache | packages/logic/dataprocess.py:35-50 | The collections read are exactly the files the glob lists. An absent cache root is left as it is. Otherwise the clean-up succeeds exactly when all saved movies load. |
| CacheCleanup.ClearedKeepsCollected | packages/logic/data_process.py:15-24 | After a successful clean-up over an existing cache root, every globbed collection file was read, and the folder of each of its movies that was in the cache is still there, unchanged. |
| CacheCleanup.ClearKeepsSaved | packages/logic/data_process.py:20-24 | The folder of every saved movie, and every plain file, survives the clean-up. |
| CacheCleanup.ClearIdempotent | packages/logic/data_process.py:20-24 | A second clean-up with the same saved movies deletes nothing. |
| CacheCleanup.RemoveUnused | packages/logic/data_process.py:20-24 | The deletion loop over the cache root, in any listing order, leaves exactly `Cleared`. |
| CacheCleanup.ClearCache | packages/logic/data_process.py:15-24 | `clear_cache` computes `ClearedCache`, with the collections read by either import version. The listing holds exactly the files that version's glob lists. |
| DataRetrieve.NewScraper | packages/logic/data_retrieve.py:34-42 | A scraper exists exactly when the movie validates again with no path and rating `-`. Its folder then exists, and the year is the movie's. |
| DataRetrieve.ImpRaw | packages/logic/data_retrieve.py:162-186 | The link list has the default `{site}{year}/posters/{key}.{end}` first, then one link per suffix. |
| DataRetrieve.ImpLinks | packages/logic/data_retrieve.py:162-186 | There is one link per suffix plus the default. |
| DataRetrieve.ImpLinkCount | packages/logic/data_retrieve.py:162-186 | With the eleven suffixes there are twelve jpg links and twelve html links, and the default jpg link comes first. |
| DataRetrieve.ImpJpgLinks | packages/logic/data_retrieve.py:172-186 | When `.jpg` occurs only at the end, each variant is the default with the suffix before `.jpg`. |
| DataRetrieve.ImpHtmlLinks | packages/logic/data_retrieve.py:172-186 | Each html variant is the same link with `posters/` removed. |
| DataRetrieve.YoutubeLink | packages/logic/data_retrieve.py:308-321 | The trailer link is empty or an embed link with an 11-character id. It is empty on a non-200 answer, and an unanswered request raises. |
| DataRetrieve.YoutubeQueryHasNoSpace | packages/logic/data_retrieve.py:308-321 | The search query contains no space. |
| DataRetrieve.ImdbLink | packages/logic/data_retrieve.py:242-262 | The link is empty or `https://www.imdb.com/title/` followed by 9 word characters and `/`. |
| DataRetrieve.LastImdbId | packages/logic/data_retrieve.py:242-262 | An identifier found has 9 word characters. |
| DataRetrieve.LastQualifyingDecides | packages/logic/data_retrieve.py:242-262 | The last div mentioning IMDb decides the identifier. |
| DataRetrieve.ImdbPageLink | packages/logic/data_retrieve.py:242-262 | The IMDb link is empty or well-formed. It is empty on a non-200 answer, and an unanswered request raises. |
| DataRetrieve.GetImdbPageLink | packages/logic/data_retrieve.py:242-262 | The loop overwriting the identifier computes `ImdbPageLink`. |
| DataRetrieve.FirstImdb | packages/logic/data_retrieve.py:85-89 | The first-hit loop over the links gives an empty or well-formed IMDb link. |
| DataRetrieve.FindImdb | packages/logic/data_retrieve.py:85-89 | The loop computes `FirstImdb`. |
| DataRetrieve.TasteUrls | packages/logic/data_retrieve.py:271-296 | The TasteDive pages asked for are `X-Movie`, `X-{year}` and `X`, in that order. |
| DataRetrieve.Suggestions | packages/logic/data_retrieve.py:271-296 | The suggestions are exactly the non-empty groups, stripped, and no more of them than groups. |
| DataRetrieve.KeepSuggestions | packages/logic/data_retrieve.py:290-296 | The loop over the three groups keeps exactly the suggestions `Suggestions` describes, in order. |
| DataRetrieve.GetRecommendations | packages/logic/data_retrieve.py:271-296 | The pages are tried in order up to the first 200 and no further. An unanswered request raises. The answer is `TasteAnswer` of the three pages: at most 3 stripped suggestions. |
| DataRetrieve.AskedAnswer | packages/logic/data_retrieve.py:271-296 | Any exchange that asks the pages in order up to the first 200 ends with the answer `TasteAnswer` gives: the last page asked decides it. |
| DataRetrieve.WriteImgToDisk | packages/logic/data_retrieve.py:335-338 | The resized downloaded image becomes `thumb.jpg` exactly in an existing folder. The data file and the set of entries are unchanged. |
| DataRetrieve.DownloadPoster | packages/logic/data_retrieve.py:103-135 | An existing poster without `override` means no request. Otherwise the candidates are a permutation of CineMaterial, IMP jpg (only with `year`) and MoviePosterDB. They are tried in order up to the first 200, and only that one is written. |
| DataRetrieve.PosterWritesOnlyThumb | packages/logic/data_retrieve.py:103-135 | Writing the poster leaves every other cache folder unchanged. |
| DataRetrieve.LookUp | packages/logic/data_retrieve.py:63-78 | The Wikipedia loop computes `WikiLookup`. |
| DataRetrieve.WikiLookupCalls | packages/logic/data_retrieve.py:63-78 | At most four calls are made, beginning with a page call for `"{title} {year}"`. Every call uses that query or `"{title} film"`. |
| DataRetrieve.WikiTimeoutStops | packages/logic/data_retrieve.py:63-78 | A timeout on the first page call stops the loop with the default title and summary. |
| DataRetrieve.WikiPageKept | packages/logic/data_retrieve.py:63-78 | After a summary lookup error the query switches to `"{title} film"`. The page already found is kept. |
| DataRetrieve.SummaryFromLastCall | packages/logic/data_retrieve.py:63-78 | A summary other than the default is the answer to the last call made, a summary request. |
| DataRetrieve.GenreSentenceIsOneSentence | packages/logic/data_retrieve.py:80-83 | The sentence searched for genres contains no full stop. |
| DataRetrieve.GenresOf | packages/logic/data_retrieve.py:80-83 | There are no more tags than vocabulary entries. |
| DataRetrieve.GenresMembers | packages/logic/data_retrieve.py:80-83 | A tag is present exactly when some vocabulary entry's key or value occurs in the sentence, and the tag is that key title-cased. |
| DataRetrieve.InferGenres | packages/logic/data_retrieve.py:80-83 | The genre loop computes `GenresOf` on the first sentence without the title. |
| DataRetrieve.InfoRecord | packages/logic/data_retrieve.py:91-101 | The record has exactly the six keys title, summary, actors, genre, trailer and imdb. |
| DataRetrieve.DownloadInfo | packages/logic/data_retrieve.py:44-101 | `download_info` computes `InfoOf`. |
| DataRetrieve.InfoKeepsFilledFile | packages/logic/data_retrieve.py:51-52 | A non-empty data file means nothing is fetched or written. |
| DataRetrieve.InfoNeedsDataFile | packages/logic/data_retrieve.py:51-52 | A missing data file raises `FileNotFoundError` before any request. |
| DataRetrieve.InfoRecordWritten | packages/logic/data_retrieve.py:91-101 | A write stores the six-key record. Its genres are those inferred from its summary, and its trailer and IMDb links are empty or well-formed. The poster and the set of entries are unchanged, and so is every other folder. |
| DataRetrieve.InfoAsWrittenNeverWrites | packages/logic/data_retrieve.py:44-83 | As written, `download_info` never writes: wherever the intended version writes the record, `.items()` on the `MOVIE_GENRES` list raises `AttributeError` instead, and a run that does not raise leaves the cache as it was. |
| LegacyRetrieve.ImpSanitizedTitle | packages/logic/dataretrieve.py:47-58 | The IMP title has no space. |
| LegacyRetrieve.ImpTitleIsStorageKey | packages/logic/dataretrieve.py:54-58 | For a stripped title not starting with `the_`, the IMP title equals the storage key. |
| LegacyRetrieve.ImpTitleDiffers | packages/logic/dataretrieve.py:54-58 | `"The_Matrix"` shows the two rules part ways: `the_matrix` against `matrix`. |
| LegacyRetrieve.LegacyImpLinks | packages/logic/dataretrieve.py:60-70 | There are nine links, with the default first. |
| LegacyRetrieve.LegacyLinkShape | packages/logic/dataretrieve.py:60-70 | Link `i+1` is the default with the `i`-th suffix of the tuple before `.jpg`. |
| LegacyRetrieve.WithoutDigits | packages/logic/dataretrieve.py:151-160 | The strings without digits are kept, each as many times as before. |
| LegacyRetrieve.GetActors | packages/logic/dataretrieve.py:131-160 | No digit-bearing name appears, and the names are sorted by case-folded order. Without a `ul` they are a permutation of the filtered anchors, and names with the same case-folded form keep their order. With one they are the de-duplicated union, whatever order the set is iterated in. |
| LegacyRetrieve.WriteImgOnDisk | packages/logic/dataretrieve.py:113-129 | The resized image becomes `thumb.jpg` exactly in an existing folder, and the answer is always `False`. |
| LegacyRetrieve.Written | packages/logic/dataretrieve.py:113-129 | A successful write answers `False`. |
| LegacyRetrieve.TryLinks | packages/logic/dataretrieve.py:172-187 | The links are tried in order up to the first `ok` answer and no further, and only that answer is written. With no answer, the value is `False`, or `None` for no links. |
| LegacyRetrieve.DownloadPoster | packages/logic/dataretrieve.py:162-187 | An existing poster answers `True` with no request. Otherwise the IMP links, then the MoviePosterDB link, are tried in order. `True` is answered exactly when the poster pre-existed. |
| LegacyRetrieve.DownloadCnmPoster | packages/logic/dataretrieve.py:189-203 | The answer is never `True`. No link gives `False`, and a refused link gives `None`. A request fails only when unanswered, or when it answered `ok` with no folder. |
| LegacyRetrieve.GenresIn | packages/logic/dataretrieve.py:260-262 | A genre is listed exactly when it is in the vocabulary and its lower-case form occurs in the sentence. |
| LegacyRetrieve.GenresInOrder | packages/logic/dataretrieve.py:260-262 | The genres are a sub-list of the vocabulary, and distinct when the vocabulary is. |
| LegacyRetrieve.LegacyGenresListed | packages/logic/dataretrieve.py:260-262 | The genres are a duplicate-free sub-list of `MOVIE_GENRES`, empty when no summary sentence was found. |
| LegacyRetrieve.LegacyRecord | packages/logic/dataretrieve.py:263-270 | The record has exactly the keys title, summary, actors and genre. |
| LegacyRetrieve.PageLoop | packages/logic/dataretrieve.py:220-241 | The page loop computes `PageFrom` over two attempts, taking the actors from `get_actors` on the page found. |
| LegacyRetrieve.LegacyPageCalls | packages/logic/dataretrieve.py:220-241 | One or two page calls are made: first for `"{title} {year}"`, then for `"{title} film"` exactly after a lookup error. A page found gives its title and `get_actors` of it; otherwise the default title and no actors remain. |
| LegacyRetrieve.LegacyPageTimeout | packages/logic/dataretrieve.py:230-231 | A timeout on the first call ends the loop at once with the default title and no actors. |
| LegacyRetrieve.PageActors | packages/logic/dataretrieve.py:238-241 | The actors the page loop yields are sorted by case-folded order and hold no digit. |
| LegacyRetrieve.SummaryLoop | packages/logic/dataretrieve.py:243-260 | The summary loop computes `SummaryFrom` over two attempts. |
| LegacyRetrieve.ListGenres | packages/logic/dataretrieve.py:260-262 | The genre loop computes the genre list. |
| LegacyRetrieve.DownloadInfo | packages/logic/dataretrieve.py:205-270 | `download_info` computes `LegacyInfoOf`. |
| LegacyRetrieve.LegacyInfoAnswer | packages/logic/dataretrieve.py:205-270 | An existing data file answers `True` with nothing changed, and every answer that does not raise is `True`. |
| LegacyRetrieve.LegacyActorsWritten | packages/logic/dataretrieve.py:205-270 | A write stores the four-key record, whose actors are sorted by case-folded order and hold no digit. Every other cache entry is unchanged. |
| LegacyRetrieve.SummaryCallsMade | packages/logic/dataretrieve.py:243-260 | The summary loop makes all its attempts unless its last call timed out. |
| LegacyRetrieve.SummaryAskedTwice | packages/logic/dataretrieve.py:243-260 | A summary found at once is asked for a second time, and the second answer is kept. |
| MovData.FusedSuffix | packages/logic/movdata.py:46-53 | There are five suffixes, one of them `_ver5_xlg`; neither `_ver5` nor `_xlg` is one. |
| MovData.SanitizedTitle | packages/logic/movdata.py:56-67 | The title has no space. It is the same rule as the older scraper's IMP title. |
| MovData.DefaultDownloadLink | packages/logic/movdata.py:70-77 | The default link is `{site}{year}/posters/{title}.jpg`, the older scraper's default link for the same title and year. |
| MovData.GenerateLinks | packages/logic/movdata.py:79-87 | There is one link per suffix. |
| MovData.GeneratedLinks | packages/logic/movdata.py:79-87 | There are five links, each the default with the suffix before `.jpg`, and the default is not one of them. |
| MovData.CopyDefault | packages/logic/movdata.py:117-121 | Copying succeeds exactly in an existing folder. It adds `default.jpg` and changes nothing else. |
| MovData.Settle | packages/logic/movdata.py:102-121 | The links are tried in order. The answer is `True` exactly when `thumb.jpg` is there afterwards, and a `False` leaves `default.jpg` there. No other folder changes, and only an unanswered request raises. |
| MovData.ProbeVariants | packages/logic/movdata.py:108-115 | The variant loop stops at the first link that is unanswered or answers `ok`. |
| MovData.DownloadPoster | packages/logic/movdata.py:89-121 | `download_poster`: create the folder, keep an existing poster, try the default link, then the variants, then fall back to the default poster. |
| MovData.PosterAnswer | packages/logic/movdata.py:89-121 | `True` exactly when the folder ends with `thumb.jpg`; `False` leaves `default.jpg`; no other cache entry is added, removed or changed. |
| MovData.PosterKept | packages/logic/movdata.py:99-100 | An existing `thumb.jpg` answers `True` with nothing changed. |
| ScraperThreads.ScraperOf | packages/logic/qthread.py:40 | The stored object is the first argument exactly when that argument is a scraper. |
| ScraperThreads.Filtered | packages/logic/qthread.py:41 | Filtering raises `TypeError` exactly when some argument is not a tuple. Otherwise it keeps, in order, the steps whose name the object has. |
| ScraperThreads.Defined | packages/logic/qthread.py:26-41 | `ValueError` exactly when fewer than two arguments are given, and then nothing changes. The tuple test never raises. The scraper is stored before filtering, so a `TypeError` leaves the new scraper with the old steps. |
| ScraperThreads.FirstRaise | packages/logic/qthread.py:51-58 | The steps before the index return, and the step at it raises. |
| ScraperThreads.Calls | packages/logic/qthread.py:51-58 | Each step is called with its argument exactly when the argument is not `None`. |
| ScraperThreads.OutcomeSignal | packages/logic/qthread.py:43-60 | There is exactly one signal: `finished` when there is a scraper and no step raises, after calling every step in order. Otherwise the calls made are a prefix of the steps, and the message is the missing scraper's or that of the last call, which raised. |
| ScraperThreads.NoScraperFails | packages/logic/qthread.py:43-60 | Without a scraper, `run` fails with the fixed message and calls nothing. |
| ScraperThreads.ScraperThread.constructor | packages/logic/qthread.py:20-24 | A new thread has no scraper and no steps. |
| ScraperThreads.ScraperThread.Define | packages/logic/qthread.py:26-41 | The new fields and the exception are those `Defined` gives. |
| ScraperThreads.ScraperThread.Run | packages/logic/qthread.py:43-60 | The loop's signal and calls are those `Outcome` gives. |
| Recommendations.AsWritten | packages/logic/recommendations.py:10-27 | As written, the folder entry is missing and the older scraper class is imported. |
| Recommendations.CheckFolder | packages/logic/recommendations.py:15-27 | Without a `PATHS` entry the lookup gives `None` and `mkdir` raises `AttributeError`. Otherwise the folder exists afterwards and the answer is `True`. |
| Recommendations.FilmPicker | packages/logic/recommendations.py:47-68 | No saved movies give `{}`. Otherwise exactly the keys Movie A, B and C, each mapped to a saved movie. |
| Recommendations.AsMovie | packages/logic/recommendations.py:71-89 | A suggestion becomes a valid movie of year 2000, and does so exactly when the title check passes and 2000 is an accepted year. |
| Recommendations.StrToMovie | packages/logic/recommendations.py:71-89 | The keys are kept and each value becomes its movie. Otherwise the error of a failing title is raised. |
| Recommendations.NewScraperExtends | packages/logic/data_retrieve.py:34-42 | Building a scraper keeps every cache entry as it was and adds at most one empty folder, the one named after the movie's scraper. |
| Recommendations.Trailer | packages/logic/recommendations.py:30-44 | A computed pair holds the movie and a trailer link for it. The cache keeps every entry and gains at most the movie's scraper folder, which exists after a success. |
| Recommendations.CollectTrailerLinks | packages/logic/recommendations.py:30-44 | The keys are kept, and each value becomes the movie paired with its trailer link. Every old cache entry is kept as it was. The only new entries are empty folders named after the scrapers of the dictionary's movies. |
| Recommendations.TrailerShape | packages/logic/recommendations.py:30-44 | A trailer link is empty or an embed link, and empty on a non-200 search. |
| Recommendations.Gather | packages/logic/recommendations.py:102-105 | The loop computes `Gathered`: for each pick in turn, a new scraper and its TasteDive answer, whose suggestions join the set. The older scraper class raises. At most nine stripped suggestions are gathered. The cache keeps every entry and gains only empty folders of the picked movies' scrapers. |
| Recommendations.PopThree | packages/logic/recommendations.py:110-111 | The three keys receive three pairwise-distinct suggestions from the set. |
| Recommendations.RunRecommendations | packages/logic/recommendations.py:92-114 | Without the folder entry `mkdir` raises and nothing changes. Old files are deleted only after the folder check and a successful, non-empty pick. Fewer than three suggestions stop the run; otherwise three distinct suggestions become the three movies. The suggestions are those `Gathered` gives for three movies of the library, which is read from exactly the collection files `glob` lists. With the older scraper class the run raises or does nothing. On success each of the three movies is paired with its trailer link. Every old cache entry is kept as it was and new entries are empty folders. A run that does nothing leaves the cache alone. On a run with suggestions, the new folders belong to the picked movies' scrapers or to scrapers of suggested movies, and a run with fewer than three suggestions leaves the cache as `Gathered` does. |
| Recommendations.Recommend | packages/logic/recommendations.py:102-114 | The gathered set is `Gathered` of the picks, and a failure there is the run's failure. Fewer than three gathered suggestions end the run. Otherwise the three keys get pairwise distinct suggestions from the gathered set, each of which becomes the movie paired with its trailer link. With the older scraper class it raises. The cache is `Gathered`'s when gathering fails or finds too few suggestions. After `Gathered`, the only new folders belong to scrapers of suggested movies, and on success to those of the three picked movies. Over the whole call, every old entry is kept and new entries are empty folders. |
| Recommendations.PickAndLink | packages/logic/recommendations.py:110-114 | The three keys get pairwise distinct suggestions from the set. Each becomes its movie, which is paired with its trailer link. The cache only gains empty folders of suggested movies' scrapers, and on success only those of the three movies. |

## Left out

- The user interface (`run.py`, `app.py`, `packages/ui/`), Qt signals and real threads. `ScraperThread.run` signals by its return value.
- Image work with PIL:
  - `perfect_resize` is not modelled.
  - `set_local_poster` is not modelled.
  - A poster is a value that records its source and target size.
- HTML parsing, BeautifulSoup and the regular expressions run over raw pages. Their results are inputs: the `Web` oracle's `cast`, `starring`, `groups` and `divs` answers; the YouTube and IMDb patterns are searched by `Text.Search`. CPython's iteration order over a set of names is the `order` answer. The CineMaterial and MoviePosterDB link generators are inputs too (`cnm`, `pdb`), because they parse fetched pages.
- Requests and Wikipedia:
  - Each call is an oracle function of its URL or query, so the model assumes the same request always gets the same answer.
  - Headers, `timeout=` values, `sleep` pauses and `wiki.set_lang` are left out.
- Randomness and iteration order:
  - `shuffle`, `choice` and `set.pop` are nondeterministic choices (`:|`).
  - Set, dict and `iterdir` order are order parameters that enumerate the collection. The order in which `glob` lists the collection files is one too.
  - A folder whose name ends in `.json` inside the collections folder is not modelled: `glob` would list it and reading it would raise. The shelf holds only file names.
- Character classes: `\w`, `isdigit`, `lower`, `title` and `casefold` follow their ASCII behaviour only.
- `Movie.actors`, `aesthetic_rating`, `genre`, `__lt__`, `__str__`, `Collection.export_as_txt`: display helpers not on the modelled paths.
- File paths are storage keys and file names. `dir_path` and `filename` arguments of the newer `download_poster` take their defaults. Path normalisation is modelled only in `remove_cache`, for the three keys `MovieModel.OutsideEntries` names. Elsewhere keys are compared as strings: the titles `The_` and `The_.` with the same year give the keys `""` and `"."`, which `pathlib` turns into one path, so `__eq__` and `rename` would find the two storages equal. In the model they are two keys.
- DataRetrieve.DownloadInfo and `DataRetrieve.InfoOf` model the run the code was written to make. They read the genre table as the name and keyword pairs `.items()` expects (`vocab`, used by `DataRetrieve.GenresOf`). As written, `.items()` on the `MOVIE_GENRES` list raises `AttributeError` after the YouTube and Wikipedia requests and before anything is written; `DataRetrieve.InfoAsWritten` is that run.
- `ScraperThreads.HasAttr`: `hasattr` is membership in the scraper's attribute names. Dunder attributes and properties that raise while evaluated are not modelled. Tuple arguments are `(name, argument)` pairs; other indexable arguments and one-element tuples are not modelled.
- `Recommendations.CheckFolder` does not model `mkdir` raising `FileExistsError` over a plain file.
- `Recommendations.CheckFolder` does not model a subdirectory inside the recommendations folder: `unlink` raises on it, but `RecDir.files` holds only names, so every entry is deleted.
- `tests/test_collection.py` expects collection names to be refused and `add_movie` to de-duplicate. `packages/logic/collection.py` does neither, and the model follows the code (`Collections.BlankNamesKept`, `Collections.Collection.AddMovie`).
- `packages/logic/movie.py:14` imports `filter_name` from `dataprocess`, which does not define it. The model uses the definition in `data_process.py`.
- `clear_cache` compares full paths with storage paths. The model compares storage keys, which agrees because both live directly under the cache root.
- The file system is a value passed in and returned. Concurrent changes by other processes are not modelled.
- MovieModel.Movie.RemoveCache: for the key `..` the path is the base directory that holds the cache. The model keeps only the cache's removal; the rest of that directory, and any error `rmtree` reports after emptying it, are outside the model.
- MovieModel.Movie.SetDefaultPoster, `rename` and every `data.json` or `thumb.jpg` write treat the storage key as a folder inside the cache. For the keys `""`, `"."` and `".."` the code writes into the cache root or the directory above it; the model does not follow it there.
- MovieModel.Movie.SetDefaultPoster: the bundled default poster is taken to exist. When it is missing, `shutil.copy` raises `FileNotFoundError` on packages/logic/movie.py:254; this is not modelled.
- MovData.Settle: the bundled `resources/default.jpg` is taken to exist. A missing one, where `copy` raises `FileNotFoundError`, is not modelled.

## Findings

| source | as written | input that shows it | evidently intended | confidence | as-written member | corrected member |
|---|---|---|---|---|---|---|
| packages/logic/data_retrieve.py:81 | `constants.MOVIE_GENRES.items()` is called on a list, which raises `AttributeError` | a movie whose `data.json` exists and holds a falsy value such as `{}`, and whose YouTube search and Wikipedia lookup answer (a missing `data.json` raises `FileNotFoundError` on line 51 first) | iterate over name and keyword pairs and write the six-key record | high; not executed | DataRetrieve.InfoAsWrittenNeverWrites | DataRetrieve.InfoRecordWritten |
