/**
 * The flat-file search history: one JSON file per (city, UTC day), holding a
 * list with one entry per query of that day. The directory is a map from file
 * name to the list the file holds; a name absent from the map is a file that
 * does not exist.
 */
module History {
  import opened Aggregation

  /** The records one query produced: one element of a history file's list. */
  type Query = seq<DayRecord>

  /** The history directory: file name to the decoded contents of that file. */
  type Store = map<string, seq<Query>>

  /** The name of the history file for a city on a day: the city verbatim, '_', the date, ".json". */
  function HistoryFilename(city: string, date: string): (name: string)
    ensures |name| == |city| + 1 + |date| + 5
    ensures name[..|city|] == city
    ensures name[|city|] == '_'
    ensures name[|city| + 1 .. |city| + 1 + |date|] == date
    ensures name[|name| - 5 ..] == ".json"
  {
    city + "_" + date + ".json"
  }

  /**
   * With dates of one fixed width, as strftime produces, the file name
   * determines both the city and the date, even when the city itself
   * contains '_'.
   */
  lemma FilenameDeterminesQuery(city1: string, date1: string, city2: string, date2: string)
    requires |date1| == |date2|
    requires HistoryFilename(city1, date1) == HistoryFilename(city2, date2)
    ensures city1 == city2 && date1 == date2
  {
    var name := HistoryFilename(city1, date1);
    assert |city1| == |city2|;
    assert city1 == name[..|city1|] == city2;
    assert date1 == name[|city1| + 1 .. |city1| + 1 + |date1|] == date2;
  }

  /** Without the fixed width the name is ambiguous: ("a_b", "c") and ("a", "b_c") share a file. */
  lemma FilenameAmbiguousWithoutFixedWidth()
    ensures HistoryFilename("a_b", "c") == HistoryFilename("a", "b_c")
  {
  }

  /** The list a history file holds, with an absent file read as the empty list. */
  function Entries(store: Store, name: string): (queries: seq<Query>)
    ensures name in store ==> queries == store[name]
    ensures name !in store ==> queries == []
  {
    if name in store then store[name] else []
  }

  /**
   * save_search_history: load the file for (city, date), or start from the
   * empty list, append this query's records, and write the file back.
   */
  function SaveSearchHistory(store: Store, city: string, date: string, data: Query): (store': Store)
    ensures store'.Keys == store.Keys + {HistoryFilename(city, date)}
    ensures store'[HistoryFilename(city, date)] == Entries(store, HistoryFilename(city, date)) + [data]
    ensures forall name :: name in store && name != HistoryFilename(city, date) ==>
              store'[name] == store[name]
  {
    var name := HistoryFilename(city, date);
    store[name := Entries(store, name) + [data]]
  }

  /**
   * Saving grows the day's file by exactly one entry, at the end: earlier
   * entries keep their positions and values, and the new last entry is the
   * query saved.
   */
  lemma SaveAppendsOne(store: Store, city: string, date: string, data: Query)
    ensures var name := HistoryFilename(city, date);
            var before := Entries(store, name);
            var after := SaveSearchHistory(store, city, date, data)[name];
            && |after| == |before| + 1
            && after[..|before|] == before
            && after[|before|] == data
  {
  }

  /** Saving never shortens or rewrites a file; it only adds a file or extends one. */
  predicate Extends(store: Store, store': Store)
  {
    && store.Keys <= store'.Keys
    && forall name :: name in store ==>
         |store[name]| <= |store'[name]| && store'[name][..|store[name]|] == store[name]
  }

  lemma ExtendsTransitive(s1: Store, s2: Store, s3: Store)
    requires Extends(s1, s2) && Extends(s2, s3)
    ensures Extends(s1, s3)
  {
    forall name | name in s1
      ensures |s1[name]| <= |s3[name]| && s3[name][..|s1[name]|] == s1[name]
    {
      assert s3[name][..|s1[name]|] == s3[name][..|s2[name]|][..|s1[name]|];
    }
  }

  lemma SaveExtends(store: Store, city: string, date: string, data: Query)
    ensures Extends(store, SaveSearchHistory(store, city, date, data))
  {
    var store' := SaveSearchHistory(store, city, date, data);
    forall name | name in store
      ensures |store[name]| <= |store'[name]| && store'[name][..|store[name]|] == store[name]
    {
      if name == HistoryFilename(city, date) {
        SaveAppendsOne(store, city, date, data);
      }
    }
  }

  /** What download_history answers: the file as a JSON attachment, or a 404. */
  datatype Download =
    | Attachment(disposition: string, contentType: string, contents: seq<Query>)
    | NotFound(body: string, status: nat)

  /** download_history: serve the named file if it exists, else ("File not found", 404). */
  function DownloadHistory(store: Store, filename: string): (r: Download)
    ensures r.NotFound? <==> filename !in store
    ensures r.NotFound? ==> r.body == "File not found" && r.status == 404
    ensures r.Attachment? ==>
              && r.contents == store[filename]
              && r.disposition == "attachment; filename=" + filename
              && r.contentType == "application/json"
  {
    if filename in store then
      Attachment("attachment; filename=" + filename, "application/json", store[filename])
    else
      NotFound("File not found", 404)
  }

  /** history: the names of all files in the history directory, whatever their shape. */
  function ListHistory(store: Store): (names: set<string>)
    ensures forall name :: name in names <==> DownloadHistory(store, name).Attachment?
  {
    store.Keys
  }

  /**
   * A saved query can be downloaded at once under its (city, date) name, as
   * the last entry of that file; the listing gains exactly that name.
   */
  lemma SaveThenDownload(store: Store, city: string, date: string, data: Query)
    ensures var store' := SaveSearchHistory(store, city, date, data);
            var name := HistoryFilename(city, date);
            var r := DownloadHistory(store', name);
            && r.Attachment?
            && |r.contents| == |Entries(store, name)| + 1
            && r.contents[|r.contents| - 1] == data
            && ListHistory(store') == ListHistory(store) + {name}
  {
  }

  /** Saving one city's query leaves every other file's download as it was. */
  lemma SaveLeavesOtherDownloads(store: Store, city: string, date: string, data: Query, other: string)
    requires other != HistoryFilename(city, date)
    ensures DownloadHistory(SaveSearchHistory(store, city, date, data), other)
            == DownloadHistory(store, other)
  {
  }
}
