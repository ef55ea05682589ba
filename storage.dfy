/** The CSV file behind the table and the cache in front of `load_data`. */
module Storage {
  import opened Wrappers
  import opened Dates
  import opened Records
  import opened Periods
  import opened EditMerge
  import App

  /** The server process: the contents of `AVEEE.csv` and the entry that
      `@st.cache_data` keeps for the argument-less `load_data`. */
  class Server {
    var csv: seq<Record>
    var cache: Option<seq<Record>>

    /** The process starts with the file as it is and an empty cache. */
    constructor (file: seq<Record>)
      ensures csv == file && cache == None
    {
      csv := file;
      cache := None;
    }

    /** `load_data()` as written: the first call reads the file and caches the
        table; every later call, from any session, returns the cached table. */
    method LoadData() returns (t: seq<Record>)
      modifies this
      ensures csv == old(csv)
      ensures cache == Some(t)
      ensures old(cache).Some? ==> t == old(cache).value
      ensures old(cache).None? ==> t == old(csv)
    {
      if cache.None? {
        cache := Some(csv);
      }
      t := cache.value;
    }

    /** The load a new session needs: the file as it is now. */
    method LoadFresh() returns (t: seq<Record>)
      ensures t == csv
    {
      t := csv;
    }

    /** `save_data(df)`: the file is replaced; the cache is left as it was. */
    method SaveData(t: seq<Record>)
      modifies this
      ensures csv == t && cache == old(cache)
    {
      csv := t;
    }
  }

  /** Two sessions one after the other on a server started with an empty file.
      The first saves a record in period 5; the second, started after that
      save, gets the cached empty table and saves a record in period 12. The
      file then no longer holds the first session's record. */
  method StaleCacheDropsEarlierSave() returns (first: Record, file: seq<Record>)
    ensures first.date.Some? && InWindow(first, MonthRange(5).value)
    ensures !InWindow(first, MonthRange(12).value)
    ensures first !in file
  {
    var may, december := MonthRange(5).value, MonthRange(12).value;
    var server := new Server([]);

    var loaded := server.LoadData();
    var a := new App.Session(loaded);
    first := Record(Some(Midnight(2025, 2, 1)), 8.0, 100.0);
    a.StoreEdit([first]);
    var savedA := a.Save(may);
    server.SaveData(a.df);

    loaded := server.LoadData();
    var b := new App.Session(loaded);
    var second := Record(Some(Midnight(2025, 9, 1)), 12.0, 150.0);
    b.StoreEdit([second]);
    var savedB := b.Save(december);
    server.SaveData(b.df);
    file := server.csv;
    assert file == [second];
  }

  /** The same two saves when each session starts from the file: every record
      the first session saved that lies outside the second session's window is
      still in the file afterwards. */
  method FreshLoadKeepsEarlierSave(
    initial: seq<Record>, w1: Window, draft1: seq<Record>, w2: Window, draft2: seq<Record>)
    returns (file: seq<Record>)
    ensures forall r :: r in draft1 && !InWindow(r, w2) ==> r in file
    ensures forall r :: r in draft2 ==> r in file
  {
    var server := new Server(initial);

    var loaded := server.LoadFresh();
    var a := new App.Session(loaded);
    a.StoreEdit(draft1);
    var savedA := a.Save(w1);
    server.SaveData(a.df);

    loaded := server.LoadFresh();
    var b := new App.Session(loaded);
    b.StoreEdit(draft2);
    var savedB := b.Save(w2);
    server.SaveData(b.df);
    file := server.csv;
  }
}
