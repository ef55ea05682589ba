/** The page's session state and one run of the page script. */
module App {
  import opened Wrappers
  import opened Records
  import opened Periods
  import opened EditMerge
  import opened Metrics

  /** Looking up an id that is not in the period table. */
  datatype PeriodError = InvalidPeriod(id: int)

  /** The message shown after Save: none, "saved", or "no changes to save". */
  datatype Notice = NoNotice | Saved | NothingToSave

  /** What one run shows: the rows handed to the editor, the Save message and,
      when Calculate was pressed, the figures. */
  datatype Page = Page(editorRows: seq<Record>, notice: Notice, metrics: Option<Metrics>)

  /** The session: the committed table `df` and the draft `edited_data`,
      the editor's last output, not yet saved. */
  class Session {
    var df: seq<Record>
    var editedData: Option<seq<Record>>

    /** First run: the loaded table is committed and there is no draft. */
    constructor (loaded: seq<Record>)
      ensures df == loaded && editedData == None
    {
      df := loaded;
      editedData := None;
    }

    /** The editor returned a table: it becomes the draft; nothing is committed. */
    method StoreEdit(edited: seq<Record>)
      modifies this
      ensures df == old(df)
      ensures editedData == Some(edited)
    {
      editedData := Some(edited);
    }

    /** Save: with a draft, the committed table becomes the merge of the draft
        over the window; without one, nothing changes. The draft is kept. */
    method Save(w: Window) returns (saved: bool)
      modifies this
      ensures saved <==> old(editedData).Some?
      ensures editedData == old(editedData)
      ensures saved ==> df == Merge(old(df), w, old(editedData).value)
      ensures !saved ==> df == old(df)
    {
      saved := editedData.Some?;
      if saved {
        df := Merge(df, w, editedData.value);
      }
    }

    /** Calculate: the figures of the draft as it stands (not re-filtered by
        date) when there is one, otherwise of the committed records in the window. */
    method Calculate(w: Window) returns (m: Metrics)
      ensures editedData.Some? ==> m == Summarize(editedData.value)
      ensures editedData.None? ==> m == Summarize(Filter(df, w))
    {
      if editedData.Some? {
        m := Summarize(editedData.value);
      } else {
        m := Summarize(Filter(df, w));
      }
    }

    /** One run of the page for the selected period: look the period up, show
        its committed records in the editor, keep the editor's output as the
        draft, then handle Save and Calculate in that order. */
    method Run(period: int, edited: Option<seq<Record>>, saveClicked: bool, calculateClicked: bool)
      returns (page: Result<Page, PeriodError>)
      modifies this
      ensures MonthRange(period).None? ==>
                page == Failure(InvalidPeriod(period)) && df == old(df) && editedData == old(editedData)
      ensures MonthRange(period).Some? ==> page.Success?
      ensures MonthRange(period).Some? ==>
                var w := MonthRange(period).value;
                && page.value.editorRows == Filter(old(df), w)
                && editedData == (if edited.Some? then edited else old(editedData))
                && df == (if saveClicked && editedData.Some? then Merge(old(df), w, editedData.value) else old(df))
                && page.value.notice == (if !saveClicked then NoNotice
                                         else if editedData.Some? then Saved else NothingToSave)
                && page.value.metrics == (if !calculateClicked then None
                                          else if editedData.Some? then Some(Summarize(editedData.value))
                                          else Some(Summarize(Filter(df, w))))
    {
      var range := MonthRange(period);
      if range.None? {
        return Failure(InvalidPeriod(period));
      }
      var w := range.value;
      var rows := Filter(df, w);
      if edited.Some? {
        StoreEdit(edited.value);
      }
      var notice := NoNotice;
      if saveClicked {
        var saved := Save(w);
        notice := if saved then Saved else NothingToSave;
      }
      var metrics := None;
      if calculateClicked {
        var m := Calculate(w);
        metrics := Some(m);
      }
      page := Success(Page(rows, notice, metrics));
    }
  }

  /** Once a draft is saved, the window of the saved table has the figures of
      the draft's in-window records. */
  lemma SavedWindowMetrics(committed: seq<Record>, w: Window, draft: seq<Record>)
    ensures Summarize(Filter(Merge(committed, w, draft), w)) == Summarize(Filter(draft, w))
  {
    FilterAfterMerge(committed, w, draft);
  }

  /** Calculate on a draft, Save, start a new session from the saved table and
      Calculate again: when the draft's dates all lie in the window, the two
      sets of figures agree. (A new session of the page itself starts from the
      cached table, see Storage.) */
  method SaveAndRestart(loaded: seq<Record>, w: Window, draft: seq<Record>)
    returns (before: Metrics, after: Metrics)
    requires forall i :: 0 <= i < |draft| ==> InWindow(draft[i], w)
    ensures before == after
  {
    var session := new Session(loaded);
    session.StoreEdit(draft);
    before := session.Calculate(w);
    var saved := session.Save(w);
    var restarted := new Session(session.df);
    after := restarted.Calculate(w);
    FilterAfterMergeIsDraft(loaded, w, draft);
  }
}
