/** The production history screen (src/components/ProductionHistory.jsx): the fetched records,
    a search box over their file names and tones, and the character and location counts read
    from each record's stored analysis. */
module HistoryView {
  import opened Text
  import opened Json
  import Seqs
  import ServerStore
  import AppSession

  /** One history record as the screen receives it; `analysisData` is `None` when the record
      has no `analysis_data`. */
  datatype HistoryItem = HistoryItem(
    id: int, fileName: string, tone: string, riskScore: int, analysisData: Option<Value>, createdAt: int)

  /** The record the server's history handler sends for a stored row. */
  function ItemOf(row: ServerStore.AnalysisRow): HistoryItem
  {
    HistoryItem(row.id, row.fileName, row.tone, row.riskScore, Some(row.analysisData), row.createdAt)
  }

  // ---------------------------------------------------------------------------------------
  // The search box

  /** The lowercased file name or the lowercased tone contains the lowercased search text. */
  predicate Keeps(filter: string, item: HistoryItem)
  {
    Includes(ToLower(item.fileName), ToLower(filter)) || Includes(ToLower(item.tone), ToLower(filter))
  }

  function Keeper(filter: string): HistoryItem -> bool
  {
    (item: HistoryItem) => Keeps(filter, item)
  }

  /** `filteredHistory`. */
  function FilterHistory(filter: string, history: seq<HistoryItem>): seq<HistoryItem>
  {
    Seqs.Filter(Keeper(filter), history)
  }

  /** The search text occurs, ignoring case, at some position of the file name or the tone. */
  ghost predicate Matches(filter: string, item: HistoryItem)
  {
    (exists k :: OccursAt(ToLower(item.fileName), ToLower(filter), k)) ||
    (exists k :: OccursAt(ToLower(item.tone), ToLower(filter), k))
  }

  /** The shown records are exactly the matching ones, in their fetched order. */
  lemma FilterHistoryExact(filter: string, history: seq<HistoryItem>)
    ensures Seqs.IsSubsequence(FilterHistory(filter, history), history)
    ensures forall item :: item in FilterHistory(filter, history) <==> item in history && Matches(filter, item)
  {
    var p := Keeper(filter);
    Seqs.FilterIsSubsequence(p, history);
    forall item ensures item in FilterHistory(filter, history) <==> item in history && Matches(filter, item) {
      Seqs.FilterMembers(p, history, item);
      assert p(item) == Keeps(filter, item);
      IncludesIffOccurs(ToLower(item.fileName), ToLower(filter));
      IncludesIffOccurs(ToLower(item.tone), ToLower(filter));
    }
  }

  /** An empty search box shows every record. */
  lemma EmptyFilterKeepsAll(history: seq<HistoryItem>)
    ensures FilterHistory("", history) == history
  {
    var p := Keeper("");
    forall i | 0 <= i < |history| ensures p(history[i]) {
      IncludesEmpty(ToLower(history[i].fileName));
    }
    Seqs.FilterKeepsAll(p, history);
  }

  /** Searching the shown list again with the same text shows the same list. */
  lemma FilterHistoryIdempotent(filter: string, history: seq<HistoryItem>)
    ensures FilterHistory(filter, FilterHistory(filter, history)) == FilterHistory(filter, history)
  {
    Seqs.FilterIdempotent(Keeper(filter), history);
  }

  /** Records of the server's analyses carry the tone 'Neo-Noir', so searching for any part
      of it, in any case, shows all of them. */
  lemma ToneSearchShowsServerRecords(rows: seq<ServerStore.AnalysisRow>, filter: string)
    requires forall i :: 0 <= i < |rows| ==> rows[i].tone == "Neo-Noir"
    requires ToLower(filter) == "noir"
    ensures forall i :: 0 <= i < |rows| ==> Keeps(filter, ItemOf(rows[i]))
  {
    NoirInTone();
    forall i | 0 <= i < |rows| ensures Keeps(filter, ItemOf(rows[i])) {
      assert ItemOf(rows[i]).tone == "Neo-Noir";
    }
  }

  lemma NoirInTone()
    ensures Includes(ToLower("Neo-Noir"), "noir")
  {
    var lower := ToLower("Neo-Noir");
    assert lower == "neo-noir";
    assert OccursAt(lower, "noir", 4);
    IncludesIffOccurs(lower, "noir");
  }

  // ---------------------------------------------------------------------------------------
  // The counts

  /** `analysis`: the parsed text when `analysis_data` is a string (`{}` when it does not
      parse), else the value itself or `{}` when it is falsy. */
  function AnalysisOf(item: HistoryItem): Value
  {
    match item.analysisData
    case Some(Str(text)) =>
      (match Parse(text)
       case Some(v) => v
       case None => Obj([]))
    case other => OrElse(other, Obj([]))
  }

  /** `v?.length`: arrays and strings have a length; for an object it is its `length` member. */
  function LengthOf(v: Option<Value>): Option<Value>
  {
    match v
    case Some(Arr(items)) => Some(Num(|items|))
    case Some(Str(s)) => Some(Num(Utf16Length(s)))
    case Some(Obj(ms)) => LastWith(ms, "length")
    case _ => None
  }

  /** `analysis?.[key]?.length || 0`. */
  function CountOf(item: HistoryItem, key: string): Value
  {
    OrElse(LengthOf(Field(Some(AnalysisOf(item)), key)), Num(0))
  }

  /** The count is the array's length when the analysis holds one under `key`, and 0 when the
      record has no analysis, its text does not parse, or the key is missing. */
  lemma CountDefaults(item: HistoryItem, key: string)
    ensures Field(Some(AnalysisOf(item)), key).Some? && Field(Some(AnalysisOf(item)), key).value.Arr? ==>
      CountOf(item, key) == Num(|Field(Some(AnalysisOf(item)), key).value.items|)
    ensures item.analysisData.None? || item.analysisData == Some(Null) ==> CountOf(item, key) == Num(0)
    ensures item.analysisData.Some? && item.analysisData.value.Str? && Parse(item.analysisData.value.s).None? ==>
      CountOf(item, key) == Num(0)
    ensures Field(Some(AnalysisOf(item)), key).None? ==> CountOf(item, key) == Num(0)
  {
  }

  /** Against the server's handler: a record of a stored analysis shows as many characters
      and locations as the analysis has, and a record whose text is the serialised result
      shows the same counts. */
  lemma ServerRecordCounts(row: ServerStore.AnalysisRow, r: ServerStore.AnalysisResult)
    requires row.analysisData == ServerStore.ResultJson(r)
    ensures CountOf(ItemOf(row), "characters") == Num(|r.characters|)
    ensures CountOf(ItemOf(row), "locations") == Num(|r.locations|)
    ensures var textual := ItemOf(row).(analysisData := Some(Str(Serialize(row.analysisData))));
      CountOf(textual, "characters") == Num(|r.characters|) && CountOf(textual, "locations") == Num(|r.locations|)
  {
    var textual := ItemOf(row).(analysisData := Some(Str(Serialize(row.analysisData))));
    RoundTrip(row.analysisData);
    assert AnalysisOf(textual) == row.analysisData;
    ResultCounts(ItemOf(row), r);
    ResultCounts(textual, r);
  }

  /** A record whose analysis is the result document shows the result's counts. */
  lemma ResultCounts(item: HistoryItem, r: ServerStore.AnalysisResult)
    requires AnalysisOf(item) == ServerStore.ResultJson(r)
    ensures CountOf(item, "characters") == Num(|r.characters|)
    ensures CountOf(item, "locations") == Num(|r.locations|)
  {
    var ms := ServerStore.ResultMembers(r);
    LastWithAt(ms, 0, "characters");
    LastWithAt(ms, 1, "locations");
  }

  // ---------------------------------------------------------------------------------------
  // The screen's state

  /** How the fetch settles: the answer's `history` member (`None` when it is missing), or
      the error the API client throws. */
  datatype HistoryCall =
    | Resolved(history: Option<seq<HistoryItem>>)
    | Failed

  class HistoryPanel {
    var history: seq<HistoryItem>
    var loading: bool
    var filter: string

    constructor ()
      ensures history == [] && loading && filter == ""
    {
      history, loading, filter := [], true, "";
    }

    /** The records on screen. */
    function Shown(): seq<HistoryItem>
      reads this
    {
      FilterHistory(filter, history)
    }

    method SetFilter(text: string)
      modifies this
      ensures filter == text && history == old(history) && loading == old(loading)
    {
      filter := text;
    }

    /** `fetchHistory` up to the request; the result is the `userId` the query carries. */
    method BeginFetch(user: Option<Value>) returns (userId: string)
      modifies this
      ensures loading && history == old(history) && filter == old(filter)
      ensures userId == AppSession.UserIdText(user)
    {
      loading := true;
      userId := AppSession.UserIdText(user);
    }

    /** `fetchHistory` after the request: the answer's records, `[]` when it has none, and no
        change on an error; loading is over either way. */
    method FinishFetch(call: HistoryCall)
      modifies this
      ensures !loading && filter == old(filter)
      ensures call.Resolved? ==> history == (if call.history.Some? then call.history.value else [])
      ensures call.Failed? ==> history == old(history)
    {
      if call.Resolved? {
        history := if call.history.Some? then call.history.value else [];
      }
      loading := false;
    }
  }
}
