/** Script upload and analysis (src/components/ScriptAnalysis.jsx): which files start an
    analysis, what the request carries, and how the server's answer becomes the displayed
    result. `startAnalysis` suspends at the request, so it is `StartAnalysis` up to the request
    and `FinishAnalysis` after it. */
module ScriptUpload {
  import opened Text
  import opened Json
  import ServerStore
  import AppSession

  /** A browser `File`: its name and its MIME type. */
  datatype File = File(name: string, mimeType: string)

  const InvalidFileAlert := "Please upload a valid script file (.pdf, .txt, .fdx)"

  /** The drop zone's test; the name endings are matched case-sensitively. */
  predicate AcceptsDrop(file: Option<File>)
  {
    file.Some? &&
    (file.value.mimeType == "application/pdf" || EndsWith(file.value.name, ".txt") || EndsWith(file.value.name, ".fdx"))
  }

  /** One entry of the displayed cast list. */
  datatype CastEntry = CastEntry(name: Option<Value>, scenes: int, sentiment: string, casting: Option<Value>)

  /** One entry of the displayed location list. */
  datatype LocationEntry = LocationEntry(name: Option<Value>, kind: string, time: string)

  /** A row of the risk table; the first has a cost, the second a detail. */
  datatype RiskEntry = RiskEntry(task: string, risk: string, cost: Option<string>, detail: Option<string>)

  datatype AnalysisView = AnalysisView(
    scenes: int, duration: string, tone: string,
    characters: seq<CastEntry>, locations: seq<LocationEntry>, risks: seq<RiskEntry>,
    narrativeFlow: seq<int>, castingNotes: Option<Value>)

  function CastEntryOf(c: Value): CastEntry
  {
    CastEntry(Field(Some(c), "name"), 18, "Conflicted", Field(Some(c), "casting"))
  }

  /** `data.characters.map(...)`: reading `name` of a `null` element throws. */
  function MapCast(items: seq<Value>): (r: Option<seq<CastEntry>>)
    ensures r.Some? <==> forall i :: 0 <= i < |items| ==> items[i] != Null
    ensures r.Some? ==> |r.value| == |items| && forall i :: 0 <= i < |items| ==> r.value[i] == CastEntryOf(items[i])
  {
    if items == [] then Some([])
    else if items[0] == Null then None
    else match MapCast(items[1..])
      case None => None
      case Some(rest) => Some([CastEntryOf(items[0])] + rest)
  }

  function LocationEntryOf(l: Value): LocationEntry
  {
    LocationEntry(Field(Some(l), "name"), "Interior", "Night")
  }

  /** `data.locations.map(...)`, likewise. */
  function MapLocations(items: seq<Value>): (r: Option<seq<LocationEntry>>)
    ensures r.Some? <==> forall i :: 0 <= i < |items| ==> items[i] != Null
    ensures r.Some? ==> |r.value| == |items| && forall i :: 0 <= i < |items| ==> r.value[i] == LocationEntryOf(items[i])
  {
    if items == [] then Some([])
    else if items[0] == Null then None
    else match MapLocations(items[1..])
      case None => None
      case Some(rest) => Some([LocationEntryOf(items[0])] + rest)
  }

  /** The risk table for the answer's `riskScore`, converted as a template literal does. */
  function RisksFor(riskScore: Option<Value>): seq<RiskEntry>
  {
    [ RiskEntry("AI Analysis Complete", "Safe", Some("$"), None),
      RiskEntry("Production Risk", "Medium", None, Some("Base Risk: " + TemplateText(riskScore) + "%")) ]
  }

  const NarrativeFlow: seq<int> := [30, 45, 25, 60, 85, 40, 55, 95, 20, 50, 75, 90]

  /** The mapping in `startAnalysis`; `None` when it throws: the answer is `null`, its
      `characters` or `locations` is not an array, or an element is `null`. */
  function MapResult(data: Value): Option<AnalysisView>
  {
    var d := Some(data);
    match (Field(d, "characters"), Field(d, "locations"))
    case (Some(Arr(cs)), Some(Arr(ls))) =>
      (match (MapCast(cs), MapLocations(ls))
       case (Some(cast), Some(places)) =>
         Some(AnalysisView(24, "112 mins", "Neo-Noir / Psychological Thriller", cast, places,
                           RisksFor(Field(d, "riskScore")), NarrativeFlow, Field(d, "castingNotes")))
       case _ => None)
    case _ => None
  }

  /** The displayed result keeps one cast entry per answer character, in order, with its name
      and casting, and one location entry per answer location; the risk detail quotes the
      answer's `riskScore`. */
  lemma MapResultShape(data: Value)
    requires MapResult(data).Some?
    ensures var v := MapResult(data).value;
      && Field(Some(data), "characters").Some? && Field(Some(data), "characters").value.Arr?
      && Field(Some(data), "locations").Some? && Field(Some(data), "locations").value.Arr?
      && var cs := Field(Some(data), "characters").value.items;
         var ls := Field(Some(data), "locations").value.items;
         && |v.characters| == |cs|
         && (forall i :: 0 <= i < |cs| ==>
               v.characters[i].name == Field(Some(cs[i]), "name") && v.characters[i].casting == Field(Some(cs[i]), "casting")
               && v.characters[i].scenes == 18 && v.characters[i].sentiment == "Conflicted")
         && |v.locations| == |ls|
         && (forall i :: 0 <= i < |ls| ==>
               v.locations[i].name == Field(Some(ls[i]), "name") && v.locations[i].kind == "Interior" && v.locations[i].time == "Night")
         && v.risks[1].detail == Some("Base Risk: " + TemplateText(Field(Some(data), "riskScore")) + "%")
  {
  }

  /** The members of the server's reply that the mapping reads. */
  lemma ServerBodyFields(r: ServerStore.AnalysisResult, msg: string)
    ensures var body := Some(ServerStore.AnalyzeBody(ServerStore.AnalyzeOk(r, msg)));
      && Field(body, "characters") == Some(Arr(ServerStore.CharactersJson(r.characters)))
      && Field(body, "locations") == Some(Arr(ServerStore.LocationsJson(r.locations)))
      && Field(body, "riskScore") == Some(Num(r.riskScore))
      && Field(body, "castingNotes") == Some(Str(r.castingNotes))
  {
    var ms := ServerStore.ResultMembers(r);
    ServerStore.ReplySpreadsResult(r, msg);
    assert "locations"[0] != "riskScore"[0];
    LastWithAt(ms, 0, "characters");
    LastWithAt(ms, 1, "locations");
    LastWithAt(ms, 2, "riskScore");
    LastWithAt(ms, 3, "castingNotes");
  }

  /** The server's characters map to cast entries with their names and castings, in order. */
  lemma ServerCast(cs: seq<ServerStore.CharacterProfile>)
    ensures var m := MapCast(ServerStore.CharactersJson(cs));
      && m.Some? && |m.value| == |cs|
      && forall i :: 0 <= i < |cs| ==> m.value[i].name == Some(Str(cs[i].name)) && m.value[i].casting == Some(Str(cs[i].casting))
  {
    var items := ServerStore.CharactersJson(cs);
    forall i | 0 <= i < |cs|
      ensures items[i] != Null
      ensures Field(Some(items[i]), "name") == Some(Str(cs[i].name))
      ensures Field(Some(items[i]), "casting") == Some(Str(cs[i].casting))
    {
      var cm := ServerStore.CharacterJson(cs[i]).members;
      LastWithAt(cm, 0, "name");
      LastWithAt(cm, 3, "casting");
    }
  }

  lemma ServerLocations(ls: seq<ServerStore.LocationProfile>)
    ensures var m := MapLocations(ServerStore.LocationsJson(ls));
      && m.Some? && |m.value| == |ls|
      && forall i :: 0 <= i < |ls| ==> m.value[i].name == Some(Str(ls[i].name))
  {
    var items := ServerStore.LocationsJson(ls);
    forall i | 0 <= i < |ls|
      ensures items[i] != Null
      ensures Field(Some(items[i]), "name") == Some(Str(ls[i].name))
    {
      LastWithAt(ServerStore.LocationJson(ls[i]).members, 0, "name");
    }
  }

  /** Against the server's handler: its reply body maps without error, the cast is the
      server's characters by name and casting in the same order, and the detail quotes the
      server's risk score. */
  lemma ServerReplyDisplays(r: ServerStore.AnalysisResult, msg: string)
    ensures var v := MapResult(ServerStore.AnalyzeBody(ServerStore.AnalyzeOk(r, msg)));
      && v.Some?
      && |v.value.characters| == |r.characters|
      && (forall i :: 0 <= i < |r.characters| ==>
            v.value.characters[i].name == Some(Str(r.characters[i].name)) &&
            v.value.characters[i].casting == Some(Str(r.characters[i].casting)))
      && |v.value.locations| == |r.locations|
      && (forall i :: 0 <= i < |r.locations| ==> v.value.locations[i].name == Some(Str(r.locations[i].name)))
      && v.value.risks[1].detail == Some("Base Risk: " + SerializeNumber(r.riskScore) + "%")
      && v.value.castingNotes == Some(Str(r.castingNotes))
  {
    ServerBodyFields(r, msg);
    ServerCast(r.characters);
    ServerLocations(r.locations);
  }

  /** A request the component makes: the file and the `userId` form field. */
  datatype Request = Request(file: File, userId: string)

  /** How the request settles: the parsed answer, or the error the API client throws. */
  datatype AnalyzeCall =
    | Resolved(data: Value)
    | Failed

  class ScriptPanel {
    var analyzing: bool
    var result: Option<AnalysisView>
    var isDragging: bool
    var fileName: Option<string>

    constructor ()
      ensures !analyzing && result.None? && !isDragging && fileName.None?
    {
      analyzing, result, isDragging, fileName := false, None, false, None;
    }

    /** `startAnalysis(file)` up to the request, for the signed-in `user`. */
    method StartAnalysis(file: Option<File>, user: Option<Value>) returns (request: Option<Request>)
      modifies this
      ensures file.None? ==> request.None? && analyzing == old(analyzing) && result == old(result) && fileName == old(fileName)
      ensures file.Some? ==> request == Some(Request(file.value, AppSession.UserIdText(user)))
      ensures file.Some? ==> fileName == Some(file.value.name) && analyzing && result.None?
      ensures isDragging == old(isDragging)
    {
      if file.None? {
        return None;
      }
      fileName := Some(file.value.name);
      analyzing := true;
      result := None;
      request := Some(Request(file.value, AppSession.UserIdText(user)));
    }

    /** `startAnalysis` after the request: the mapped answer, or no change when the call or
        the mapping throws; the analysis is over either way. */
    method FinishAnalysis(call: AnalyzeCall)
      modifies this
      ensures !analyzing && fileName == old(fileName) && isDragging == old(isDragging)
      ensures call.Resolved? && MapResult(call.data).Some? ==> result == MapResult(call.data)
      ensures call.Failed? || MapResult(call.data).None? ==> result == old(result)
    {
      if call.Resolved? {
        var mapped := MapResult(call.data);
        if mapped.Some? {
          result := mapped;
        }
      }
      analyzing := false;
    }

    method OnDragOver()
      modifies this
      ensures isDragging && analyzing == old(analyzing) && result == old(result) && fileName == old(fileName)
    {
      isDragging := true;
    }

    method OnDragLeave()
      modifies this
      ensures !isDragging && analyzing == old(analyzing) && result == old(result) && fileName == old(fileName)
    {
      isDragging := false;
    }

    /** `onDrop`: an accepted file starts an analysis; anything else raises the alert and
        starts nothing. */
    method OnDrop(file: Option<File>, user: Option<Value>) returns (alert: Option<string>, request: Option<Request>)
      modifies this
      ensures !isDragging
      ensures AcceptsDrop(file) ==> alert.None? && request == Some(Request(file.value, AppSession.UserIdText(user)))
      ensures AcceptsDrop(file) ==> fileName == Some(file.value.name) && analyzing && result.None?
      ensures !AcceptsDrop(file) ==> alert == Some(InvalidFileAlert) && request.None?
      ensures !AcceptsDrop(file) ==> analyzing == old(analyzing) && result == old(result) && fileName == old(fileName)
    {
      isDragging := false;
      if AcceptsDrop(file) {
        alert := None;
        request := StartAnalysis(file, user);
      } else {
        alert := Some(InvalidFileAlert);
        request := None;
      }
    }

    /** `onFileSelect`: any chosen file starts an analysis, whatever its type. */
    method OnFileSelect(file: Option<File>, user: Option<Value>) returns (request: Option<Request>)
      modifies this
      ensures request == (if file.Some? then Some(Request(file.value, AppSession.UserIdText(user))) else None)
      ensures file.Some? ==> fileName == Some(file.value.name) && analyzing && result.None?
      ensures file.None? ==> analyzing == old(analyzing) && result == old(result) && fileName == old(fileName)
      ensures isDragging == old(isDragging)
    {
      request := StartAnalysis(file, user);
    }
  }

  /** The drop test goes by the MIME type or a lower-case extension: an upper-case `.TXT` and a
      Word file are refused, an `.fdx` file of unknown type is accepted. */
  lemma DropTestExamples()
    ensures !AcceptsDrop(Some(File("notes.docx", "application/msword")))
    ensures !AcceptsDrop(Some(File("SCRIPT.TXT", "text/plain")))
    ensures AcceptsDrop(Some(File("draft.fdx", "")))
  {
    assert "notes.docx"[6..] != ".txt" && "notes.docx"[6..] != ".fdx";
    assert "SCRIPT.TXT"[6..] != ".txt" && "SCRIPT.TXT"[6..] != ".fdx";
    assert "draft.fdx"[5..] == ".fdx";
  }
}
