/** The scene intent engine (src/components/SceneIntentEngine.jsx): a quality gate on the
    pasted snippet, then one request whose answer is mapped onto the displayed intent with a
    default for every missing field. `analyzeIntent` suspends at the request, so it is two
    methods here: `Submit` up to the request and `Settle` after it. */
module SceneIntent {
  import opened Text
  import opened Json
  import ServerStore

  const IncompleteSignature :=
    "Incomplete Scene Signature. Narrative DNA extraction requires scene headings (INT./EXT.) or substantial descriptive beats."
  const SynthesisFailed := "Brain Synthesis Failed: Narrative DNA Corruption."

  /** What the gate does with a snippet. */
  datatype Gate =
    | Ignore   // blank: nothing happens
    | Reject   // too thin: the fixed error is shown
    | Send     // the request is made

  /** Short (fewer than 50 UTF-16 units, untrimmed) and without a scene heading; the
      headings are matched case-sensitively. */
  predicate TooThin(snippet: string)
  {
    Utf16Length(snippet) < 50 && !Includes(snippet, "INT.") && !Includes(snippet, "EXT.")
  }

  function GateOf(snippet: string): (g: Gate)
    ensures g == Ignore <==> IsBlank(snippet)
    ensures g == Reject <==> !IsBlank(snippet) && TooThin(snippet)
    ensures g == Send <==> !IsBlank(snippet) && !TooThin(snippet)
  {
    if IsBlank(snippet) then Ignore
    else if TooThin(snippet) then Reject
    else Send
  }

  /** A snippet that opens with a scene heading is always sent, however short. */
  lemma HeadingIsSent(rest: string)
    ensures GateOf("INT." + rest) == Send
    ensures GateOf("EXT." + rest) == Send
  {
    var i := "INT." + rest;
    var e := "EXT." + rest;
    assert IsPrefix("INT.", i) && IsPrefix("EXT.", e);
    assert !IsJsWhitespace(i[0]) && !IsJsWhitespace(e[0]);
  }

  /** A heading anywhere in the snippet lets it through, provided it is not blank. */
  lemma HeadingAnywhereIsSent(snippet: string, k: int)
    requires OccursAt(snippet, "INT.", k) || OccursAt(snippet, "EXT.", k)
    ensures GateOf(snippet) == Send
  {
    IncludesIffOccurs(snippet, "INT.");
    IncludesIffOccurs(snippet, "EXT.");
    if OccursAt(snippet, "INT.", k) {
      assert snippet[k] == snippet[k..k + 4][0] == 'I';
    } else {
      assert snippet[k] == snippet[k..k + 4][0] == 'E';
    }
  }

  /** Fifty or more characters that are not all whitespace are always sent. */
  lemma LongSnippetIsSent(snippet: string)
    requires |snippet| >= 50 && !IsBlank(snippet)
    ensures GateOf(snippet) == Send
  {
  }

  /** One soundscape entry of the displayed intent. */
  datatype Sound = Sound(sound: Value, frequency: string, kind: string)

  /** The displayed intent: the three mapped fields and the soundscape. */
  datatype Intent = Intent(mood: Value, subtext: Value, visualTone: Value, soundscape: seq<Sound>)

  /** The mapping of an answer `data`; reading a field of `null` throws, which ends in the
      failure branch (`None`). */
  function MapIntent(data: Value): (r: Option<Intent>)
    ensures r.Some? <==> data != Null
    ensures r.Some? ==> |r.value.soundscape| == 2 && r.value.soundscape[1] == Sound(Str("Distant Subway Screech"), "High", "Environment")
  {
    if data.Null? then None
    else
      var d := Some(data);
      Some(Intent(
        OrElse(Field(d, "mood"), Str("Melancholic & Tense")),
        OrElse(Field(d, "subtext"), Str("Calculated movements detected.")),
        OrElse(Field(d, "visualTone"), Str("Low-key, high contrast.")),
        [ Sound(OrElse(Field(d, "soundscape"), Str("Low Frequency Hum")), "20Hz", "Psychological"),
          Sound(Str("Distant Subway Screech"), "High", "Environment") ]))
  }

  /** A field of the answer is shown when it is truthy; otherwise its default is. */
  lemma MappedFieldsOrDefaults(data: Value)
    requires data != Null
    ensures var i := MapIntent(data).value;
      && (Truthy(Field(Some(data), "mood")) ==> Some(i.mood) == Field(Some(data), "mood"))
      && (!Truthy(Field(Some(data), "mood")) ==> i.mood == Str("Melancholic & Tense"))
      && (Truthy(Field(Some(data), "subtext")) ==> Some(i.subtext) == Field(Some(data), "subtext"))
      && (!Truthy(Field(Some(data), "subtext")) ==> i.subtext == Str("Calculated movements detected."))
      && (Truthy(Field(Some(data), "visualTone")) ==> Some(i.visualTone) == Field(Some(data), "visualTone"))
      && (!Truthy(Field(Some(data), "visualTone")) ==> i.visualTone == Str("Low-key, high contrast."))
      && (Truthy(Field(Some(data), "soundscape")) ==> Some(i.soundscape[0].sound) == Field(Some(data), "soundscape"))
      && (!Truthy(Field(Some(data), "soundscape")) ==> i.soundscape[0].sound == Str("Low Frequency Hum"))
  {
  }

  /** Against the server's fallback answer: its mood, visual tone and soundscape are shown,
      and since it has no `subtext` the subtext default is. */
  lemma FallbackAnswerDisplay()
    ensures var i := MapIntent(ServerStore.IntentFallback).value;
      && i.mood == Str("Noir")
      && i.subtext == Str("Calculated movements detected.")
      && i.visualTone == Str("Cyberpunk Aesthetic")
      && i.soundscape[0].sound == Str("Rhythmic, Industrial")
  {
    var ms := ServerStore.IntentFallback.members;
    ServerStore.FallbackHasNoSubtext();
    assert "visualTone"[0] != "soundscape"[0];
    LastWithAt(ms, 2, "visualTone");
  }

  /** How the request settles: the parsed answer, or the error the API client throws. */
  datatype IntentCall =
    | Resolved(data: Value)
    | Failed

  class IntentEngine {
    var snippet: string
    var isAnalyzing: bool
    var intentData: Option<Intent>
    var analysisError: Option<string>

    constructor ()
      ensures snippet == "" && !isAnalyzing && intentData.None? && analysisError.None?
    {
      snippet, isAnalyzing, intentData, analysisError := "", false, None, None;
    }

    /** Typing into the snippet area. */
    method SetSnippet(text: string)
      modifies this
      ensures snippet == text
      ensures isAnalyzing == old(isAnalyzing) && intentData == old(intentData) && analysisError == old(analysisError)
    {
      snippet := text;
    }

    /** `analyzeIntent` up to the request; `sent` says whether the request is made. */
    method Submit() returns (sent: bool)
      modifies this
      ensures sent <==> GateOf(snippet) == Send
      ensures snippet == old(snippet)
      ensures GateOf(snippet) == Ignore ==>
        isAnalyzing == old(isAnalyzing) && intentData == old(intentData) && analysisError == old(analysisError)
      ensures GateOf(snippet) == Reject ==>
        isAnalyzing == old(isAnalyzing) && intentData.None? && analysisError == Some(IncompleteSignature)
      ensures GateOf(snippet) == Send ==> isAnalyzing && intentData.None? && analysisError.None?
    {
      var gate := GateOf(snippet);
      if gate == Ignore {
        return false;
      }
      if gate == Reject {
        analysisError := Some(IncompleteSignature);
        intentData := None;
        return false;
      }
      isAnalyzing := true;
      analysisError := None;
      intentData := None;
      sent := true;
    }

    /** `analyzeIntent` after the request: the mapped answer on success, the fixed error on
        failure, and in both cases the analysis is over. */
    method Settle(call: IntentCall)
      modifies this
      ensures !isAnalyzing && snippet == old(snippet)
      ensures call.Resolved? && call.data != Null ==>
        intentData == MapIntent(call.data) && analysisError == old(analysisError)
      ensures call.Failed? || call.data == Null ==>
        intentData == old(intentData) && analysisError == Some(SynthesisFailed)
    {
      if call.Resolved? && call.data != Null {
        intentData := MapIntent(call.data);
      } else {
        analysisError := Some(SynthesisFailed);
      }
      isAnalyzing := false;
    }
  }
}
