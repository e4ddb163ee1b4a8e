/** The video sentiment tracker (src/components/SentimentAnalysis.jsx): an upload starts a
    progress interval that runs to 100, and while the video plays a second interval detects
    which characters are on screen and keeps a bounded history of sentiment readings. Each
    interval callback is one method call here; the random numbers each callback draws are its
    parameters. */
module Sentiment {
  import opened Text

  datatype Character = Character(id: int, name: string, color: string)

  const Protagonist := Character(1, "Protagonist", "#c084fc")
  const Antagonist := Character(2, "Antagonist", "#fb7185")
  const Mentor := Character(3, "Mentor", "#2dd4bf")
  const MockCharacters: seq<Character> := [Protagonist, Antagonist, Mentor]

  datatype Emotion = Emotion(name: string, color: string)

  const Emotions: seq<Emotion> := [
    Emotion("Joy", "#2dd4bf"), Emotion("Sadness", "#6366f1"),
    Emotion("Anger", "#f43f5e"), Emotion("Neutral", "#a1a1aa")
  ]

  /** A detected character with the emotion drawn for it. */
  datatype ActiveCharacter = ActiveCharacter(character: Character, emotion: Emotion)

  /** One history reading: the playback time, the drawn sentiment and the first active
      character's name. */
  datatype Reading = Reading(time: real, sentiment: real, name: string)

  // ---------------------------------------------------------------------------------------
  // Detection

  /** The characters on screen at playback time `t`, in the order they are checked. */
  function ActiveAt(t: real): (r: seq<Character>)
    ensures |r| <= 3
    ensures Protagonist in r <==> 2.0 < t < 8.0
    ensures Antagonist in r <==> 5.0 < t < 12.0
    ensures Mentor in r <==> 10.0 < t < 18.0
    ensures forall i, j :: 0 <= i < j < |r| ==> r[i].id < r[j].id
    ensures forall c :: c in r ==> c in MockCharacters
  {
    (if 2.0 < t < 8.0 then [Protagonist] else []) +
    (if 5.0 < t < 12.0 then [Antagonist] else []) +
    (if 10.0 < t < 18.0 then [Mentor] else [])
  }

  /** Between 5 and 8 seconds the Protagonist and the Antagonist are both on screen, the
      Protagonist first; between 10 and 12 the Antagonist comes before the Mentor. */
  lemma OverlapsKeepOrder(t: real)
    ensures 5.0 < t < 8.0 ==> ActiveAt(t) == [Protagonist, Antagonist]
    ensures 10.0 < t < 12.0 ==> ActiveAt(t) == [Antagonist, Mentor]
    ensures t <= 2.0 || t >= 18.0 ==> ActiveAt(t) == []
  {
  }

  /** The tick's detection, pushing one entry per character on screen; the `k`-th push draws
      `picks[k]` (`Math.floor(Math.random() * emotions.length)`). */
  method Detect(time: real, picks: seq<nat>) returns (active: seq<ActiveCharacter>)
    requires |picks| == 3 && forall k :: 0 <= k < 3 ==> picks[k] < |Emotions|
    ensures |active| == |ActiveAt(time)|
    ensures forall k :: 0 <= k < |active| ==> active[k] == ActiveCharacter(ActiveAt(time)[k], Emotions[picks[k]])
  {
    active := [];
    if 2.0 < time < 8.0 {
      active := active + [ActiveCharacter(MockCharacters[0], Emotions[picks[|active|]])];
    }
    if 5.0 < time < 12.0 {
      active := active + [ActiveCharacter(MockCharacters[1], Emotions[picks[|active|]])];
    }
    if 10.0 < time < 18.0 {
      active := active + [ActiveCharacter(MockCharacters[2], Emotions[picks[|active|]])];
    }
  }

  // ---------------------------------------------------------------------------------------
  // The bounded history

  /** The last `n` elements of `s` (all of them when there are fewer). */
  function LastN<T>(s: seq<T>, n: nat): (r: seq<T>)
    ensures |r| == if |s| < n then |s| else n
  {
    if |s| <= n then s else s[|s| - n..]
  }

  /** `[...prev.slice(-15), reading]`. */
  function NextHistory(prev: seq<Reading>, reading: Reading): (r: seq<Reading>)
    ensures 1 <= |r| <= 16 && r[|r| - 1] == reading
  {
    LastN(prev, 15) + [reading]
  }

  /** The history after a series of readings, one tick at a time. */
  function AfterReadings(prev: seq<Reading>, readings: seq<Reading>): seq<Reading>
    decreases |readings|
  {
    if readings == [] then prev else AfterReadings(NextHistory(prev, readings[0]), readings[1..])
  }

  /** Only the last `n` elements count: a front part of at most the rest is dropped. */
  lemma LastNOfSuffix<T>(p: seq<T>, q: seq<T>, n: nat)
    requires |q| >= n
    ensures LastN(p + q, n) == LastN(q, n)
  {
    var pq := p + q;
    if |pq| > n {
      assert pq[|pq| - n..] == q[|q| - n..];
    }
  }

  lemma LastNOfLastN<T>(s: seq<T>, t: seq<T>, n: nat)
    ensures LastN(LastN(s, n) + t, n) == LastN(s + t, n)
  {
    if |s| > n {
      var front := s[..|s| - n];
      var back := s[|s| - n..];
      assert LastN(s, n) == back;
      assert s == front + back;
      assert s + t == front + (back + t);
      LastNOfSuffix(front, back + t, n);
    } else {
      assert LastN(s, n) == s;
    }
  }

  /** One more element, one more kept: `[...s.slice(-n), x]` is the last `n + 1` of `s + [x]`. */
  lemma LastNSnoc<T>(s: seq<T>, x: T, n: nat)
    ensures LastN(s + [x], n + 1) == LastN(s, n) + [x]
  {
    if |s| > n {
      var sx := s + [x];
      assert sx[|sx| - (n + 1)..] == s[|s| - n..] + [x];
    }
  }

  /** Whatever the readings, the history is the last 16 of everything read, once there has
      been at least one reading: older readings fall off the front one by one. */
  lemma {:induction false} HistoryIsLastSixteen(prev: seq<Reading>, readings: seq<Reading>)
    requires readings != []
    ensures AfterReadings(prev, readings) == LastN(prev + readings, 16)
    decreases |readings|
  {
    var e := readings[0];
    var rest := readings[1..];
    var pe := prev + [e];
    var next := NextHistory(prev, e);
    LastNSnoc(prev, e, 15);
    assert next == LastN(pe, 16);
    assert readings == [e] + rest;
    assert prev + readings == pe + rest;
    if rest != [] {
      HistoryIsLastSixteen(next, rest);
      LastNOfLastN(pe, rest, 16);
    }
  }

  // ---------------------------------------------------------------------------------------
  // The progress interval

  /** The progress values the interval sets, started from `p`, for the increments it draws
      (`Math.random() * 15`): it stops, at 100, on the first value that reaches 100. */
  function ProgressFrom(p: real, incs: seq<real>): seq<real>
    decreases |incs|
  {
    if incs == [] then []
    else if p + incs[0] >= 100.0 then [100.0]
    else [p + incs[0]] + ProgressFrom(p + incs[0], incs[1..])
  }

  predicate NonNegative(incs: seq<real>)
  {
    forall k :: 0 <= k < |incs| ==> incs[k] >= 0.0
  }

  lemma NonNegativeTail(incs: seq<real>)
    requires incs != [] && NonNegative(incs)
    ensures NonNegative(incs[1..])
  {
    forall k | 0 <= k < |incs| - 1 ensures incs[1..][k] >= 0.0 {
      assert incs[1..][k] == incs[k + 1];
    }
  }

  /** Every value lies between `lo` and 100. */
  predicate Between(tr: seq<real>, lo: real)
  {
    forall i :: 0 <= i < |tr| ==> lo <= tr[i] <= 100.0
  }

  /** Every value before the last is below 100. */
  predicate BelowUntilLast(tr: seq<real>)
  {
    forall i :: 0 <= i < |tr| - 1 ==> tr[i] < 100.0
  }

  /** Progress stays between its start and 100, is below 100 until its last value, and either
      uses every increment or ends at 100. */
  lemma {:induction false} ProgressBounded(p: real, incs: seq<real>)
    requires 0.0 <= p < 100.0 && NonNegative(incs)
    ensures var tr := ProgressFrom(p, incs);
      && |tr| <= |incs|
      && Between(tr, p)
      && BelowUntilLast(tr)
      && (|tr| == |incs| || tr[|tr| - 1] == 100.0)
    decreases |incs|
  {
    if incs != [] && p + incs[0] < 100.0 {
      var q := p + incs[0];
      NonNegativeTail(incs);
      ProgressBounded(q, incs[1..]);
      var tail := ProgressFrom(q, incs[1..]);
      var tr := ProgressFrom(p, incs);
      assert tr == [q] + tail;
      forall i | 0 <= i < |tr| ensures p <= tr[i] <= 100.0 {
        if i > 0 {
          assert tr[i] == tail[i - 1];
        }
      }
      forall i | 0 <= i < |tr| - 1 ensures tr[i] < 100.0 {
        if i > 0 {
          assert tr[i] == tail[i - 1];
        }
      }
    }
  }

  /** Progress never decreases. */
  lemma {:induction false} ProgressMonotone(p: real, incs: seq<real>)
    requires 0.0 <= p < 100.0 && NonNegative(incs)
    ensures var tr := ProgressFrom(p, incs);
      forall i, j :: 0 <= i < j < |tr| ==> tr[i] <= tr[j]
    decreases |incs|
  {
    if incs != [] && p + incs[0] < 100.0 {
      var q := p + incs[0];
      NonNegativeTail(incs);
      ProgressMonotone(q, incs[1..]);
      ProgressBounded(q, incs[1..]);
      var tail := ProgressFrom(q, incs[1..]);
      var tr := ProgressFrom(p, incs);
      assert tr == [q] + tail;
      forall i, j | 0 <= i < j < |tr| ensures tr[i] <= tr[j] {
        assert tr[j] == tail[j - 1];
        if i > 0 {
          assert tr[i] == tail[i - 1];
        }
      }
    }
  }

  /** The interval reaches 100 exactly when it stops; until then it keeps running. */
  lemma {:induction false} ProgressStopsAtHundred(p: real, incs: seq<real>)
    requires 0.0 <= p < 100.0 && NonNegative(incs)
    ensures var tr := ProgressFrom(p, incs);
      100.0 in tr <==> tr != [] && tr[|tr| - 1] == 100.0
  {
    ProgressBounded(p, incs);
  }

  // ---------------------------------------------------------------------------------------
  // The screen's state

  class SentimentPanel {
    var videoUrl: Option<string>
    var isAnalyzing: bool
    var progress: real
    var isPlaying: bool
    var currentTime: real
    var activeCharacters: seq<ActiveCharacter>
    var sentimentHistory: seq<Reading>
    /** The running progress interval's accumulated `p`; `None` once it is cleared. */
    var ticker: Option<real>

    ghost predicate Valid()
      reads this
    {
      && |sentimentHistory| <= 16
      && 0.0 <= progress <= 100.0
      && (isAnalyzing <==> ticker.Some?)
      && (ticker.Some? ==> 0.0 <= ticker.value < 100.0)
    }

    /** The `<video>` element exists only in the last branch of the player's rendering: a
        video is loaded and its analysis is over. */
    predicate HasVideo()
      reads this
    {
      videoUrl.Some? && !isAnalyzing
    }

    constructor ()
      ensures Valid()
      ensures videoUrl.None? && !isAnalyzing && progress == 0.0 && !isPlaying && currentTime == 0.0
      ensures activeCharacters == [] && sentimentHistory == [] && ticker.None?
    {
      videoUrl, isAnalyzing, progress, isPlaying, currentTime := None, false, 0.0, false, 0.0;
      activeCharacters, sentimentHistory, ticker := [], [], None;
    }

    /** `handleFileUpload` with the object URL made for the chosen file (`None` when no file
        was chosen): the video is set and `startAnalysis` starts the interval from 0. */
    method UploadVideo(url: Option<string>)
      requires Valid()
      modifies this
      ensures Valid()
      ensures url.None? ==> videoUrl == old(videoUrl) && isAnalyzing == old(isAnalyzing) && ticker == old(ticker)
      ensures url.Some? ==> videoUrl == url && isAnalyzing && ticker == Some(0.0)
      ensures progress == old(progress) && isPlaying == old(isPlaying) && sentimentHistory == old(sentimentHistory)
      ensures activeCharacters == old(activeCharacters) && currentTime == old(currentTime)
    {
      if url.Some? {
        videoUrl := url;
        isAnalyzing := true;
        ticker := Some(0.0);
      }
    }

    /** One callback of the progress interval, drawing the increment `inc`; a cleared
        interval makes no more callbacks. */
    method AdvanceProgress(inc: real)
      requires Valid() && 0.0 <= inc < 15.0
      modifies this
      ensures Valid()
      ensures old(ticker).None? ==> ticker.None? && progress == old(progress) && isAnalyzing == old(isAnalyzing)
      ensures old(ticker).Some? ==> [progress] == ProgressFrom(old(ticker).value, [inc])
      ensures old(ticker).Some? ==> progress >= old(ticker).value
      ensures old(ticker).Some? ==> (!isAnalyzing <==> progress == 100.0) && (ticker.Some? ==> ticker.value == progress)
      ensures videoUrl == old(videoUrl) && isPlaying == old(isPlaying) && sentimentHistory == old(sentimentHistory)
      ensures activeCharacters == old(activeCharacters) && currentTime == old(currentTime)
    {
      if ticker.Some? {
        var p := ticker.value + inc;
        if p >= 100.0 {
          p := 100.0;
          ticker := None;
          isAnalyzing := false;
        } else {
          ticker := Some(p);
        }
        progress := p;
      }
    }

    /** One callback of the playback interval, which runs only while playing and reads the
        element's `currentTime` as `time`: the detected characters replace the shown ones, and
        a reading is added only when some character is on screen. */
    method PlaybackTick(time: real, picks: seq<nat>, sentiment: real)
      requires Valid()
      requires |picks| == 3 && forall k :: 0 <= k < 3 ==> picks[k] < |Emotions|
      modifies this
      ensures Valid()
      ensures !old(isPlaying) || !old(HasVideo()) ==>
        currentTime == old(currentTime) && activeCharacters == old(activeCharacters) && sentimentHistory == old(sentimentHistory)
      ensures old(isPlaying) && old(HasVideo()) ==>
        && currentTime == time
        && |activeCharacters| == |ActiveAt(time)|
        && (forall k :: 0 <= k < |activeCharacters| ==> activeCharacters[k].character == ActiveAt(time)[k])
        && (ActiveAt(time) == [] ==> sentimentHistory == old(sentimentHistory))
        && (ActiveAt(time) != [] ==>
             sentimentHistory == NextHistory(old(sentimentHistory), Reading(time, sentiment, ActiveAt(time)[0].name)))
      ensures videoUrl == old(videoUrl) && isAnalyzing == old(isAnalyzing) && progress == old(progress)
      ensures isPlaying == old(isPlaying) && ticker == old(ticker)
    {
      if isPlaying && HasVideo() {
        currentTime := time;
        var active := Detect(time, picks);
        activeCharacters := active;
        if |active| > 0 {
          sentimentHistory := NextHistory(sentimentHistory, Reading(time, sentiment, active[0].character.name));
        }
      }
    }

    /** `togglePlay`: only a rendered video element can be played or paused. */
    method TogglePlay()
      requires Valid()
      modifies this
      ensures Valid()
      ensures isPlaying == (if old(HasVideo()) then !old(isPlaying) else old(isPlaying))
      ensures videoUrl == old(videoUrl) && isAnalyzing == old(isAnalyzing) && progress == old(progress)
      ensures currentTime == old(currentTime) && activeCharacters == old(activeCharacters)
      ensures sentimentHistory == old(sentimentHistory) && ticker == old(ticker)
    {
      if HasVideo() {
        isPlaying := !isPlaying;
      }
    }

    /** The element's `onEnded` handler. */
    method VideoEnded()
      requires Valid()
      modifies this
      ensures Valid()
      ensures !isPlaying
      ensures videoUrl == old(videoUrl) && isAnalyzing == old(isAnalyzing) && progress == old(progress)
      ensures currentTime == old(currentTime) && activeCharacters == old(activeCharacters)
      ensures sentimentHistory == old(sentimentHistory) && ticker == old(ticker)
    {
      isPlaying := false;
    }
  }
}
