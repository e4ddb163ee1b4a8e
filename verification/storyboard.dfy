/** The storyboard generator (src/components/StoryboardGenerator.jsx): a list of frames, a
    prompt, and a delayed generation that appends one frame. The delay is a separate step: the
    click (`Generate`) captures the frames and the prompt, and the timer's callback
    (`Complete`) builds the new list from what was captured. */
module Storyboard {
  import opened Text
  import Seqs

  datatype Frame = Frame(id: int, title: string, description: string, img: string)

  const InitialFrames: seq<Frame> := [
    Frame(1, "Establishing Shot", "The subway platform at night, neon lights reflecting on wet concrete.",
      "https://images.unsplash.com/photo-1470229722913-7c0e2dbbafd3?auto=format&fit=crop&q=80&w=800"),
    Frame(2, "Medium Close-up", "Elias looks nervously at his watch, shadows deepening his expression.",
      "https://images.unsplash.com/photo-1542204127-9097e089f33b?auto=format&fit=crop&q=80&w=800")
  ]

  const NewFrameTitle := "New Scene Frame"
  const PlaceholderImg := "https://images.unsplash.com/photo-1511447333015-45b65e60f6d5?auto=format&fit=crop&q=80&w=800"

  /** `[...frames, newFrame]` for a frame made at time `now` (`Date.now()`) from `prompt`. */
  function AppendFrame(frames: seq<Frame>, prompt: string, now: int): seq<Frame>
  {
    frames + [Frame(now, NewFrameTitle, prompt, PlaceholderImg)]
  }

  /** Generation adds exactly one frame, at the end, titled 'New Scene Frame' and described by
      the prompt; the earlier frames keep their order and content. */
  lemma AppendFrameAddsOne(frames: seq<Frame>, prompt: string, now: int)
    ensures var r := AppendFrame(frames, prompt, now);
      && |r| == |frames| + 1
      && r[..|frames|] == frames
      && r[|frames|].title == "New Scene Frame" && r[|frames|].description == prompt && r[|frames|].id == now
  {
    var r := AppendFrame(frames, prompt, now);
    assert r[..|frames|] == frames;
  }

  predicate OtherId(id: int, f: Frame)
  {
    f.id != id
  }

  function Without(id: int): Frame -> bool
  {
    (f: Frame) => OtherId(id, f)
  }

  /** `frames.filter(f => f.id !== id)`. */
  function DeleteFrame(frames: seq<Frame>, id: int): seq<Frame>
  {
    Seqs.Filter(Without(id), frames)
  }

  /** Deleting removes every frame with the id and keeps every other frame, in order and as
      many times as it occurred. */
  lemma DeleteFrameExact(frames: seq<Frame>, id: int)
    ensures Seqs.IsSubsequence(DeleteFrame(frames, id), frames)
    ensures forall f: Frame :: f in DeleteFrame(frames, id) <==> f in frames && f.id != id
    ensures forall f: Frame :: f.id != id ==> multiset(DeleteFrame(frames, id))[f] == multiset(frames)[f]
  {
    var p := Without(id);
    Seqs.FilterIsSubsequence(p, frames);
    forall f: Frame ensures f in DeleteFrame(frames, id) <==> f in frames && f.id != id {
      Seqs.FilterMembers(p, frames, f);
      assert p(f) == OtherId(id, f);
    }
    forall f: Frame | f.id != id ensures multiset(DeleteFrame(frames, id))[f] == multiset(frames)[f] {
      Seqs.FilterMultiplicity(p, frames, f);
      assert p(f);
    }
  }

  /** Deleting an id no frame has leaves the list as it was. */
  lemma DeleteAbsentId(frames: seq<Frame>, id: int)
    requires forall i :: 0 <= i < |frames| ==> frames[i].id != id
    ensures DeleteFrame(frames, id) == frames
  {
    var p := Without(id);
    forall i | 0 <= i < |frames| ensures p(frames[i]) {
    }
    Seqs.FilterKeepsAll(p, frames);
  }

  /** What the click captures for the timer's callback. */
  datatype Pending = Pending(frames: seq<Frame>, prompt: string)

  class StoryboardPanel {
    var prompt: string
    var isGenerating: bool
    var frames: seq<Frame>

    constructor ()
      ensures prompt == "" && !isGenerating && frames == InitialFrames
    {
      prompt, isGenerating, frames := "", false, InitialFrames;
    }

    method SetPrompt(text: string)
      modifies this
      ensures prompt == text && isGenerating == old(isGenerating) && frames == old(frames)
    {
      prompt := text;
    }

    /** `handleGenerate` at the click: a blank prompt does nothing; otherwise generation
        starts and the current frames and prompt are captured. */
    method Generate() returns (pending: Option<Pending>)
      modifies this
      ensures frames == old(frames) && prompt == old(prompt)
      ensures IsBlank(prompt) ==> pending.None? && isGenerating == old(isGenerating)
      ensures !IsBlank(prompt) ==> pending == Some(Pending(frames, prompt)) && isGenerating
    {
      if IsBlank(prompt) {
        return None;
      }
      isGenerating := true;
      pending := Some(Pending(frames, prompt));
    }

    /** The timer's callback, at time `now`: the captured frames plus the new one, whatever
        the list has become meanwhile; the prompt is cleared and generation is over. */
    method Complete(p: Pending, now: int)
      modifies this
      ensures frames == AppendFrame(p.frames, p.prompt, now)
      ensures prompt == "" && !isGenerating
    {
      frames := AppendFrame(p.frames, p.prompt, now);
      prompt := "";
      isGenerating := false;
    }

    method Delete(id: int)
      modifies this
      ensures frames == DeleteFrame(old(frames), id)
      ensures prompt == old(prompt) && isGenerating == old(isGenerating)
    {
      frames := DeleteFrame(frames, id);
    }
  }

  /** Because the callback uses the captured list, a frame deleted while a generation is in
      progress is back once it completes. */
  lemma DeleteDuringGenerationIsUndone(captured: seq<Frame>, prompt: string, id: int, now: int, i: nat)
    requires i < |captured| && captured[i].id == id
    ensures captured[i] !in DeleteFrame(captured, id)
    ensures captured[i] in AppendFrame(captured, prompt, now)
  {
    DeleteFrameExact(captured, id);
    assert AppendFrame(captured, prompt, now)[i] == captured[i];
  }
}
