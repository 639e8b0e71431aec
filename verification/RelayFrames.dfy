/** Reading the client's frames back: they say what the server said, content for content and event for event. */
module RelayFrames {
  import opened RelayQuery
  import opened RelayHistory
  import opened RelayRuns

  /** The message a frame stands for, told by its kind and its payload. */
  function Unframed(f: Frame): Msg {
    match f
    case RenderFrame(content) => Render(content)
    case ControlFrame(kind, payload) =>
      if kind == "exit" then Event(Exit(payload))
      else if kind == "renamed_session" then Event(RenamedSession(payload))
      else if kind == "config_updated" && payload == "" then Event(ConfigUpdated)
      else if kind == "switch_session" then Event(SwitchSession(payload))
      else Other
  }

  function Decoded(frames: seq<Frame>): seq<Msg> {
    seq(|frames|, i requires 0 <= i < |frames| => Unframed(frames[i]))
  }

  /** Renders and events are for the client; layout Logs and the rest are not. */
  predicate IsForClient(msg: Msg) {
    msg.Render? || msg.Event?
  }

  function ForClient(msgs: seq<Msg>): seq<Msg> {
    if msgs == [] then []
    else ForClient(msgs[..|msgs| - 1]) + if IsForClient(msgs[|msgs| - 1]) then [msgs[|msgs| - 1]] else []
  }

  /** One message: it is for the client exactly if it makes a frame, and the frame reads back as it. */
  lemma FrameReadsBack(msg: Msg)
    ensures FrameOf(msg).Some? <==> IsForClient(msg)
    ensures FrameOf(msg).Some? ==> Unframed(FrameOf(msg).value) == msg
    ensures FrameOf(msg).Some? ==> (FrameOf(msg).value.RenderFrame? <==> msg.Render?)
  {
  }

  lemma {:induction false} ImageReadsBack(msgs: seq<Msg>)
    ensures Decoded(Image(msgs)) == ForClient(msgs)
  {
    if msgs != [] {
      ImageReadsBack(msgs[..|msgs| - 1]);
      FrameReadsBack(msgs[|msgs| - 1]);
    }
  }

  function Renders(msgs: seq<Msg>): nat {
    if msgs == [] then 0 else Renders(msgs[..|msgs| - 1]) + if msgs[|msgs| - 1].Render? then 1 else 0
  }

  lemma {:induction false} RendersAreCounted(frames: seq<Frame>)
    ensures RenderCount(frames) == Renders(Decoded(frames))
  {
    if frames != [] {
      var front, last := frames[..|frames| - 1], frames[|frames| - 1];
      RendersAreCounted(front);
      assert Decoded(frames)[..|frames| - 1] == Decoded(front);
      assert Unframed(last).Render? <==> last.RenderFrame?;
    }
  }

  /** What the frames say is what the matched messages for the client said, but for the last if the client is gone. */
  ghost predicate SaysWhatWasMatched(s: State) {
    || Decoded(s.loop.frames) == ForClient(s.loop.matched)
    || (s.outbound.gone && HasLeft(s.loop) && s.loop.matched != []
        && Decoded(s.loop.frames) == ForClient(s.loop.matched[..|s.loop.matched| - 1]))
  }

  lemma FramesSayWhatWasMatched(s: State)
    requires FramesOfMatched(s)
    ensures SaysWhatWasMatched(s) && RenderCount(s.loop.frames) == Renders(Decoded(s.loop.frames))
  {
    ImageReadsBack(s.loop.matched);
    if s.loop.matched != [] {
      ImageReadsBack(s.loop.matched[..|s.loop.matched| - 1]);
    }
    RendersAreCounted(s.loop.frames);
  }

  /**
   Over every run the client is told, in order, the contents of the renders and the events that were matched, with their
   names and reasons: all of them while it is there, and the count is the number of renders it was told.
   */
  lemma ClientIsToldWhatWasMatched(run: seq<Step>, t: State)
    requires Run(INITIAL, run, t)
    ensures SaysWhatWasMatched(t) && (!t.outbound.gone ==> Decoded(t.loop.frames) == ForClient(t.loop.matched))
    ensures t.loop.renders == Renders(Decoded(t.loop.frames))
  {
    FramesAreImage(run, t);
    FramesSayWhatWasMatched(t);
  }
}
