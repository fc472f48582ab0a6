/**
 * The playback side of live voice mode in components/ChatWindow.tsx:
 * inbound audio chunks are queued back to back on a "next start time"
 * cursor, the started sources are tracked in a set, and an interrupt from
 * the server stops them all and rewinds the cursor. The message handler
 * yields while the clip is decoded, so its two halves are separate
 * methods; another message may be handled between them. Audio nodes are known
 * only by identity and the clock reading is a parameter.
 */
module LivePlayback {
  import opened Wrappers
  import opened AudioCodec

  /** An `AudioBufferSourceNode`, known only by identity. */
  type SourceId = nat

  /**
   * The time span a started chunk is heard in, in seconds. `source.start(when)`
   * with a `when` already past plays at once, so a slot starts at the later
   * of `when` and the clock reading at the call.
   */
  datatype Slot = Slot(start: real, duration: real) {
    function End(): real { start + duration }
  }

  function Max(a: real, b: real): (m: real)
    ensures m >= a && m >= b && (m == a || m == b)
  {
    if a >= b then a else b
  }

  class PlaybackScheduler {
    /** `nextStartTimeRef.current`: where the next chunk is queued. */
    var nextStartTime: real
    /** `audioSourcesRef.current`: the sources started and not yet ended or stopped. */
    var activeSources: set<SourceId>
    /** The chunks scheduled since the last interrupt, in arrival order. */
    ghost var slots: seq<Slot>

    /**
     * The started chunks are heard one after another without overlapping,
     * and every one of them ends by the cursor, so the next chunk queued at
     * the cursor overlaps none of them.
     */
    ghost predicate Valid()
      reads this
    {
      && (forall k :: 0 <= k < |slots| ==> slots[k].duration > 0.0 && slots[k].End() <= nextStartTime)
      && (forall j, k :: 0 <= j < k < |slots| ==> slots[j].End() <= slots[k].start)
    }

    constructor()
      ensures Valid()
      ensures nextStartTime == 0.0 && activeSources == {} && slots == []
    {
      nextStartTime := 0.0;
      activeSources := {};
      slots := [];
    }

    /**
     * The part of `onmessage` before `await decodeAudioData(...)`, for a
     * non-empty payload: the cursor is raised to now and the payload is
     * decoded. `duration` is how long the decoded clip plays, or `None`
     * when decoding throws (the handler then ends once it resumes).
     */
    method BeginChunk(data: string, currentTime: real, atob: string -> Option<string>)
      returns (duration: Option<real>)
      modifies this
      ensures old(Valid()) ==> Valid()
      ensures nextStartTime == Max(old(nextStartTime), currentTime)
      ensures activeSources == old(activeSources) && slots == old(slots)
      ensures duration == ClipDuration(data, atob)
    {
      nextStartTime := Max(nextStartTime, currentTime);
      var bytes := Decode(data, atob);
      if bytes.None? {
        return None;
      }
      var buffer := DecodeAudioData(bytes.value, 1);
      if buffer.None? {
        return None;
      }
      duration := Some(buffer.value.Length1 as real / SampleRate as real);
    }

    /**
     * The part of `onmessage` after the await, for a clip of `duration`
     * seconds, with the clock at `currentTime`: `source` is started at the
     * cursor as it is now and is heard from then or from now, whichever is
     * later; the cursor moves on by the clip's length and the source is
     * tracked. Chunks still do not overlap when the cursor has not fallen
     * behind the clock.
     */
    method StartChunk(duration: real, currentTime: real, source: SourceId)
      requires duration > 0.0
      modifies this
      ensures slots == old(slots) + [Slot(Max(old(nextStartTime), currentTime), duration)]
      ensures nextStartTime == old(nextStartTime) + duration
      ensures activeSources == old(activeSources) + {source}
      ensures old(Valid()) && currentTime <= old(nextStartTime) ==> Valid()
    {
      slots := slots + [Slot(Max(nextStartTime, currentTime), duration)];
      nextStartTime := nextStartTime + duration;
      activeSources := activeSources + {source};
    }

    /**
     * The `interrupted` branch of `onmessage`: every tracked source is
     * stopped (`stopped`), the set is emptied and the cursor rewound to 0.
     */
    method Interrupt() returns (stopped: set<SourceId>)
      modifies this
      ensures Valid()
      ensures stopped == old(activeSources)
      ensures activeSources == {} && nextStartTime == 0.0 && slots == []
    {
      stopped := activeSources;
      activeSources := {};
      nextStartTime := 0.0;
      slots := [];
    }

    /**
     * `onmessage` run with nothing in between its two halves: a non-empty
     * audio payload is decoded and queued (the cursor is first raised to
     * now, even when decoding then throws, and a throw skips the rest of
     * the handler, `failed`); an interrupt then stops every tracked source,
     * forgets them and rewinds the cursor to 0. `source` is the node
     * created for the chunk. Run this way, it keeps chunks from overlapping.
     */
    method OnMessage(audio: Option<string>, interrupted: bool, currentTime: real,
                     source: SourceId, atob: string -> Option<string>)
      returns (stopped: set<SourceId>, failed: bool)
      modifies this
      ensures old(Valid()) ==> Valid()
      ensures var playable := audio.Some? && audio.value != "";
              var d := if playable then ClipDuration(audio.value, atob) else None;
              && (failed <==> playable && d.None?)
              && (failed ==>
                    && stopped == {}
                    && nextStartTime == Max(old(nextStartTime), currentTime)
                    && activeSources == old(activeSources) && slots == old(slots))
              && (!failed && interrupted ==>
                    && stopped == old(activeSources) + (if playable then {source} else {})
                    && activeSources == {} && nextStartTime == 0.0 && slots == [])
              && (!failed && !interrupted && playable ==>
                    var start := Max(old(nextStartTime), currentTime);
                    && stopped == {}
                    && slots == old(slots) + [Slot(start, d.value)]
                    && nextStartTime == start + d.value
                    && activeSources == old(activeSources) + {source})
              && (!failed && !interrupted && !playable ==>
                    && stopped == {}
                    && nextStartTime == old(nextStartTime)
                    && activeSources == old(activeSources) && slots == old(slots))
    {
      stopped := {};
      failed := false;
      if audio.Some? && audio.value != "" {
        var duration := BeginChunk(audio.value, currentTime, atob);
        if duration.None? {
          failed := true;
          return;
        }
        StartChunk(duration.value, currentTime, source);
      }
      if interrupted {
        stopped := Interrupt();
      }
    }

    /**
     * An interrupt handled while a chunk is being decoded: it stops what
     * was playing and rewinds the cursor to 0, and the pending chunk is then
     * started at 0, that is straight away, at the clock reading `after`, and
     * tracked, although it arrived before the interrupt. The cursor is left
     * at the clip's length, behind the end of what is playing exactly when
     * the clock has moved past 0.
     */
    method InterruptDuringDecode(data: string, before: real, after: real, source: SourceId,
                                 atob: string -> Option<string>)
      returns (stopped: set<SourceId>)
      requires ClipDuration(data, atob).Some? && 0.0 <= before <= after
      modifies this
      ensures stopped == old(activeSources)
      ensures activeSources == {source}
      ensures slots == [Slot(after, ClipDuration(data, atob).value)]
      ensures nextStartTime == ClipDuration(data, atob).value
      ensures !Valid() <==> after > 0.0
    {
      var duration := BeginChunk(data, before, atob);
      stopped := Interrupt();
      StartChunk(duration.value, after, source);
      if after > 0.0 {
        assert slots[0].End() > nextStartTime;
      } else {
        assert |slots| == 1 && slots[0].End() <= nextStartTime;
      }
    }

    /**
     * The chunk that arrives next, at clock reading `later` while the chunk
     * started by InterruptDuringDecode is still heard, is queued at the
     * stale cursor: the two are heard together exactly when that chunk was
     * started after time 0.
     */
    method StaleCursorOverlap(data: string, next: string, before: real, after: real, later: real,
                              source: SourceId, nextSource: SourceId, atob: string -> Option<string>)
      requires ClipDuration(data, atob).Some? && ClipDuration(next, atob).Some?
      requires 0.0 <= before <= after <= later < after + ClipDuration(data, atob).value
      modifies this
      ensures |slots| == 2 && slots[0].start == after
      ensures slots[1].start < slots[0].End() <==> after > 0.0
    {
      var stopped := InterruptDuringDecode(data, before, after, source, atob);
      var duration := BeginChunk(next, later, atob);
      StartChunk(duration.value, later, nextSource);
    }

    /** `source.onended`: the finished source is no longer tracked. */
    method SourceEnded(source: SourceId)
      modifies this
      ensures old(Valid()) ==> Valid()
      ensures activeSources == old(activeSources) - {source}
      ensures nextStartTime == old(nextStartTime) && slots == old(slots)
    {
      activeSources := activeSources - {source};
    }
  }
}
