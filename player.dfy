/**
 * `AbstractPlayer`: a time cursor per MIDI channel and the note events it
 * registers. What a concrete player does with a registered event (play it,
 * sequence it) is not part of this model; registering appends the event to a
 * log.
 */
module Players {
  import opened Notes

  /** The number of MIDI channels, the size of the per-channel cursor array. */
  const Channels: nat := 16

  /** `NoteEvent(tick, chan, note)`: the note on the channel at the tick. */
  datatype NoteEvent = NoteEvent(tick: int, chan: int, note: Note)

  /**
   * The events that adding ns on chan from tick t registers: one per note
   * that is not a rest, at the note's start tick; rests only take up time.
   */
  function Scheduled(t: int, chan: int, ns: seq<Note>): seq<NoteEvent>
  {
    if ns == [] then []
    else
      var j := |ns| - 1;
      Scheduled(t, chan, ns[..j]) + if IsRest(ns[j]) then [] else [NoteEvent(StartTick(t, ns, j), chan, ns[j])]
  }

  lemma StartTickOfInit(t: int, ns: seq<Note>, i: nat)
    requires i < |ns|
    ensures StartTick(t, ns[..|ns| - 1], i) == StartTick(t, ns, i) || i == |ns| - 1
  {
    if i < |ns| - 1 {
      assert ns[..|ns| - 1][..i] == ns[..i];
    }
  }

  /** Every event is on the channel, holds a note that is not a rest, and sits at that note's start tick. */
  lemma {:induction false} ScheduledEvents(t: int, chan: int, ns: seq<Note>, e: NoteEvent)
    requires e in Scheduled(t, chan, ns)
    ensures e.chan == chan && !IsRest(e.note)
    ensures exists j :: 0 <= j < |ns| && e == NoteEvent(StartTick(t, ns, j), chan, ns[j])
  {
    var j := |ns| - 1;
    var init := ns[..j];
    if e in Scheduled(t, chan, init) {
      ScheduledEvents(t, chan, init, e);
      var i :| 0 <= i < |init| && e == NoteEvent(StartTick(t, init, i), chan, init[i]);
      StartTickOfInit(t, ns, i);
    }
  }

  /** Every note that is not a rest gets its event, at its start tick. */
  lemma {:induction false} ScheduledComplete(t: int, chan: int, ns: seq<Note>, j: nat)
    requires j < |ns| && !IsRest(ns[j])
    ensures NoteEvent(StartTick(t, ns, j), chan, ns[j]) in Scheduled(t, chan, ns)
  {
    if j < |ns| - 1 {
      var init := ns[..|ns| - 1];
      ScheduledComplete(t, chan, init, j);
      StartTickOfInit(t, ns, j);
    }
  }

  /** A line without rests registers one event per note, in the notes' order. */
  lemma {:induction false} ScheduledWithoutRests(t: int, chan: int, ns: seq<Note>)
    requires forall k :: 0 <= k < |ns| ==> !IsRest(ns[k])
    ensures |Scheduled(t, chan, ns)| == |ns|
    ensures forall j :: 0 <= j < |ns| ==> Scheduled(t, chan, ns)[j] == NoteEvent(StartTick(t, ns, j), chan, ns[j])
  {
    if ns != [] {
      var init := ns[..|ns| - 1];
      ScheduledWithoutRests(t, chan, init);
      forall j | 0 <= j < |init|
        ensures StartTick(t, init, j) == StartTick(t, ns, j)
      {
        StartTickOfInit(t, ns, j);
      }
    }
  }

  /** With positive durations the registered events come in strictly increasing tick order. */
  lemma {:induction false} ScheduledInOrder(t: int, chan: int, ns: seq<Note>, a: nat, b: nat)
    requires forall k :: 0 <= k < |ns| ==> ns[k].duration > 0
    requires a < b < |Scheduled(t, chan, ns)|
    ensures Scheduled(t, chan, ns)[a].tick < Scheduled(t, chan, ns)[b].tick
  {
    var j := |ns| - 1;
    var init := ns[..j];
    var before := Scheduled(t, chan, init);
    assert forall k :: 0 <= k < |init| ==> init[k].duration > 0;
    if b < |before| {
      ScheduledInOrder(t, chan, init, a, b);
    } else {
      ScheduledEvents(t, chan, init, before[a]);
      var i :| 0 <= i < |init| && before[a] == NoteEvent(StartTick(t, init, i), chan, init[i]);
      StartTickOfInit(t, ns, i);
      StartTickIncreasing(t, ns, i, j);
    }
  }

  class Player {
    /** `ticks`: the time reached on every channel. */
    const ticks: array<int>
    /** Everything registered so far, oldest first. */
    var events: seq<NoteEvent>

    /** Every channel's cursor starts at 0 and nothing is registered. */
    constructor ()
      ensures ticks.Length == Channels && fresh(ticks)
      ensures forall c :: 0 <= c < Channels ==> ticks[c] == 0
      ensures events == []
    {
      ticks := new int[Channels](_ => 0);
      events := [];
    }

    predicate Valid()
    {
      ticks.Length == Channels
    }

    /**
     * `add(tick, chan, notes)`: the channel's cursor moves to the tick and
     * then along the notes; every note that is not a rest is registered where
     * it starts. Only this channel's cursor changes. A channel outside the
     * array fails (Kotlin `ArrayIndexOutOfBoundsException`).
     */
    method AddAt(tick: int, chan: int, ns: seq<Note>)
      requires Valid() && 0 <= chan < Channels
      modifies this, ticks
      ensures ticks[chan] == tick + TotalDuration(ns)
      ensures forall c :: 0 <= c < Channels && c != chan ==> ticks[c] == old(ticks[c])
      ensures events == old(events) + Scheduled(tick, chan, ns)
    {
      ticks[chan] := tick;
      for j := 0 to |ns|
        invariant ticks[chan] == StartTick(tick, ns, j)
        invariant forall c :: 0 <= c < Channels && c != chan ==> ticks[c] == old(ticks[c])
        invariant events == old(events) + Scheduled(tick, chan, ns[..j])
      {
        assert ns[..j + 1][..j] == ns[..j];
        assert StartTick(tick, ns[..j + 1], j) == StartTick(tick, ns, j);
        if !IsRest(ns[j]) {
          events := events + [NoteEvent(ticks[chan], chan, ns[j])];
        }
        assert ns[..j + 1][..j + 1] == ns[..j + 1];
        ticks[chan] := ticks[chan] + ns[j].duration;
      }
      assert ns[..|ns|] == ns;
    }

    /** `add(notes)`: channel 0, from channel 0's cursor. */
    method Add(ns: seq<Note>)
      requires Valid()
      modifies this, ticks
      ensures ticks[0] == old(ticks[0]) + TotalDuration(ns)
      ensures forall c :: 0 < c < Channels ==> ticks[c] == old(ticks[c])
      ensures events == old(events) + Scheduled(old(ticks[0]), 0, ns)
    {
      AddAt(ticks[0], 0, ns);
    }

    /**
     * `add(note, channel = 0)`: one note on the channel, but starting from
     * channel 0's cursor whatever the channel; the channel's cursor ends after
     * the note and channel 0's stays where it was unless it is the channel.
     */
    method AddNote(n: Note, channel: int := 0)
      requires Valid() && 0 <= channel < Channels
      modifies this, ticks
      ensures ticks[channel] == old(ticks[0]) + n.duration
      ensures forall c :: 0 <= c < Channels && c != channel ==> ticks[c] == old(ticks[c])
      ensures events == old(events) + if IsRest(n) then [] else [NoteEvent(old(ticks[0]), channel, n)]
    {
      AddAt(ticks[0], channel, [n]);
      assert [n][..0] == [];
    }
  }

  /**
   * A rest between two notes registers nothing but still moves the cursor:
   * the second note starts after the first note and the rest.
   */
  method RestTakesTime() returns (events: seq<NoteEvent>, end: int)
    ensures events == [NoteEvent(0, 3, Note(60, 4, 64)), NoteEvent(6, 3, Note(62, 4, 64))]
    ensures end == 10
  {
    var p := new Player();
    var line := [Note(60, 4, 64), Rest(2), Note(62, 4, 64)];
    p.AddAt(0, 3, line);
    events := p.events;
    end := p.ticks[3];
    assert line[..1] == [Note(60, 4, 64)] && line[..2] == [Note(60, 4, 64), Rest(2)];
    assert line[..2][..1] == line[..1] && line[..1][..0] == [];
  }
}
