/** The sequencer of the audio renderer (`music` in music.cc): it walks the
    note schedule page by page and slot by slot, starts the instrument of
    every active slot at that slot's start sample, and finally encodes the
    buffer. The four slots of a beat play kick, hat, tambourine, hat; a
    page lasts one second (48000 samples) and holds eight beats of 6000
    samples. */
module Sequencer {
  import opened Schedule
  import opened SampleBuffer
  import opened Pcm
  import Voices

  datatype Instrument = Kick | Hat | Tambourine

  /** The instrument table, indexed by the slot's position within its beat. */
  const Instruments: seq<Instrument> := [Kick, Hat, Tambourine, Hat]

  /** The instrument of slot `pos`. */
  function InstrumentOf(pos: nat): (v: Instrument)
    ensures v == Kick <==> pos % 4 == 0
    ensures v == Tambourine <==> pos % 4 == 2
    ensures v == Hat <==> pos % 4 == 1 || pos % 4 == 3
  {
    Instruments[pos % 4]
  }

  /** The first sample a note writes: its trigger time in seconds times the
      sample rate, computed exactly. */
  function StartSample(n: Note): (st: nat)
    ensures n.pos < SlotsPerPage ==> 48000 * n.page <= st <= 48000 * n.page + 42000
  {
    48000 * n.page + 6000 * (n.pos / 4)
  }

  /** The start sample is exactly the trigger time (in pages of one second)
      at 48000 samples per second. */
  lemma StartSampleIsTriggerTime(n: Note)
    ensures StartSample(n) as real == TriggerTime(n) * 48000.0
  {
  }

  /** Start samples never decrease along the visiting order: notes of a
      later page start later, and the slots of one beat start together. */
  lemma StartSampleMonotone(a: Note, b: Note)
    requires a.pos < SlotsPerPage && b.pos < SlotsPerPage && Precedes(a, b)
    ensures StartSample(a) <= StartSample(b)
    ensures a.page < b.page ==> StartSample(a) < StartSample(b)
    ensures StartSample(a) == StartSample(b) <==> a.page == b.page && a.pos / 4 == b.pos / 4
  {
  }

  /** The samples the instrument of a note adds, in order. */
  function InstrumentRun(kit: Voices.Kit, v: Instrument): (xs: seq<real>)
    requires Voices.ValidKit(kit)
    ensures v == Kick ==> |xs| == Voices.KickLength
    ensures v != Kick ==> |xs| == Voices.NoiseLength
  {
    match v
    case Kick => Voices.KickRun(kit)
    case Hat => Voices.NoiseRun(kit.hatNoise)
    case Tambourine => Voices.NoiseRun(kit.tambourineNoise)
  }

  /** The buffer after one more note has played. */
  function Played(st: Store, kit: Voices.Kit, n: Note): (r: Store)
    requires Valid(st) && Voices.ValidKit(kit)
    ensures Valid(r)
  {
    AddedRun(st, StartSample(n), InstrumentRun(kit, InstrumentOf(n.pos)))
  }

  /** The buffer after the notes `ns` have played, in order, into a fresh
      buffer. */
  function Rendered(kit: Voices.Kit, ns: seq<Note>): (r: Store)
    requires Voices.ValidKit(kit)
    ensures Valid(r)
  {
    if ns == [] then Empty()
    else Played(Rendered(kit, ns[..|ns| - 1]), kit, ns[|ns| - 1])
  }

  /** Playing one more note extends the rendering. */
  lemma RenderedStep(kit: Voices.Kit, ns: seq<Note>, n: Note)
    requires Voices.ValidKit(kit)
    ensures Rendered(kit, ns + [n]) == Played(Rendered(kit, ns), kit, n)
  {
    assert (ns + [n])[..|ns|] == ns;
  }

  /** The logical length of the rendered buffer is set by the LAST note
      alone: it ends exactly where that note's run ends, whatever the
      earlier notes wrote past that point. */
  lemma RenderedLength(kit: Voices.Kit, ns: seq<Note>)
    requires Voices.ValidKit(kit) && ns != []
    ensures Rendered(kit, ns).size ==
              StartSample(ns[|ns| - 1]) + |InstrumentRun(kit, InstrumentOf(ns[|ns| - 1].pos))|
  {
    var last := ns[|ns| - 1];
    AddedRunEffect(Rendered(kit, ns[..|ns| - 1]), StartSample(last), InstrumentRun(kit, InstrumentOf(last.pos)));
  }

  /** The page word 0x84000000 holds the notes at slots 0 and 5. */
  lemma KickHatPage(pages: seq<bv32>)
    requires pages == [0x8400_0000]
    ensures Notes(pages) == [Note(0, 0), Note(0, 5)]
  {
    var w: bv32 := 0x8400_0000;
    assert PageNotes(w, 0, 6) == [Note(0, 0), Note(0, 5)] by {
      assert PageNotes(w, 0, 1) == [Note(0, 0)];
      PageNotesSkip(w, 0, 1, 5);
    }
    assert PageNotes(w, 0, SlotsPerPage) == PageNotes(w, 0, 6) by {
      forall pos: nat | 6 <= pos < SlotsPerPage
        ensures !Active(w, pos)
      {
      }
      PageNotesSkip(w, 0, 6, SlotsPerPage);
    }
    assert pages[..0] == [];
  }

  /** A page holding only a kick on the first beat and a hat on the second
      (bits 31 and 26): the kick writes samples 0 to 23999, but the hat,
      written last, sets the length to 6000 + 8192 = 14192. The output
      stops there, and the kick's samples 14192 to 23999 read as 0: the
      kick's tail is never emitted. */
  lemma KickTailCut(kit: Voices.Kit, pages: seq<bv32>)
    requires Voices.ValidKit(kit) && pages == [0x8400_0000]
    ensures Notes(pages) == [Note(0, 0), Note(0, 5)]
    ensures Rendered(kit, Notes(pages)).size == 14192
    ensures |Encode(Contents(Rendered(kit, Notes(pages))))| == 2 * 14192
    ensures forall k: nat :: 14192 <= k < StartSample(Note(0, 0)) + Voices.KickLength ==>
              Read(Rendered(kit, Notes(pages)), k) == 0.0
  {
    KickHatPage(pages);
    var ns := Notes(pages);
    var last := ns[1];
    assert last == Note(0, 5);
    assert StartSample(last) == 6000;
    var before := Rendered(kit, ns[..1]);
    var hat := InstrumentRun(kit, InstrumentOf(last.pos));
    assert |hat| == 8192;
    var r := AddedRun(before, StartSample(last), hat);
    assert Rendered(kit, ns) == r;
    AddedRunReads(before, StartSample(last), hat);
    assert r.size == 14192;
    EncodeLayout(Contents(r));
  }

  /** The page word 0x80000000 holds only the note at slot 0. */
  lemma KickOnlyPage(i: nat)
    ensures PageNotes(0x8000_0000, i, SlotsPerPage) == [Note(i, 0)]
  {
    var w: bv32 := 0x8000_0000;
    assert PageNotes(w, i, 1) == [Note(i, 0)];
    forall pos: nat | 1 <= pos < SlotsPerPage
      ensures !Active(w, pos)
    {
    }
    PageNotesSkip(w, i, 1, SlotsPerPage);
  }

  /** The two pages 0x84000000 and 0x80000000: a kick and a hat on the
      first page, a kick on the second. */
  lemma KickHatKickPages(pages: seq<bv32>)
    requires pages == [0x8400_0000, 0x8000_0000]
    ensures Notes(pages) == [Note(0, 0), Note(0, 5), Note(1, 0)]
  {
    NotesStep(pages, 1);
    assert pages[..1] == [0x8400_0000];
    KickHatPage(pages[..1]);
    KickOnlyPage(1);
    assert pages[..2] == pages;
  }

  /** A run of 24000 from 0, one of 8192 from 6000 and the first run again
      from 48000, into a fresh buffer: the length is 72000, and cells 14192
      to 23999 hold the first run's values, since none of the three runs
      starts past the allocation of 65536 cells. */
  lemma KickHatKickRuns(kick: seq<real>, hat: seq<real>)
    requires |kick| == Voices.KickLength && |hat| == Voices.NoiseLength
    ensures AddedRun(AddedRun(AddedRun(Empty(), 0, kick), 6000, hat), 48000, kick).size == 72000
    ensures forall k: nat :: 14192 <= k < Voices.KickLength ==>
              Read(AddedRun(AddedRun(AddedRun(Empty(), 0, kick), 6000, hat), 48000, kick), k) == kick[k]
  {
    var e := Empty();
    var s1 := AddedRun(e, 0, kick);
    var s2 := AddedRun(s1, 6000, hat);
    var s3 := AddedRun(s2, 48000, kick);
    RunInside(e, 0, kick);
    RunInside(s1, 6000, hat);
    RunInside(s2, 48000, kick);
    forall k: nat | 14192 <= k < Voices.KickLength
      ensures Read(s3, k) == kick[k]
    {
      CellInRun(e, 0, kick, k);
      CellOutsideRun(s1, 6000, hat, k);
      CellOutsideRun(s2, 48000, kick, k);
    }
  }

  /** A nonempty run leaves the length just past it and never shrinks the
      allocation. */
  lemma RunInside(st: Store, start: nat, xs: seq<real>)
    requires Valid(st) && xs != []
    ensures AddedRun(st, start, xs).size == start + |xs|
    ensures |AddedRun(st, start, xs).cells| >= |st.cells|
  {
    AddedRunEffect(st, start, xs);
  }

  /** A cell the run covers, for a run starting inside the allocation: its
      old content plus the run's value. */
  lemma CellInRun(st: Store, start: nat, xs: seq<real>, k: nat)
    requires Valid(st) && start < |st.cells| && start <= k < start + |xs|
    ensures Stored(AddedRun(st, start, xs), k) == Stored(st, k) + xs[k - start]
  {
    AddedRunEffect(st, start, xs);
  }

  /** A cell the run does not cover, for a run starting inside the
      allocation: unchanged. */
  lemma CellOutsideRun(st: Store, start: nat, xs: seq<real>, k: nat)
    requires Valid(st) && xs != [] && start < |st.cells| && (k < start || start + |xs| <= k)
    ensures Stored(AddedRun(st, start, xs), k) == Stored(st, k)
  {
    AddedRunEffect(st, start, xs);
  }

  /** Three notes played into a fresh buffer, one after the other. */
  lemma RenderedThree(kit: Voices.Kit, ns: seq<Note>)
    requires Voices.ValidKit(kit) && |ns| == 3
    ensures Rendered(kit, ns) == Played(Played(Played(Empty(), kit, ns[0]), kit, ns[1]), kit, ns[2])
  {
    assert ns == ns[..2] + [ns[2]];
    assert ns[..2] == ns[..1] + [ns[1]];
    assert ns[..1] == [] + [ns[0]];
    RenderedStep(kit, [], ns[0]);
    RenderedStep(kit, ns[..1], ns[1]);
    RenderedStep(kit, ns[..2], ns[2]);
  }

  /** Kick, hat and kick again play their runs at samples 0, 6000 and
      48000. */
  lemma KickHatKickRendered(kit: Voices.Kit, ns: seq<Note>)
    requires Voices.ValidKit(kit) && |ns| == 3
    requires ns[0] == Note(0, 0) && ns[1] == Note(0, 5) && ns[2] == Note(1, 0)
    ensures Rendered(kit, ns) ==
              AddedRun(AddedRun(AddedRun(Empty(), 0, Voices.KickRun(kit)), 6000, Voices.NoiseRun(kit.hatNoise)),
                       48000, Voices.KickRun(kit))
  {
    var kick, hat := Voices.KickRun(kit), Voices.NoiseRun(kit.hatNoise);
    RenderedThree(kit, ns);
    var s1 := Played(Empty(), kit, Note(0, 0));
    assert s1 == AddedRun(Empty(), 0, kick) by {
      assert StartSample(Note(0, 0)) == 0 && InstrumentOf(0) == Kick;
    }
    var s2 := Played(s1, kit, Note(0, 5));
    assert s2 == AddedRun(s1, 6000, hat) by {
      assert StartSample(Note(0, 5)) == 6000 && InstrumentOf(5) == Hat;
    }
    assert Played(s2, kit, Note(1, 0)) == AddedRun(s2, 48000, kick) by {
      assert StartSample(Note(1, 0)) == 48000 && InstrumentOf(0) == Kick;
    }
  }

  /** The samples a hat cuts off stay in the allocation, and a later note
      whose run extends the length past them emits them again. With a
      second page holding only a kick on its first beat, the length ends at
      48000 + 24000 = 72000, and samples 14192 to 23999 read as the first
      kick's samples. */
  lemma KickTailRestored(kit: Voices.Kit, pages: seq<bv32>)
    requires Voices.ValidKit(kit) && pages == [0x8400_0000, 0x8000_0000]
    ensures Notes(pages) == [Note(0, 0), Note(0, 5), Note(1, 0)]
    ensures Rendered(kit, Notes(pages)).size == 72000
    ensures forall k: nat :: 14192 <= k < Voices.KickLength ==>
              Read(Rendered(kit, Notes(pages)), k) == Voices.KickSample(kit, k)
  {
    KickHatKickPages(pages);
    KickHatKickRendered(kit, Notes(pages));
    KickHatKickRuns(Voices.KickRun(kit), Voices.NoiseRun(kit.hatNoise));
  }

  /** One slot of the inner loop: an active slot plays its note, an
      inactive one leaves the rendering as it is. */
  lemma SlotStep(kit: Voices.Kit, prior: seq<Note>, word: bv32, i: nat, j: nat)
    requires Voices.ValidKit(kit) && j < SlotsPerPage
    ensures Active(word, j) ==>
              Rendered(kit, prior + PageNotes(word, i, j + 1)) ==
              Played(Rendered(kit, prior + PageNotes(word, i, j)), kit, Note(i, j))
    ensures !Active(word, j) ==>
              Rendered(kit, prior + PageNotes(word, i, j + 1)) == Rendered(kit, prior + PageNotes(word, i, j))
  {
    var done := prior + PageNotes(word, i, j);
    if Active(word, j) {
      assert prior + PageNotes(word, i, j + 1) == done + [Note(i, j)];
      RenderedStep(kit, done, Note(i, j));
    } else {
      assert prior + PageNotes(word, i, j + 1) == done;
    }
  }

  /** Starts the instrument of note `n`: the call through the instrument
      table. */
  method Trigger(buf: Samples, kit: Voices.Kit, n: Note)
    requires buf.Valid() && Voices.ValidKit(kit)
    modifies buf, buf.s
    ensures buf.Valid() && (buf.s == old(buf.s) || fresh(buf.s))
    ensures buf.Model() == Played(old(buf.Model()), kit, n)
  {
    var st := 48000 * n.page + 6000 * (n.pos / 4);
    assert st == StartSample(n);
    var v := Instruments[n.pos % 4];
    assert v == InstrumentOf(n.pos);
    match v
    case Kick => Voices.Kick(buf, kit, st);
    case Hat => Voices.Hat(buf, kit, st);
    case Tambourine => Voices.Tambourine(buf, kit, st);
  }

  /** The inner loop of `music` for page i with word `word`: the slots in
      order, each active one triggering its note, after the notes `prior`
      of the earlier pages. */
  method PlayPage(buf: Samples, kit: Voices.Kit, ghost prior: seq<Note>, word: bv32, i: nat)
    requires buf.Valid() && Voices.ValidKit(kit)
    requires buf.Model() == Rendered(kit, prior)
    modifies buf, buf.s
    ensures buf.Valid() && (buf.s == old(buf.s) || fresh(buf.s))
    ensures buf.Model() == Rendered(kit, prior + PageNotes(word, i, SlotsPerPage))
  {
    var j := 0;
    assert prior + PageNotes(word, i, 0) == prior;
    while j < 32
      invariant 0 <= j <= 32
      invariant buf.Valid() && (buf.s == old(buf.s) || fresh(buf.s))
      invariant buf.Model() == Rendered(kit, prior + PageNotes(word, i, j))
    {
      SlotStep(kit, prior, word, i, j);
      if Active(word, j) {
        Trigger(buf, kit, Note(i, j));
      }
      j := j + 1;
    }
  }

  /** `music`: renders the schedule and returns the bytes `dump` emits. */
  method Music(pages: seq<bv32>, kit: Voices.Kit) returns (bytes: seq<byte>)
    requires Voices.ValidKit(kit)
    ensures bytes == Encode(Contents(Rendered(kit, Notes(pages))))
  {
    var buf := new Samples();
    var i := 0;
    while i < |pages|
      invariant 0 <= i <= |pages|
      invariant fresh(buf) && fresh(buf.s) && buf.Valid()
      invariant buf.Model() == Rendered(kit, Notes(pages[..i]))
    {
      PlayPage(buf, kit, Notes(pages[..i]), pages[i], i);
      NotesStep(pages, i);
      i := i + 1;
    }
    assert pages[..i] == pages;
    bytes := Dump(buf);
  }
}
