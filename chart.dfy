/** The chart builder (`generate_chart` in chart.cc): it turns the same page
    words the audio renderer plays into a chart document. A page lasts 480
    ticks and scans up on even pages, down on odd ones; every active slot
    becomes a note, numbered in visiting order, at the tick of its beat and
    in a lane set by its position within the beat and the page's parity. */
module Chart {
  import opened JsonValue
  import opened Schedule
  import Stream
  import Sequencer

  /** `time_base`: ticks per page. */
  const TicksPerPage: nat := 480

  /** Ticks per beat: a page holds eight beats. */
  const TicksPerBeat: nat := 60

  function StartTick(i: nat): nat
  {
    i * 480
  }

  /** A page ends where the next one starts. */
  function EndTick(i: nat): (t: nat)
    ensures t == StartTick(i + 1) && t - StartTick(i) == TicksPerPage
  {
    i * 480 + 480
  }

  /** The scan-line direction of page i: one minus twice the page's parity,
      so up on even pages and down on odd ones. */
  function ScanDirection(i: nat): (d: int)
    ensures i % 2 == 0 ==> d == 1
    ensures i % 2 == 1 ==> d == -1
  {
    1 - (i % 2) * 2
  }

  /** The tick of a note: the start of its beat within its page. */
  function NoteTick(n: Note): (t: nat)
    ensures n.pos < SlotsPerPage ==> StartTick(n.page) <= t <= StartTick(n.page) + 7 * TicksPerBeat
    ensures (t - StartTick(n.page)) % TicksPerBeat == 0
  {
    n.page * 480 + n.pos / 4 * 60
  }

  /** A note's tick in pages is exactly its trigger time in the audio. */
  lemma TickIsTriggerTime(n: Note)
    ensures NoteTick(n) as real / TicksPerPage as real == TriggerTime(n)
  {
  }

  /** 100 samples per tick: the audio starts every note at the sample its
      chart tick names. */
  lemma TickMatchesStartSample(n: Note)
    ensures Sequencer.StartSample(n) == 100 * NoteTick(n)
  {
  }

  /** The lane of a note: twice its slot's place within the beat plus its
      page's parity, over 7; one of eight evenly spaced lanes from 0 to 1. */
  function Lane(n: Note): (x: real)
    ensures 0.0 <= x <= 1.0
  {
    ((n.pos % 4) * 2 + n.page % 2) as real / 7.0
  }

  /** The four slots of a beat take four different lanes, and even and odd
      pages use disjoint lanes. */
  lemma LanesDistinct(a: Note, b: Note)
    requires a.pos % 4 != b.pos % 4 || a.page % 2 != b.page % 2
    ensures Lane(a) != Lane(b)
  {
    var la, lb := (a.pos % 4) * 2 + a.page % 2, (b.pos % 4) * 2 + b.page % 2;
    assert la != lb;
    assert Lane(a) * 7.0 == la as real && Lane(b) * 7.0 == lb as real;
  }

  /** The test on which the chart's inner loop skips a slot: bit 31 - pos
      of the complemented page word is set. */
  predicate Skipped(word: bv32, pos: nat)
    requires pos < SlotsPerPage
    ensures word == 0 ==> Skipped(word, pos)
    ensures word == 0xFFFF_FFFF ==> !Skipped(word, pos)
    ensures pos == 0 ==> (Skipped(word, pos) <==> word as int < 0x8000_0000)
    ensures pos == 31 ==> (Skipped(word, pos) <==> word % 2 == 0)
  {
    ((!word) >> (31 - pos)) & 1 == 1
  }

  /** The chart skips exactly the slots the audio leaves silent. Each case
      fixes the shift amount, which keeps every bit-vector fact in the proof
      about a constant shift. */
  lemma SkippedIffInactive(word: bv32, pos: nat)
    requires pos < SlotsPerPage
    ensures Skipped(word, pos) <==> !Active(word, pos)
  {
    match pos
    case 0 => assert Skipped(word, 0) <==> !Active(word, 0);
    case 1 => assert Skipped(word, 1) <==> !Active(word, 1);
    case 2 => assert Skipped(word, 2) <==> !Active(word, 2);
    case 3 => assert Skipped(word, 3) <==> !Active(word, 3);
    case 4 => assert Skipped(word, 4) <==> !Active(word, 4);
    case 5 => assert Skipped(word, 5) <==> !Active(word, 5);
    case 6 => assert Skipped(word, 6) <==> !Active(word, 6);
    case 7 => assert Skipped(word, 7) <==> !Active(word, 7);
    case 8 => assert Skipped(word, 8) <==> !Active(word, 8);
    case 9 => assert Skipped(word, 9) <==> !Active(word, 9);
    case 10 => assert Skipped(word, 10) <==> !Active(word, 10);
    case 11 => assert Skipped(word, 11) <==> !Active(word, 11);
    case 12 => assert Skipped(word, 12) <==> !Active(word, 12);
    case 13 => assert Skipped(word, 13) <==> !Active(word, 13);
    case 14 => assert Skipped(word, 14) <==> !Active(word, 14);
    case 15 => assert Skipped(word, 15) <==> !Active(word, 15);
    case 16 => assert Skipped(word, 16) <==> !Active(word, 16);
    case 17 => assert Skipped(word, 17) <==> !Active(word, 17);
    case 18 => assert Skipped(word, 18) <==> !Active(word, 18);
    case 19 => assert Skipped(word, 19) <==> !Active(word, 19);
    case 20 => assert Skipped(word, 20) <==> !Active(word, 20);
    case 21 => assert Skipped(word, 21) <==> !Active(word, 21);
    case 22 => assert Skipped(word, 22) <==> !Active(word, 22);
    case 23 => assert Skipped(word, 23) <==> !Active(word, 23);
    case 24 => assert Skipped(word, 24) <==> !Active(word, 24);
    case 25 => assert Skipped(word, 25) <==> !Active(word, 25);
    case 26 => assert Skipped(word, 26) <==> !Active(word, 26);
    case 27 => assert Skipped(word, 27) <==> !Active(word, 27);
    case 28 => assert Skipped(word, 28) <==> !Active(word, 28);
    case 29 => assert Skipped(word, 29) <==> !Active(word, 29);
    case 30 => assert Skipped(word, 30) <==> !Active(word, 30);
    case _ => assert Skipped(word, 31) <==> !Active(word, 31);
  }

  /** The object of page i: its start and end ticks and its scan-line
      direction, each key once. */
  function PageJson(i: nat): (j: Json)
    ensures j.Obj? && Keys(j.members) == ["start_tick", "end_tick", "scan_line_direction"]
    ensures DistinctKeys(j.members)
  {
    Obj([ Member("start_tick", Num(StartTick(i) as real)),
          Member("end_tick", Num(EndTick(i) as real)),
          Member("scan_line_direction", Num(ScanDirection(i) as real)) ])
  }

  /** The object of note `n`, the `id`-th note of the chart: nine fields,
      each key once. */
  function NoteJson(id: nat, n: Note): (j: Json)
    ensures j.Obj? && |j.members| == 9 && DistinctKeys(j.members)
  {
    Obj([ Member("id", Num(id as real)),
          Member("page_index", Num(n.page as real)),
          Member("type", Num(0.0)),
          Member("tick", Num(NoteTick(n) as real)),
          Member("x", Num(Lane(n))),
          Member("has_sibling", Bool(false)),
          Member("hold_tick", Num(0.0)),
          Member("next_id", Num(0.0)),
          Member("is_forward", Bool(false)) ])
  }

  function PageList(count: nat): seq<Json>
  {
    seq(count, i requires 0 <= i => PageJson(i))
  }

  function NoteList(ns: seq<Note>): seq<Json>
  {
    seq(|ns|, k requires 0 <= k < |ns| => NoteJson(k, ns[k]))
  }

  /** The single tempo: 10^6 from tick 0 on. */
  function Tempo(): Json
  {
    Obj([Member("tick", Num(0.0)), Member("value", Num(1000000.0))])
  }

  /** The members written before the page list, with `tempo` as the tempo
      list. */
  function HeadWith(tempo: Json): seq<Member>
  {
    [ Member("time_base", Num(480.0)),
      Member("music_offset", Num(0.0)),
      Member("tempo_list", tempo) ]
  }

  /** The members written before the page list. */
  function Head(): seq<Member>
  {
    HeadWith(Arr([Tempo()]))
  }

  /** The chart document for the page words `pages`: an object whose keys,
      in the order written, are time_base, music_offset, tempo_list,
      page_list, note_list and event_order_list. */
  function ChartDoc(pages: seq<bv32>): (j: Json)
    ensures j.Obj? && Keys(j.members) ==
              ["time_base", "music_offset", "tempo_list", "page_list", "note_list", "event_order_list"]
  {
    Obj(Head() + [ Member("page_list", Arr(PageList(|pages|))),
                   Member("note_list", Arr(NoteList(Notes(pages)))),
                   Member("event_order_list", Arr([])) ])
  }

  // The states the builder passes through.

  /** The first `count` pages written. */
  function PagesDone(count: nat): Json
  {
    Obj(Head() + [Member("page_list", Arr(PageList(count)))])
  }

  /** The first `count` pages written and the next one holding `partial`. */
  function PagesWith(count: nat, partial: seq<Member>): Json
  {
    Obj(Head() + [Member("page_list", Arr(PageList(count) + [Obj(partial)]))])
  }

  /** All `count` pages and the notes `ns` written. */
  function NotesDone(count: nat, ns: seq<Note>): Json
  {
    Obj(Head() + [ Member("page_list", Arr(PageList(count))),
                   Member("note_list", Arr(NoteList(ns))) ])
  }

  /** All pages and the notes `ns` written, and the next note holding
      `partial`. */
  function NotesWith(count: nat, ns: seq<Note>, partial: seq<Member>): Json
  {
    Obj(Head() + [ Member("page_list", Arr(PageList(count))),
                   Member("note_list", Arr(NoteList(ns) + [Obj(partial)])) ])
  }

  lemma HeadKeys()
    ensures Keys(Head()) == ["time_base", "music_offset", "tempo_list"]
  {
  }

  /** Where the page list sits while the pages are written. */
  lemma PageListAt(items: seq<Json>)
    ensures "page_list" in Keys(Head() + [Member("page_list", Arr(items))])
    ensures KeyIndex(Head() + [Member("page_list", Arr(items))], "page_list") == 3
  {
    HeadKeys();
    assert Keys(Head() + [Member("page_list", Arr(items))]) == Keys(Head()) + ["page_list"];
  }

  /** Where the note list sits while the notes are written. */
  lemma NoteListAt(pl: Json, items: seq<Json>)
    ensures "note_list" in Keys(Head() + [Member("page_list", pl), Member("note_list", Arr(items))])
    ensures KeyIndex(Head() + [Member("page_list", pl), Member("note_list", Arr(items))], "note_list") == 4
  {
    HeadKeys();
    assert Keys(Head() + [Member("page_list", pl), Member("note_list", Arr(items))]) ==
           Keys(Head()) + ["page_list", "note_list"];
  }

  /** Replacing the last member. */
  lemma ReplaceLast(prefix: seq<Member>, last: Member, m: Member)
    ensures (prefix + [last])[|prefix| := m] == prefix + [m]
  {
  }

  /** Setting element count of the page list to an empty object. */
  lemma PageSlot(count: nat)
    ensures Reachable(PagesDone(count), [Key("page_list"), Index(count)])
    ensures Assign(PagesDone(count), [Key("page_list"), Index(count)], MakeObject()) == PagesWith(count, [])
  {
    var items := PageList(count);
    PageListAt(items);
    AssignAppendUnder(Head() + [Member("page_list", Arr(items))], "page_list", items, MakeObject());
    ReplaceLast(Head(), Member("page_list", Arr(items)), Member("page_list", Arr(items + [MakeObject()])));
  }

  /** Setting a field not yet set of element count of the page list. */
  lemma PageField(count: nat, partial: seq<Member>, field: string, v: Json)
    requires field !in Keys(partial)
    ensures Reachable(PagesWith(count, partial), [Key("page_list"), Index(count), Key(field)])
    ensures Assign(PagesWith(count, partial), [Key("page_list"), Index(count), Key(field)], v) ==
              PagesWith(count, partial + [Member(field, v)])
  {
    var items := PageList(count);
    var list := Member("page_list", Arr(items + [Obj(partial)]));
    PageListAt(items + [Obj(partial)]);
    AssignFieldOfLast(Head() + [list], "page_list", items, partial, field, v);
    ReplaceLast(Head(), list, Member("page_list", Arr(items + [Obj(partial + [Member(field, v)])])));
  }

  /** A page with all its fields is a finished page. */
  lemma PageFinished(count: nat)
    ensures PagesWith(count, PageJson(count).members) == PagesDone(count + 1)
  {
    assert PageList(count + 1) == PageList(count) + [PageJson(count)];
  }

  /** Setting element |ns| of the note list to an empty object. */
  lemma NoteSlot(count: nat, ns: seq<Note>)
    ensures Reachable(NotesDone(count, ns), [Key("note_list"), Index(|ns|)])
    ensures Assign(NotesDone(count, ns), [Key("note_list"), Index(|ns|)], MakeObject()) == NotesWith(count, ns, [])
  {
    var items := NoteList(ns);
    var pl := Member("page_list", Arr(PageList(count)));
    NoteListAt(Arr(PageList(count)), items);
    assert Head() + [pl, Member("note_list", Arr(items))] == (Head() + [pl]) + [Member("note_list", Arr(items))];
    AssignAppendUnder(Head() + [pl, Member("note_list", Arr(items))], "note_list", items, MakeObject());
    ReplaceLast(Head() + [pl], Member("note_list", Arr(items)), Member("note_list", Arr(items + [MakeObject()])));
    assert (Head() + [pl]) + [Member("note_list", Arr(items + [Obj([])]))] ==
           Head() + [pl, Member("note_list", Arr(items + [Obj([])]))];
  }

  /** Setting a field not yet set of element |ns| of the note list. */
  lemma NoteField(count: nat, ns: seq<Note>, partial: seq<Member>, field: string, v: Json)
    requires field !in Keys(partial)
    ensures Reachable(NotesWith(count, ns, partial), [Key("note_list"), Index(|ns|), Key(field)])
    ensures Assign(NotesWith(count, ns, partial), [Key("note_list"), Index(|ns|), Key(field)], v) ==
              NotesWith(count, ns, partial + [Member(field, v)])
  {
    var items := NoteList(ns);
    var pl := Member("page_list", Arr(PageList(count)));
    var list := Member("note_list", Arr(items + [Obj(partial)]));
    var list2 := Member("note_list", Arr(items + [Obj(partial + [Member(field, v)])]));
    NoteListAt(Arr(PageList(count)), items + [Obj(partial)]);
    assert Head() + [pl, list] == (Head() + [pl]) + [list];
    AssignFieldOfLast(Head() + [pl, list], "note_list", items, partial, field, v);
    ReplaceLast(Head() + [pl], list, list2);
    assert (Head() + [pl]) + [list2] == Head() + [pl, list2];
  }

  /** A note with all its fields is a finished note. */
  lemma NoteFinished(count: nat, ns: seq<Note>, n: Note)
    ensures NotesWith(count, ns, NoteJson(|ns|, n).members) == NotesDone(count, ns + [n])
  {
    assert NoteList(ns + [n]) == NoteList(ns) + [NoteJson(|ns|, n)];
  }

  /** Setting the page list of the chart to an empty array after the header. */
  lemma PageListNew()
    ensures Reachable(Obj(Head()), [Key("page_list")])
    ensures Assign(Obj(Head()), [Key("page_list")], MakeArray()) == PagesDone(0)
  {
    HeadKeys();
    AssignNewKey(Head(), "page_list", MakeArray());
    assert PageList(0) == [];
  }

  /** Setting the note list of the chart to an empty array after the pages. */
  lemma NoteListNew(count: nat)
    ensures Reachable(PagesDone(count), [Key("note_list")])
    ensures Assign(PagesDone(count), [Key("note_list")], MakeArray()) == NotesDone(count, [])
  {
    var ms := Head() + [Member("page_list", Arr(PageList(count)))];
    HeadKeys();
    assert Keys(ms) == Keys(Head()) + ["page_list"];
    AssignNewKey(ms, "note_list", MakeArray());
    assert NoteList([]) == [];
    assert ms + [Member("note_list", Arr([]))] == Head() + [ms[3], Member("note_list", Arr([]))];
  }

  /** The keys once both lists are in place, whatever they hold. */
  lemma ListKeys(pl: Json, nl: Json)
    ensures Keys(Head() + [Member("page_list", pl), Member("note_list", nl)]) ==
              ["time_base", "music_offset", "tempo_list", "page_list", "note_list"]
  {
    HeadKeys();
    assert Keys(Head() + [Member("page_list", pl), Member("note_list", nl)]) ==
           Keys(Head()) + ["page_list", "note_list"];
  }

  /** Setting the event order list to an empty array after both lists. */
  lemma AddEvents(pl: Json, nl: Json)
    ensures Reachable(Obj(Head() + [Member("page_list", pl), Member("note_list", nl)]), [Key("event_order_list")])
    ensures Assign(Obj(Head() + [Member("page_list", pl), Member("note_list", nl)]), [Key("event_order_list")], MakeArray()) ==
              Obj(Head() + [Member("page_list", pl), Member("note_list", nl), Member("event_order_list", Arr([]))])
  {
    var ms := Head() + [Member("page_list", pl), Member("note_list", nl)];
    ListKeys(pl, nl);
    AssignNewKey(ms, "event_order_list", MakeArray());
    assert ms + [Member("event_order_list", Arr([]))] ==
           Head() + [Member("page_list", pl), Member("note_list", nl), Member("event_order_list", Arr([]))];
  }

  /** Setting the event order list to an empty array after the notes: the
      chart is complete. */
  lemma EventsNew(pages: seq<bv32>)
    ensures Reachable(NotesDone(|pages|, Notes(pages)), [Key("event_order_list")])
    ensures Assign(NotesDone(|pages|, Notes(pages)), [Key("event_order_list")], MakeArray()) == ChartDoc(pages)
  {
    AddEvents(Arr(PageList(|pages|)), Arr(NoteList(Notes(pages))));
  }

  /** The tempo list sits third in the header, whatever it holds. */
  lemma TempoAt(tempo: Json)
    ensures "tempo_list" in Keys(HeadWith(tempo)) && KeyIndex(HeadWith(tempo), "tempo_list") == 2
  {
    assert Keys(HeadWith(tempo)) == ["time_base", "music_offset", "tempo_list"];
  }

  /** Setting element 0 of the tempo list to an empty object. */
  lemma TempoSlot()
    ensures Reachable(Obj(HeadWith(MakeArray())), [Key("tempo_list"), Index(0)])
    ensures Assign(Obj(HeadWith(MakeArray())), [Key("tempo_list"), Index(0)], MakeObject()) ==
              Obj(HeadWith(Arr([MakeObject()])))
  {
    TempoAt(MakeArray());
    AssignAppendUnder(HeadWith(MakeArray()), "tempo_list", [], MakeObject());
    assert [] + [MakeObject()] == [MakeObject()];
  }

  /** Setting a field not yet set of element 0 of the tempo list. */
  lemma TempoField(partial: seq<Member>, field: string, v: Json)
    requires field !in Keys(partial)
    ensures Reachable(Obj(HeadWith(Arr([Obj(partial)]))), [Key("tempo_list"), Index(0), Key(field)])
    ensures Assign(Obj(HeadWith(Arr([Obj(partial)]))), [Key("tempo_list"), Index(0), Key(field)], v) ==
              Obj(HeadWith(Arr([Obj(partial + [Member(field, v)])])))
  {
    var ms := HeadWith(Arr([Obj(partial)]));
    TempoAt(Arr([Obj(partial)]));
    assert [] + [Obj(partial)] == [Obj(partial)];
    AssignFieldOfLast(ms, "tempo_list", [], partial, field, v);
    assert [] + [Obj(partial + [Member(field, v)])] == [Obj(partial + [Member(field, v)])];
  }

  /** Setting entry `key` of the chart, which it does not hold yet, to `v`. */
  method SetKey(chart0: Json, ghost ms: seq<Member>, key: string, v: Json) returns (chart: Json)
    requires chart0 == Obj(ms) && key !in Keys(ms)
    ensures chart == Obj(ms + [Member(key, v)])
  {
    AssignNewKey(ms, key, v);
    chart := Assign(chart0, [Key(key)], v);
  }

  /** Setting element 0 of the tempo list to an empty object. */
  method NewTempo(chart0: Json) returns (chart: Json)
    requires chart0 == Obj(HeadWith(MakeArray()))
    ensures chart == Obj(HeadWith(Arr([MakeObject()])))
  {
    TempoSlot();
    chart := Assign(chart0, [Key("tempo_list"), Index(0)], MakeObject());
  }

  /** Setting field `key`, not yet set, of element 0 of the tempo list. */
  method SetTempoField(chart0: Json, ghost partial: seq<Member>, key: string, v: Json) returns (chart: Json)
    requires chart0 == Obj(HeadWith(Arr([Obj(partial)]))) && key !in Keys(partial)
    ensures chart == Obj(HeadWith(Arr([Obj(partial + [Member(key, v)])])))
  {
    TempoField(partial, key, v);
    chart := Assign(chart0, [Key("tempo_list"), Index(0), Key(key)], v);
  }

  /** The header of the chart: `time_base`, `music_offset` and the tempo
      list with its single entry. */
  method WriteHead() returns (chart: Json)
    ensures chart == Obj(Head())
  {
    ghost var h0: seq<Member> := [];
    ghost var h1 := h0 + [Member("time_base", Num(480.0))];
    ghost var h2 := h1 + [Member("music_offset", Num(0.0))];
    assert Keys(h1) == ["time_base"] && Keys(h2) == ["time_base", "music_offset"];
    chart := MakeObject();
    chart := SetKey(chart, h0, "time_base", Num(480.0));
    chart := SetKey(chart, h1, "music_offset", Num(0.0));
    chart := SetKey(chart, h2, "tempo_list", MakeArray());
    assert h2 + [Member("tempo_list", MakeArray())] == HeadWith(MakeArray());
    chart := NewTempo(chart);
    ghost var t0: seq<Member> := [];
    ghost var t1 := t0 + [Member("tick", Num(0.0))];
    assert Keys(t1) == ["tick"];
    chart := SetTempoField(chart, t0, "tick", Num(0.0));
    chart := SetTempoField(chart, t1, "value", Num(1000000.0));
    assert t1 + [Member("value", Num(1000000.0))] == Tempo().members;
  }

  /** Setting element i of the page list to an empty object. */
  method NewPage(chart0: Json, i: nat) returns (chart: Json)
    requires chart0 == PagesDone(i)
    ensures chart == PagesWith(i, [])
  {
    PageSlot(i);
    chart := Assign(chart0, [Key("page_list"), Index(i)], MakeObject());
  }

  /** Setting field `key`, not yet set, of element i of the page list. */
  method SetPageField(chart0: Json, ghost partial: seq<Member>, i: nat, key: string, v: Json) returns (chart: Json)
    requires chart0 == PagesWith(i, partial) && key !in Keys(partial)
    ensures chart == PagesWith(i, partial + [Member(key, v)])
  {
    PageField(i, partial, key, v);
    chart := Assign(chart0, [Key("page_list"), Index(i), Key(key)], v);
  }

  /** One pass of the page loop: page `i` gets its start tick, end tick
      and scan direction. */
  method WritePage(chart0: Json, i: nat) returns (chart: Json)
    requires chart0 == PagesDone(i)
    ensures chart == PagesDone(i + 1)
  {
    ghost var p0: seq<Member> := [];
    ghost var p1 := p0 + [Member("start_tick", Num(StartTick(i) as real))];
    ghost var p2 := p1 + [Member("end_tick", Num(EndTick(i) as real))];
    assert Keys(p1) == ["start_tick"] && Keys(p2) == ["start_tick", "end_tick"];
    chart := NewPage(chart0, i);
    chart := SetPageField(chart, p0, i, "start_tick", Num(StartTick(i) as real));
    chart := SetPageField(chart, p1, i, "end_tick", Num(EndTick(i) as real));
    chart := SetPageField(chart, p2, i, "scan_line_direction", Num(ScanDirection(i) as real));
    assert p2 + [Member("scan_line_direction", Num(ScanDirection(i) as real))] == PageJson(i).members;
    PageFinished(i);
  }

  /** Setting field `key` of the note being written, element noteIdx of the
      note list, whose first k fields are set: `key` is the next field of
      `fields`. */
  method SetNoteField(chart0: Json, ghost count: nat, ghost ns: seq<Note>, ghost fields: seq<Member>, ghost k: nat,
                      noteIdx: nat, key: string, v: Json)
    returns (chart: Json)
    requires k < |fields| && DistinctKeys(fields) && fields[k] == Member(key, v)
    requires chart0 == NotesWith(count, ns, fields[..k]) && noteIdx == |ns|
    ensures chart == NotesWith(count, ns, fields[..k + 1])
  {
    assert fields[..k + 1] == fields[..k] + [Member(key, v)];
    assert forall p :: 0 <= p < k ==> fields[..k][p].key == fields[p].key != key;
    NoteField(count, ns, fields[..k], key, v);
    chart := Assign(chart0, [Key("note_list"), Index(noteIdx), Key(key)], v);
  }

  /** Setting element noteIdx of the note list to an empty object: the next
      note starts empty. */
  method NewNote(chart0: Json, ghost count: nat, ghost ns: seq<Note>, noteIdx: nat) returns (chart: Json)
    requires chart0 == NotesDone(count, ns) && noteIdx == |ns|
    ensures chart == NotesWith(count, ns, [])
  {
    NoteSlot(count, ns);
    chart := Assign(chart0, [Key("note_list"), Index(noteIdx)], MakeObject());
  }

  /** The first five fields of note `Note(i, j)`, numbered `noteIdx`: its
      number, page, type, tick and lane. */
  method SetNotePlacement(chart0: Json, ghost count: nat, ghost ns: seq<Note>, noteIdx: nat, i: nat, j: nat)
    returns (chart: Json)
    requires chart0 == NotesWith(count, ns, []) && noteIdx == |ns|
    ensures chart == NotesWith(count, ns, NoteJson(noteIdx, Note(i, j)).members[..5])
  {
    chart := chart0;
    ghost var fields := NoteJson(noteIdx, Note(i, j)).members;
    assert fields[..0] == [];
    chart := SetNoteField(chart, count, ns, fields, 0, noteIdx, "id", Num(noteIdx as real));
    chart := SetNoteField(chart, count, ns, fields, 1, noteIdx, "page_index", Num(i as real));
    chart := SetNoteField(chart, count, ns, fields, 2, noteIdx, "type", Num(0.0));
    chart := SetNoteField(chart, count, ns, fields, 3, noteIdx, "tick", Num(NoteTick(Note(i, j)) as real));
    chart := SetNoteField(chart, count, ns, fields, 4, noteIdx, "x", Num(Lane(Note(i, j))));
  }

  /** The last four fields of note `Note(i, j)`, numbered `noteIdx`: no
      sibling, no hold, no next note, not forward. */
  method SetNoteFlags(chart0: Json, ghost count: nat, ghost ns: seq<Note>, noteIdx: nat, i: nat, j: nat)
    returns (chart: Json)
    requires chart0 == NotesWith(count, ns, NoteJson(noteIdx, Note(i, j)).members[..5]) && noteIdx == |ns|
    ensures chart == NotesWith(count, ns, NoteJson(noteIdx, Note(i, j)).members)
  {
    chart := chart0;
    ghost var fields := NoteJson(noteIdx, Note(i, j)).members;
    chart := SetNoteField(chart, count, ns, fields, 5, noteIdx, "has_sibling", Bool(false));
    chart := SetNoteField(chart, count, ns, fields, 6, noteIdx, "hold_tick", Num(0.0));
    chart := SetNoteField(chart, count, ns, fields, 7, noteIdx, "next_id", Num(0.0));
    chart := SetNoteField(chart, count, ns, fields, 8, noteIdx, "is_forward", Bool(false));
    assert fields[..9] == fields;
  }

  /** One active slot of the note loop: note `Note(i, j)` is written as the
      note numbered `noteIdx`, the number of notes before it. */
  method WriteNote(chart0: Json, ghost count: nat, ghost ns: seq<Note>, noteIdx: nat, i: nat, j: nat) returns (chart: Json)
    requires chart0 == NotesDone(count, ns) && noteIdx == |ns|
    ensures chart == NotesDone(count, ns + [Note(i, j)])
  {
    chart := NewNote(chart0, count, ns, noteIdx);
    chart := SetNotePlacement(chart, count, ns, noteIdx, i, j);
    chart := SetNoteFlags(chart, count, ns, noteIdx, i, j);
    NoteFinished(count, ns, Note(i, j));
  }

  /** Setting the page list to an empty array, then the page loop. */
  method WritePages(chart0: Json, count: nat) returns (chart: Json)
    requires chart0 == Obj(Head())
    ensures chart == PagesDone(count)
  {
    PageListNew();
    chart := Assign(chart0, [Key("page_list")], MakeArray());
    var i := 0;
    while i < count
      invariant 0 <= i <= count && chart == PagesDone(i)
    {
      chart := WritePage(chart, i);
      i := i + 1;
    }
  }

  /** The inner note loop over the 32 slots of page i: inactive slots are
      skipped, every active one is written as the next note. */
  method WritePageNotes(chart0: Json, pages: seq<bv32>, i: nat, noteIdx0: nat) returns (chart: Json, noteIdx: nat)
    requires i < |pages|
    requires chart0 == NotesDone(|pages|, Notes(pages[..i])) && noteIdx0 == |Notes(pages[..i])|
    ensures chart == NotesDone(|pages|, Notes(pages[..i + 1])) && noteIdx == |Notes(pages[..i + 1])|
  {
    chart, noteIdx := chart0, noteIdx0;
    ghost var prior := Notes(pages[..i]);
    assert prior + PageNotes(pages[i], i, 0) == prior;
    for j := 0 to 32
      invariant chart == NotesDone(|pages|, prior + PageNotes(pages[i], i, j))
      invariant noteIdx == |prior + PageNotes(pages[i], i, j)|
    {
      SkippedIffInactive(pages[i], j);
      if Skipped(pages[i], j) {
        assert PageNotes(pages[i], i, j + 1) == PageNotes(pages[i], i, j);
        continue;
      }
      ghost var done := prior + PageNotes(pages[i], i, j);
      assert prior + PageNotes(pages[i], i, j + 1) == done + [Note(i, j)];
      chart := WriteNote(chart, |pages|, done, noteIdx, i, j);
      noteIdx := noteIdx + 1;
    }
    NotesStep(pages, i);
  }

  /** Setting the note list to an empty array, then the outer note loop over
      the pages; `noteIdx` counts the notes written so far. */
  method WriteNotes(chart0: Json, pages: seq<bv32>) returns (chart: Json)
    requires chart0 == PagesDone(|pages|)
    ensures chart == NotesDone(|pages|, Notes(pages))
  {
    NoteListNew(|pages|);
    chart := Assign(chart0, [Key("note_list")], MakeArray());
    var noteIdx := 0;
    var i := 0;
    assert pages[..0] == [];
    while i < |pages|
      invariant 0 <= i <= |pages|
      invariant chart == NotesDone(|pages|, Notes(pages[..i])) && noteIdx == |Notes(pages[..i])|
    {
      chart, noteIdx := WritePageNotes(chart, pages, i, noteIdx);
      i := i + 1;
    }
    assert pages[..i] == pages;
  }

  /** `generate_chart`: builds the chart for the page words and writes its
      text to a fresh chart file. The chart is the chart document, and the
      file receives exactly its text. */
  method GenerateChart(pages: seq<bv32>, num: real -> string) returns (chart: Json, file: seq<char>)
    ensures chart == ChartDoc(pages)
    ensures file == Stringify(ChartDoc(pages), num)
  {
    chart := WriteHead();
    chart := WritePages(chart, |pages|);
    chart := WriteNotes(chart, pages);
    EventsNew(pages);
    chart := Assign(chart, [Key("event_order_list")], MakeArray());
    file := Stream.StringifyToStream(chart, num, []);
  }

  // What the finished chart holds.

  /** Every page object has distinct keys. */
  lemma PageListWellFormed(count: nat)
    ensures WellFormed(Arr(PageList(count)))
  {
    forall k | 0 <= k < count
      ensures WellFormed(PageList(count)[k])
    {
      assert DistinctKeys(PageJson(k).members);
    }
  }

  /** Every note object has distinct keys. */
  lemma NoteListWellFormed(ns: seq<Note>)
    ensures WellFormed(Arr(NoteList(ns)))
  {
    forall k | 0 <= k < |ns|
      ensures WellFormed(NoteList(ns)[k])
    {
      assert DistinctKeys(NoteJson(k, ns[k]).members);
    }
  }

  /** Every object in the chart has distinct keys. */
  lemma ChartWellFormed(pages: seq<bv32>)
    ensures WellFormed(ChartDoc(pages))
  {
    var ms := ChartDoc(pages).members;
    assert DistinctKeys(ms) by {
      assert forall p :: 0 <= p < |ms| ==> ms[p].key == Keys(ms)[p];
    }
    assert forall i :: 0 <= i < |ms| ==> WellFormed(ms[i].value) by {
      PageListWellFormed(|pages|);
      NoteListWellFormed(Notes(pages));
      assert WellFormed(Tempo());
      assert WellFormed(Arr([Tempo()]));
      forall i | 0 <= i < |ms|
        ensures WellFormed(ms[i].value)
      {
        assert i == 3 ==> ms[i].value == Arr(PageList(|pages|));
        assert i == 4 ==> ms[i].value == Arr(NoteList(Notes(pages)));
      }
    }
  }

  /** Reading the note list of the chart. */
  lemma NoteListRead(pages: seq<bv32>, rest: seq<Step>)
    ensures Get(ChartDoc(pages), [Key("note_list")] + rest) == Get(Arr(NoteList(Notes(pages))), rest)
  {
    var ms := ChartDoc(pages).members;
    assert ms[4] == Member("note_list", Arr(NoteList(Notes(pages))));
    assert ms[0].key != "note_list" && ms[1].key != "note_list";
    assert ms[2].key != "note_list" && ms[3].key != "note_list";
    GetThroughMember(ms, 4, "note_list", rest);
  }

  /** Reading the page list of the chart. */
  lemma PageListRead(pages: seq<bv32>, rest: seq<Step>)
    ensures Get(ChartDoc(pages), [Key("page_list")] + rest) == Get(Arr(PageList(|pages|)), rest)
  {
    var ms := ChartDoc(pages).members;
    assert ms[3] == Member("page_list", Arr(PageList(|pages|)));
    assert ms[0].key != "page_list" && ms[1].key != "page_list" && ms[2].key != "page_list";
    GetThroughMember(ms, 3, "page_list", rest);
  }

  /** Reading field `field` of note k of the chart is reading it from the
      object of the k-th active slot. */
  lemma NoteRead(pages: seq<bv32>, k: nat, field: string)
    requires k < |Notes(pages)|
    ensures Get(ChartDoc(pages), [Key("note_list"), Index(k), Key(field)]) ==
              Get(NoteJson(k, Notes(pages)[k]), [Key(field)])
  {
    assert [Key("note_list"), Index(k), Key(field)] == [Key("note_list")] + ([Index(k)] + [Key(field)]);
    NoteListRead(pages, [Index(k)] + [Key(field)]);
    GetThroughIndex(NoteList(Notes(pages)), k, [Key(field)]);
  }

  /** The note list ends after the last active slot. */
  lemma NoteListEnd(pages: seq<bv32>)
    ensures Get(ChartDoc(pages), [Key("note_list"), Index(|Notes(pages)|)]) == None
  {
    assert [Key("note_list"), Index(|Notes(pages)|)] == [Key("note_list")] + [Index(|Notes(pages)|)];
    NoteListRead(pages, [Index(|Notes(pages)|)]);
  }

  /** The number and page of a note object, read back. */
  lemma NoteJsonReadId(id: nat, n: Note)
    ensures Get(NoteJson(id, n), [Key("id")]) == Some(Num(id as real))
    ensures Get(NoteJson(id, n), [Key("page_index")]) == Some(Num(n.page as real))
  {
    var ms := NoteJson(id, n).members;
    GetMember(ms, 0, "id");
    GetMember(ms, 1, "page_index");
  }

  /** The tick and lane of a note object, read back. */
  lemma NoteJsonReadPlace(id: nat, n: Note)
    ensures Get(NoteJson(id, n), [Key("tick")]) == Some(Num(NoteTick(n) as real))
    ensures Get(NoteJson(id, n), [Key("x")]) == Some(Num(Lane(n)))
  {
    var ms := NoteJson(id, n).members;
    GetMember(ms, 3, "tick");
    GetMember(ms, 4, "x");
  }

  /** Note k of the chart, read back, is the k-th active slot of the
      schedule in visiting order: its id is k, its page, tick and lane are
      that slot's, and its tick is one hundredth of the sample at which the
      audio starts that same note. There is no note past the last active
      slot. */
  lemma ChartNoteRead(pages: seq<bv32>, k: nat)
    requires k < |Notes(pages)|
    ensures Get(ChartDoc(pages), [Key("note_list"), Index(k), Key("id")]) == Some(Num(k as real))
    ensures Get(ChartDoc(pages), [Key("note_list"), Index(k), Key("page_index")]) ==
              Some(Num(Notes(pages)[k].page as real))
    ensures Get(ChartDoc(pages), [Key("note_list"), Index(k), Key("tick")]) ==
              Some(Num(NoteTick(Notes(pages)[k]) as real))
    ensures Get(ChartDoc(pages), [Key("note_list"), Index(k), Key("x")]) == Some(Num(Lane(Notes(pages)[k])))
    ensures 100 * NoteTick(Notes(pages)[k]) == Sequencer.StartSample(Notes(pages)[k])
    ensures Get(ChartDoc(pages), [Key("note_list"), Index(|Notes(pages)|)]) == None
  {
    var n := Notes(pages)[k];
    NoteRead(pages, k, "id");
    NoteRead(pages, k, "page_index");
    NoteRead(pages, k, "tick");
    NoteRead(pages, k, "x");
    NoteJsonReadId(k, n);
    NoteJsonReadPlace(k, n);
    TickMatchesStartSample(n);
    NoteListEnd(pages);
  }

  /** Reading field `field` of page i of the chart is reading it from the
      page's object. */
  lemma PageRead(pages: seq<bv32>, i: nat, field: string)
    requires i < |pages|
    ensures Get(ChartDoc(pages), [Key("page_list"), Index(i), Key(field)]) == Get(PageJson(i), [Key(field)])
  {
    assert [Key("page_list"), Index(i), Key(field)] == [Key("page_list")] + ([Index(i)] + [Key(field)]);
    PageListRead(pages, [Index(i)] + [Key(field)]);
    GetThroughIndex(PageList(|pages|), i, [Key(field)]);
  }

  /** The fields of a page object, read back. */
  lemma PageJsonRead(i: nat)
    ensures Get(PageJson(i), [Key("start_tick")]) == Some(Num((480 * i) as real))
    ensures Get(PageJson(i), [Key("end_tick")]) == Some(Num((480 * i + 480) as real))
    ensures Get(PageJson(i), [Key("scan_line_direction")]) == Some(Num(if i % 2 == 0 then 1.0 else -1.0))
  {
    var ms := PageJson(i).members;
    GetMember(ms, 0, "start_tick");
    GetMember(ms, 1, "end_tick");
    GetMember(ms, 2, "scan_line_direction");
  }

  /** Page i of the chart, read back: it starts at tick 480 i, ends where
      page i + 1 starts, and scans up on even pages and down on odd ones. */
  lemma ChartPageRead(pages: seq<bv32>, i: nat)
    requires i < |pages|
    ensures Get(ChartDoc(pages), [Key("page_list"), Index(i), Key("start_tick")]) == Some(Num((480 * i) as real))
    ensures Get(ChartDoc(pages), [Key("page_list"), Index(i), Key("end_tick")]) == Some(Num((480 * i + 480) as real))
    ensures Get(ChartDoc(pages), [Key("page_list"), Index(i), Key("scan_line_direction")]) ==
              Some(Num(if i % 2 == 0 then 1.0 else -1.0))
  {
    PageRead(pages, i, "start_tick");
    PageRead(pages, i, "end_tick");
    PageRead(pages, i, "scan_line_direction");
    PageJsonRead(i);
  }

  /** Of two notes in visiting order, the later never has the earlier tick,
      and a note of a later page has a later tick. */
  lemma TickOrder(a: Note, b: Note)
    requires a.pos < SlotsPerPage && Precedes(a, b)
    ensures NoteTick(a) <= NoteTick(b)
    ensures a.page < b.page ==> NoteTick(a) < NoteTick(b)
  {
    if a.page < b.page {
      assert NoteTick(a) <= StartTick(a.page) + 420;
      assert StartTick(a.page) + 480 <= StartTick(b.page);
    }
  }

  /** The notes of the chart come in tick order: a later note never has an
      earlier tick, and a note of a later page always has a later one. */
  lemma ChartNotesInTickOrder(pages: seq<bv32>, a: nat, b: nat)
    requires a < b < |Notes(pages)|
    ensures NoteTick(Notes(pages)[a]) <= NoteTick(Notes(pages)[b])
    ensures Notes(pages)[a].page < Notes(pages)[b].page ==> NoteTick(Notes(pages)[a]) < NoteTick(Notes(pages)[b])
  {
    var ns := Notes(pages);
    NotesExact(pages);
    assert ns[a] in ns;
    TickOrder(ns[a], ns[b]);
  }
}
