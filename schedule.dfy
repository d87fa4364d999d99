/** The note schedule that both the audio renderer (music.cc) and the chart
    builder (chart.cc) walk: a sequence of 32-bit page words. Slot `pos` of
    page `i` (0 <= pos < 32) is active when bit 31 - pos of the page word is
    set, so slot 0 is the most significant bit. Both components visit pages
    in order and, within a page, slots in ascending order; `Notes` is that
    visiting order, restricted to the active slots. */
module Schedule {

  /** Slots per page: one per bit of the page word. */
  const SlotsPerPage: nat := 32

  /** One active slot of the schedule. */
  datatype Note = Note(page: nat, pos: nat)

  /** Slot `pos` is active when bit 31 - pos of the page word is set. An
      empty word has no active slot and a full one has all 32; slot 0 is the
      top bit (the word is at least 2^31) and slot 31 the lowest (the word
      is odd). */
  predicate Active(word: bv32, pos: nat)
    requires pos < SlotsPerPage
    ensures word == 0 ==> !Active(word, pos)
    ensures word == 0xFFFF_FFFF ==> Active(word, pos)
    ensures pos == 0 ==> (Active(word, pos) <==> word as int >= 0x8000_0000)
    ensures pos == 31 ==> (Active(word, pos) <==> word % 2 == 1)
  {
    (word >> (31 - pos)) & 1 == 1
  }

  /** The active slots among the first `n` slots of page `page`, ascending. */
  function PageNotes(word: bv32, page: nat, n: nat): (ns: seq<Note>)
    requires n <= SlotsPerPage
    ensures |ns| <= n
    ensures forall k :: 0 <= k < |ns| ==> ns[k].page == page && ns[k].pos < n
  {
    if n == 0 then []
    else PageNotes(word, page, n - 1) + (if Active(word, n - 1) then [Note(page, n - 1)] else [])
  }

  /** All active slots of the schedule, page-major, then slot-ascending. */
  function Notes(pages: seq<bv32>): (ns: seq<Note>)
    ensures |ns| <= SlotsPerPage * |pages|
    ensures forall k :: 0 <= k < |ns| ==> ns[k].page < |pages| && ns[k].pos < SlotsPerPage
  {
    if pages == [] then []
    else Notes(pages[..|pages| - 1]) + PageNotes(pages[|pages| - 1], |pages| - 1, SlotsPerPage)
  }

  /** Strict visiting order of the two nested loops over pages and slots. */
  predicate Precedes(a: Note, b: Note)
  {
    a.page < b.page || (a.page == b.page && a.pos < b.pos)
  }

  predicate Ordered(ns: seq<Note>)
  {
    forall a, b :: 0 <= a < b < |ns| ==> Precedes(ns[a], ns[b])
  }

  /** The trigger time of a note in the schedule's own unit (one page per
      unit): the page number plus one eighth per beat, the beat being the
      slot number divided by four and rounded down; read exactly. */
  function TriggerTime(n: Note): real
  {
    n.page as real + (n.pos / 4) as real / 8.0
  }

  /** Every note of a page is at an active slot. */
  lemma {:induction false} PageNotesSound(word: bv32, page: nat, n: nat)
    requires n <= SlotsPerPage
    ensures forall m :: m in PageNotes(word, page, n) ==> m.pos < SlotsPerPage && Active(word, m.pos)
  {
    if n > 0 {
      PageNotesSound(word, page, n - 1);
      var prefix := PageNotes(word, page, n - 1);
      if Active(word, n - 1) {
        assert PageNotes(word, page, n) == prefix + [Note(page, n - 1)];
      } else {
        assert PageNotes(word, page, n) == prefix;
      }
    }
  }

  /** Every active slot below `n` is a note of the page. */
  lemma {:induction false} PageNotesComplete(word: bv32, page: nat, n: nat)
    requires n <= SlotsPerPage
    ensures forall pos: nat :: pos < n && Active(word, pos) ==> Note(page, pos) in PageNotes(word, page, n)
  {
    if n > 0 {
      PageNotesComplete(word, page, n - 1);
      PageNotesGrow(word, page, n);
    }
  }

  /** One more slot keeps the notes found so far and adds that slot when it
      is active. */
  lemma PageNotesGrow(word: bv32, page: nat, n: nat)
    requires 0 < n <= SlotsPerPage
    ensures forall m :: m in PageNotes(word, page, n - 1) ==> m in PageNotes(word, page, n)
    ensures Active(word, n - 1) ==> Note(page, n - 1) in PageNotes(word, page, n)
  {
    var prefix := PageNotes(word, page, n - 1);
    var tail: seq<Note> := if Active(word, n - 1) then [Note(page, n - 1)] else [];
    assert PageNotes(word, page, n) == prefix + tail;
  }

  /** The notes of a page are in ascending slot order. */
  lemma {:induction false} PageNotesOrdered(word: bv32, page: nat, n: nat)
    requires n <= SlotsPerPage
    ensures Ordered(PageNotes(word, page, n))
  {
    if n > 0 {
      PageNotesOrdered(word, page, n - 1);
      var prefix := PageNotes(word, page, n - 1);
      var tail: seq<Note> := if Active(word, n - 1) then [Note(page, n - 1)] else [];
      var all := prefix + tail;
      assert PageNotes(word, page, n) == all;
      forall a, b | 0 <= a < b < |all|
        ensures Precedes(all[a], all[b])
      {
        assert all[a] == prefix[a] && prefix[a] in prefix;
        if b < |prefix| {
          assert all[b] == prefix[b];
        } else {
          assert all[b] == Note(page, n - 1);
        }
      }
    }
  }

  /** A page contributes exactly its active slots below `n`, in ascending order. */
  lemma PageNotesExact(word: bv32, page: nat, n: nat)
    requires n <= SlotsPerPage
    ensures forall m :: m in PageNotes(word, page, n) ==>
              m.page == page && m.pos < n && Active(word, m.pos)
    ensures forall pos: nat :: pos < n && Active(word, pos) ==> Note(page, pos) in PageNotes(word, page, n)
    ensures Ordered(PageNotes(word, page, n))
  {
    PageNotesSound(word, page, n);
    PageNotesComplete(word, page, n);
    PageNotesOrdered(word, page, n);
  }

  /** A note is scheduled exactly when its page exists, its slot is one of
      the 32 and the corresponding bit of the page word is set. */
  lemma {:induction false} NotesExact(pages: seq<bv32>)
    ensures forall m :: m in Notes(pages) ==>
              m.page < |pages| && m.pos < SlotsPerPage && Active(pages[m.page], m.pos)
    ensures forall i, pos: nat :: 0 <= i < |pages| && pos < SlotsPerPage && Active(pages[i], pos) ==>
              Note(i, pos) in Notes(pages)
    ensures Ordered(Notes(pages))
  {
    if pages != [] {
      var last := |pages| - 1;
      var init := pages[..last];
      NotesExact(init);
      PageNotesExact(pages[last], last, SlotsPerPage);
      var prefix := Notes(init);
      var tail := PageNotes(pages[last], last, SlotsPerPage);
      assert Notes(pages) == prefix + tail;
      forall a, b | 0 <= a < b < |prefix + tail|
        ensures Precedes((prefix + tail)[a], (prefix + tail)[b])
      {
        if a < |prefix| && b >= |prefix| {
          assert (prefix + tail)[a] in prefix;
          assert (prefix + tail)[b] in tail;
        } else if a >= |prefix| {
          assert (prefix + tail)[a] == tail[a - |prefix|];
          assert (prefix + tail)[b] == tail[b - |prefix|];
        }
      }
      forall i, pos: nat | 0 <= i < |pages| && pos < SlotsPerPage && Active(pages[i], pos)
        ensures Note(i, pos) in Notes(pages)
      {
        if i < last {
          assert init[i] == pages[i];
          assert Note(i, pos) in prefix;
        } else {
          assert Note(i, pos) in tail;
        }
      }
    }
  }

  /** Slots that are not active add nothing. */
  lemma {:induction false} PageNotesSkip(word: bv32, page: nat, a: nat, b: nat)
    requires a <= b <= SlotsPerPage
    requires forall pos: nat :: a <= pos < b ==> !Active(word, pos)
    ensures PageNotes(word, page, b) == PageNotes(word, page, a)
    decreases b
  {
    if a < b {
      PageNotesSkip(word, page, a, b - 1);
      assert !Active(word, b - 1);
      assert PageNotes(word, page, b) == PageNotes(word, page, b - 1) + [];
    }
  }

  /** Appending one page extends the schedule by exactly that page's notes:
      the shape of the outer loops of both components. */
  lemma NotesStep(pages: seq<bv32>, i: nat)
    requires i < |pages|
    ensures Notes(pages[..i + 1]) == Notes(pages[..i]) + PageNotes(pages[i], i, SlotsPerPage)
  {
    assert pages[..i + 1][..i] == pages[..i];
  }
}
