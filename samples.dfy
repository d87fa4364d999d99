/** The growable sample buffer of the audio renderer (class `Samples` in
    music.cc). It owns an allocation of `real_size` cells and a logical
    length `size`. Every non-const access at index i first makes room for i
    (growing the allocation to max(i + 1, 2 * real_size) when i is past its
    end, copying only the logical prefix into a fresh zeroed allocation) and
    then sets the logical length to i + 1, also when that is smaller than
    before. A const read returns 0 at or past the logical length.

    `Store` is the value-level model of that state; the class is the
    imperative model and each of its methods is proved against a `Store`
    function. */
module SampleBuffer {

  /** Allocation made by the constructor. */
  const InitialCapacity: nat := 65536

  /** `cells` is the whole allocation (its length is `real_size`), `size`
      the logical length. */
  datatype Store = Store(cells: seq<real>, size: nat)

  /** The object invariant: the logical length never exceeds the allocation. */
  predicate Valid(st: Store)
  {
    st.size <= |st.cells|
  }

  function Max(a: nat, b: nat): nat
  {
    if a >= b then a else b
  }

  function Zeros(n: nat): seq<real>
  {
    seq(n, _ => 0.0)
  }

  /** The state right after construction. */
  function Empty(): (st: Store)
    ensures Valid(st) && st.size == 0 && |st.cells| == InitialCapacity
    ensures forall k :: 0 <= k < |st.cells| ==> st.cells[k] == 0.0
  {
    Store(Zeros(InitialCapacity), 0)
  }

  /** What the allocation holds at k, reading 0 past its end. */
  function Stored(st: Store, k: nat): real
  {
    if k < |st.cells| then st.cells[k] else 0.0
  }

  /** The const `operator[]`. */
  function Read(st: Store, k: nat): (x: real)
    requires Valid(st)
    ensures k < st.size ==> x == Stored(st, k)
    ensures k >= st.size ==> x == 0.0
  {
    if k < st.size then st.cells[k] else 0.0
  }

  /** The logical contents: what `dump` emits. */
  function Contents(st: Store): (xs: seq<real>)
    requires Valid(st)
    ensures |xs| == st.size
    ensures forall k :: 0 <= k < |xs| ==> xs[k] == Read(st, k)
  {
    st.cells[..st.size]
  }

  /** `accomodate(i)`: the allocation grows only when i is past its end, to
      max(i + 1, 2 * real_size), keeping the logical prefix and zeroing the
      rest; the logical length becomes i + 1 in every case. */
  function Accomodated(st: Store, i: nat): (r: Store)
    requires Valid(st)
    ensures Valid(r) && r.size == i + 1
    ensures |r.cells| == if i < |st.cells| then |st.cells| else Max(i + 1, 2 * |st.cells|)
    ensures i < |st.cells| ==> r.cells == st.cells
    ensures forall k :: 0 <= k < st.size ==> r.cells[k] == st.cells[k]
    ensures i >= |st.cells| ==> forall k :: st.size <= k < |r.cells| ==> r.cells[k] == 0.0
  {
    if i >= |st.cells| then
      Store(st.cells[..st.size] + Zeros(Max(i + 1, 2 * |st.cells|) - st.size), i + 1)
    else
      Store(st.cells, i + 1)
  }

  /** `s[i] += x` through the non-const `operator[]`. */
  function Added(st: Store, i: nat, x: real): (r: Store)
    requires Valid(st)
    ensures Valid(r) && r.size == i + 1 && i < |r.cells|
  {
    var a := Accomodated(st, i);
    Store(a.cells[i := a.cells[i] + x], a.size)
  }

  /** Adding `xs[0]`, `xs[1]`, ... at `start`, `start + 1`, ... in that order:
      the write loop of every voice. */
  function AddedRun(st: Store, start: nat, xs: seq<real>): (r: Store)
    requires Valid(st)
    ensures Valid(r)
    decreases |xs|
  {
    if xs == [] then st
    else
      var n := |xs| - 1;
      Added(AddedRun(st, start, xs[..n]), start + n, xs[n])
  }

  /** One more write extends a run: the shape of every voice's write loop. */
  lemma AddedRunStep(st: Store, start: nat, xs: seq<real>, i: nat)
    requires Valid(st) && i < |xs|
    ensures AddedRun(st, start, xs[..i + 1]) == Added(AddedRun(st, start, xs[..i]), start + i, xs[i])
  {
    assert xs[..i + 1][..i] == xs[..i];
  }

  /** What a cell holds just before a run starting at `start` adds to it:
      its old content, except that a run starting at or past the end of the
      allocation regrows it and so clears everything past the old logical
      length. */
  function Before(st: Store, start: nat, k: nat): real
  {
    if start >= |st.cells| && k >= st.size then 0.0 else Stored(st, k)
  }

  /** A run of writes adds its values to exactly the cells it covers and
      leaves the logical length just past its last cell. No other cell
      changes, except for the clearing described at `Before`: a regrowth in
      the middle of a run never loses anything, because the logical length
      then already covers every cell of the old allocation. */
  lemma {:induction false} AddedRunEffect(st: Store, start: nat, xs: seq<real>)
    requires Valid(st) && xs != []
    ensures AddedRun(st, start, xs).size == start + |xs|
    ensures |AddedRun(st, start, xs).cells| >= |st.cells|
    ensures forall k: nat :: Stored(AddedRun(st, start, xs), k) ==
              Before(st, start, k) + (if start <= k < start + |xs| then xs[k - start] else 0.0)
  {
    var n := |xs| - 1;
    var r := AddedRun(st, start, xs);
    if n == 0 {
      var a := Accomodated(st, start);
      assert xs[..0] == [];
      assert AddedRun(st, start, xs[..0]) == st;
      assert r == Added(st, start, xs[0]);
      forall k: nat
        ensures Stored(r, k) == Before(st, start, k) + (if start <= k < start + 1 then xs[k - start] else 0.0)
      {
        if k < |st.cells| && !(start >= |st.cells| && k >= st.size) {
          assert a.cells[k] == st.cells[k];
        }
      }
    } else {
      var p := AddedRun(st, start, xs[..n]);
      AddedRunEffect(st, start, xs[..n]);
      var a := Accomodated(p, start + n);
      assert r == Added(p, start + n, xs[n]);
      forall k: nat
        ensures Stored(r, k) == Before(st, start, k) + (if start <= k < start + |xs| then xs[k - start] else 0.0)
      {
        assert Stored(p, k) == Before(st, start, k) + (if start <= k < start + n then xs[..n][k - start] else 0.0);
        if start + n >= |p.cells| && k >= start + n {
          // A regrowth inside the run: everything at or past the write was
          // past the old allocation too.
          assert Before(st, start, k) == 0.0;
        }
      }
    }
  }

  /** What the source's growth promises its callers: a run of writes never
      disturbs what was readable below both the old logical length and the
      start of the run, and afterwards reads give the old content plus the
      run inside the run and 0 past it. */
  lemma AddedRunReads(st: Store, start: nat, xs: seq<real>)
    requires Valid(st) && xs != []
    ensures AddedRun(st, start, xs).size == start + |xs|
    ensures forall k: nat :: k < st.size && k < start ==> Read(AddedRun(st, start, xs), k) == Read(st, k)
    ensures forall k: nat :: start <= k < start + |xs| ==>
              Read(AddedRun(st, start, xs), k) == Before(st, start, k) + xs[k - start]
    ensures forall k: nat :: k >= start + |xs| ==> Read(AddedRun(st, start, xs), k) == 0.0
  {
    AddedRunEffect(st, start, xs);
  }

  /** The `Samples` object: the allocation `s` of `realSize` cells and the
      logical length `size`. */
  class Samples {
    var s: array<real>
    var realSize: nat
    var size: nat

    ghost predicate Valid()
      reads this
    {
      realSize == s.Length && size <= realSize
    }

    /** The abstract state of the object. */
    ghost function Model(): Store
      reads this, s
    {
      Store(s[..], size)
    }

    /** Length 0 over 65536 zeroed cells. */
    constructor ()
      ensures Valid() && fresh(s)
      ensures Model() == Empty()
    {
      realSize := InitialCapacity;
      size := 0;
      s := new real[InitialCapacity](_ => 0.0);
      new;
      assert s[..] == Zeros(InitialCapacity);
    }

    method Accomodate(i: nat)
      requires Valid()
      modifies this
      ensures Valid() && (s == old(s) || fresh(s))
      ensures Model() == Accomodated(old(Model()), i)
    {
      if i >= realSize {
        var grown := new real[Max(i + 1, realSize * 2)](_ => 0.0);
        var j := 0;
        while j < size
          modifies grown
          invariant 0 <= j <= size <= s.Length < grown.Length
          invariant forall k :: 0 <= k < j ==> grown[k] == s[k]
          invariant forall k :: j <= k < grown.Length ==> grown[k] == 0.0
        {
          grown[j] := s[j];
          j := j + 1;
        }
        assert grown[..] == s[..][..size] + Zeros(grown.Length - size);
        s, realSize := grown, grown.Length;
      }
      size := i + 1;
    }

    /** `s[i] += x`. */
    method Add(i: nat, x: real)
      requires Valid()
      modifies this, s
      ensures Valid() && (s == old(s) || fresh(s))
      ensures Model() == Added(old(Model()), i, x)
    {
      Accomodate(i);
      s[i] := s[i] + x;
    }

    /** The const `operator[]`. */
    function Get(i: nat): (x: real)
      reads this, s
      requires Valid()
      ensures x == Read(Model(), i)
    {
      if i < size then s[i] else 0.0
    }

    /** `length()`: the number of samples `dump` emits, that is the length
        of the logical contents. */
    function Length(): (n: nat)
      reads this, s
      requires Valid()
      ensures n == |Contents(Model())|
    {
      size
    }
  }
}
