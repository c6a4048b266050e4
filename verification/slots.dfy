/** Texture-slot resolution of the quad batcher (`submit_tex`,
    engine/render2D.h), as pure functions over the table of texture names.
    Slot 0 means "untextured"; table entry i holds the texture of slot i + 1.
    The imperative version, which searches and appends to the batch's fixed
    array, is `Render2D.QuadBatch.SubmitTex`; its contract is stated with
    `Resolve` below. */
module TextureSlots {

  /** `BATCH_MAX_TEXTURES`. */
  const MaxTextures: nat := 32

  predicate Distinct(s: seq<nat>) {
    forall i, j :: 0 <= i < j < |s| ==> s[i] != s[j]
  }

  /** The position of the first `id` in `s`, or `|s|` when there is none. */
  function FirstIndex(s: seq<nat>, id: nat): (i: nat)
    ensures i <= |s|
    ensures i < |s| ==> s[i] == id
    ensures forall k :: 0 <= k < i ==> s[k] != id
  {
    if s == [] then 0
    else if s[0] == id then 0
    else 1 + FirstIndex(s[1..], id)
  }

  /** The slot one submission returns, the table afterwards, and whether the
      submission had to flush the batch first. */
  datatype Resolution = Resolution(slot: nat, table: seq<nat>, flushed: bool)

  /** One `submit_tex`: a texture already in the table keeps its slot; a new
      one is appended; a new one meeting a full table flushes the batch,
      which empties the table, and then becomes slot 1. */
  function Resolve(table: seq<nat>, id: nat): (r: Resolution)
    // the slot names the entry that holds id, and no earlier entry does
    ensures 1 <= r.slot <= |r.table| && r.table[r.slot - 1] == id
    ensures forall k :: 0 <= k < r.slot - 1 ==> r.table[k] != id
    // a flush happens exactly for a new texture meeting a full table
    ensures r.flushed <==> id !in table && |table| >= MaxTextures
    ensures r.flushed ==> r.table == [id]
    // otherwise every earlier slot is kept, and at most one is added
    ensures !r.flushed ==> r.table == table || r.table == table + [id]
    ensures id in table ==> r.table == table
    ensures |table| <= MaxTextures ==> |r.table| <= MaxTextures
  {
    var i := FirstIndex(table, id);
    if i < |table| then Resolution(i + 1, table, false)
    else if |table| >= MaxTextures then Resolution(1, [id], true)
    else Resolution(|table| + 1, table + [id], false)
  }

  /** Resolution keeps the table free of duplicates. */
  lemma ResolveKeepsDistinct(table: seq<nat>, id: nat)
    requires Distinct(table)
    ensures Distinct(Resolve(table, id).table)
  {
    var r := Resolve(table, id);
    if !r.flushed && r.table != table {
      assert r.table == table + [id] && id !in table;
      forall i, j | 0 <= i < j < |r.table| ensures r.table[i] != r.table[j] {
        if j == |table| {
          assert r.table[i] == table[i];
        }
      }
    }
  }

  /** Submitting a texture already in a duplicate-free table returns the slot
      it was given, whatever came since. */
  lemma ResubmitKeepsSlot(table: seq<nat>, k: nat)
    requires Distinct(table) && k < |table|
    ensures Resolve(table, table[k]) == Resolution(k + 1, table, false)
  {
  }

  /** The outcome of a run of submissions. */
  datatype Run = Run(table: seq<nat>, slots: seq<nat>, flushes: nat)

  /** Submits `ids` in order, starting from `table`. */
  function SubmitAll(table: seq<nat>, ids: seq<nat>): (run: Run)
    ensures |run.slots| == |ids|
    decreases ids
  {
    if ids == [] then Run(table, [], 0)
    else
      var r := Resolve(table, ids[0]);
      var rest := SubmitAll(r.table, ids[1..]);
      Run(rest.table, [r.slot] + rest.slots, rest.flushes + if r.flushed then 1 else 0)
  }

  lemma DistinctSuffix(a: seq<nat>, b: seq<nat>)
    requires Distinct(a + b)
    ensures Distinct(b)
  {
    forall i, j | 0 <= i < j < |b| ensures b[i] != b[j] {
      assert (a + b)[|a| + i] == b[i] && (a + b)[|a| + j] == b[j];
    }
  }

  lemma ShiftByBlock(i: nat)
    ensures (MaxTextures + i) % MaxTextures == i % MaxTextures
    ensures (MaxTextures + i) / MaxTextures == i / MaxTextures + 1
  {
  }

  lemma BelowBlock(i: nat)
    requires i < MaxTextures
    ensures i % MaxTextures == i && i / MaxTextures == 0
  {
  }

  /** The outcome of dealing slots round-robin over `table + ids`, as if
      `table` were everything submitted so far: the texture at overall
      position p gets slot p % 32 + 1, each 32nd one after the first flushes,
      and the table ends holding the last block of up to 32. */
  ghost predicate RoundRobin(table: seq<nat>, ids: seq<nat>, run: Run) {
    var n := |table| + |ids|;
    && |run.slots| == |ids|
    && (forall i :: 0 <= i < |ids| ==> run.slots[i] == (|table| + i) % MaxTextures + 1)
    && run.flushes == (if n == 0 then 0 else (n - 1) / MaxTextures)
    && run.table == (table + ids)[if n == 0 then 0 else MaxTextures * ((n - 1) / MaxTextures)..]
  }

  lemma ResolveNew(table: seq<nat>, id: nat)
    requires id !in table
    ensures Resolve(table, id) ==
      if |table| >= MaxTextures then Resolution(1, [id], true)
      else Resolution(|table| + 1, table + [id], false)
  {
  }

  lemma AppendStep(table: seq<nat>, ids: seq<nat>, rest: Run)
    requires |table| < MaxTextures && ids != []
    requires RoundRobin(table + [ids[0]], ids[1..], rest)
    ensures RoundRobin(table, ids, Run(rest.table, [|table| + 1] + rest.slots, rest.flushes))
  {
    assert (table + [ids[0]]) + ids[1..] == table + ids;
    var slots := [|table| + 1] + rest.slots;
    forall i | 0 <= i < |ids| ensures slots[i] == (|table| + i) % MaxTextures + 1 {
      if i > 0 {
        assert slots[i] == rest.slots[i - 1];
      }
    }
  }

  lemma FlushStep(table: seq<nat>, ids: seq<nat>, rest: Run)
    requires |table| == MaxTextures && ids != []
    requires RoundRobin([ids[0]], ids[1..], rest)
    ensures RoundRobin(table, ids, Run(rest.table, [1] + rest.slots, rest.flushes + 1))
  {
    assert [ids[0]] + ids[1..] == ids;
    var slots := [1] + rest.slots;
    forall i | 0 <= i < |ids| ensures slots[i] == (|table| + i) % MaxTextures + 1 {
      ShiftByBlock(i);
      if i > 0 {
        assert slots[i] == rest.slots[i - 1];
      }
    }
    var m := |ids|;
    ShiftByBlock(m - 1);
    var b := MaxTextures * ((m - 1) / MaxTextures);
    assert (table + ids)[MaxTextures + b..] == ids[b..];
  }

  /** Distinct textures submitted after a table of them are dealt their
      slots round-robin (see `RoundRobin`). */
  lemma {:induction false} DistinctSubmissions(table: seq<nat>, ids: seq<nat>)
    requires |table| <= MaxTextures
    requires Distinct(table + ids)
    ensures RoundRobin(table, ids, SubmitAll(table, ids))
    decreases ids
  {
    if ids == [] {
      assert table + ids == table;
    } else {
      var id := ids[0];
      assert id !in table by {
        assert (table + ids)[|table|] == id;
        forall k | 0 <= k < |table| ensures table[k] != id {
          assert (table + ids)[k] == table[k];
        }
      }
      ResolveNew(table, id);
      var r := Resolve(table, id);
      var rest := SubmitAll(r.table, ids[1..]);
      if |table| < MaxTextures {
        assert r.table + ids[1..] == table + ids;
        DistinctSubmissions(r.table, ids[1..]);
        AppendStep(table, ids, rest);
      } else {
        assert r.table + ids[1..] == ids;
        DistinctSuffix(table, ids);
        DistinctSubmissions(r.table, ids[1..]);
        FlushStep(table, ids, rest);
      }
    }
  }

  lemma FirstBlock(ids: seq<nat>, run: Run)
    requires |ids| <= MaxTextures && RoundRobin([], ids, run)
    ensures run.table == ids && run.flushes == 0
    ensures forall i :: 0 <= i < |ids| ==> run.slots[i] == i + 1
  {
    assert [] + ids == ids;
    forall i | 0 <= i < |ids| ensures run.slots[i] == i + 1 {
      BelowBlock(i);
    }
    if ids != [] {
      BelowBlock(|ids| - 1);
    }
  }

  /** Up to 32 distinct textures get slots 1..k in first-submission order,
      with no flush. */
  lemma FirstSubmissionOrder(ids: seq<nat>)
    requires Distinct(ids) && |ids| <= MaxTextures
    ensures var run := SubmitAll([], ids);
      run.table == ids && run.flushes == 0 && forall i :: 0 <= i < |ids| ==> run.slots[i] == i + 1
  {
    assert [] + ids == ids;
    DistinctSubmissions([], ids);
    FirstBlock(ids, SubmitAll([], ids));
  }

  lemma SecondBlockStart(ids: seq<nat>, run: Run)
    requires |ids| == MaxTextures + 1 && RoundRobin([], ids, run)
    ensures run.flushes == 1 && run.table == [ids[MaxTextures]] && run.slots[MaxTextures] == 1
  {
    assert [] + ids == ids;
    assert ids[MaxTextures..] == [ids[MaxTextures]];
  }

  /** A 33rd distinct texture flushes exactly once and leaves a table holding
      just itself, in slot 1. */
  lemma ThirtyThirdFlushes(ids: seq<nat>)
    requires Distinct(ids) && |ids| == MaxTextures + 1
    ensures var run := SubmitAll([], ids);
      run.flushes == 1 && run.table == [ids[MaxTextures]] && run.slots[MaxTextures] == 1
  {
    assert [] + ids == ids;
    DistinctSubmissions([], ids);
    SecondBlockStart(ids, SubmitAll([], ids));
  }
}
