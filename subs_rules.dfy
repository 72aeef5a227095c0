/**
 * The reducers and filters of the subtitle store wiring, as functions of
 * (old state, payload).
 */
module SubsRules {
  import opened Cues

  /** The auto-pause window: pause when the first current cue ends within
      this many milliseconds. */
  const AutoPauseWindowMs := 250

  // ---------------------------------------------------------------------
  // rawSubsAdded: merging a transcript fragment into the raw list
  // ---------------------------------------------------------------------

  /** What the merge reducer does with the store: a new list, `undefined`
      (the store keeps its value), or a throw while reading the first cue of
      an empty fragment (the store keeps its value too). */
  datatype MergeOutcome = Updated(subs: seq<Cue>) | Skipped | Failed

  /** The previous last cue, closed: its end is moved back to its start. */
  function Seal(c: Cue): Cue {
    c.(end := c.start)
  }

  /** Whether merging `incoming` after `existing` takes the sealing branch. */
  predicate SealsBoundary(existing: seq<Cue>, incoming: seq<Cue>) {
    existing != [] && incoming != [] &&
    existing[|existing| - 1].text != incoming[0].text && existing[|existing| - 1].start != incoming[0].start
  }

  function MergeFragment(existing: seq<Cue>, incoming: seq<Cue>): (r: MergeOutcome)
    ensures existing == [] ==> r == Updated(incoming)
    ensures existing != [] && incoming == [] ==> r == Failed
    ensures existing != [] && incoming != [] ==> (r.Updated? <==> SealsBoundary(existing, incoming))
    ensures existing != [] && incoming != [] && !r.Updated? ==> r == Skipped
    ensures r.Updated? && existing != [] ==>
      && |r.subs| == |existing| + |incoming|
      && (forall i :: 0 <= i < |existing| - 1 ==> r.subs[i] == existing[i])
      && r.subs[|existing| - 1] == Seal(existing[|existing| - 1])
      && (forall i :: 0 <= i < |incoming| ==> r.subs[|existing| + i] == incoming[i])
  {
    if |existing| == 0 then
      assert existing + incoming == incoming;
      Updated(existing + incoming)
    else
      var lastSub := existing[|existing| - 1];
      if |incoming| == 0 then Failed
      else if SealsBoundary(existing, incoming) then
        Updated(existing[..|existing| - 1] + [Seal(lastSub)] + incoming)
      else Skipped
  }

  /** The list with its last cue sealed. */
  function SealLast(s: seq<Cue>): seq<Cue> {
    if s == [] then [] else s[..|s| - 1] + [Seal(s[|s| - 1])]
  }

  /** Whenever the reducer appends, the result is the old list with its last
      cue sealed, followed by the fragment. */
  lemma MergeAppends(existing: seq<Cue>, incoming: seq<Cue>)
    requires existing == [] || SealsBoundary(existing, incoming)
    ensures MergeFragment(existing, incoming) == Updated(SealLast(existing) + incoming)
  {
    if existing == [] {
      assert SealLast(existing) + incoming == incoming;
    }
  }

  /** Feeding two fragments one after the other gives the same list as feeding
      their concatenation at once, except that the last cue of the first
      fragment is sealed; the two agree exactly when that cue already ends at
      its start. */
  lemma {:induction false} MergeTwice(s: seq<Cue>, f1: seq<Cue>, f2: seq<Cue>)
    requires f1 != [] && f2 != []
    requires s != [] ==> SealsBoundary(s, f1)
    requires SealsBoundary(f1, f2)
    ensures MergeFragment(s, f1 + f2) == Updated(SealLast(s) + f1 + f2)
    ensures MergeFragment(s, f1).Updated?
    ensures MergeFragment(MergeFragment(s, f1).subs, f2) == Updated(SealLast(s) + SealLast(f1) + f2)
    ensures MergeFragment(MergeFragment(s, f1).subs, f2) == MergeFragment(s, f1 + f2)
            <==> f1[|f1| - 1].end == f1[|f1| - 1].start
  {
    var p := SealLast(s);
    assert (f1 + f2)[0] == f1[0];
    MergeAppends(s, f1 + f2);
    assert p + (f1 + f2) == p + f1 + f2;
    MergeAppends(s, f1);
    var m1 := p + f1;
    assert m1[|m1| - 1] == f1[|f1| - 1];
    assert SealsBoundary(m1, f2);
    MergeAppends(m1, f2);
    assert m1[..|m1| - 1] == p + f1[..|f1| - 1];
    assert SealLast(m1) == p + SealLast(f1);
    var last := f1[|f1| - 1];
    assert f1 == f1[..|f1| - 1] + [last];
    if last.end == last.start {
      assert Seal(last) == last;
    } else {
      var k := |p| + |f1| - 1;
      assert (p + SealLast(f1) + f2)[k] == Seal(last);
      assert (p + f1 + f2)[k] == last;
    }
  }

  /** A fragment that repeats the text of the last cue is not appended: the
      reducer returns `undefined` and the list stays as it was. */
  lemma RepeatedTextIsSkipped()
    ensures MergeFragment([Cue(0, 1000, "Hello")], [Cue(1000, 2000, "Hello")]) == Skipped
  {
  }

  // ---------------------------------------------------------------------
  // $currentSubs / $currentDualSubs: keep the existing list when equal
  // ---------------------------------------------------------------------

  /** A store value with its identity: `version` changes exactly when the
      store takes a new object, which is what wakes its subscribers. */
  datatype Tracked = Tracked(subs: seq<Cue>, version: nat)

  /** `JSON.stringify(existing) === JSON.stringify(new) ? existing : new`. */
  function KeepIfEqual(held: Tracked, computed: seq<Cue>): (r: Tracked)
    ensures r.subs == computed
    ensures r == held <==> held.subs == computed
    ensures r.version == held.version || r.version == held.version + 1
  {
    if held.subs == computed then held else Tracked(computed, held.version + 1)
  }

  /** Applying the same computed list twice changes nothing the second time. */
  lemma KeepIfEqualIdempotent(held: Tracked, computed: seq<Cue>)
    ensures KeepIfEqual(KeepIfEqual(held, computed), computed) == KeepIfEqual(held, computed)
  {
  }

  // ---------------------------------------------------------------------
  // Auto-pause filter
  // ---------------------------------------------------------------------

  /** Pause exactly when the first current cue ends strictly inside the next
      250 ms and auto-pause is on; never on an empty list or with it off. */
  function ShouldAutoPause(current: seq<Cue>, timeMs: int, autoPause: bool): (r: bool)
    ensures r <==> current != [] && autoPause && current[0].end - AutoPauseWindowMs < timeMs < current[0].end
  {
    if |current| > 0 then
      var timeDiff := current[0].end - timeMs;
      autoPause && timeDiff < AutoPauseWindowMs && timeDiff > 0
    else false
  }
}
