/**
 * The YouTube track cache, the language resolver and the timedtext decoder,
 * as functions over values. A caption URL is abstracted to the map of its
 * query parameters (a `Locator`); the per-video cache is an association list
 * kept in insertion order, as a JavaScript object keeps its string keys.
 */
module YoutubeTracks {
  import opened Cues

  type Locator = map<string, string>

  /** `searchParams.get(key)`, with a missing parameter read as "" (every use
      in the adapter treats null and "" alike). */
  function Param(loc: Locator, key: string): string {
    if key in loc then loc[key] else ""
  }

  /** `searchParams.set(key, value)`. */
  function SetParam(loc: Locator, key: string, value: string): Locator {
    loc[key := value]
  }

  /** `searchParams.delete(key)`. */
  function DeleteParam(loc: Locator, key: string): Locator {
    loc - {key}
  }

  /** The language a caption URL delivers: its `tlang` if set, else its `lang`. */
  function TrackLanguage(loc: Locator): (r: string)
    ensures Param(loc, "tlang") != "" ==> r == Param(loc, "tlang")
    ensures Param(loc, "tlang") == "" ==> r == Param(loc, "lang")
    ensures r == "" <==> Param(loc, "tlang") == "" && Param(loc, "lang") == ""
  {
    if Param(loc, "tlang") != "" then Param(loc, "tlang") else Param(loc, "lang")
  }

  // ---------------------------------------------------------------------
  // Track cache for one video: language -> locator, in insertion order
  // ---------------------------------------------------------------------

  datatype Entry = Entry(lang: string, href: Locator)
  type LangDict = seq<Entry>

  ghost predicate KeysUnique(d: LangDict) {
    forall i, j :: 0 <= i < j < |d| ==> d[i].lang != d[j].lang
  }

  /** Every entry is stored under the language its own URL delivers. */
  ghost predicate WellKeyed(d: LangDict) {
    && KeysUnique(d)
    && forall i :: 0 <= i < |d| ==> d[i].lang == TrackLanguage(d[i].href)
  }

  /** Position of key `k`, or |d| when `k` is not a key. */
  function IndexOfKey(d: LangDict, k: string): (i: nat)
    ensures i <= |d|
    ensures forall j :: 0 <= j < i ==> d[j].lang != k
    ensures i < |d| ==> d[i].lang == k
  {
    if d == [] then 0
    else if d[0].lang == k then 0
    else 1 + IndexOfKey(d[1..], k)
  }

  /** `cacheForVideo[k]`. */
  function Lookup(d: LangDict, k: string): (r: Option<Locator>)
    ensures r.None? <==> forall i :: 0 <= i < |d| ==> d[i].lang != k
    ensures KeysUnique(d) ==> forall i :: 0 <= i < |d| && d[i].lang == k ==> r == Some(d[i].href)
  {
    var i := IndexOfKey(d, k);
    if i < |d| then Some(d[i].href) else None
  }

  /** `cacheForVideo[k] = v`: an existing key keeps its position and takes the
      new value; a new key goes to the end. */
  function Put(d: LangDict, k: string, v: Locator): (r: LangDict)
    ensures (forall i :: 0 <= i < |d| ==> d[i].lang != k) ==> r == d + [Entry(k, v)]
    ensures KeysUnique(d) && (exists i :: 0 <= i < |d| && d[i].lang == k) ==>
      |r| == |d| && forall i :: 0 <= i < |d| ==> r[i] == (if d[i].lang == k then Entry(k, v) else d[i])
  {
    var i := IndexOfKey(d, k);
    if i < |d| then d[i := Entry(k, v)] else d + [Entry(k, v)]
  }

  /** After a Put, `k` maps to `v`, every other key maps to what it did, and
      the keys stay unique. */
  lemma PutLookup(d: LangDict, k: string, v: Locator)
    requires KeysUnique(d)
    ensures KeysUnique(Put(d, k, v))
    ensures Lookup(Put(d, k, v), k) == Some(v)
    ensures forall k' :: k' != k ==> Lookup(Put(d, k, v), k') == Lookup(d, k')
  {
    var r := Put(d, k, v);
    var i := IndexOfKey(d, k);
    assert KeysUnique(r);
    if i < |d| { assert r[i] == Entry(k, v); } else { assert r[|d|] == Entry(k, v); }
    forall k' | k' != k
      ensures Lookup(r, k') == Lookup(d, k')
    {
      var j := IndexOfKey(d, k');
      if j < |d| {
        assert r[j] == d[j];
      } else {
        assert forall m :: 0 <= m < |r| ==> r[m].lang != k' by {
          forall m | 0 <= m < |r| ensures r[m].lang != k' {
            if m < |d| && m != i { assert r[m] == d[m]; }
          }
        }
      }
    }
  }

  /** Recording a URL whose language is its own track language keeps the
      cache well keyed. */
  lemma PutWellKeyed(d: LangDict, href: Locator)
    requires WellKeyed(d)
    ensures WellKeyed(Put(d, TrackLanguage(href), href))
  {
    PutLookup(d, TrackLanguage(href), href);
  }

  // ---------------------------------------------------------------------
  // Language resolution (getSubs, before the fetch)
  // ---------------------------------------------------------------------

  /** What getSubs fetches: nothing (it returns an empty cue list), or one URL. */
  datatype Resolution = NoFetch | Fetch(locator: Locator)

  /** A URL of the untranslated track in language `lang`. */
  predicate IsOriginal(loc: Locator, lang: string) {
    Param(loc, "lang") == lang && Param(loc, "tlang") == ""
  }

  /** Position of the first cached URL that is the untranslated `lang` track,
      or |d| when there is none (the `find` over the cached values). */
  function FirstOriginal(d: LangDict, lang: string): (i: nat)
    ensures i <= |d|
    ensures forall j :: 0 <= j < i ==> !IsOriginal(d[j].href, lang)
    ensures i < |d| ==> IsOriginal(d[i].href, lang)
  {
    if d == [] then 0
    else if IsOriginal(d[0].href, lang) then 0
    else 1 + FirstOriginal(d[1..], lang)
  }

  /** The resolution for a code, given the cache of the current video. */
  function Resolve(d: LangDict, code: string): (r: Resolution)
    ensures code == "" ==> r == NoFetch
    ensures r.Fetch? ==> d != []
    ensures code != "" && code != "auto" && d != [] ==> r.Fetch?
  {
    if code == "" then NoFetch
    else if code == "auto" then ResolveOriginal(d)
    else ResolveLanguage(d, code)
  }

  /** "auto": the original-language track, inferred from the `lang` of the
      first cached URL. */
  function ResolveOriginal(d: LangDict): (r: Resolution)
    ensures r.NoFetch? <==> d == [] || Param(d[0].href, "lang") == ""
    ensures r.Fetch? ==> IsOriginal(r.locator, Param(d[0].href, "lang"))
  {
    if d == [] then NoFetch
    else
      var original := Param(d[0].href, "lang");
      if original == "" then NoFetch
      else
        var i := FirstOriginal(d, original);
        if i < |d| then Fetch(d[i].href)
        else Fetch(SetParam(DeleteParam(d[0].href, "tlang"), "lang", original))
  }

  /** A language code: the cached URL for it, else the first cached URL with
      `tlang` set to the code (or removed when the code is already that URL's
      language). */
  function ResolveLanguage(d: LangDict, code: string): (r: Resolution)
    ensures r.NoFetch? <==> d == []
    ensures Lookup(d, code).Some? ==> r == Fetch(Lookup(d, code).value)
    ensures Lookup(d, code).None? && d != [] && code != "" && code != TrackLanguage(d[0].href) ==>
      r == Fetch(SetParam(d[0].href, "tlang", code)) && TrackLanguage(r.locator) == code
    ensures Lookup(d, code).None? && d != [] && (code == "" || code == TrackLanguage(d[0].href)) ==>
      r == Fetch(DeleteParam(d[0].href, "tlang"))
  {
    var i := IndexOfKey(d, code);
    if i < |d| then Fetch(d[i].href)
    else if d == [] then NoFetch
    else
      var any := d[0].href;
      if code != "" && code != TrackLanguage(any) then Fetch(SetParam(any, "tlang", code))
      else Fetch(DeleteParam(any, "tlang"))
  }

  /** "auto" issues no fetch exactly when the cache is empty or the first cached
      URL carries no `lang`; otherwise it yields an untranslated URL in that
      language. */
  lemma OriginalResolution(d: LangDict)
    ensures Resolve(d, "auto").NoFetch? <==> d == [] || Param(d[0].href, "lang") == ""
    ensures Resolve(d, "auto").Fetch? ==>
      var loc := Resolve(d, "auto").locator;
      IsOriginal(loc, Param(d[0].href, "lang")) && TrackLanguage(loc) == Param(d[0].href, "lang")
  {
  }

  /** "auto" returns the first cached untranslated URL in the original language
      verbatim when there is one, and otherwise the first cached URL with its
      translation parameter dropped. */
  lemma OriginalPrefersCachedTrack(d: LangDict, i: nat)
    requires i < |d| && Param(d[0].href, "lang") != ""
    ensures IsOriginal(d[i].href, Param(d[0].href, "lang")) &&
            (forall j :: 0 <= j < i ==> !IsOriginal(d[j].href, Param(d[0].href, "lang")))
            ==> Resolve(d, "auto") == Fetch(d[i].href)
    ensures (forall j :: 0 <= j < |d| ==> !IsOriginal(d[j].href, Param(d[0].href, "lang")))
            ==> Resolve(d, "auto") == Fetch(DeleteParam(d[0].href, "tlang"))
  {
    var original := Param(d[0].href, "lang");
    var k := FirstOriginal(d, original);
    if IsOriginal(d[i].href, original) && (forall j :: 0 <= j < i ==> !IsOriginal(d[j].href, original)) {
      assert k == i;
    }
    if forall j :: 0 <= j < |d| ==> !IsOriginal(d[j].href, original) {
      assert SetParam(DeleteParam(d[0].href, "tlang"), "lang", original) == DeleteParam(d[0].href, "tlang");
    }
  }

  /** For a language code in a well-keyed cache: no fetch only on an empty
      cache; a cached code is returned verbatim; a missing code becomes a
      translation request of the first cached URL; and either way the URL
      delivers the requested language. */
  lemma LanguageResolution(d: LangDict, code: string)
    requires WellKeyed(d)
    requires code != "" && code != "auto"
    ensures Resolve(d, code).NoFetch? <==> d == []
    ensures Lookup(d, code).Some? ==> Resolve(d, code) == Fetch(Lookup(d, code).value)
    ensures Lookup(d, code).None? && d != [] ==> Resolve(d, code) == Fetch(SetParam(d[0].href, "tlang", code))
    ensures Resolve(d, code).Fetch? ==> TrackLanguage(Resolve(d, code).locator) == code
  {
    var i := IndexOfKey(d, code);
    if i == |d| && d != [] {
      assert d[0].lang != code;
    }
  }

  /** The cache of the scenario where an English track and its Spanish
      translation were observed, in either order: "auto" picks the English
      track without a translation parameter. */
  lemma AutoPicksUntranslatedTrack()
    ensures
      var en: Locator := map["v" := "abc", "lang" := "en"];
      var es: Locator := map["v" := "abc", "lang" := "en", "tlang" := "es"];
      && Resolve([Entry("en", en), Entry("es", es)], "auto") == Fetch(en)
      && Resolve([Entry("es", es), Entry("en", en)], "auto") == Fetch(en)
  {
    var en: Locator := map["v" := "abc", "lang" := "en"];
    var es: Locator := map["v" := "abc", "lang" := "en", "tlang" := "es"];
    assert !IsOriginal(es, "en");
    assert FirstOriginal([Entry("es", es), Entry("en", en)], "en") == 1 by {
      assert [Entry("es", es), Entry("en", en)][1..] == [Entry("en", en)];
    }
  }

  /** With nothing cached "auto" fetches nothing; once an original English URL
      has been recorded, the same request resolves to it. */
  lemma AutoRetriesAfterRecord(en: Locator)
    requires IsOriginal(en, "en")
    ensures Resolve([], "auto") == NoFetch
    ensures Resolve(Put([], TrackLanguage(en), en), "auto") == Fetch(en)
  {
  }

  // ---------------------------------------------------------------------
  // Timedtext events -> cues
  // ---------------------------------------------------------------------

  datatype Seg = Seg(utf8: string, tOffsetMs: int)

  /** One entry of the timedtext `events` array; `segs` may be absent. */
  datatype TimedTextEvent = TimedTextEvent(tStartMs: int, dDurationMs: int, segs: Option<seq<Seg>>)

  /** `segs.map(seg => seg.utf8).join("")`. */
  function JoinSegs(segs: seq<Seg>): string {
    if segs == [] then "" else segs[0].utf8 + JoinSegs(segs[1..])
  }

  /** Joining is in order: the text of two runs of segments is the text of
      the first followed by the text of the second. */
  lemma {:induction false} JoinSegsAppend(a: seq<Seg>, b: seq<Seg>)
    ensures JoinSegs(a + b) == JoinSegs(a) + JoinSegs(b)
  {
    if a == [] {
      assert a + b == b;
    } else {
      assert (a + b)[1..] == a[1..] + b;
      JoinSegsAppend(a[1..], b);
    }
  }

  /** One event as a cue. None when `segs` is present but empty: reading
      `tOffsetMs` of its missing last element throws. */
  function DecodeEvent(e: TimedTextEvent): (r: Option<Cue>)
    ensures r.None? <==> e.segs == Some([])
    ensures r.Some? ==> r.value.start == e.tStartMs
    ensures e.segs.None? ==> r == Some(Cue(e.tStartMs, e.tStartMs, ""))
    ensures e.segs.Some? && e.segs.value != [] ==>
      var last := e.segs.value[|e.segs.value| - 1];
      && r.value.text == JoinSegs(e.segs.value)
      && r.value.end - r.value.start == (if last.tOffsetMs != 0 then last.tOffsetMs else e.dDurationMs)
  {
    match e.segs
    case None => Some(Cue(e.tStartMs, e.tStartMs, ""))
    case Some(segs) =>
      if segs == [] then None
      else
        var last := segs[|segs| - 1];
        var end := if last.tOffsetMs != 0 then last.tOffsetMs + e.tStartMs else e.tStartMs + e.dDurationMs;
        Some(Cue(e.tStartMs, end, JoinSegs(segs)))
  }

  /** `events.map(...)`: one cue per event, in order; None when any event
      throws. */
  function Decode(events: seq<TimedTextEvent>): (r: Option<seq<Cue>>)
    ensures r.Some? <==> forall i :: 0 <= i < |events| ==> events[i].segs != Some([])
    ensures r.Some? ==> |r.value| == |events|
    ensures r.Some? ==> forall i :: 0 <= i < |events| ==> DecodeEvent(events[i]) == Some(r.value[i])
  {
    if events == [] then Some([])
    else
      match DecodeEvent(events[0])
      case None => None
      case Some(c) =>
        match Decode(events[1..])
        case None => None
        case Some(rest) => Some([c] + rest)
  }

  /** A cue decoded from an event with non-negative duration and offsets never
      ends before it starts. */
  lemma DecodedCueOrdered(e: TimedTextEvent)
    requires e.dDurationMs >= 0
    requires e.segs.Some? ==> forall i :: 0 <= i < |e.segs.value| ==> e.segs.value[i].tOffsetMs >= 0
    ensures DecodeEvent(e).Some? ==> DecodeEvent(e).value.start <= DecodeEvent(e).value.end
  {
  }
}
