/**
 * The subtitle store: the stores wired together by the reactive graph, as one
 * object with one method per event. Each event method returns the effects it
 * starts; the effects' bodies are outside this model and their results come
 * back as further events.
 */
module SubsModel {
  import opened Cues
  import opened SubsRules

  /** The effects the wiring starts, with the payload each is given. */
  datatype Effect =
    | FetchSubs(language: string)                               // fetchSubsFx
    | FetchDualSubs(language: string)                           // fetchDualSubsFx
    | UpdateCurrentSubs                                         // updateCurrentSubsFx
    | UpdateCurrentDualSubs                                     // updateCurrentDualSubsFx
    | AutoPause                                                 // autoPauseFx
    | ChangeDelay(delay: int)                                   // subsDelayChangeFx
    | Resync(rawSubs: seq<Cue>, subsDelay: int, delay: int)     // subsResyncFx
    | DetectLanguage(subs: seq<Cue>)                            // subsLanguageDetectFx

  /** The effects whose result replaces the raw list wholesale. */
  datatype RawSource = Fetched | Resynced | CustomLoaded

  /** The dual-language token meaning "the original-language track". */
  const Auto := "auto"

  /** Dual-track fetch gating: only while enabled and with a language chosen.
      (The wiring maps the language to itself, "auto" included.) */
  function DualFetch(enabled: bool, language: string): (fx: seq<Effect>)
    ensures FetchDualSubs(language) in fx <==> enabled && language != ""
    ensures forall e :: e in fx ==> e == FetchDualSubs(language)
  {
    if enabled && language != "" then [FetchDualSubs(language)] else []
  }

  class SubsStore {
    /** The label under which user-loaded subtitles are shown; they are never
        fetched from the streaming service. */
    const customLabel: string

    var rawSubs: seq<Cue>
    var currentSubs: Tracked
    var subsTitle: string
    var subsDelay: int
    var subsLanguage: string
    var rawDualSubs: seq<Cue>
    var currentDualSubs: Tracked

    // settings read by the wiring
    var autoPause: bool
    var dualSubEnabled: bool
    var dualSubLanguage: string
    var translateLanguage: string

    constructor (customLabel: string, autoPause: bool, dualSubEnabled: bool,
                 dualSubLanguage: string, translateLanguage: string)
      ensures this.customLabel == customLabel
      ensures rawSubs == [] && currentSubs == Tracked([], 0)
      ensures subsTitle == "" && subsDelay == 0 && subsLanguage == ""
      ensures rawDualSubs == [] && currentDualSubs == Tracked([], 0)
      ensures this.autoPause == autoPause && this.dualSubEnabled == dualSubEnabled
      ensures this.dualSubLanguage == dualSubLanguage && this.translateLanguage == translateLanguage
    {
      this.customLabel := customLabel;
      rawSubs, currentSubs := [], Tracked([], 0);
      subsTitle, subsDelay, subsLanguage := "", 0, "";
      rawDualSubs, currentDualSubs := [], Tracked([], 0);
      this.autoPause, this.dualSubEnabled := autoPause, dualSubEnabled;
      this.dualSubLanguage, this.translateLanguage := dualSubLanguage, translateLanguage;
    }

    /** The streaming service reports a new subtitle language ("" for none).
        The title follows it; a language is fetched unless it is the custom
        label; no language empties the raw list; a dual track in "auto" mode
        is fetched again. */
    method LanguageChanged(language: string) returns (fx: seq<Effect>)
      modifies this`subsTitle, this`rawSubs
      ensures subsTitle == language
      ensures rawSubs == if language == "" then [] else old(rawSubs)
      ensures fx ==
        (if language != "" && language != customLabel then [FetchSubs(language)] else [])
        + (if rawSubs != old(rawSubs) then [UpdateCurrentSubs] else [])
        + (if dualSubEnabled && dualSubLanguage == Auto then [FetchDualSubs(Auto)] else [])
      ensures FetchSubs(language) in fx <==> language != "" && language != customLabel
    {
      subsTitle := language;
      fx := [];
      if language != "" {
        if language != customLabel {
          fx := [FetchSubs(language)];
        }
      } else {
        var before := rawSubs;
        rawSubs := [];
        if before != rawSubs {
          fx := [UpdateCurrentSubs];
        }
      }
      if dualSubEnabled && dualSubLanguage == Auto {
        fx := fx + [FetchDualSubs(Auto)];
      }
    }

    /** A reload emits the stored title as a language change, but only when
        there is a title and raw subtitles; either way the title and the raw
        list are left as they were. */
    method ReloadRequested() returns (fx: seq<Effect>)
      modifies this`subsTitle, this`rawSubs
      ensures subsTitle == old(subsTitle) && rawSubs == old(rawSubs)
      ensures old(subsTitle) == "" || old(rawSubs) == [] ==> fx == []
      ensures old(subsTitle) != "" && old(rawSubs) != [] ==>
        fx == (if subsTitle != customLabel then [FetchSubs(subsTitle)] else [])
              + (if dualSubEnabled && dualSubLanguage == Auto then [FetchDualSubs(Auto)] else [])
    {
      if subsTitle != "" && |rawSubs| > 0 {
        fx := LanguageChanged(subsTitle);
      } else {
        fx := [];
      }
    }

    /** A fetch, a resync or a custom-subtitle load finished: its list replaces
        the raw list; custom subtitles also set the title to the custom label. */
    method RawSubsLoaded(source: RawSource, subs: seq<Cue>) returns (fx: seq<Effect>)
      modifies this`rawSubs, this`subsTitle
      ensures rawSubs == subs
      ensures subsTitle == if source == CustomLoaded then customLabel else old(subsTitle)
      ensures fx == [UpdateCurrentSubs]
    {
      rawSubs := subs;
      if source == CustomLoaded {
        subsTitle := customLabel;
      }
      fx := [UpdateCurrentSubs];
    }

    /** A transcript fragment arrived: merged into the raw list when the merge
        reducer produces a list, otherwise the raw list is left as it was. */
    method RawSubsAdded(incoming: seq<Cue>) returns (fx: seq<Effect>)
      modifies this`rawSubs
      ensures MergeFragment(old(rawSubs), incoming).Updated? ==>
        rawSubs == MergeFragment(old(rawSubs), incoming).subs && fx == [UpdateCurrentSubs]
      ensures !MergeFragment(old(rawSubs), incoming).Updated? ==> rawSubs == old(rawSubs) && fx == []
    {
      var outcome := MergeFragment(rawSubs, incoming);
      if outcome.Updated? {
        rawSubs := outcome.subs;
        fx := [UpdateCurrentSubs];
      } else {
        fx := [];
      }
    }

    /** A playback-time tick at `timeMs`: recompute the current cues, pause
        when the first current cue is about to end, and recompute the current
        dual cues while the dual track is enabled. */
    method TimeUpdate(timeMs: int) returns (fx: seq<Effect>)
      ensures fx ==
        [UpdateCurrentSubs]
        + (if ShouldAutoPause(currentSubs.subs, timeMs, autoPause) then [AutoPause] else [])
        + (if dualSubEnabled then [UpdateCurrentDualSubs] else [])
      ensures AutoPause in fx <==>
        currentSubs.subs != [] && autoPause && 0 < currentSubs.subs[0].end - timeMs < AutoPauseWindowMs
      ensures !autoPause ==> AutoPause !in fx
      ensures UpdateCurrentDualSubs in fx <==> dualSubEnabled
    {
      fx := [UpdateCurrentSubs];
      if ShouldAutoPause(currentSubs.subs, timeMs, autoPause) {
        fx := fx + [AutoPause];
      }
      if dualSubEnabled {
        fx := fx + [UpdateCurrentDualSubs];
      }
    }

    /** The current cues were recomputed (by the update or the auto-pause
        effect): the held list is kept when equal. `notified` says whether the
        store took a new value. */
    method CurrentSubsComputed(subs: seq<Cue>) returns (notified: bool)
      modifies this`currentSubs
      ensures currentSubs == KeepIfEqual(old(currentSubs), subs)
      ensures currentSubs.subs == subs
      ensures notified <==> old(currentSubs.subs) != subs
      ensures !notified <==> currentSubs == old(currentSubs)
    {
      notified := currentSubs.subs != subs;
      currentSubs := KeepIfEqual(currentSubs, subs);
    }

    /** The current dual cues were recomputed: same rule as the primary track. */
    method CurrentDualSubsComputed(subs: seq<Cue>) returns (notified: bool)
      modifies this`currentDualSubs
      ensures currentDualSubs == KeepIfEqual(old(currentDualSubs), subs)
      ensures notified <==> old(currentDualSubs.subs) != subs
      ensures !notified <==> currentDualSubs == old(currentDualSubs)
    {
      notified := currentDualSubs.subs != subs;
      currentDualSubs := KeepIfEqual(currentDualSubs, subs);
    }

    /** The delay button: ask for a new delay and for a resync of the raw list
        with the stored delay and the pressed one. */
    method DelayButtonPressed(delay: int) returns (fx: seq<Effect>)
      ensures fx == [ChangeDelay(delay), Resync(rawSubs, subsDelay, delay)]
    {
      fx := [ChangeDelay(delay), Resync(rawSubs, subsDelay, delay)];
    }

    method DelayChanged(delay: int)
      modifies this`subsDelay
      ensures subsDelay == delay
    {
      subsDelay := delay;
    }

    /** The displayed list changed: detect its language when it is not empty. */
    method SubsChanged(subs: seq<Cue>) returns (fx: seq<Effect>)
      ensures fx == if subs != [] then [DetectLanguage(subs)] else []
    {
      fx := if |subs| > 0 then [DetectLanguage(subs)] else [];
    }

    method LanguageDetected(language: string)
      modifies this`subsLanguage
      ensures subsLanguage == language
    {
      subsLanguage := language;
    }

    method AutoPauseChanged(enabled: bool)
      modifies this`autoPause
      ensures autoPause == enabled
    {
      autoPause := enabled;
    }

    /** The dual-subtitle switch. A store only signals a real change. Turning
        it on fetches the dual language if one is chosen; turning it off
        empties the raw dual list. */
    method DualSubEnabledChanged(enabled: bool) returns (fx: seq<Effect>)
      modifies this`dualSubEnabled, this`rawDualSubs
      ensures dualSubEnabled == enabled
      ensures enabled == old(dualSubEnabled) ==> fx == [] && rawDualSubs == old(rawDualSubs)
      ensures enabled != old(dualSubEnabled) ==> fx == DualFetch(enabled, dualSubLanguage)
      ensures enabled != old(dualSubEnabled) && !enabled ==> rawDualSubs == []
      ensures enabled ==> rawDualSubs == old(rawDualSubs)
    {
      if enabled == dualSubEnabled {
        fx := [];
      } else {
        dualSubEnabled := enabled;
        fx := DualFetch(enabled, dualSubLanguage);
        if !enabled {
          rawDualSubs := [];
        }
      }
    }

    /** The dual language setting changed: fetch it while the dual track is on. */
    method DualSubLanguageChanged(language: string) returns (fx: seq<Effect>)
      modifies this`dualSubLanguage
      ensures dualSubLanguage == language
      ensures fx == if language == old(dualSubLanguage) then [] else DualFetch(dualSubEnabled, language)
    {
      if language == dualSubLanguage {
        fx := [];
      } else {
        dualSubLanguage := language;
        fx := DualFetch(dualSubEnabled, language);
      }
    }

    /** The translation language changed: the dual language is fetched again
        while the dual track is on. */
    method TranslateLanguageChanged(language: string) returns (fx: seq<Effect>)
      modifies this`translateLanguage
      ensures translateLanguage == language
      ensures fx == if language == old(translateLanguage) then [] else DualFetch(dualSubEnabled, dualSubLanguage)
    {
      if language == translateLanguage {
        fx := [];
      } else {
        translateLanguage := language;
        fx := DualFetch(dualSubEnabled, dualSubLanguage);
      }
    }

    /** A dual fetch finished: its list replaces the raw dual list, and the
        current dual cues are recomputed while the dual track is on. */
    method DualSubsFetched(subs: seq<Cue>) returns (fx: seq<Effect>)
      modifies this`rawDualSubs
      ensures rawDualSubs == subs
      ensures fx == if dualSubEnabled then [UpdateCurrentDualSubs] else []
    {
      rawDualSubs := subs;
      fx := if dualSubEnabled then [UpdateCurrentDualSubs] else [];
    }
  }
}
