/**
 * The YouTube streaming adapter: the per-video caption cache it fills as the
 * page requests caption URLs, and `getSubs`, which picks the URL for a
 * requested language and turns the downloaded timedtext events into cues.
 */
module YoutubeService {
  import opened Cues
  import opened YoutubeTracks
  import SubsModel

  class Youtube {
    /** video id -> (language -> caption URL), languages in insertion order */
    var subCache: map<string, LangDict>
    var currentLang: string

    /** Each video's cache is keyed by the language its URLs deliver, and
        holds only URLs of that video. */
    ghost predicate Valid()
      reads this
    {
      forall vid :: vid in subCache ==>
        && WellKeyed(subCache[vid])
        && forall i :: 0 <= i < |subCache[vid]| ==> Param(subCache[vid][i].href, "v") == vid
    }

    constructor ()
      ensures Valid() && subCache == map[] && currentLang == ""
    {
      subCache := map[];
      currentLang := "";
    }

    /** The cache of one video (`this.subCache[videoId] || {}`). */
    function CacheFor(videoId: string): LangDict
      reads this
    {
      if videoId in subCache then subCache[videoId] else []
    }

    /** The page requested caption URL `href`: it is stored under its `v`
        parameter and its track language (`tlang`, else `lang`), overwriting
        that language in place; every other language of the video and every
        other video keep what they had. */
    method HandleCaptionsData(href: Locator)
      requires Valid()
      modifies this`subCache
      ensures Valid()
      ensures
        var vid := Param(href, "v");
        subCache == old(subCache)[vid := Put(old(CacheFor(vid)), TrackLanguage(href), href)]
      ensures Lookup(CacheFor(Param(href, "v")), TrackLanguage(href)) == Some(href)
      ensures forall lang :: lang != TrackLanguage(href) ==>
        Lookup(CacheFor(Param(href, "v")), lang) == Lookup(old(CacheFor(Param(href, "v"))), lang)
      ensures forall vid :: vid != Param(href, "v") ==> CacheFor(vid) == old(CacheFor(vid))
    {
      var lang := TrackLanguage(href);
      var videoId := Param(href, "v");
      var forVideo := CacheFor(videoId);
      PutLookup(forVideo, lang, href);
      PutWellKeyed(forVideo, href);
      subCache := subCache[videoId := Put(forVideo, lang, href)];
      assert forall i :: 0 <= i < |subCache[videoId]| ==> Param(subCache[videoId][i].href, "v") == videoId by {
        forall i | 0 <= i < |subCache[videoId]|
          ensures Param(subCache[videoId][i].href, "v") == videoId
        {
          if i < |forVideo| && subCache[videoId][i] != Entry(lang, href) {
            assert subCache[videoId][i] == forVideo[i];
          }
        }
      }
    }

    /** The player switched its caption language: remember it and report it to
        the subtitle store. */
    method HandleCaptionsChanges(lang: string, store: SubsModel.SubsStore) returns (fx: seq<SubsModel.Effect>)
      modifies this`currentLang, store`subsTitle, store`rawSubs
      ensures currentLang == lang && store.subsTitle == lang
      ensures store.rawSubs == if lang == "" then [] else old(store.rawSubs)
      ensures fx ==
        (if lang != "" && lang != store.customLabel then [SubsModel.FetchSubs(lang)] else [])
        + (if store.rawSubs != old(store.rawSubs) then [SubsModel.UpdateCurrentSubs] else [])
        + (if store.dualSubEnabled && store.dualSubLanguage == SubsModel.Auto
           then [SubsModel.FetchDualSubs(SubsModel.Auto)] else [])
      ensures SubsModel.FetchSubs(lang) in fx <==> lang != "" && lang != store.customLabel
    {
      currentLang := lang;
      fx := store.LanguageChanged(lang);
    }

    /** `getSubs(label)` on the video `videoId`; `fetch` is the network: what
        the timedtext endpoint answers for a URL. Returns the URL chosen (if
        any) and the cues, or None when decoding the answer throws. */
    method GetSubs(videoId: string, code: string, fetch: Locator -> seq<TimedTextEvent>)
      returns (res: Resolution, subs: Option<seq<Cue>>)
      requires Valid()
      ensures res == Resolve(CacheFor(videoId), code)
      ensures code != "" && code != "auto" ==>
        && (res.NoFetch? <==> CacheFor(videoId) == [])
        && (res.Fetch? ==> TrackLanguage(res.locator) == code)
      ensures res.NoFetch? ==> subs == Some([])
      ensures res.Fetch? ==> subs == Decode(fetch(res.locator))
      ensures code == "" ==> res.NoFetch?
    {
      if code == "" {
        return NoFetch, Some([]);
      }
      var cacheForVideo := CacheFor(videoId);
      if code != "auto" {
        LanguageResolution(cacheForVideo, code);
      }

      var targetLabel := code;
      var baseHref: Option<Locator> := None;
      if code == "auto" {
        if |cacheForVideo| == 0 {
          return NoFetch, Some([]);
        }
        var anyHref := cacheForVideo[0].href;
        var originalLang := Param(anyHref, "lang");
        if originalLang != "" {
          targetLabel := originalLang;
          var i := FirstOriginal(cacheForVideo, originalLang);
          if i < |cacheForVideo| {
            baseHref := Some(cacheForVideo[i].href);
          } else {
            var cleanUrl := DeleteParam(anyHref, "tlang");
            cleanUrl := SetParam(cleanUrl, "lang", originalLang);
            baseHref := Some(cleanUrl);
          }
        } else {
          return NoFetch, Some([]);
        }
      }

      if baseHref.None? {
        baseHref := Lookup(cacheForVideo, targetLabel);
        if baseHref.None? {
          if |cacheForVideo| == 0 {
            return NoFetch, Some([]);
          }
          var anyUrl := cacheForVideo[0].href;
          var currentLang := TrackLanguage(anyUrl);
          if targetLabel != "" && targetLabel != currentLang {
            anyUrl := SetParam(anyUrl, "tlang", targetLabel);
          } else {
            anyUrl := DeleteParam(anyUrl, "tlang");
          }
          baseHref := Some(anyUrl);
        }
      }

      res := Fetch(baseHref.value);
      subs := Decode(fetch(baseHref.value));
    }
  }
}
