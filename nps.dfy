/**
 * The four cache functions of the national-site crawler. Each one reloads
 * its cache file, answers from it on a hit and otherwise fetches, parses and
 * writes the file back. The network and the HTML parser are the `Web`
 * parameter: fixed functions from a URL to what the parser extracts there.
 */
module Nps {
  import opened Wrappers
  import opened JsonValue
  import opened Text
  import opened Site
  import opened Store
  import opened Nearby

  const BaseUrl: string := "https://www.nps.gov"

  /** One `<li>` of the state menu on the home page: its whole text and its link's `href`, both unstripped. */
  datatype StateLink = StateLink(text: string, href: string)

  /**
   * What the crawler can learn from outside:
   * `home` is the state menu of BASE_URL's page, in document order;
   * `statePage(url)` the `href`s of the park cards of a state page, in document order;
   * `sitePage(url)` what the parser extracts from a site page;
   * `radiusSearch(origin)` the JSON the search API answers for an origin
   * (None when the site has no postal code: the query then has no origin).
   */
  datatype Web = Web(
    home: seq<StateLink>,
    statePage: string -> seq<string>,
    sitePage: string -> SitePage,
    radiusSearch: Option<string> -> Json)

  // ---------------------------------------------------------------- states

  /** The dictionary the loop of `build_state_url_dict` builds: later duplicates overwrite earlier ones. */
  function StateDictOf(links: seq<StateLink>): (dict: map<string, string>)
    ensures dict.Keys == set l | l in links :: Lower(l.text)
    ensures forall k :: k in dict ==> IsLowerCase(k)
  {
    if links == [] then map[]
    else
      var last := links[|links| - 1];
      var front := links[..|links| - 1];
      assert forall l :: l in links <==> l in front || l == last;
      StateDictOf(front)[Lower(last.text) := BaseUrl + last.href]
  }

  /** Every URL in the dictionary is BASE_URL + the href of a menu entry with that name. */
  lemma {:induction false} StateDictValuesFromMenu(links: seq<StateLink>, k: string)
    requires k in StateDictOf(links)
    ensures exists j :: 0 <= j < |links| && Lower(links[j].text) == k && StateDictOf(links)[k] == BaseUrl + links[j].href
  {
    var last := |links| - 1;
    if Lower(links[last].text) == k {
      assert Lower(links[last].text) == k && StateDictOf(links)[k] == BaseUrl + links[last].href;
    } else {
      var front := links[..last];
      StateDictValuesFromMenu(front, k);
      var j :| 0 <= j < |front| && Lower(front[j].text) == k && StateDictOf(front)[k] == BaseUrl + front[j].href;
      assert links[j] == front[j];
    }
  }

  /** The URL kept for a name is that of the last menu entry with that name. */
  lemma {:induction false} StateDictLastWins(links: seq<StateLink>, j: nat)
    requires j < |links|
    requires forall m :: j < m < |links| ==> Lower(links[m].text) != Lower(links[j].text)
    ensures StateDictOf(links)[Lower(links[j].text)] == BaseUrl + links[j].href
  {
    if j < |links| - 1 {
      StateDictLastWins(links[..|links| - 1], j);
    }
  }

  /** The loop over the `<li>` tags of the state menu. */
  method CollectStateUrls(links: seq<StateLink>) returns (dict: map<string, string>)
    ensures dict == StateDictOf(links)
  {
    dict := map[];
    for i := 0 to |links|
      invariant dict == StateDictOf(links[..i])
    {
      assert links[..i + 1][..i] == links[..i];
      dict := dict[Lower(links[i].text) := BaseUrl + links[i].href];
    }
    assert links[..|links|] == links;
  }

  /**
   * `build_state_url_dict`: any file that parses to a value other than null
   * is a hit as a whole, even `{}`; otherwise the complete dictionary is built from the home page
   * and replaces the file.
   */
  method BuildStateDict(states: JsonFile<string>, web: Web) returns (status: Status, dict: map<string, string>)
    modifies states
    ensures old(states.Load()).Some? ==>
      status == UsingCache && dict == old(states.Load()).value &&
      states.contents == old(states.contents) && states.saves == old(states.saves)
    ensures old(states.Load()).None? ==>
      status == Fetching && dict == StateDictOf(web.home) &&
      states.contents == Some(dict) && states.saves == old(states.saves) + 1
  {
    var loaded := states.Load();
    if loaded.Some? {
      return UsingCache, loaded.value;
    }
    status := Fetching;
    dict := CollectStateUrls(web.home);
    states.Save(dict);
  }

  // ----------------------------------------------------------------- sites

  /** The info cache file as `open_cache` loads it. */
  type InfoFile = Option<map<string, InfoRecord>>

  /** Every record in the info file has the five fields a hit unpacks. */
  predicate InfoWellFormed(loaded: InfoFile) {
    forall k :: k in OrEmpty(loaded) ==> |OrEmpty(loaded)[k]| == 5
  }

  /** The info file after a lookup, and the site it answered with (or the exception it raised). */
  datatype SiteAnswer = SiteAnswer(file: InfoFile, site: Result<NationalSite>)

  /** What `get_site_instance(url)` does to the info file and what it returns. */
  function SiteInstance(loaded: InfoFile, web: Web, url: string): (answer: SiteAnswer)
    ensures answer.file.Some? && url in answer.file.value
    ensures answer.site == Decode(answer.file.value[url])
    ensures InfoWellFormed(loaded) ==> InfoWellFormed(answer.file) && answer.site.Ok?
    ensures Hit(loaded, url) ==> answer.file == loaded
    ensures !Hit(loaded, url) ==>
      answer.file == Some(OrEmpty(loaded)[url := Encode(FromPage(web.sitePage(url)))]) &&
      answer.site == Ok(FromPage(web.sitePage(url)))
  {
    var fetched := FromPage(web.sitePage(url));
    var step := CacheOrFetch(loaded, url, Encode(fetched));
    DecodeEncode(fetched);
    SiteAnswer(step.file, if step.status == Fetching then Ok(fetched) else Decode(step.value))
  }

  /**
   * `get_site_instance`: a hit rebuilds the site from its stored record; a
   * miss parses the page, stores its five fields and returns the parsed site.
   */
  method GetSiteInstance(info: JsonFile<InfoRecord>, web: Web, url: string)
    returns (status: Status, site: Result<NationalSite>)
    modifies info
    ensures status == CacheOrFetch(old(info.Load()), url, Encode(FromPage(web.sitePage(url)))).status
    ensures SiteAnswer(info.contents, site) == SiteInstance(old(info.Load()), web, url)
    ensures info.saves == old(info.saves) + (if status == Fetching then 1 else 0)
  {
    var loaded := info.Load();
    if Hit(loaded, url) {
      status := UsingCache;
      site := Decode(loaded.value[url]);
    } else {
      status := Fetching;
      var fetched := FromPage(web.sitePage(url));
      info.Save(OrEmpty(loaded)[url := Encode(fetched)]);
      site := Ok(fetched);
    }
  }

  /** The info file after a list of lookups, and the sites answered (or the first exception). */
  datatype SitesAnswer = SitesAnswer(file: InfoFile, sites: Result<seq<NationalSite>>)

  /** `[get_site_instance(u) for u in urls]`, which stops at the first exception. */
  function SitesFor(loaded: InfoFile, web: Web, urls: seq<string>): (answer: SitesAnswer)
    ensures answer.sites.Ok? ==> |answer.sites.value| == |urls|
  {
    if urls == [] then SitesAnswer(loaded, Ok([]))
    else
      var before := SitesFor(loaded, web, urls[..|urls| - 1]);
      if before.sites.Err? then before
      else
        var step := SiteInstance(before.file, web, urls[|urls| - 1]);
        if step.site.Err? then SitesAnswer(step.file, Err(step.site.error))
        else SitesAnswer(step.file, Ok(before.sites.value + [step.site.value]))
  }

  /** Write-once across a listing: every entry of the file before is still there, unchanged. */
  lemma {:induction false} SitesForKeepsEntries(loaded: InfoFile, web: Web, urls: seq<string>)
    ensures forall k :: k in OrEmpty(loaded) ==>
      k in OrEmpty(SitesFor(loaded, web, urls).file) &&
      OrEmpty(SitesFor(loaded, web, urls).file)[k] == OrEmpty(loaded)[k]
  {
    if urls != [] {
      SitesForKeepsEntries(loaded, web, urls[..|urls| - 1]);
    }
  }

  /** A listing that does not raise adds exactly the listed URLs to the file. */
  lemma {:induction false} SitesForKeys(loaded: InfoFile, web: Web, urls: seq<string>)
    requires SitesFor(loaded, web, urls).sites.Ok?
    ensures OrEmpty(SitesFor(loaded, web, urls).file).Keys == OrEmpty(loaded).Keys + (set u | u in urls)
  {
    if urls != [] {
      var front := urls[..|urls| - 1];
      assert forall u :: u in urls <==> u in front || u == urls[|urls| - 1];
      SitesForKeys(loaded, web, front);
    }
  }

  /**
   * A listing that does not raise answers one site per URL, in order: site i
   * is what the file then holds for URL i.
   */
  lemma {:induction false} SitesForInOrder(loaded: InfoFile, web: Web, urls: seq<string>)
    requires SitesFor(loaded, web, urls).sites.Ok?
    ensures var answer := SitesFor(loaded, web, urls);
      && |answer.sites.value| == |urls|
      && forall i :: 0 <= i < |urls| ==>
           urls[i] in OrEmpty(answer.file) && Decode(OrEmpty(answer.file)[urls[i]]) == Ok(answer.sites.value[i])
  {
    if urls != [] {
      var front := urls[..|urls| - 1];
      var last := urls[|urls| - 1];
      SitesForInOrder(loaded, web, front);
      var before := SitesFor(loaded, web, front);
      var step := SiteInstance(before.file, web, last);
      var answer := SitesFor(loaded, web, urls);
      assert answer.file == step.file;
      assert answer.sites.value == before.sites.value + [step.site.value];
      var fetched := FromPage(web.sitePage(last));
      var cached := CacheOrFetch(before.file, last, Encode(fetched));
      assert step.file == cached.file;
      forall i | 0 <= i < |urls|
        ensures urls[i] in OrEmpty(answer.file) && Decode(OrEmpty(answer.file)[urls[i]]) == Ok(answer.sites.value[i])
      {
        if i < |front| {
          assert urls[i] == front[i];
          assert urls[i] in OrEmpty(before.file);
          assert OrEmpty(cached.file)[urls[i]] == OrEmpty(before.file)[urls[i]];
        }
      }
    }
  }

  /** Over a file of five-element records a listing never raises, and the file stays well-formed. */
  lemma {:induction false} SitesForWellFormed(loaded: InfoFile, web: Web, urls: seq<string>)
    requires InfoWellFormed(loaded)
    ensures SitesFor(loaded, web, urls).sites.Ok? && InfoWellFormed(SitesFor(loaded, web, urls).file)
  {
    if urls != [] {
      SitesForWellFormed(loaded, web, urls[..|urls| - 1]);
    }
  }

  /** One more lookup extends the answer for a prefix by the answer for the next URL. */
  lemma SitesForStep(loaded: InfoFile, web: Web, urls: seq<string>, i: nat)
    requires i < |urls|
    ensures var before := SitesFor(loaded, web, urls[..i]);
            var step := SiteInstance(before.file, web, urls[i]);
            SitesFor(loaded, web, urls[..i + 1]) ==
              if before.sites.Err? then before
              else if step.site.Err? then SitesAnswer(step.file, Err(step.site.error))
              else SitesAnswer(step.file, Ok(before.sites.value + [step.site.value]))
  {
    assert urls[..i + 1][..i] == urls[..i];
  }

  /** Once a prefix of the lookups raises, the whole list raises the same way and leaves the same file. */
  lemma {:induction false} SitesForStopsAtError(loaded: InfoFile, web: Web, urls: seq<string>, n: nat)
    requires n <= |urls|
    requires SitesFor(loaded, web, urls[..n]).sites.Err?
    ensures SitesFor(loaded, web, urls) == SitesFor(loaded, web, urls[..n])
    decreases |urls| - n
  {
    if n < |urls| {
      SitesForStep(loaded, web, urls, n);
      SitesForStopsAtError(loaded, web, urls, n + 1);
    } else {
      assert urls[..n] == urls;
    }
  }

  /**
   * Listing the same sites again from the file the first listing left is all
   * hits: the file stays as it is and the same sites come back in the same order.
   */
  lemma SitesForIdempotent(loaded: InfoFile, web: Web, urls: seq<string>)
    requires SitesFor(loaded, web, urls).sites.Ok?
    ensures var first := SitesFor(loaded, web, urls);
            SitesFor(first.file, web, urls) == first
  {
    var first := SitesFor(loaded, web, urls);
    SitesForInOrder(loaded, web, urls);
    SitesForKeys(loaded, web, urls);
    if urls != [] {
      SitesForNonEmptyFile(loaded, web, urls);
    }
    SitesForAllHits(first.file, web, urls, first.sites.value, |urls|);
    assert urls[..|urls|] == urls;
    assert first.sites.value[..|urls|] == first.sites.value;
  }

  /** After at least one lookup the file exists. */
  lemma SitesForNonEmptyFile(loaded: InfoFile, web: Web, urls: seq<string>)
    requires urls != []
    ensures SitesFor(loaded, web, urls).file.Some?
  {
    var before := SitesFor(loaded, web, urls[..|urls| - 1]);
    if before.sites.Err? {
      assert urls[..|urls| - 1] != [];
      SitesForNonEmptyFile(loaded, web, urls[..|urls| - 1]);
    }
  }

  /** Every prefix of a list whose records are all in the file is answered from the file alone. */
  lemma {:induction false} SitesForAllHits(file: InfoFile, web: Web, urls: seq<string>, sites: seq<NationalSite>, n: nat)
    requires n <= |urls| == |sites|
    requires forall i :: 0 <= i < |urls| ==> urls[i] in OrEmpty(file) && Decode(OrEmpty(file)[urls[i]]) == Ok(sites[i])
    requires urls != [] ==> file.Some?
    ensures SitesFor(file, web, urls[..n]) == SitesAnswer(file, Ok(sites[..n]))
  {
    if n > 0 {
      SitesForAllHits(file, web, urls, sites, n - 1);
      assert urls[..n][..n - 1] == urls[..n - 1];
      assert sites[..n - 1] + [sites[n - 1]] == sites[..n];
    }
  }

  /** The keys a series of lookups added, one per fetch. */
  function NewKeys(now: InfoFile, before: InfoFile): set<string> {
    OrEmpty(now).Keys - OrEmpty(before).Keys
  }

  lemma NewKeysAddOne(before: InfoFile, mid: InfoFile, after: InfoFile, url: string)
    requires OrEmpty(before).Keys <= OrEmpty(mid).Keys
    requires url !in OrEmpty(mid)
    requires OrEmpty(after).Keys == OrEmpty(mid).Keys + {url}
    ensures |NewKeys(after, before)| == |NewKeys(mid, before)| + 1
  {
    assert NewKeys(after, before) == NewKeys(mid, before) + {url};
  }

  /** The loop `for park_tag in park_tags: park_urls.append(BASE_URL + href)`. */
  function ParkUrls(hrefs: seq<string>): (urls: seq<string>)
    ensures |urls| == |hrefs|
    ensures forall i :: 0 <= i < |hrefs| ==> urls[i] == BaseUrl + hrefs[i]
  {
    if hrefs == [] then [] else ParkUrls(hrefs[..|hrefs| - 1]) + [BaseUrl + hrefs[|hrefs| - 1]]
  }

  method CollectParkUrls(hrefs: seq<string>) returns (urls: seq<string>)
    ensures urls == ParkUrls(hrefs)
  {
    urls := [];
    for i := 0 to |hrefs|
      invariant urls == ParkUrls(hrefs[..i])
    {
      assert hrefs[..i + 1][..i] == hrefs[..i];
      urls := urls + [BaseUrl + hrefs[i]];
    }
    assert hrefs[..|hrefs|] == hrefs;
  }

  /**
   * `[get_site_instance(u) for u in urls]`: the sites are looked up one by
   * one, in order, and the first exception ends the list.
   */
  method GetSiteInstances(info: JsonFile<InfoRecord>, web: Web, urls: seq<string>)
    returns (sites: Result<seq<NationalSite>>)
    modifies info
    ensures SitesAnswer(info.contents, sites) == SitesFor(old(info.Load()), web, urls)
    ensures info.saves == old(info.saves) + |NewKeys(info.contents, old(info.contents))|
  {
    var found: seq<NationalSite> := [];
    for i := 0 to |urls|
      invariant SitesFor(old(info.contents), web, urls[..i]) == SitesAnswer(info.contents, Ok(found))
      invariant info.saves == old(info.saves) + |NewKeys(info.contents, old(info.contents))|
    {
      ghost var mid := info.contents;
      var status, site := GetSiteInstance(info, web, urls[i]);
      SiteInstancesStep(old(info.contents), mid, web, urls, i, found, status, SiteAnswer(info.contents, site));
      if site.Err? {
        return Err(site.error);
      }
      found := found + [site.value];
    }
    assert urls[..|urls|] == urls;
    sites := Ok(found);
  }

  /**
   * One turn of the lookup loop: the answer for the next prefix (or for the
   * whole list, once a lookup raises), and one more new key exactly when the
   * lookup fetched.
   */
  lemma SiteInstancesStep(start: InfoFile, mid: InfoFile, web: Web, urls: seq<string>, i: nat,
                          found: seq<NationalSite>, status: Status, answer: SiteAnswer)
    requires i < |urls|
    requires SitesFor(start, web, urls[..i]) == SitesAnswer(mid, Ok(found))
    requires status == CacheOrFetch(mid, urls[i], Encode(FromPage(web.sitePage(urls[i])))).status
    requires answer == SiteInstance(mid, web, urls[i])
    ensures answer.site.Err? ==> SitesFor(start, web, urls) == SitesAnswer(answer.file, Err(answer.site.error))
    ensures answer.site.Ok? ==>
      SitesFor(start, web, urls[..i + 1]) == SitesAnswer(answer.file, Ok(found + [answer.site.value]))
    ensures |NewKeys(answer.file, start)| == |NewKeys(mid, start)| + (if status == Fetching then 1 else 0)
  {
    SitesForStep(start, web, urls, i);
    SitesForKeepsEntries(start, web, urls[..i]);
    if status == Fetching {
      NewKeysAddOne(start, mid, answer.file, urls[i]);
    }
    if answer.site.Err? {
      SitesForStopsAtError(start, web, urls, i + 1);
    }
  }

  /**
   * `get_sites_for_state`: the park list of the state comes from the parks
   * file or, on a miss, from the state page (and is then stored under the
   * state URL); every listed site is then looked up in order.
   */
  method GetSitesForState(parks: JsonFile<seq<string>>, info: JsonFile<InfoRecord>, web: Web, stateUrl: string)
    returns (status: Status, sites: Result<seq<NationalSite>>)
    modifies parks, info
    ensures var step := CacheOrFetch(old(parks.Load()), stateUrl, ParkUrls(web.statePage(stateUrl)));
      && status == step.status
      && parks.contents == step.file
      && parks.saves == old(parks.saves) + (if status == Fetching then 1 else 0)
      && SitesAnswer(info.contents, sites) == SitesFor(old(info.Load()), web, step.value)
    ensures info.saves == old(info.saves) + |NewKeys(info.contents, old(info.contents))|
  {
    var loaded := parks.Load();
    var urls: seq<string>;
    if Hit(loaded, stateUrl) {
      status := UsingCache;
      urls := loaded.value[stateUrl];
    } else {
      status := Fetching;
      urls := CollectParkUrls(web.statePage(stateUrl));
      parks.Save(OrEmpty(loaded)[stateUrl := urls]);
    }
    sites := GetSiteInstances(info, web, urls);
  }

  // ---------------------------------------------------------------- nearby

  /** The key `json.dump` writes for a postal code; Python's None becomes "null". */
  function JsonKey(zipcode: Option<string>): (key: string)
    ensures zipcode.Some? ==> key == zipcode.value
    ensures zipcode.None? ==> key == "null"
  {
    if zipcode.Some? then zipcode.value else "null"
  }

  /**
   * `get_nearby_places`: answer from the nearby file when the site's postal
   * code is a key of it; otherwise query the search API and, once the
   * response has "searchResults", store it whole under the postal code. The
   * results are then shown with placeholders and the response returned as
   * it is.
   */
  method GetNearbyPlaces(nearby: JsonFile<Json>, web: Web, zipcode: Option<string>)
    returns (status: Status, answer: Result<NearbyAnswer>)
    modifies nearby
    ensures status == UsingCache <==> zipcode.Some? && Hit(old(nearby.Load()), zipcode.value)
    ensures status == UsingCache ==>
      nearby.contents == old(nearby.contents) && nearby.saves == old(nearby.saves) &&
      answer == Answer(old(nearby.Load()).value[zipcode.value])
    ensures status == Fetching && SearchResults(web.radiusSearch(zipcode)).Err? ==>
      nearby.contents == old(nearby.contents) && nearby.saves == old(nearby.saves) &&
      answer == Err(SearchResults(web.radiusSearch(zipcode)).error)
    ensures status == Fetching && SearchResults(web.radiusSearch(zipcode)).Ok? ==>
      nearby.contents == Some(OrEmpty(old(nearby.Load()))[JsonKey(zipcode) := web.radiusSearch(zipcode)]) &&
      nearby.saves == old(nearby.saves) + 1 &&
      answer == Answer(web.radiusSearch(zipcode))
    ensures zipcode.Some? && status == Fetching && SearchResults(web.radiusSearch(zipcode)).Ok? ==>
      nearby.contents == CacheOrFetch(old(nearby.Load()), zipcode.value, web.radiusSearch(zipcode)).file
  {
    var loaded := nearby.Load();
    var response: Json;
    var results: Result<Json>;
    if zipcode.Some? && Hit(loaded, zipcode.value) {
      status := UsingCache;
      response := loaded.value[zipcode.value];
      results := SearchResults(response);
      if results.Err? {
        return status, Err(results.error);
      }
    } else {
      status := Fetching;
      response := web.radiusSearch(zipcode);
      results := SearchResults(response);
      if results.Err? {
        return status, Err(results.error);
      }
      nearby.Save(OrEmpty(loaded)[JsonKey(zipcode) := response]);
    }
    var items := Iterate(results.value);
    if items.Err? {
      return status, Err(items.error);
    }
    var rows := RenderResults(items.value);
    if rows.Err? {
      return status, Err(rows.error);
    }
    answer := Ok(NearbyAnswer(response, rows.value));
  }
}
