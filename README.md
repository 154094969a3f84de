# CrawlingNPS cache layer, in Dafny

A model of the cache-or-fetch layer of `proj2_nps.py`, a crawler for the
national-site pages of nps.gov. The crawler keeps four JSON cache files:

- states: state name → state page URL;
- parks: state page URL → list of site URLs;
- info: site URL → the five fields of a site;
- nearby: postal code → raw MapQuest radius-search response.

Each cache function reloads its file on every call (`open_cache`). A missing
or unreadable file, or one that holds the JSON `null`, counts as "no file". On a hit the function answers from
the file. On a miss it fetches and parses, then writes the whole map back with
one key added. The states cache is the exception: any file that parses to a
value other than `null` is a hit as a whole, and a miss builds the complete name → URL dictionary and writes it.

The model has these parts:

- `Store` (store.dfy): the cache file as a class `JsonFile<V>`. Its `contents`
  field is `Option<map<string, V>>` (None: file missing or corrupt) and a ghost
  counter records the rewrites. `CacheOrFetch` is the shared hit/miss rule,
  stated once, with the lemmas about it.
- `Site` (site.dfy): the `NationalSite` record and the field-by-field fallback
  of its constructor. Also its `info()` line and the five-element list stored
  in the info cache.
- `Nearby` (nearby.dfy): how a search response is read and shown. It covers
  the placeholder substitution and the Python exceptions raised by a
  malformed response.
- `Nps` (nps.dfy): the four cache functions as methods over the files. The
  network and the HTML parser are one `Web` parameter: total functions from a
  URL to what the parser extracts there. The "Using Cache"/"Fetching" line
  each function prints is returned as a `Status`.
- `Prompt` (prompt.dfy): the input checks of the interactive loop.
- `Text` (text.dfy): lower-casing, the dash banner of `display`, and decimal
  numerals.

Three behaviours of the code are easy to miss, and the model keeps them:

- The files are reloaded on every call, not loaded once per process.
- A site whose postal code is missing is still passed to the nearby lookup.
  The key `None` is never found among the string keys of the loaded file, so
  such a call always fetches. Its response is stored under the key `"null"`,
  which `json.dump` writes for `None`, and replaces whatever was stored there.
  This is the one case where a stored entry is overwritten (see
  `Nps.GetNearbyPlaces`).
- A site's address is one field, "locality, region". City and region are not
  kept apart.

## Model

| member | source | states |
|---|---|---|
| `Store.JsonFile.Load` | proj2_nps.py:30-37 | `open_cache`: each call reads the file as it is now, None when it is missing, unreadable or holds `null` |
| `Store.OrEmpty` | proj2_nps.py:157-158 | `if d is None: d = {}`: the map written back holds exactly the keys a lookup would hit, with their stored values |
| `Store.JsonFile.Save` | proj2_nps.py:162-164 | saving replaces the whole file with the given map and counts one rewrite |
| `Store.CacheOrFetch` | proj2_nps.py:149-166 | a hit exactly when the file loaded and holds the key. Afterwards the file holds the key and the answer is its value. Keys are the old keys plus the key. Every old entry is kept. A miss answers with the produced value |
| `Store.CacheIdempotent` | proj2_nps.py:151-164 | a second call for the same key is a hit. It leaves the file unchanged and answers the first call's value, whatever its producer would give |
| `Store.ColdStoreIsEmpty` | proj2_nps.py:30-37 | a missing or corrupt file behaves exactly like a file holding `{}` |
| `Store.CacheWriteOnce` | proj2_nps.py:157-164 | a key already in the file keeps its value through a call for any key |
| `Site.FromPage` | proj2_nps.py:72-94 | address and zipcode are set together or are both None |
| `Site.AddressAllOrNothing` | proj2_nps.py:87-94 | address is set exactly when the footer, the address block and its locality, region and postal code are all found. Address is then "locality, region" and zipcode the postal code |
| `Site.FieldsAreIndependent` | proj2_nps.py:71-94 | name and category depend only on the header; phone, address and zipcode only on the footer |
| `Site.MissingPhoneOnly` | proj2_nps.py:81-86 | a page missing only the telephone yields the same record with phone None |
| `Site.MissingTitleOnly` | proj2_nps.py:72-75 | a header without its title link gives the same record with only the name None |
| `Site.MissingDesignationOnly` | proj2_nps.py:76-79 | a header without its designation gives the same record with only the category None |
| `Site.MissingMailingOnly` | proj2_nps.py:87-94 | a footer without the mailing address keeps the phone; only address and zipcode become None |
| `Site.CompletePage` | proj2_nps.py:71-94 | a page with every part present gives name, category and phone from it, address "locality, region" and zipcode the postal code |
| `Site.MissingHeaderOnly` | proj2_nps.py:71-79 | a page without the header block yields the same record with name and category None |
| `Site.Info` | proj2_nps.py:95-96 | the line is the name (or "None"), " (", the category, "): ", the address, " " and the zipcode, each placed at its own position. Its length is the sum of the four shown fields plus six |
| `Site.Encode` | proj2_nps.py:160 | a stored record has exactly five elements |
| `Site.Decode` | proj2_nps.py:153-154 | unpacking succeeds exactly on five-element records and raises ValueError otherwise |
| `Site.DecodeEncode` | proj2_nps.py:153-160 | a record written on a miss reads back on a hit as the same site, field by field in the same positions |
| `Site.EncodeDecode` | proj2_nps.py:153-154 | every five-element record is the encoding of the site it decodes to |
| `Nps.StateDictOf` | proj2_nps.py:125-128 | keys are exactly the lower-cased menu texts, and all are lower case |
| `Nps.StateDictValuesFromMenu` | proj2_nps.py:125-128 | every URL in the dictionary is BASE_URL + the href of a menu entry whose lower-cased text is its key |
| `Nps.StateDictLastWins` | proj2_nps.py:125-128 | a name keeps the URL of its last menu entry |
| `Nps.CollectStateUrls` | proj2_nps.py:120-128 | the loop over the menu items builds exactly `StateDictOf` of the menu |
| `Nps.BuildStateDict` | proj2_nps.py:112-134 | a file that parses to a non-null value is returned whole and is not written. Otherwise the dictionary built from the home page is returned and replaces the file (no merge) |
| `Nps.SiteInstance` | proj2_nps.py:149-166 | a hit leaves the file as it was. A miss writes the loaded map (or `{}`) plus the URL mapped to the record of the site parsed from the page, and answers that parsed site. Either way the file then holds the URL and the answer is the decoding of that stored record. A well-formed file stays well-formed and never raises |
| `Nps.GetSiteInstance` | proj2_nps.py:149-166 | the status and the new file follow the cache rule with the parsed page's record as the produced value. The answer is `SiteInstance`'s. The file is rewritten once on a miss and not at all on a hit |
| `Nps.SitesFor` | proj2_nps.py:186 | `[get_site_instance(u) for u in urls]`, stopping at the first exception. When no lookup raises it answers one site per URL |
| `Nps.SitesForKeys` | proj2_nps.py:186 | a listing that does not raise adds exactly the listed URLs to the info file |
| `Nps.SitesForKeepsEntries` | proj2_nps.py:186 | write-once across a listing: every entry of the info file before it is still there, unchanged |
| `Nps.SitesForInOrder` | proj2_nps.py:186 | a listing that does not raise gives one site per URL, in order. Site i is the decoding of the record the file then holds for URL i |
| `Nps.SitesForWellFormed` | proj2_nps.py:153-154 | over a file of five-element records a listing never raises, and the file stays well-formed |
| `Nps.SitesForStopsAtError` | proj2_nps.py:186 | once a lookup raises, the rest of the list is not looked up |
| `Nps.SitesForIdempotent` | proj2_nps.py:184-186 | listing the same URLs again from the resulting file changes nothing and returns the same sites |
| `Nps.SitesForAllHits` | proj2_nps.py:184-186 | URLs whose records are all stored are answered from the file alone, in order |
| `Nps.ParkUrls` | proj2_nps.py:193-197 | same length as the hrefs, and element i is BASE_URL + href i (document order) |
| `Nps.CollectParkUrls` | proj2_nps.py:193-197 | the append loop builds exactly `ParkUrls` of the hrefs |
| `Nps.GetSiteInstances` | proj2_nps.py:206 | the info file and the answer are those of `SitesFor`. The file is rewritten once per URL that was not stored before |
| `Nps.GetSitesForState` | proj2_nps.py:182-206 | the parks file follows the cache rule keyed by the state URL, with the state page's URLs as the produced list. The sites are `SitesFor` that list |
| `Nps.GetNearbyPlaces` | proj2_nps.py:223-258 | a hit exactly when the postal code is present and stored; the file is then unchanged. A miss stores the raw response under the postal code ("null" for none) only when it has "searchResults". For a present postal code that write is the shared cache rule, so nothing stored is replaced. The answer is `Answer` of the stored or fetched response |
| `Nps.JsonKey` | proj2_nps.py:246-248 | a postal code is its own key; a missing one (None) is written as the key "null" |
| `Nearby.ShownFieldIsPlaceholder` | proj2_nps.py:254-255 | a shown field is its placeholder exactly when the field is missing, empty, or already that text. Otherwise it is the raw value |
| `Nearby.ShownRow` | proj2_nps.py:252-256 | one result shows exactly four values |
| `Nearby.SubstitutePlaceholders` | proj2_nps.py:252-255 | slot i is the placeholder when field i is missing or "", else the raw value |
| `Nearby.SearchResults` | proj2_nps.py:228 | succeeds exactly on an object with "searchResults", and gives that member |
| `Nearby.Iterate` | proj2_nps.py:251 | `for result in results`: a list yields its items and a string its characters. An empty object yields nothing. A non-empty object yields its keys, and the first `result["fields"]` on such a key (line 253) raises TypeError; this is folded into the iteration. Any other value is not iterable and raises TypeError |
| `Nearby.FieldsOf` | proj2_nps.py:253 | succeeds exactly on an object whose "fields" member is an object, and then gives that member's map. A non-object raises TypeError, a missing "fields" KeyError, and a "fields" member that is not an object AttributeError at `result["fields"].keys()` (line 255) |
| `Nearby.RowsOf` | proj2_nps.py:251-256 | succeeds exactly when every result has object fields. It then gives one row per result, in order, each the shown row of its fields |
| `Nearby.RenderResults` | proj2_nps.py:251-256 | the loop over results computes exactly `RowsOf` |
| `Nearby.RowsOfStopsAtError` | proj2_nps.py:251-253 | the first malformed result decides the exception |
| `Nearby.Answer` | proj2_nps.py:228-258 | for a "searchResults" list of items: succeeds exactly when every item is an object with object "fields". It then shows one row per item in order, row j being the shown row of item j's fields, and returns the response itself, unchanged. A non-object response raises TypeError and a missing "searchResults" KeyError. A non-iterable results value raises TypeError, and so does a non-empty object or string. An empty object or string shows no rows |
| `Text.Lower` | proj2_nps.py:128 | same length; each letter A-Z becomes its lower-case letter and every other character is unchanged |
| `Text.LowerIdempotent` | proj2_nps.py:272 | lower-casing a lower-cased key changes nothing |
| `Text.LowerIgnoresCase` | proj2_nps.py:272 | two spellings that differ only in case lower-case alike |
| `Text.Dashes` | proj2_nps.py:261 | `"-" * n` has length n and only dashes |
| `Text.Display` | proj2_nps.py:260-263 | three lines: a dash rule as long as the string, the string, the same rule |
| `Text.Decimal` | proj2_nps.py:285 | the printed label is numeric and has no leading zero |
| `Text.DecimalRoundTrip` | proj2_nps.py:285-290 | reading a printed label back with `int` gives its number |
| `Prompt.ChooseState` | proj2_nps.py:271-281 | "exit" exits. Any other input is accepted exactly when its lower-cased form is a key, and then selects that key's URL |
| `Prompt.ChooseStateIgnoresCase` | proj2_nps.py:272 | "Michigan" and "michigan" (any case variants) choose the same state |
| `Prompt.DictionaryNamesAccepted` | proj2_nps.py:272 | a lower-case key typed as stored is accepted and gives its URL (every key the dictionary builder writes is lower case) |
| `Prompt.ChooseSite` | proj2_nps.py:289-296 | "exit" exactly quits and "back" exactly goes back. Otherwise a selection exactly when the input is numeric and 1 <= int <= number of sites. It selects index int - 1, which is within the list |
| `Prompt.MenuLabelSelects` | proj2_nps.py:284-296 | typing the label `[i+1]` printed before site i selects site i |

## Left out

- HTTP requests, the MapQuest call and the API key are foreign network I/O. They are the `Web` parameter: fixed functions of the URL (or origin). A query without an origin is `radiusSearch(None)`.
- HTML parsing with BeautifulSoup is an opaque library. What it extracts is an input: `SitePage`, the state menu links and the park-card hrefs. The site-page texts are taken with `.strip()` already applied, as the source strips them. The state menu text and both hrefs are taken as found, unstripped, as the source uses them, so a state key keeps any surrounding whitespace of its menu item.
- Parse failures that raise outside a `try` are not modelled: a missing state menu, a park card without a link, a response that is not JSON. They abort the run uncaught. The producers are total functions.
- File reading and writing and `json.dump`/`json.loads` are left out. Each file is the `contents` field, assumed to read back what was written. A readable file with a JSON value of another shape is not modelled: a top-level list, or info records holding non-strings. JSON numbers are integers only.
- Console output is left out. The status line is returned as `Status`, and the nearby lines as the four shown values per result. Neither the text of the `- name (category): address, city` line nor the lines printed before an exception are modelled.
- The `input()` loop of `__main__` and the `back_first_time` message suppression are console interaction. Only the two validation rules are modelled.
- Text.Lower: only ASCII letters are lower-cased, whereas Python's `str.lower` also handles other Unicode letters.
- Prompt.ChooseSite: only ASCII digits count as numeric, so two Unicode cases differ from Python. Non-ASCII decimal digits such as "３" or "٣" pass `isnumeric()` and `int()` parses them, so Python selects a site where the model re-prompts. Other numerals such as "²" or "½" pass `isnumeric()` but make `int()` raise ValueError, so Python crashes uncaught where the model re-prompts.
- Concurrency and file locking: the program is single-process and single-threaded.
