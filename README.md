# OpenArticleGauge license detection, modelled in Dafny

OpenArticleGauge works out the license of a scholarly article from the web
pages of its publisher. Each publisher plugin has two jobs:

- It says whether it handles an article. It does this by matching the
  article's URLs against a fixed list of domain prefixes (`supports_url`,
  `supports`).
- It scans the fetched page for literal license statements from a fixed
  table and records a license with provenance (`license_detect`).

This project models two pieces of that logic.

- **The publisher plugin dispatch** (`openarticlegauge/plugins/rsc.py`,
  `frontiers.py`, `coaction.py`, `springerlink.py`, `acs.py`). The five
  files hold the same code with different tables.
  - `plugin_engine.dfy` models that code once, as module `PluginEngine`,
    parameterised by a `Registry` that holds the plugin's name, version,
    `base_urls` and ordered `lic_statements`.
  - The files `rsc.dfy`, `frontiers.dfy`, `coaction.dfy`, `springerlink.dfy`
    and `acs.dfy` instantiate the engine with each file's constants. They
    prove the per-publisher facts: which URLs are supported, the shape of
    the table, and the test scenarios.
  - `supports_url` and `supports` are pure searches, so they are modelled as
    functions.
  - `license_detect` changes the article record in place. It is the method
    `PluginEngine.LicenseDetect`, which takes an `ArticleRecord` and updates
    its fields, with a `for` loop over the provider's URLs.
- **The BioMed Central extractor** `page_license` (`src/plugins/bmc.py`),
  in `bmc.dfy`, module `Bmc`. It is the one statement matcher whose code this
  model covers.
  - It is a method over a `Record` class whose `data` dictionary it updates.
  - The loop is the statement scan, proved against the spec function
    `Outcome`.
  - The lemmas about `Outcome` state which statement wins, which fields the
    license gets, and what in the record changes.

Supporting modules:
- `wrappers.dfy` has `Option`.
- `json.dfy` has the `Value` type for Python dictionaries, lists, strings
  and booleans.
- `text.dfy` has prefix and substring tests and `StripScheme`. `StripScheme`
  is a scheme-stripping stand-in for `clean_url`. It is used by the generic
  lemmas `SupportsHttpPrefixed`, `SupportsPlainPrefixed` and
  `UnsupportedPlain`, by `Rsc.SupportsRecleans`, and by every lemma about a
  concrete URL.

The base class `openarticlegauge.plugin.Plugin` is not part of this model,
so three of its members appear only as parameters or assumptions.

- **`clean_url`** is the function parameter `clean`. Nothing is assumed
  about it except where a lemma says so.
- **`clean_urls`** is ASSUMED to apply `clean_url` to each URL and keep the
  order (`PluginEngine.CleanUrls`).
- **`simple_extract`** is the function parameter `extract`. It maps the
  statements, the URL and the current license list to the new license list.
  - `PluginEngine.SimpleExtract` applies it to the record's license list.
    Nothing else in the record changes.
  - That method also appends the call `(statements, url)` to the ghost trace
    `extractCalls`.
  - The tests' expectations of `simple_extract` are stated only as the
    assumption `PluginEngine.ExtractsAsTested`. A lemma that uses them has
    it as a precondition.

Three behaviours of `page_license` differ from a natural reading of the
plugin scheme, in which the first matching statement wins, each license is
appended to a list, and the description names the page's URL. This model
follows the code:
- **Last match wins.** In `page_license` the loop over the statements never
  breaks, so a later matching statement overwrites an earlier one.
- **Replace, not append.** `page_license` assigns `record['bibjson']['license']`
  a single license object, replacing any earlier value. With the same page
  content and time stamp, a second run gives the same record as the first
  (`Bmc.PageLicenseIdempotent`). In the source a second run reads the clock
  again, so only `provenance.date` changes: a rerun at a later time gives
  what a single run at that time gives (`Bmc.PageLicenseRerun`).
- **A literal "source_url".** The provenance description of `page_license`
  contains the text `source_url` itself, not the URL.

## Model

| member | source | states |
|---|---|---|
| PluginEngine.SupportsUrl | openarticlegauge/plugins/rsc.py:36-43 | `supports_url`: no ensures of its own; characterised by SupportsUrlIff, SupportedByPrefix and UnsupportedByPrefixes |
| PluginEngine.Supports | openarticlegauge/plugins/rsc.py:23-34 | `supports`: no ensures of its own; characterised by SupportsIff and SupportsNoUrls |
| PluginEngine.SupportedUrls | openarticlegauge/plugins/rsc.py:73-76 | the URLs the loop hands to `simple_extract`: no ensures of its own; characterised by SupportedUrlsMembers, SupportedUrlsCount, SupportedUrlsAppend, SupportedUrlsNone and SupportedUrlsAll |
| PluginEngine.Replay | openarticlegauge/plugins/rsc.py:73-76 | the license list after `simple_extract` has run on each URL in turn: no ensures of its own; tied to the loop by DetectStep and LicenseDetect |
| Text.StartsWith | openarticlegauge/plugins/rsc.py:41 | Python's `str.startswith`: a predicate, no ensures; it holds exactly when the prefix is an initial segment of the string (Dafny's `<=` on sequences) |
| Text.IsSubstring | src/plugins/bmc.py:39 | Python's `statement in r.content`: a predicate, no ensures; the literal, case-sensitive test that the statement occurs at some position of the content |
| PluginEngine.StartsWithAny | openarticlegauge/plugins/rsc.py:40-43 | the ordered, short-circuiting prefix scan is true exactly when the string starts with some listed prefix |
| PluginEngine.CleanUrls | openarticlegauge/plugins/rsc.py:28 | assumption: `clean_urls` keeps the length and order and cleans each URL with `clean_url` |
| PluginEngine.AnySupported | openarticlegauge/plugins/rsc.py:30-34 | the early-return scan of the cleaned URLs is true exactly when some one of them is supported |
| PluginEngine.SupportsUrlIff | openarticlegauge/plugins/rsc.py:36-43 | `supports_url(u)` holds iff `clean_url(u)` starts with some `base_urls[i]` |
| PluginEngine.SupportedByPrefix | openarticlegauge/plugins/rsc.py:40-42 | one matching prefix is enough for `supports_url` |
| PluginEngine.UnsupportedByPrefixes | openarticlegauge/plugins/rsc.py:40-43 | with no matching prefix, `supports_url` is false |
| PluginEngine.SupportsUrlOrderIrrelevant | openarticlegauge/plugins/rsc.py:40-43 | two prefix lists with the same members give the same `supports_url`, whatever their order or repetitions |
| PluginEngine.SupportsIff | openarticlegauge/plugins/rsc.py:23-34 | `supports(p)` holds iff `p` has a `url` list and some URL in it, cleaned, passes `supports_url` |
| PluginEngine.SupportsOne | openarticlegauge/plugins/rsc.py:23-43 | for a provider with one URL, `supports` is `supports_url` of the cleaned URL, so that URL is cleaned twice |
| PluginEngine.SupportsHttpPrefixed | openarticlegauge/plugins/rsc.py:23-43 | with a scheme-stripping `clean_url`, an `http://` URL of form prefix + rest is supported, for a prefix that does not begin with 'h' |
| PluginEngine.SupportsPlainPrefixed | openarticlegauge/plugins/rsc.py:23-43 | with a scheme-stripping `clean_url`, a URL of form prefix + rest with no scheme is supported, for a prefix that does not begin with 'h' |
| PluginEngine.UnsupportedPlain | openarticlegauge/plugins/rsc.py:23-43 | with a scheme-stripping `clean_url`, a URL that does not begin with 'h' and starts with no prefix is rejected by `supports_url`, and also by `supports`, with or without `http://` |
| PluginEngine.SupportsNoUrls | openarticlegauge/plugins/rsc.py:28 | a provider with no `url` key or an empty list is not supported |
| PluginEngine.SupportsRawUrls | openarticlegauge/plugins/rsc.py:28-41 | if `clean_url` is idempotent on the listed URLs, then `supports` means "some listed URL is supported" |
| PluginEngine.CallsFor | openarticlegauge/plugins/rsc.py:73-76 | the call log has one entry per URL, in order, each with the same statement table |
| PluginEngine.SupportedUrlsAppend | openarticlegauge/plugins/rsc.py:73-76 | the URLs passed on for a concatenation are those for each part, concatenated, so the order is kept |
| PluginEngine.SupportedUrlsMembers | openarticlegauge/plugins/rsc.py:73-76 | an URL is passed on iff it is listed and `supports_url` holds for it |
| PluginEngine.SupportedUrlsCount | openarticlegauge/plugins/rsc.py:73-76 | a supported URL is passed on as many times as it is listed, an unsupported one never |
| PluginEngine.SupportedUrlsNone | openarticlegauge/plugins/rsc.py:73-76 | with no supported URL, nothing is passed on |
| PluginEngine.SupportedUrlsAll | openarticlegauge/plugins/rsc.py:73-76 | with every URL supported, all are passed on, in list order |
| PluginEngine.SimpleExtract | openarticlegauge/plugins/rsc.py:76 | one `simple_extract` call changes only the license list (to `extract` of the old list) and logs `(statements, url)` |
| PluginEngine.DetectStep | openarticlegauge/plugins/rsc.py:73-76 | one loop turn adds a call and an extraction exactly when the URL is supported, and otherwise nothing |
| PluginEngine.LicenseDetect | openarticlegauge/plugins/rsc.py:45-76 | no effect without `provider` or `provider.url`; otherwise the call log grows by the supported URLs in list order, each with the plugin's table, the licenses are those extractions in turn, and the provider is unchanged |
| PluginEngine.NoSupportedUrlNoChange | openarticlegauge/plugins/rsc.py:73-76 | if no listed URL is supported, `license_detect` makes no call and the licenses stay as they were |
| Text.StripScheme | openarticlegauge/plugins/rsc.py:17-19 | the stand-in `clean_url` for URLs given with a scheme while `base_urls` are without one: the result is the URL, or the URL with a leading "http://" or "https://" removed, and it is no longer |
| PluginEngine.ExtractsAsTested | openarticlegauge/tests/test_rsc.py:190-226 | assumption, a predicate with no ensures: on a page holding exactly one table statement, `simple_extract` on an empty license list yields a first license with the type, version, jurisdiction, id and provenance the tests check; a precondition of SingleUrlAsTested and the per-publisher test lemmas |
| PluginEngine.SingleUrlAsTested | openarticlegauge/tests/test_rsc.py:172-226 | for a record with one supported URL whose page has one table statement, and under the test assumption, the first license has the tested type, version, jurisdiction, id and provenance |
| Rsc.SupportsUrlExactly | openarticlegauge/plugins/rsc.py:19-43 | a URL is supported iff its cleaned form starts with "pubs.rsc.org/" |
| Rsc.ArticleSampleSupported | openarticlegauge/tests/test_rsc.py:7-8 | the test's article URL is supported |
| Rsc.FakeSampleSupported | openarticlegauge/tests/test_rsc.py:7-8 | "pubs.rsc.org/fakjsskjdaf" is supported |
| Rsc.BiomedcentralRejected | openarticlegauge/tests/test_rsc.py:10 | "http://www.biomedcentral.com/" is not supported |
| Rsc.GarbageRejected | openarticlegauge/tests/test_rsc.py:10 | "askjdfsakjdhfsa" is not supported |
| Rsc.StatementTable | openarticlegauge/plugins/rsc.py:54-64 | two entries in order: cc-by 3.0 with version and url, then the image mark with only the type publisher-asserted-accessible |
| Rsc.SupportsRecleans | openarticlegauge/plugins/rsc.py:28-41 | cleaning twice matters: with a clean function that is not idempotent, a URL can fail `supports_url` while a provider listing it passes `supports` |
| Rsc.ImageMarkAsTested | openarticlegauge/tests/test_rsc.py:68-88 | under the test assumption, the image-mark page's URL yields a first license with every field the test checks: publisher-asserted-accessible, no version, no id, empty jurisdiction, and provenance handler, handler version, category, description, agent, date and the URL as source |
| Frontiers.SupportsUrlExactly | openarticlegauge/plugins/frontiers.py:15-39 | a URL is supported iff its cleaned form starts with "www.frontiersin.org" or "frontiersin.org" |
| Frontiers.FoncSampleSupported | openarticlegauge/tests/test_frontiers.py:7-8 | the fonc.2013.00146 sample is supported |
| Frontiers.FakeSampleSupported | openarticlegauge/tests/test_frontiers.py:7-8 | "www.frontiersin.org/fakjsskjdaf" is supported |
| Frontiers.BiomedcentralRejected | openarticlegauge/tests/test_frontiers.py:10 | "http://www.biomedcentral.com/" is not supported |
| Frontiers.GarbageRejected | openarticlegauge/tests/test_frontiers.py:10 | "askjdfsakjdhfsa" is not supported |
| Frontiers.StatementTable | openarticlegauge/plugins/frontiers.py:50-56 | the table is the one cc-by 3.0 entry with version and url |
| Frontiers.FoncAsTested | openarticlegauge/tests/test_frontiers.py:32-54 | under the test assumption, the fonc page's URL yields license 0 with every field the test checks: type cc-by, version 3.0, no id, empty jurisdiction, and provenance handler, handler version, agent, date, the URL as source, category page_scrape and the description naming the URL and the statement |
| Coaction.SupportsUrlExactly | openarticlegauge/plugins/coaction.py:16-67 | exactly 28 prefixes, and a URL is supported iff its cleaned form starts with one of them |
| Coaction.JevSampleSupported | openarticlegauge/tests/test_coaction.py:7 | the journalofextracellularvesicles URL (also the cc-nc test page) is supported |
| Coaction.EhtSampleSupported | openarticlegauge/tests/test_coaction.py:8 | the eht-journal sample is supported |
| Coaction.UnipedPageSupported | openarticlegauge/tests/test_coaction.py:42 | the unipedtidsskrift test page's URL is supported |
| Coaction.CircumpolarPageSupported | openarticlegauge/tests/test_coaction.py:63 | the circumpolarhealthjournal test page's URL is supported |
| Coaction.BiomedcentralRejected | openarticlegauge/tests/test_coaction.py:10 | "http://www.biomedcentral.com/" is not supported |
| Coaction.GarbageRejected | openarticlegauge/tests/test_coaction.py:10 | "askjdfsakjdhfsa" is not supported |
| Coaction.IjqhwJournalSupported | openarticlegauge/plugins/coaction.py:25 | pages under the path-bearing prefix "www.ijqhw.net/index.php/qhw" are supported |
| Coaction.IjqhwPaths | openarticlegauge/plugins/coaction.py:25 | an `http://` URL on the ijqhw host is supported iff its path starts with "/index.php/qhw"; the prefix has no trailing slash, so "/index.php/qhwX" is supported too |
| Coaction.IjqhwOtherPathRejected | openarticlegauge/plugins/coaction.py:25 | the particular path "/index.php/other" on the ijqhw host is not supported |
| Coaction.StatementTable | openarticlegauge/plugins/coaction.py:78-94 | three entries in order: two cc-by 3.0, then cc-nc 3.0, each with version and url |
| Springerlink.SupportsUrlExactly | openarticlegauge/plugins/springerlink.py:20-44 | a URL is supported iff its cleaned form starts with "link.springer.com/article" |
| Springerlink.ArticleSupported | openarticlegauge/plugins/springerlink.py:20-21 | an article URL on link.springer.com is supported |
| Springerlink.OtherPathRejected | openarticlegauge/plugins/springerlink.py:20 | other paths on link.springer.com, such as a book page, are rejected |
| Springerlink.StatementTable | openarticlegauge/plugins/springerlink.py:55-69 | three entries in order: cc-by with only a type, cc-nc 3.0 with version and url, then publisher-asserted-accessible with only a type |
| Acs.SupportsUrlExactly | openarticlegauge/plugins/acs.py:22-46 | a URL is supported iff its cleaned form starts with "pubs.acs.org/doi" |
| Acs.DoiSupported | openarticlegauge/plugins/acs.py:22-23 | a DOI URL on pubs.acs.org is supported |
| Acs.BiomedcentralRejected | openarticlegauge/plugins/acs.py:22 | a BioMed Central URL is rejected |
| Acs.StatementTable | openarticlegauge/plugins/acs.py:57-67 | two entries in order: cc-by 3.0 with version and url, then the AuthorChoice mark with only the type publisher-asserted-accessible |
| Bmc.Provenance | src/plugins/bmc.py:52-61 | the provenance dictionary: no ensures of its own; characterised by NewLicenseFields and DescriptionIgnoresSource |
| Bmc.NewLicense | src/plugins/bmc.py:41-63 | the license built from a catalog entry: no ensures of its own; characterised by NewLicenseFields |
| Bmc.WithLicense | src/plugins/bmc.py:65 | the assignment to `bibjson.license`: no ensures of its own; characterised by WithLicenseTwice and OnlyLicenseChanges |
| Bmc.Outcome | src/plugins/bmc.py:34-65 | the record after the scan: no ensures of its own; characterised by NoMatchUnchanged, LastMatchWins, OnlyLicenseChanges and PageLicenseIdempotent, and tied to the loop by MatchStatements |
| Bmc.Ready | src/plugins/bmc.py:30-65 | the conditions under which the source raises no KeyError (`provider` present; on a match, a `bibjson` dictionary and catalog entries with `id`): a predicate, no ensures; used as the precondition of MatchStatements |
| Bmc.LastMatch | src/plugins/bmc.py:34-39 | the statement that decides is a match with no later match; none is chosen only when no statement is in the content |
| Bmc.NewLicenseFields | src/plugins/bmc.py:41-63 | the license has the catalog entry's keys plus version, type, description and provenance. Other fields are copied unchanged. version comes from the mapping, type is the entry's id, description is "", and provenance has exactly the keys date, iioa, source, agent, jurisdiction, category and description, filled from the time stamp, the mapping, the provider and the agent "IsItOpenAccess Service/0.1 alpha", with category page_scrape and an empty jurisdiction |
| Bmc.DescriptionIgnoresSource | src/plugins/bmc.py:60 | the description is the same whatever the provider, because it names "source_url" literally |
| Bmc.WithLicenseTwice | src/plugins/bmc.py:65 | a second assignment overwrites the first and leaves the provider alone |
| Bmc.OutcomeStep | src/plugins/bmc.py:34-65 | a matching statement sets the license from that statement, and a statement that does not match keeps the earlier outcome |
| Bmc.MatchStatements | src/plugins/bmc.py:34-65 | the loop leaves the record exactly as the spec function `Outcome` describes |
| Bmc.NoMatchUnchanged | src/plugins/bmc.py:34-39 | a page with none of the statements leaves the record unchanged |
| Bmc.LastMatchWins | src/plugins/bmc.py:34-65 | with several matches, the license comes from the last matching statement |
| Bmc.OnlyLicenseChanges | src/plugins/bmc.py:65 | the record and its bibjson keep every key and every other value; only `bibjson.license` is set, and it is a single object |
| Bmc.PageLicenseIdempotent | src/plugins/bmc.py:65 | the license is replaced, not appended: with the same page content and time stamp, a second run gives the same record as the first |
| Bmc.PageLicenseRerun | src/plugins/bmc.py:30-65 | a second run on the same content at another time stamp gives the record a single run at that time gives, so only `provenance.date` differs from the first run |
| Bmc.BmcStatementLicensed | src/plugins/bmc.py:24-28 | a page with the BioMed Central statement gets the catalog's cc-by entry at version 2.0, with `iioa` true and the provider as source |
| Bmc.PageLicense | src/plugins/bmc.py:12-65 | `page_license` with the BioMed Central table leaves the record as `Outcome` describes |

## Left out

- HTTP fetching (`requests.get` in `page_license`, and the mocked responses
  and fixture files of the tests). Page content is an input: a string for
  `page_license`, and a function from URL to content in the test lemmas.
- The clock. `datetime.now()` is replaced by a time-stamp parameter. The
  model uses this one value for every match in a call, while the source
  reads the clock at each match.
- The `LICENSES` catalog module (`licenses.py`) is not part of this model.
  The catalog is an input map from license id to the entry's fields.
  - The model passes it by value, so `page_license` cannot modify it. This
    is how the model captures the source's `deepcopy`.
  - The catalog-derived fields (`open_access`, `BY`, `NC`, `ND`, `SA`) that
    the tests check are not modelled.
- The base class `openarticlegauge.plugin.Plugin` is not part of this
  model.
  - `clean_url` is an arbitrary function parameter.
  - `clean_urls` is assumed to be its element-wise map.
  - `simple_extract` is an arbitrary function on the license list. The
    tests' expectations of it appear only as the stated assumption
    `ExtractsAsTested`.
- PluginEngine.SingleUrlAsTested: the type, version and provenance fields
  it states for the first license follow from the assumption
  `ExtractsAsTested`, not from code, because `simple_extract` belongs to the base class, which is outside
  this model.
- `src/tests/test_pmid.py`: the `plugins.pmid` module it exercises is not
  part of this model, so there is nothing to model.
- The RSC cc-nc test case (`openarticlegauge/tests/test_rsc.py:46-66`) is
  not encoded. It expects a statement that is not in `rsc.py`'s table; that
  statement appears in `springerlink.py`.
- The statement strings and the URL tables are copied as opaque constants.
  The lemmas about concrete URLs compare them only with the `base_urls`
  prefixes. The statement texts are used as opaque strings: the HTML in
  them is not interpreted.
- A record whose `bibjson` or `bibjson.license` is absent is modelled as one
  whose license list is empty; the creation of those keys (which happens
  inside `simple_extract`) is not modelled.
- The plugin record is modelled only through `provider.url` and the
  license list, the two parts `license_detect` reads and writes.
- Python's `KeyError` and `TypeError` in `page_license` are preconditions
  (`Bmc.Ready`):
  - a missing `provider`;
  - a missing or non-dictionary `bibjson` when a statement matches;
  - a catalog without the matched id, or an entry without `id`.
- Python aliasing. `deepcopy` means the source's license shares nothing
  with the catalog, and the model passes the catalog by value. The one
  sharing the source does create, `provenance['source']` being the same
  object as `record['provider']`, is modelled as a copy of the value, so a
  later change to the provider through one of them is not reflected in the
  other.
- The concrete URL lemmas use `StripScheme`, which removes one leading
  `http://` or `https://`, as the scheme-stripping `clean_url` the tests
  rely on. The real `clean_url` may do more.
