/** The dispatch engine shared by the publisher plugins of openarticlegauge.
    Every publisher plugin (RSC, Frontiers, Co-Action, SpringerLink, ACS) runs
    the same three methods and differs only in its two tables, so the engine
    is written once over a `Registry` holding those tables; each publisher
    module instantiates it with its own constants.

    Two members of the plugins' base class are not part of this model and are
    taken as parameters:
    - `clean`, the base class's `clean_url`, is any function on strings;
    - `extract`, the effect of the base class's `simple_extract` on the
      record's license list, is any function of the statement table, the URL
      and the current list (the page fetch it performs is folded into it). */
module PluginEngine {
  import opened Wrappers
  import opened Json
  import opened Text

  /** The license attributes of one statement table entry; keys the entry
      leaves out are `None`. */
  datatype LicenseAttrs = LicenseAttrs(licenseType: string, version: Option<string>, url: Option<string>)

  /** One entry of `lic_statements`: a single-key dictionary from the literal
      statement text to its license attributes. */
  datatype Statement = Statement(text: string, attrs: LicenseAttrs)

  /** A publisher plugin's identity and tables: `_short_name`, `__version__`,
      `base_urls` and the ordered `lic_statements`. */
  datatype Registry = Registry(name: string, version: string, baseUrls: seq<string>, statements: seq<Statement>)

  /** The `provider` section of an article record: its `url` list, `None`
      when the key is absent. */
  datatype Provider = Provider(url: Option<seq<string>>)

  /** One call `simple_extract(statements, record, url)`. */
  datatype ExtractCall = ExtractCall(statements: seq<Statement>, url: string)

  /** The effect of `simple_extract` on `record['bibjson']['license']`. */
  type Extractor = (seq<Statement>, string, seq<Object>) -> seq<Object>

  /** An article record, which `license_detect` changes in place.
      `provider` is `record['provider']` (`None` when the key is absent),
      `licenses` is `record['bibjson']['license']` (empty when absent), and
      `extractCalls` logs the calls made to `simple_extract` on it. */
  class ArticleRecord {
    var provider: Option<Provider>
    var licenses: seq<Object>
    ghost var extractCalls: seq<ExtractCall>

    constructor (provider: Option<Provider>, licenses: seq<Object>)
      ensures this.provider == provider && this.licenses == licenses && extractCalls == []
    {
      this.provider := provider;
      this.licenses := licenses;
      extractCalls := [];
    }
  }

  // ---------------------------------------------------------------- URL matching

  /** The `for bu in base_urls` scan of `supports_url`, returning at the first
      prefix that matches. */
  function StartsWithAny(bases: seq<string>, s: string): (r: bool)
    ensures r <==> exists b :: b in bases && StartsWith(s, b)
  {
    if bases == [] then false
    else if StartsWith(s, bases[0]) then true
    else StartsWithAny(bases[1..], s)
  }

  /** `supports_url(url)`: the cleaned URL starts with one of `base_urls`. */
  function SupportsUrl(reg: Registry, clean: string -> string, url: string): bool
  {
    StartsWithAny(reg.baseUrls, clean(url))
  }

  /** ASSUMPTION: `clean_urls` applies `clean_url` to each URL, keeping order. */
  function CleanUrls(clean: string -> string, urls: seq<string>): (r: seq<string>)
    ensures |r| == |urls| && forall i :: 0 <= i < |urls| ==> r[i] == clean(urls[i])
  {
    if urls == [] then [] else [clean(urls[0])] + CleanUrls(clean, urls[1..])
  }

  /** The `for url in work_on` scan of `supports`, returning at the first
      supported URL. */
  function AnySupported(reg: Registry, clean: string -> string, work: seq<string>): (r: bool)
    ensures r <==> exists i :: 0 <= i < |work| && SupportsUrl(reg, clean, work[i])
  {
    if work == [] then false
    else if SupportsUrl(reg, clean, work[0]) then true
    else AnySupported(reg, clean, work[1..])
  }

  /** `supports(provider)`: some URL of `clean_urls(provider.get("url", []))`
      is supported. */
  function Supports(reg: Registry, clean: string -> string, p: Provider): bool
  {
    AnySupported(reg, clean, CleanUrls(clean, p.url.GetOr([])))
  }

  /** A URL is supported exactly when its cleaned form has one of the
      registry's prefixes. */
  lemma SupportsUrlIff(reg: Registry, clean: string -> string, url: string)
    ensures SupportsUrl(reg, clean, url) <==> exists i :: 0 <= i < |reg.baseUrls| && StartsWith(clean(url), reg.baseUrls[i])
  {
    if SupportsUrl(reg, clean, url) {
      var b :| b in reg.baseUrls && StartsWith(clean(url), b);
      var i :| 0 <= i < |reg.baseUrls| && reg.baseUrls[i] == b;
    }
  }

  /** A prefix that matches makes the URL supported. */
  lemma SupportedByPrefix(reg: Registry, clean: string -> string, url: string, i: nat)
    requires i < |reg.baseUrls| && StartsWith(clean(url), reg.baseUrls[i])
    ensures SupportsUrl(reg, clean, url)
  {
    assert reg.baseUrls[i] in reg.baseUrls;
  }

  /** With no matching prefix the URL is not supported. */
  lemma UnsupportedByPrefixes(reg: Registry, clean: string -> string, url: string)
    requires forall i :: 0 <= i < |reg.baseUrls| ==> !StartsWith(clean(url), reg.baseUrls[i])
    ensures !SupportsUrl(reg, clean, url)
  {
    SupportsUrlIff(reg, clean, url);
  }

  /** Reordering (or repeating) the prefixes does not change `supports_url`:
      only the set of prefixes matters. */
  lemma SupportsUrlOrderIrrelevant(reg1: Registry, reg2: Registry, clean: string -> string, url: string)
    requires forall b :: b in reg1.baseUrls <==> b in reg2.baseUrls
    ensures SupportsUrl(reg1, clean, url) == SupportsUrl(reg2, clean, url)
  {
  }

  /** `supports` is the existential over the cleaned URLs: true exactly when
      `supports_url` holds of `clean_url` of some listed URL. */
  lemma SupportsIff(reg: Registry, clean: string -> string, p: Provider)
    ensures Supports(reg, clean, p) <==>
      p.url.Some? && exists i :: 0 <= i < |p.url.value| && SupportsUrl(reg, clean, clean(p.url.value[i]))
  {
    var work := CleanUrls(clean, p.url.GetOr([]));
    if Supports(reg, clean, p) {
      var i :| 0 <= i < |work| && SupportsUrl(reg, clean, work[i]);
      assert SupportsUrl(reg, clean, clean(p.url.value[i]));
    }
  }

  /** A provider listing a single URL is supported exactly when that URL,
      cleaned twice, has a registry prefix. */
  lemma SupportsOne(reg: Registry, clean: string -> string, url: string)
    ensures Supports(reg, clean, Provider(Some([url]))) == SupportsUrl(reg, clean, clean(url))
  {
    assert CleanUrls(clean, [url]) == [clean(url)];
  }

  /** Under StripScheme, a provider listing one http URL made of a registry
      prefix (one that does not itself begin with 'h') and any rest is supported. */
  lemma SupportsHttpPrefixed(reg: Registry, i: nat, rest: string)
    requires i < |reg.baseUrls| && |reg.baseUrls[i]| > 0 && reg.baseUrls[i][0] != 'h'
    ensures Supports(reg, StripScheme, Provider(Some(["http://" + reg.baseUrls[i] + rest])))
  {
    var b := reg.baseUrls[i];
    assert "http://" + b + rest == "http://" + (b + rest);
    SupportsOne(reg, StripScheme, "http://" + b + rest);
    StripHttp(b + rest);
    NoScheme(b + rest);
    SupportedByPrefix(reg, StripScheme, b + rest, i);
  }

  /** The same for a URL written without a scheme. */
  lemma SupportsPlainPrefixed(reg: Registry, i: nat, rest: string)
    requires i < |reg.baseUrls| && |reg.baseUrls[i]| > 0 && reg.baseUrls[i][0] != 'h'
    ensures Supports(reg, StripScheme, Provider(Some([reg.baseUrls[i] + rest])))
  {
    var b := reg.baseUrls[i];
    SupportsOne(reg, StripScheme, b + rest);
    NoScheme(b + rest);
    SupportedByPrefix(reg, StripScheme, b + rest, i);
  }

  /** Under StripScheme, a URL without scheme that starts with no registry
      prefix is not supported, nor is a provider listing it with or without
      an http scheme. */
  lemma UnsupportedPlain(reg: Registry, url: string)
    requires |url| > 0 && url[0] != 'h'
    requires forall i :: 0 <= i < |reg.baseUrls| ==> !StartsWith(url, reg.baseUrls[i])
    ensures !SupportsUrl(reg, StripScheme, url)
    ensures !Supports(reg, StripScheme, Provider(Some([url])))
    ensures !Supports(reg, StripScheme, Provider(Some(["http://" + url])))
  {
    NoScheme(url);
    StripHttp(url);
    UnsupportedByPrefixes(reg, StripScheme, url);
    SupportsOne(reg, StripScheme, url);
    SupportsOne(reg, StripScheme, "http://" + url);
  }

  /** A provider without a `url` key, or with an empty list, is not supported. */
  lemma SupportsNoUrls(reg: Registry, clean: string -> string, p: Provider)
    requires p.url.None? || p.url == Some([])
    ensures !Supports(reg, clean, p)
  {
  }

  /** `supports` cleans URLs that `supports_url` cleans again. Only where the
      clean function is idempotent on the listed URLs does `supports` mean
      "some listed URL is supported". */
  lemma SupportsRawUrls(reg: Registry, clean: string -> string, urls: seq<string>)
    requires forall i :: 0 <= i < |urls| ==> clean(clean(urls[i])) == clean(urls[i])
    ensures Supports(reg, clean, Provider(Some(urls))) <==>
      exists i :: 0 <= i < |urls| && SupportsUrl(reg, clean, urls[i])
  {
    SupportsIff(reg, clean, Provider(Some(urls)));
    if exists i :: 0 <= i < |urls| && SupportsUrl(reg, clean, urls[i]) {
      var i :| 0 <= i < |urls| && SupportsUrl(reg, clean, urls[i]);
      assert SupportsUrl(reg, clean, clean(urls[i]));
    }
  }

  // ---------------------------------------------------------------- license_detect

  /** The URLs that `license_detect` hands to `simple_extract`: the provider's
      URLs kept in order when `supports_url` holds (written as the loop builds
      it, one URL at a time from the front). */
  function SupportedUrls(reg: Registry, clean: string -> string, urls: seq<string>): seq<string>
  {
    if urls == [] then []
    else
      var last := urls[|urls| - 1];
      SupportedUrls(reg, clean, urls[..|urls| - 1]) + (if SupportsUrl(reg, clean, last) then [last] else [])
  }

  /** The ghost log of the calls made for the given URLs, all with the same table. */
  function CallsFor(statements: seq<Statement>, urls: seq<string>): (r: seq<ExtractCall>)
    ensures |r| == |urls| && forall i :: 0 <= i < |urls| ==> r[i] == ExtractCall(statements, urls[i])
  {
    if urls == [] then [] else CallsFor(statements, urls[..|urls| - 1]) + [ExtractCall(statements, urls[|urls| - 1])]
  }

  /** The license list after `simple_extract` has run on each URL in turn. */
  function Replay(extract: Extractor, statements: seq<Statement>, urls: seq<string>, licenses: seq<Object>): seq<Object>
  {
    if urls == [] then licenses
    else extract(statements, urls[|urls| - 1], Replay(extract, statements, urls[..|urls| - 1], licenses))
  }

  /** Filtering distributes over concatenation, so the filter keeps the
      relative order of the URLs it keeps. */
  lemma {:induction false} SupportedUrlsAppend(reg: Registry, clean: string -> string, a: seq<string>, b: seq<string>)
    ensures SupportedUrls(reg, clean, a + b) == SupportedUrls(reg, clean, a) + SupportedUrls(reg, clean, b)
  {
    if b == [] {
      assert a + b == a;
    } else {
      assert (a + b)[..|a + b| - 1] == a + b[..|b| - 1];
      SupportedUrlsAppend(reg, clean, a, b[..|b| - 1]);
    }
  }

  /** Every URL passed on is one of the provider's and is supported, and every
      supported provider URL is passed on. */
  lemma {:induction false} SupportedUrlsMembers(reg: Registry, clean: string -> string, urls: seq<string>)
    ensures forall u :: u in SupportedUrls(reg, clean, urls) <==> u in urls && SupportsUrl(reg, clean, u)
  {
    if urls != [] {
      var init := urls[..|urls| - 1];
      SupportedUrlsMembers(reg, clean, init);
      assert urls == init + [urls[|urls| - 1]];
    }
  }

  /** Each supported URL is passed on exactly as many times as it is listed,
      and an unsupported one never. */
  lemma {:induction false} SupportedUrlsCount(reg: Registry, clean: string -> string, urls: seq<string>, u: string)
    ensures multiset(SupportedUrls(reg, clean, urls))[u] == if SupportsUrl(reg, clean, u) then multiset(urls)[u] else 0
  {
    if urls != [] {
      var init := urls[..|urls| - 1];
      SupportedUrlsCount(reg, clean, init, u);
      assert urls == init + [urls[|urls| - 1]];
    }
  }

  /** With no supported URL, no call is made. */
  lemma {:induction false} SupportedUrlsNone(reg: Registry, clean: string -> string, urls: seq<string>)
    requires forall i :: 0 <= i < |urls| ==> !SupportsUrl(reg, clean, urls[i])
    ensures SupportedUrls(reg, clean, urls) == []
  {
    if urls != [] {
      SupportedUrlsNone(reg, clean, urls[..|urls| - 1]);
    }
  }

  /** With every URL supported, every URL is passed on, in order. */
  lemma {:induction false} SupportedUrlsAll(reg: Registry, clean: string -> string, urls: seq<string>)
    requires forall i :: 0 <= i < |urls| ==> SupportsUrl(reg, clean, urls[i])
    ensures SupportedUrls(reg, clean, urls) == urls
  {
    if urls != [] {
      SupportedUrlsAll(reg, clean, urls[..|urls| - 1]);
    }
  }

  /** `simple_extract(statements, record, url)`: its only effect is on the
      record's license list, and the call is logged. */
  method SimpleExtract(statements: seq<Statement>, record: ArticleRecord, url: string, extract: Extractor)
    modifies record
    ensures record.provider == old(record.provider)
    ensures record.licenses == extract(statements, url, old(record.licenses))
    ensures record.extractCalls == old(record.extractCalls) + [ExtractCall(statements, url)]
  {
    record.licenses := extract(statements, url, record.licenses);
    record.extractCalls := record.extractCalls + [ExtractCall(statements, url)];
  }

  /** One turn of the `license_detect` loop: URL `i` extends the calls and the
      license list exactly when it is supported. */
  lemma DetectStep(reg: Registry, clean: string -> string, extract: Extractor, urls: seq<string>, i: nat, licenses: seq<Object>)
    requires i < |urls|
    ensures var before := SupportedUrls(reg, clean, urls[..i]);
      var after := SupportedUrls(reg, clean, urls[..i + 1]);
      if SupportsUrl(reg, clean, urls[i]) then
        && after == before + [urls[i]]
        && CallsFor(reg.statements, after) == CallsFor(reg.statements, before) + [ExtractCall(reg.statements, urls[i])]
        && Replay(extract, reg.statements, after, licenses) == extract(reg.statements, urls[i], Replay(extract, reg.statements, before, licenses))
      else after == before
  {
    assert urls[..i + 1][..i] == urls[..i];
    var before := SupportedUrls(reg, clean, urls[..i]);
    assert (before + [urls[i]])[..|before|] == before;
  }

  /** `license_detect(record)`: nothing happens when the record has no
      `provider` or the provider no `url`; otherwise `simple_extract` runs once
      for every supported URL, in list order, with the registry's table. */
  method LicenseDetect(reg: Registry, clean: string -> string, extract: Extractor, record: ArticleRecord)
    modifies record
    ensures record.provider == old(record.provider)
    ensures old(record.provider).None? || old(record.provider).value.url.None? ==>
      record.licenses == old(record.licenses) && record.extractCalls == old(record.extractCalls)
    ensures old(record.provider).Some? && old(record.provider).value.url.Some? ==>
      var urls := old(record.provider).value.url.value;
      && record.extractCalls == old(record.extractCalls) + CallsFor(reg.statements, SupportedUrls(reg, clean, urls))
      && record.licenses == Replay(extract, reg.statements, SupportedUrls(reg, clean, urls), old(record.licenses))
  {
    if record.provider.None? {
      return;
    }
    if record.provider.value.url.None? {
      return;
    }
    var urls := record.provider.value.url.value;
    for i := 0 to |urls|
      invariant record.provider == old(record.provider)
      invariant record.extractCalls == old(record.extractCalls) + CallsFor(reg.statements, SupportedUrls(reg, clean, urls[..i]))
      invariant record.licenses == Replay(extract, reg.statements, SupportedUrls(reg, clean, urls[..i]), old(record.licenses))
    {
      DetectStep(reg, clean, extract, urls, i, old(record.licenses));
      if SupportsUrl(reg, clean, urls[i]) {
        SimpleExtract(reg.statements, record, urls[i], extract);
      }
    }
    assert urls[..|urls|] == urls;
  }

  /** If none of the provider's URLs is supported, `license_detect` leaves the
      license list as it was and makes no call. */
  lemma NoSupportedUrlNoChange(reg: Registry, clean: string -> string, extract: Extractor, urls: seq<string>, licenses: seq<Object>)
    requires forall i :: 0 <= i < |urls| ==> !SupportsUrl(reg, clean, urls[i])
    ensures CallsFor(reg.statements, SupportedUrls(reg, clean, urls)) == []
    ensures Replay(extract, reg.statements, SupportedUrls(reg, clean, urls), licenses) == licenses
  {
    SupportedUrlsNone(reg, clean, urls);
  }

  // ---------------------------------------------------------------- what the tests assert

  /** The provenance description the tests expect. */
  function PageScrapeDescription(url: string, statement: string): string
  {
    "License decided by scraping the resource at " + url
      + " and looking for the following license statement: \"" + statement + "\"."
  }

  /** The statement at `k` is the only one of the table found in `content`,
      as on each of the tests' pages. */
  predicate OnlyMatch(statements: seq<Statement>, k: nat, content: string)
  {
    && k < |statements|
    && IsSubstring(statements[k].text, content)
    && forall j :: 0 <= j < |statements| && j != k ==> !IsSubstring(statements[j].text, content)
  }

  /** The fields the tests check in the first license object after detection:
      `type` and `version` from the matched entry (no version when the entry
      has none), empty `jurisdiction`, no `id`, and the provenance. */
  predicate AsTested(lic: Object, reg: Registry, url: string, st: Statement, agent: string)
  {
    && "type" in lic && lic["type"] == Str(st.attrs.licenseType)
    && (if st.attrs.version.Some? then "version" in lic && lic["version"] == Str(st.attrs.version.value)
        else AbsentOrEmpty(lic, "version"))
    && "jurisdiction" in lic && lic["jurisdiction"] == Str("")
    && AbsentOrEmpty(lic, "id")
    && "provenance" in lic && lic["provenance"].Dict?
    && var prov := lic["provenance"].m;
    && "handler" in prov && prov["handler"] == Str(reg.name)
    && "handler_version" in prov && prov["handler_version"] == Str(reg.version)
    && "category" in prov && prov["category"] == Str("page_scrape")
    && "description" in prov && prov["description"] == Str(PageScrapeDescription(url, st.text))
    && "agent" in prov && prov["agent"] == Str(agent)
    && "source" in prov && prov["source"] == Str(url)
    && "date" in prov
  }

  /** ASSUMPTION, taken only from the tests: run on a record with no license
      yet, for a URL whose page (`content(url)`) holds exactly one statement of
      the table, `simple_extract` yields a list whose first object is as tested. */
  ghost predicate ExtractsAsTested(extract: Extractor, reg: Registry, content: string -> string, agent: string)
  {
    forall url: string, k: nat :: OnlyMatch(reg.statements, k, content(url)) ==>
      var r := extract(reg.statements, url, []);
      |r| > 0 && AsTested(r[0], reg, url, reg.statements[k], agent)
  }

  /** The tests' scenario: a record whose provider lists one supported URL and
      has no license yet ends up with the tested license at position 0. */
  lemma SingleUrlAsTested(reg: Registry, clean: string -> string, extract: Extractor, content: string -> string,
                          agent: string, url: string, k: nat)
    requires ExtractsAsTested(extract, reg, content, agent)
    requires SupportsUrl(reg, clean, url)
    requires OnlyMatch(reg.statements, k, content(url))
    ensures SupportedUrls(reg, clean, [url]) == [url]
    ensures var r := Replay(extract, reg.statements, SupportedUrls(reg, clean, [url]), []);
      |r| > 0 && AsTested(r[0], reg, url, reg.statements[k], agent)
  {
    assert [url][..0] == [];
    assert SupportedUrls(reg, clean, [url]) == [url];
    assert Replay(extract, reg.statements, [url], []) == extract(reg.statements, url, []);
  }
}
