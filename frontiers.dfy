/** The Frontiers publisher plugin: its tables, instantiating the shared engine. */
module Frontiers {
  import opened Wrappers
  import opened Json
  import opened Text
  import opened PluginEngine

  /** `base_urls`: the prefixes the plugin claims, without scheme. */
  const BaseUrls: seq<string> := [
    "www.frontiersin.org",
    "frontiersin.org"
  ]

  /** `lic_statements`, in table order. */
  const LicStatements: seq<Statement> := [
    Statement(
      "This is an open-access article distributed under the terms of the <a href=\"http://creativecommons.org/licenses/by/3.0/\" target=\"_blank\">Creative Commons Attribution License</a>, which permits use, distribution and reproduction in other forums, provided the original authors and source are credited",
      LicenseAttrs("cc-by", Some("3.0"), Some("http://creativecommons.org/licenses/by/3.0/")))
  ]

  const Plugin := Registry("frontiers", "0.1", BaseUrls, LicStatements)

  /** A URL is supported exactly when its cleaned form starts with
      "www.frontiersin.org" or "frontiersin.org". */
  lemma SupportsUrlExactly(clean: string -> string, url: string)
    ensures SupportsUrl(Plugin, clean, url) <==>
      StartsWith(clean(url), "www.frontiersin.org") || StartsWith(clean(url), "frontiersin.org")
  {
  }

  /** The tests' supported samples (written as prefix + rest) and
      unsupported samples, under a scheme-stripping `clean_url`. */
  lemma FoncSampleSupported()
    ensures Supports(Plugin, StripScheme, Provider(Some([FoncPage])))
  {
    SupportsPlainPrefixed(Plugin, 0, FoncPath);
  }

  lemma FakeSampleSupported()
    ensures Supports(Plugin, StripScheme, Provider(Some(["www.frontiersin.org" + "/fakjsskjdaf"])))
  {
    SupportsPlainPrefixed(Plugin, 0, "/fakjsskjdaf");
  }

  lemma BiomedcentralRejected()
    ensures !Supports(Plugin, StripScheme, Provider(Some(["http://" + "www.biomedcentral.com/"])))
  {
    DifferAt("www.biomedcentral.com/", BaseUrls[0], 4);
    DifferAt("www.biomedcentral.com/", BaseUrls[1], 0);
    UnsupportedPlain(Plugin, "www.biomedcentral.com/");
  }

  lemma GarbageRejected()
    ensures !Supports(Plugin, StripScheme, Provider(Some(["askjdfsakjdhfsa"])))
  {
    DifferAt("askjdfsakjdhfsa", BaseUrls[0], 0);
    DifferAt("askjdfsakjdhfsa", BaseUrls[1], 0);
    UnsupportedPlain(Plugin, "askjdfsakjdhfsa");
  }

  /** The table has the one cc-by 3.0 entry. */
  lemma StatementTable()
    ensures |LicStatements| == 1
    ensures LicStatements[0].attrs == LicenseAttrs("cc-by", Some("3.0"), Some("http://creativecommons.org/licenses/by/3.0/"))
  {
  }

  /** The test page fonc.2013.00146: a record listing its URL and holding no
      license yet ends up with a license at position 0 that has every field
      the test checks (`AsTested`): cc-by 3.0, no id, empty jurisdiction, and
      a page-scrape provenance with handler, version, agent, date, the URL as
      source and a description naming the URL and the statement. */
  lemma FoncAsTested(extract: Extractor, content: string -> string, agent: string)
    requires ExtractsAsTested(extract, Plugin, content, agent)
    requires IsSubstring(LicStatements[0].text, content(FoncUrl))
    ensures var r := Replay(extract, LicStatements, SupportedUrls(Plugin, StripScheme, [FoncUrl]), []);
      |r| > 0 && AsTested(r[0], Plugin, FoncUrl, LicStatements[0], agent)
    ensures var r := Replay(extract, LicStatements, SupportedUrls(Plugin, StripScheme, [FoncUrl]), []);
      && |r| > 0
      && "type" in r[0] && r[0]["type"] == Str("cc-by")
      && "version" in r[0] && r[0]["version"] == Str("3.0")
      && "jurisdiction" in r[0] && r[0]["jurisdiction"] == Str("")
      && "provenance" in r[0] && r[0]["provenance"].Dict?
      && var prov := r[0]["provenance"].m;
      && "source" in prov && prov["source"] == Str(FoncUrl)
      && "category" in prov && prov["category"] == Str("page_scrape")
      && "description" in prov && prov["description"] == Str(PageScrapeDescription(FoncUrl, LicStatements[0].text))
  {
    StripHttp(FoncPage);
    NoScheme(FoncPage);
    SupportedByPrefix(Plugin, StripScheme, FoncUrl, 0);
    assert OnlyMatch(LicStatements, 0, content(FoncUrl));
    SingleUrlAsTested(Plugin, StripScheme, extract, content, agent, FoncUrl, 0);
  }

  /** The fonc.2013.00146 test URL, written as scheme + prefix + rest. */
  const FoncPath := "/Cancer_Molecular_Targets_and_Therapeutics/10.3389/fonc.2013.00146/abstract"
  const FoncPage := "www.frontiersin.org" + FoncPath
  const FoncUrl := "http://" + FoncPage
}
