/** The RSC publisher plugin: its tables, instantiating the shared engine. */
module Rsc {
  import opened Wrappers
  import opened Json
  import opened Text
  import opened PluginEngine

  /** `base_urls`: the prefixes the plugin claims, without scheme. */
  const BaseUrls: seq<string> := [
    "pubs.rsc.org/"
  ]

  /** `lic_statements`, in table order. */
  const LicStatements: seq<Statement> := [
    Statement(
      "This article is licensed under a <a rel=\"license\" href=\"http://creativecommons.org/licenses/by/3.0/\" target=\"_blank\" title=\"This link will open in a new browser window\">Creative Commons Attribution 3.0 Unported Licence.",
      LicenseAttrs("cc-by", Some("3.0"), Some("http://creativecommons.org/licenses/by/3.0/"))),
    Statement(
      "<img  class=\"list_icon_openaccess\" src=\"http://sod-a.rsc-cdn.org/pubs.rsc.org/content/NewImages/open_access_blue.png\" alt=\"Open Access\" />",
      LicenseAttrs("publisher-asserted-accessible", None, None))
  ]

  const Plugin := Registry("rsc", "0.1", BaseUrls, LicStatements)

  /** A URL is supported exactly when its cleaned form starts with "pubs.rsc.org/". */
  lemma SupportsUrlExactly(clean: string -> string, url: string)
    ensures SupportsUrl(Plugin, clean, url) <==> StartsWith(clean(url), "pubs.rsc.org/")
  {
  }

  /** The tests' supported samples (written as prefix + rest) and
      unsupported samples, under a scheme-stripping `clean_url`. */
  lemma ArticleSampleSupported()
    ensures Supports(Plugin, StripScheme, Provider(Some(["pubs.rsc.org/" + "en/content/articlelanding/2013/gc/c3gc40967h"])))
  {
    SupportsPlainPrefixed(Plugin, 0, "en/content/articlelanding/2013/gc/c3gc40967h");
  }

  lemma FakeSampleSupported()
    ensures Supports(Plugin, StripScheme, Provider(Some(["pubs.rsc.org/" + "fakjsskjdaf"])))
  {
    SupportsPlainPrefixed(Plugin, 0, "fakjsskjdaf");
  }

  lemma BiomedcentralRejected()
    ensures !Supports(Plugin, StripScheme, Provider(Some(["http://" + "www.biomedcentral.com/"])))
  {
    DifferAt("www.biomedcentral.com/", BaseUrls[0], 0);
    UnsupportedPlain(Plugin, "www.biomedcentral.com/");
  }

  lemma GarbageRejected()
    ensures !Supports(Plugin, StripScheme, Provider(Some(["askjdfsakjdhfsa"])))
  {
    DifferAt("askjdfsakjdhfsa", BaseUrls[0], 0);
    UnsupportedPlain(Plugin, "askjdfsakjdhfsa");
  }

  /** The table is ordered: the cc-by 3.0 statement, with version and url,
      before the open-access image mark, which carries only a type. */
  lemma StatementTable()
    ensures |LicStatements| == 2
    ensures LicStatements[0].attrs == LicenseAttrs("cc-by", Some("3.0"), Some("http://creativecommons.org/licenses/by/3.0/"))
    ensures LicStatements[1].attrs == LicenseAttrs("publisher-asserted-accessible", None, None)
  {
  }

  /** Because `supports` cleans URLs that `supports_url` cleans again, a
      clean function that is not idempotent makes the two disagree: with
      StripScheme, a doubly prefixed URL is not supported yet a provider
      listing it is. */
  lemma SupportsRecleans()
    ensures !SupportsUrl(Plugin, StripScheme, DoublyPrefixed)
    ensures Supports(Plugin, StripScheme, Provider(Some([DoublyPrefixed])))
  {
    StripHttp("http://" + "pubs.rsc.org/" + "a");
    StripHttp("pubs.rsc.org/" + "a");
    NoScheme("pubs.rsc.org/" + "a");
    DifferAt("http://" + "pubs.rsc.org/" + "a", "pubs.rsc.org/", 0);
    SupportsOne(Plugin, StripScheme, DoublyPrefixed);
  }

  /** The test page for the open-access image mark: a record listing its URL
      ends up with a license at position 0 that has every field the test
      checks (`AsTested`): type `publisher-asserted-accessible`, no version,
      no id, empty jurisdiction, and the handler, version, category,
      description, agent, date and the URL as source in its provenance. */
  lemma ImageMarkAsTested(extract: Extractor, content: string -> string, agent: string)
    requires ExtractsAsTested(extract, Plugin, content, agent)
    requires OnlyMatch(LicStatements, 1, content(ImageMarkUrl))
    ensures var r := Replay(extract, LicStatements, SupportedUrls(Plugin, StripScheme, [ImageMarkUrl]), []);
      |r| > 0 && AsTested(r[0], Plugin, ImageMarkUrl, LicStatements[1], agent)
    ensures var r := Replay(extract, LicStatements, SupportedUrls(Plugin, StripScheme, [ImageMarkUrl]), []);
      && |r| > 0
      && "type" in r[0] && r[0]["type"] == Str("publisher-asserted-accessible")
      && AbsentOrEmpty(r[0], "version")
      && "jurisdiction" in r[0] && r[0]["jurisdiction"] == Str("")
      && "provenance" in r[0] && r[0]["provenance"].Dict?
      && "source" in r[0]["provenance"].m && r[0]["provenance"].m["source"] == Str(ImageMarkUrl)
  {
    StripHttp("pubs.rsc.org/" + "en/content/articlelanding/2013/gc/c3gc40967h");
    SingleUrlAsTested(Plugin, StripScheme, extract, content, agent, ImageMarkUrl, 1);
  }

  /** The URLs used above, written as scheme + prefix + rest. */
  const ImageMarkUrl := "http://" + "pubs.rsc.org/" + "en/content/articlelanding/2013/gc/c3gc40967h"
  const DoublyPrefixed := "http://" + "http://" + "pubs.rsc.org/" + "a"
}
