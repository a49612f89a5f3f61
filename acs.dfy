/** The ACS publisher plugin: its tables, instantiating the shared engine. */
module Acs {
  import opened Wrappers
  import opened Text
  import opened PluginEngine

  /** `base_urls`: the prefixes the plugin claims, without scheme. */
  const BaseUrls: seq<string> := [
    "pubs.acs.org/doi"
  ]

  /** `lic_statements`, in table order. */
  const LicStatements: seq<Statement> := [
    Statement(
      "This article is licensed under a <a rel=\"license\" href=\"http://creativecommons.org/licenses/by/3.0/\" target=\"_blank\" title=\"This link will open in a new browser window\">Creative Commons Attribution 3.0 Unported Licence.",
      LicenseAttrs("cc-by", Some("3.0"), Some("http://creativecommons.org/licenses/by/3.0/"))),
    Statement(
      "<img src=\"/templates/jsp/_style2/_achs/images/openAccess.gif\" alt=\"ACS AuthorChoice\"/>",
      LicenseAttrs("publisher-asserted-accessible", None, None))
  ]

  const Plugin := Registry("acs", "0.1", BaseUrls, LicStatements)

  /** A URL is supported exactly when its cleaned form starts with
      "pubs.acs.org/doi". */
  lemma SupportsUrlExactly(clean: string -> string, url: string)
    ensures SupportsUrl(Plugin, clean, url) <==> StartsWith(clean(url), "pubs.acs.org/doi")
  {
  }

  /** A DOI URL is supported under a scheme-stripping `clean_url`. */
  lemma DoiSupported()
    ensures Supports(Plugin, StripScheme, Provider(Some(["http://" + "pubs.acs.org/doi" + "/abs/10.1021/ja311990w"])))
  {
    SupportsHttpPrefixed(Plugin, 0, "/abs/10.1021/ja311990w");
  }

  /** A BioMed Central URL is rejected. */
  lemma BiomedcentralRejected()
    ensures !Supports(Plugin, StripScheme, Provider(Some(["http://" + "www.biomedcentral.com/"])))
  {
    DifferAt("www.biomedcentral.com/", BaseUrls[0], 0);
    UnsupportedPlain(Plugin, "www.biomedcentral.com/");
  }

  /** The table has two entries in order: cc-by 3.0 with version and url,
      then the AuthorChoice image mark with only the type
      publisher-asserted-accessible. */
  lemma StatementTable()
    ensures |LicStatements| == 2
    ensures LicStatements[0].attrs == LicenseAttrs("cc-by", Some("3.0"), Some("http://creativecommons.org/licenses/by/3.0/"))
    ensures LicStatements[1].attrs == LicenseAttrs("publisher-asserted-accessible", None, None)
  {
  }
}
