/** The Co-Action publisher plugin: its tables, instantiating the shared engine. */
module Coaction {
  import opened Wrappers
  import opened Text
  import opened PluginEngine

  /** `base_urls`: the prefixes the plugin claims, without scheme. */
  const BaseUrls: seq<string> := [
    "www.cellmoloto.net",
    "diabeticfootandankle.net",
    "www.eht-journal.net",
    "www.ethicsandglobalpolitics.net",
    "www.eurojnlofpsychotraumatol.net",
    "www.foodandnutritionresearch.net",
    "www.globalhealthaction.net",
    "www.infectionecologyandepidemiology.net",
    "www.circumpolarhealthjournal.net",
    "www.ijqhw.net/index.php/qhw",
    "www.journalofextracellularvesicles.net",
    "www.aestheticsandculture.net",
    "www.jchimp.net",
    "www.journaloforalmicrobiology.net",
    "www.libyanjournalofmedicine.net",
    "www.mechanicalcirculatorysupport.net",
    "www.med-ed-online.net",
    "www.microbecolhealthdis.net",
    "www.nano-reviews.net",
    "www.childlitaesthetics.net",
    "www.pathobiologyofaging.net",
    "www.polarresearch.net",
    "www.researchinlearningtechnology.net",
    "www.socioaffectiveneuroscipsychol.net",
    "www.tellusa.net",
    "www.tellusb.net",
    "www.unipedtidsskrift.net",
    "www.vulnerablegroupsandinclusion.net"
  ]

  /** `lic_statements`, in table order. */
  const LicStatements: seq<Statement> := [
    Statement(
      "Tidskriftet publiseres under en <a href=\"http://creativecommons.org/licenses/by/3.0/\" rel=\"license\">Creative Commons Attribution 3.0 Unported (CC BY 3.0) Licence",
      LicenseAttrs("cc-by", Some("3.0"), Some("http://creativecommons.org/licenses/by/3.0/"))),
    Statement(
      "This journal is published under the terms of the <a href=\"http://creativecommons.org/licenses/by/3.0/\" target=\"_blank\">Creative Commons Attribution 3.0 Unported (CC BY 3.0) License",
      LicenseAttrs("cc-by", Some("3.0"), Some("http://creativecommons.org/licenses/by/3.0/"))),
    Statement(
      "This journal is published under the terms of the <a href=\"http://creativecommons.org/licenses/by-nc/3.0/\" rel=\"license\">Creative Commons Attribution-Noncommercial 3.0 Unported License",
      LicenseAttrs("cc-nc", Some("3.0"), Some("http://creativecommons.org/licenses/by-nc/3.0/")))
  ]

  const Plugin := Registry("coaction", "0.1", BaseUrls, LicStatements)

  /** A URL is supported exactly when its cleaned form has one of the 28
      journal prefixes. */
  lemma SupportsUrlExactly(clean: string -> string, url: string)
    ensures |BaseUrls| == 28
    ensures SupportsUrl(Plugin, clean, url) <==> exists i :: 0 <= i < 28 && StartsWith(clean(url), BaseUrls[i])
  {
    SupportsUrlIff(Plugin, clean, url);
  }

  /** The tests' first supported sample, also the URL of the cc-nc test
      page (journalofextracellularvesicles), is supported under a
      scheme-stripping `clean_url`. Sample URLs here are written as
      scheme + prefix + rest. */
  lemma JevSampleSupported()
    ensures Supports(Plugin, StripScheme, Provider(Some(["http://" + "www.journalofextracellularvesicles.net" + "/index.php/jev/article/view/20424"])))
  {
    SupportsHttpPrefixed(Plugin, 10, "/index.php/jev/article/view/20424");
  }

  /** The tests' second supported sample. */
  lemma EhtSampleSupported()
    ensures Supports(Plugin, StripScheme, Provider(Some(["http://" + "www.eht-journal.net" + "/fakjsskjdaf"])))
  {
    SupportsHttpPrefixed(Plugin, 2, "/fakjsskjdaf");
  }

  /** The unipedtidsskrift test page's URL is supported. */
  lemma UnipedPageSupported()
    ensures Supports(Plugin, StripScheme, Provider(Some(["http://" + "www.unipedtidsskrift.net" + "/index.php/uniped/article/view/20975"])))
  {
    SupportsHttpPrefixed(Plugin, 26, "/index.php/uniped/article/view/20975");
  }

  /** The circumpolarhealthjournal test page's URL is supported. */
  lemma CircumpolarPageSupported()
    ensures Supports(Plugin, StripScheme, Provider(Some(["http://" + "www.circumpolarhealthjournal.net" + "/index.php/ijch/article/view/20988"])))
  {
    SupportsHttpPrefixed(Plugin, 8, "/index.php/ijch/article/view/20988");
  }

  /** The tests' first unsupported sample is rejected. */
  lemma BiomedcentralRejected()
    ensures !Supports(Plugin, StripScheme, Provider(Some(["http://" + "www.biomedcentral.com/"])))
  {
    NoPrefixAt("www.biomedcentral.com/", 4);
    UnsupportedPlain(Plugin, "www.biomedcentral.com/");
  }

  /** The tests' second unsupported sample is rejected. */
  lemma GarbageRejected()
    ensures !Supports(Plugin, StripScheme, Provider(Some(["askjdfsakjdhfsa"])))
  {
    NoPrefixAt("askjdfsakjdhfsa", 0);
    UnsupportedPlain(Plugin, "askjdfsakjdhfsa");
  }

  /** A string whose character at `k` (0 or 4) differs from that of every
      prefix, and which does not begin with 'h', starts with no prefix. */
  lemma NoPrefixAt(s: string, k: nat)
    requires k == 0 || k == 4
    requires |s| > k && s[0] != 'h'
    requires forall i :: 0 <= i < |BaseUrls| ==> s[k] != BaseUrls[i][k] || s[0] != BaseUrls[i][0]
    ensures forall i :: 0 <= i < |BaseUrls| ==> !StartsWith(s, BaseUrls[i])
  {
    forall i | 0 <= i < |BaseUrls| ensures !StartsWith(s, BaseUrls[i]) {
      if s[0] != BaseUrls[i][0] { DifferAt(s, BaseUrls[i], 0); } else { DifferAt(s, BaseUrls[i], k); }
    }
  }

  /** The one prefix with a path, "www.ijqhw.net/index.php/qhw", supports
      that journal's pages ... */
  lemma IjqhwJournalSupported()
    ensures Supports(Plugin, StripScheme, Provider(Some(["http://" + "www.ijqhw.net/index.php/qhw" + "/article/view/1"])))
  {
    SupportsHttpPrefixed(Plugin, 9, "/article/view/1");
  }

  /** ... but no other path on the host. */
  lemma IjqhwOtherPathRejected()
    ensures !Supports(Plugin, StripScheme, Provider(Some(["http://" + IjqhwOther])))
  {
    forall i | 0 <= i < |BaseUrls| ensures !StartsWith(IjqhwOther, BaseUrls[i]) {
      if i == 9 { DifferAt(IjqhwOther, BaseUrls[i], 24); }
      else if BaseUrls[i][0] != 'w' { DifferAt(IjqhwOther, BaseUrls[i], 0); }
      else if BaseUrls[i][4] != 'i' { DifferAt(IjqhwOther, BaseUrls[i], 4); }
      else { DifferAt(IjqhwOther, BaseUrls[i], 5); }
    }
    UnsupportedPlain(Plugin, IjqhwOther);
  }

  /** On the ijqhw host, a page is supported exactly when its path starts
      with "/index.php/qhw". The prefix has no trailing slash, so
      "/index.php/qhwX" is supported too. */
  lemma IjqhwPaths(rest: string)
    ensures SupportsUrl(Plugin, StripScheme, "http://" + IjqhwHost + rest) <==> StartsWith(rest, "/index.php/qhw")
  {
    var s := IjqhwHost + rest;
    assert "http://" + IjqhwHost + rest == "http://" + s;
    StripHttp(s);
    forall i | 0 <= i < |BaseUrls| && i != 9 ensures !StartsWith(s, BaseUrls[i]) {
      if BaseUrls[i][0] != 'w' { DifferAt(s, BaseUrls[i], 0); }
      else if BaseUrls[i][4] != 'i' { DifferAt(s, BaseUrls[i], 4); }
      else { DifferAt(s, BaseUrls[i], 5); }
    }
    assert BaseUrls[9] == IjqhwHost + "/index.php/qhw";
    PrefixCancel(IjqhwHost, rest, "/index.php/qhw");
    SupportsUrlIff(Plugin, StripScheme, "http://" + IjqhwHost + rest);
  }

  /** The ijqhw host. */
  const IjqhwHost := "www.ijqhw.net"

  /** Another path on the ijqhw host. */
  const IjqhwOther := "www.ijqhw.net/index.php/other"

  /** The table is three single-key entries in order: two cc-by 3.0, then
      one cc-nc 3.0, each with version and url. */
  lemma StatementTable()
    ensures |LicStatements| == 3
    ensures LicStatements[0].attrs == LicenseAttrs("cc-by", Some("3.0"), Some("http://creativecommons.org/licenses/by/3.0/"))
    ensures LicStatements[1].attrs == LicenseAttrs("cc-by", Some("3.0"), Some("http://creativecommons.org/licenses/by/3.0/"))
    ensures LicStatements[2].attrs == LicenseAttrs("cc-nc", Some("3.0"), Some("http://creativecommons.org/licenses/by-nc/3.0/"))
  {
  }
}
