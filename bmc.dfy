/** The BioMed Central page-license extractor `page_license` (src/plugins/bmc.py),
    the one statement matcher whose code is part of this model.

    The page is fetched over HTTP in the source; here its content is an
    input, as are the `LICENSES` catalog (a map from license id to the
    catalog entry's fields) and the time stamp that the source takes from
    the clock. */
module Bmc {
  import opened Wrappers
  import opened Json
  import opened Text

  const Version := "0.1 alpha"
  const Agent := "IsItOpenAccess Service/" + Version

  /** What a statement means: the catalog id, the version and the `iioa` flag. */
  datatype Meaning = Meaning(id: string, version: string, iioa: bool)

  /** One entry of `lic_statements`: a single-key dictionary from the
      statement text to its meaning. */
  datatype StatementMapping = StatementMapping(statement: string, meaning: Meaning)

  /** `lic_statements`, in table order. */
  const LicStatements: seq<StatementMapping> := [
    StatementMapping(
      "This is an Open Access article distributed under the terms of the Creative Commons Attribution License (<a href='http://creativecommons.org/licenses/by/2.0'>http://creativecommons.org/licenses/by/2.0</a>), which permits unrestricted use, distribution, and reproduction in any medium, provided the original work is properly cited.",
      Meaning("cc-by", "2.0", true))
  ]

  /** The `LICENSES` catalog: license id to the entry's fields. */
  type Catalog = map<string, Object>

  /** An article record, a dictionary that `page_license` changes in place. */
  class Record {
    var data: Object

    constructor (data: Object)
      ensures this.data == data
    {
      this.data := data;
    }
  }

  /** The fixed start of the provenance description. It names the literal
      text "source_url", not the URL. */
  const DescriptionPrefix := "License decided by scraping the resource at source_url and looking for the following license statement: \""

  /** The provenance dictionary built for a matched statement. */
  function Provenance(m: StatementMapping, source: Value, date: string): Object
  {
    map[
      "date" := Str(date),
      "iioa" := Bool(m.meaning.iioa),
      "source" := source,
      "agent" := Str(Agent),
      "jurisdiction" := Str(""),
      "category" := Str("page_scrape"),
      "description" := Str(DescriptionPrefix + m.statement + "\".")
    ]
  }

  /** The catalog has the entry a matched statement needs, with its `id`
      field (the source raises KeyError otherwise). */
  predicate CatalogCovers(catalog: Catalog, m: StatementMapping)
  {
    m.meaning.id in catalog && "id" in catalog[m.meaning.id]
  }

  /** The license object for a matched statement: a copy of the catalog
      entry with `version`, `type`, `description` and `provenance` set. */
  function NewLicense(catalog: Catalog, m: StatementMapping, source: Value, date: string): Object
    requires CatalogCovers(catalog, m)
  {
    var license := catalog[m.meaning.id]["version" := Str(m.meaning.version)];
    var license := license["type" := license["id"]];
    var license := license["description" := Str("")];
    license["provenance" := Dict(Provenance(m, source, date))]
  }

  /** The fields a new license has: those of the catalog entry, unchanged,
      except the four that are set. */
  lemma NewLicenseFields(catalog: Catalog, m: StatementMapping, source: Value, date: string)
    requires CatalogCovers(catalog, m)
    ensures var lic := NewLicense(catalog, m, source, date);
      var entry := catalog[m.meaning.id];
      && lic.Keys == entry.Keys + {"version", "type", "description", "provenance"}
      && (forall k :: k in entry && k !in {"version", "type", "description", "provenance"} ==> lic[k] == entry[k])
      && lic["version"] == Str(m.meaning.version)
      && lic["type"] == entry["id"]
      && lic["description"] == Str("")
      && lic["provenance"].Dict?
      && var prov := lic["provenance"].m;
      && prov.Keys == {"date", "iioa", "source", "agent", "jurisdiction", "category", "description"}
      && prov["category"] == Str("page_scrape")
      && prov["jurisdiction"] == Str("")
      && prov["source"] == source
      && prov["agent"] == Str("IsItOpenAccess Service/0.1 alpha")
      && prov["iioa"] == Bool(m.meaning.iioa)
      && prov["date"] == Str(date)
      && prov["description"] == Str(DescriptionPrefix + m.statement + "\".")
  {
  }

  /** The description does not depend on the record's provider: it always
      says "source_url". */
  lemma DescriptionIgnoresSource(catalog: Catalog, m: StatementMapping, source1: Value, source2: Value, date: string)
    requires CatalogCovers(catalog, m)
    ensures NewLicense(catalog, m, source1, date)["provenance"].m["description"]
         == NewLicense(catalog, m, source2, date)["provenance"].m["description"]
  {
  }

  /** The index of the LAST statement found in the content: the loop has no
      `break`, so a later match overwrites an earlier one. */
  function LastMatch(statements: seq<StatementMapping>, content: string): (r: Option<nat>)
    ensures r.Some? ==>
      && r.value < |statements|
      && IsSubstring(statements[r.value].statement, content)
      && forall j :: r.value < j < |statements| ==> !IsSubstring(statements[j].statement, content)
    ensures r.None? ==> forall j :: 0 <= j < |statements| ==> !IsSubstring(statements[j].statement, content)
  {
    if statements == [] then None
    else if IsSubstring(statements[|statements| - 1].statement, content) then Some(|statements| - 1)
    else LastMatch(statements[..|statements| - 1], content)
  }

  /** What the source needs of the record and the catalog: a `provider`, and
      for a page with a match a `bibjson` dictionary and catalog entries for
      the statements found. */
  predicate Ready(data: Object, statements: seq<StatementMapping>, content: string, catalog: Catalog)
  {
    && "provider" in data
    && (forall j :: 0 <= j < |statements| && IsSubstring(statements[j].statement, content) ==>
          CatalogCovers(catalog, statements[j]))
    && ((exists j :: 0 <= j < |statements| && IsSubstring(statements[j].statement, content)) ==>
          "bibjson" in data && data["bibjson"].Dict?)
  }

  /** `record['bibjson']['license'] = license`: the license replaces whatever
      was there. */
  function WithLicense(data: Object, license: Object): Object
    requires "bibjson" in data && data["bibjson"].Dict?
  {
    data["bibjson" := Dict(data["bibjson"].m["license" := Dict(license)])]
  }

  /** The record after `page_license`: unchanged without a match, otherwise
      carrying the license built from the last matching statement. */
  function Outcome(data: Object, statements: seq<StatementMapping>, content: string, catalog: Catalog, date: string): Object
    requires Ready(data, statements, content, catalog)
  {
    match LastMatch(statements, content)
    case None => data
    case Some(k) => WithLicense(data, NewLicense(catalog, statements[k], data["provider"], date))
  }

  /** Overwriting: a second license replaces the first, and the provider
      is left alone. */
  lemma WithLicenseTwice(data: Object, first: Object, second: Object)
    requires "bibjson" in data && data["bibjson"].Dict?
    ensures WithLicense(WithLicense(data, first), second) == WithLicense(data, second)
    ensures "provider" in data ==> "provider" in WithLicense(data, first) && WithLicense(data, first)["provider"] == data["provider"]
  {
    var m := data["bibjson"].m;
    assert m["license" := Dict(first)]["license" := Dict(second)] == m["license" := Dict(second)];
  }

  /** What the source needs of a whole table it needs of every prefix. */
  lemma ReadyPrefix(data: Object, statements: seq<StatementMapping>, content: string, catalog: Catalog, i: nat)
    requires i <= |statements|
    requires Ready(data, statements, content, catalog)
    ensures Ready(data, statements[..i], content, catalog)
  {
    var prefix := statements[..i];
    if exists j :: 0 <= j < |prefix| && IsSubstring(prefix[j].statement, content) {
      var j :| 0 <= j < |prefix| && IsSubstring(prefix[j].statement, content);
      assert statements[j] == prefix[j];
    }
  }

  /** One loop step: the outcome of one more statement is the new license
      when it matches and the earlier outcome otherwise. */
  lemma OutcomeStep(data: Object, statements: seq<StatementMapping>, content: string, catalog: Catalog, date: string, i: nat)
    requires i < |statements|
    requires Ready(data, statements, content, catalog)
    ensures Ready(data, statements[..i], content, catalog)
    ensures Ready(data, statements[..i + 1], content, catalog)
    ensures IsSubstring(statements[i].statement, content) ==>
      && CatalogCovers(catalog, statements[i])
      && "bibjson" in data && data["bibjson"].Dict?
      && Outcome(data, statements[..i + 1], content, catalog, date)
         == WithLicense(data, NewLicense(catalog, statements[i], data["provider"], date))
    ensures !IsSubstring(statements[i].statement, content) ==>
      Outcome(data, statements[..i + 1], content, catalog, date) == Outcome(data, statements[..i], content, catalog, date)
  {
    ReadyPrefix(data, statements, content, catalog, i);
    ReadyPrefix(data, statements, content, catalog, i + 1);
    assert statements[..i + 1][..i] == statements[..i];
    assert statements[..i + 1][i] == statements[i];
  }

  /** The statement scan of `page_license` over any table. */
  method MatchStatements(statements: seq<StatementMapping>, record: Record, content: string, catalog: Catalog, now: string)
    requires Ready(record.data, statements, content, catalog)
    modifies record
    ensures record.data == Outcome(old(record.data), statements, content, catalog, now)
  {
    for i := 0 to |statements|
      invariant record.data == Outcome(old(record.data), statements[..i], content, catalog, now)
      invariant "provider" in record.data && record.data["provider"] == old(record.data)["provider"]
      invariant record.data != old(record.data) ==>
        "bibjson" in old(record.data) && old(record.data)["bibjson"].Dict?
        && exists l :: record.data == WithLicense(old(record.data), l)
    {
      OutcomeStep(old(record.data), statements, content, catalog, now, i);
      var statementMapping := statements[i];
      var statement := statementMapping.statement;
      if IsSubstring(statement, content) {
        var licId := statementMapping.meaning.id;
        var licVersion := statementMapping.meaning.version;
        var license := catalog[licId];
        license := license["version" := Str(licVersion)];
        license := license["type" := license["id"]];
        license := license["description" := Str("")];
        var provenance := map[
          "date" := Str(now),
          "iioa" := Bool(statementMapping.meaning.iioa),
          "source" := record.data["provider"],
          "agent" := Str(Agent),
          "jurisdiction" := Str(""),
          "category" := Str("page_scrape"),
          "description" := Str(DescriptionPrefix + statement + "\".")
        ];
        license := license["provenance" := Dict(provenance)];
        assert license == NewLicense(catalog, statementMapping, old(record.data)["provider"], now);
        if record.data != old(record.data) {
          var l :| record.data == WithLicense(old(record.data), l);
          WithLicenseTwice(old(record.data), l, license);
        }
        WithLicenseTwice(old(record.data), license, license);
        var bibjson := record.data["bibjson"].m;
        record.data := record.data["bibjson" := Dict(bibjson["license" := Dict(license)])];
      }
    }
    assert statements[..|statements|] == statements;
  }

  /** A page with none of the statements leaves the record as it was. */
  lemma NoMatchUnchanged(data: Object, statements: seq<StatementMapping>, content: string, catalog: Catalog, date: string)
    requires Ready(data, statements, content, catalog)
    requires forall j :: 0 <= j < |statements| ==> !IsSubstring(statements[j].statement, content)
    ensures Outcome(data, statements, content, catalog, date) == data
  {
  }

  /** When several statements are found, the license comes from the last
      of them. */
  lemma LastMatchWins(data: Object, statements: seq<StatementMapping>, content: string, catalog: Catalog, date: string, k: nat)
    requires Ready(data, statements, content, catalog)
    requires k < |statements| && IsSubstring(statements[k].statement, content)
    requires forall j :: k < j < |statements| ==> !IsSubstring(statements[j].statement, content)
    ensures CatalogCovers(catalog, statements[k])
    ensures "bibjson" in data && data["bibjson"].Dict?
    ensures Outcome(data, statements, content, catalog, date)
         == WithLicense(data, NewLicense(catalog, statements[k], data["provider"], date))
  {
  }

  /** Only `bibjson.license` changes: every other key of the record and of
      its `bibjson` keeps its value, and the license is a single object. */
  lemma OnlyLicenseChanges(data: Object, statements: seq<StatementMapping>, content: string, catalog: Catalog, date: string)
    requires Ready(data, statements, content, catalog)
    ensures var out := Outcome(data, statements, content, catalog, date);
      && out.Keys == data.Keys
      && (forall key :: key in data && key != "bibjson" ==> out[key] == data[key])
      && (out != data ==>
            && data["bibjson"].Dict? && out["bibjson"].Dict?
            && out["bibjson"].m.Keys == data["bibjson"].m.Keys + {"license"}
            && (forall key :: key in data["bibjson"].m && key != "license" ==> out["bibjson"].m[key] == data["bibjson"].m[key])
            && out["bibjson"].m["license"].Dict?)
  {
    var r := LastMatch(statements, content);
    if r.Some? {
      assert IsSubstring(statements[r.value].statement, content);
    }
  }

  /** The license is replaced, not appended: whatever `bibjson.license` held
      before does not show in the result, so running the plugin twice on the
      same page content with the same time stamp is the same as running it
      once. */
  lemma PageLicenseIdempotent(data: Object, statements: seq<StatementMapping>, content: string, catalog: Catalog, date: string)
    requires Ready(data, statements, content, catalog)
    ensures Ready(Outcome(data, statements, content, catalog, date), statements, content, catalog)
    ensures Outcome(Outcome(data, statements, content, catalog, date), statements, content, catalog, date)
         == Outcome(data, statements, content, catalog, date)
  {
    var r := LastMatch(statements, content);
    match r
    case None =>
    case Some(k) =>
      assert IsSubstring(statements[k].statement, content);
      var lic := NewLicense(catalog, statements[k], data["provider"], date);
      WithLicenseTwice(data, lic, lic);
  }

  /** Run again on the same page at a later time, the plugin overwrites the
      whole earlier license: the record is what a single run at the later time
      gives, so only `provenance.date` differs from the first run. */
  lemma PageLicenseRerun(data: Object, statements: seq<StatementMapping>, content: string, catalog: Catalog,
                         first: string, second: string)
    requires Ready(data, statements, content, catalog)
    ensures Ready(Outcome(data, statements, content, catalog, first), statements, content, catalog)
    ensures Outcome(Outcome(data, statements, content, catalog, first), statements, content, catalog, second)
         == Outcome(data, statements, content, catalog, second)
  {
    var r := LastMatch(statements, content);
    match r
    case None =>
    case Some(k) =>
      assert IsSubstring(statements[k].statement, content);
      WithLicenseTwice(data, NewLicense(catalog, statements[k], data["provider"], first),
                       NewLicense(catalog, statements[k], data["provider"], second));
  }

  /** A page carrying the BioMed Central statement gets the catalog's cc-by
      entry at version 2.0, flagged `iioa`, for a record with that entry. */
  lemma BmcStatementLicensed(data: Object, content: string, catalog: Catalog, date: string)
    requires Ready(data, LicStatements, content, catalog)
    requires IsSubstring(LicStatements[0].statement, content)
    ensures var lic := Outcome(data, LicStatements, content, catalog, date)["bibjson"].m["license"];
      && lic.Dict?
      && lic.m["version"] == Str("2.0")
      && lic.m["type"] == catalog["cc-by"]["id"]
      && lic.m["provenance"].Dict?
      && lic.m["provenance"].m["iioa"] == Bool(true)
      && lic.m["provenance"].m["source"] == data["provider"]
  {
    LastMatchWins(data, LicStatements, content, catalog, date, 0);
  }

  /** `page_license(record)` with the BioMed Central table. */
  method PageLicense(record: Record, content: string, catalog: Catalog, now: string)
    requires Ready(record.data, LicStatements, content, catalog)
    modifies record
    ensures record.data == Outcome(old(record.data), LicStatements, content, catalog, now)
  {
    MatchStatements(LicStatements, record, content, catalog, now);
  }
}
