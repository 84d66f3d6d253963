/** Properties of the GIS-ZH harvester: which term translations it
    generates and how many, the single API resource, how the gather stage
    rewrites and enriches a record, staging with the GIS-ZH mapping, and
    the package the import stage prepares. */
module ZhGisHarvesterLemmas {
  import opened Base
  import opened PyStrings
  import opened Xml
  import opened Attributes
  import opened CkanCsw
  import opened CkanCswLemmas
  import opened ZhGisHarvester

  // ------------------------------------------------ term translations

  /** An organisation triple: a non-German language of the table, with the
      German and the translated text of its name or its description. */
  ghost predicate IsOrgTranslation(h: Harvester, t: Translation)
  {
    var org := h.organization;
    && t.langCode != "de" && t.langCode in org && "de" in org
    && exists field :: field in OrgFields && field in org["de"] && field in org[t.langCode]
                       && t.term == org["de"][field] && t.termTranslation == org[t.langCode][field]
  }

  /** A group triple: a non-German language of the table, with the German
      and the translated title at the same position. */
  ghost predicate IsGroupTranslation(h: Harvester, t: Translation)
  {
    var g := h.groups;
    && t.langCode != "de" && t.langCode in g && "de" in g
    && exists i :: 0 <= i < |g[t.langCode]| && i < |g["de"]|
                   && t.term == g["de"][i] && t.termTranslation == g[t.langCode][i]
  }

  /** For a language other than German, the organisation contributes its
      name and then its description, and fails with a KeyError exactly when
      a text is missing. */
  lemma OrgEntriesPair(h: Harvester, lang: string)
    requires lang != "de"
    ensures var org := h.organization;
            h.OrgEntries(lang).Ok? <==>
              ("de" in org && lang in org && "name" in org["de"] && "description" in org["de"]
               && "name" in org[lang] && "description" in org[lang])
    ensures h.OrgEntries(lang).Err? ==> h.OrgEntries(lang).error == KeyError
    ensures var org := h.organization;
            h.OrgEntries(lang).Ok? ==>
              h.OrgEntries(lang).value ==
                [Translation(lang, org["de"]["name"], org[lang]["name"]),
                 Translation(lang, org["de"]["description"], org[lang]["description"])]
  {
    var steps := seq(|OrgFields|, j requires 0 <= j < |OrgFields| => Wrap(h.OrgTranslation(lang, OrgFields[j])));
    assert h.OrgEntries(lang) == Gather(steps);
    assert steps[0] == Wrap(h.OrgTranslation(lang, "name"));
    assert steps[1] == Wrap(h.OrgTranslation(lang, "description"));
    if steps[0].Err? {
      GatherFirstError(steps, 0);
    } else if steps[1].Err? {
      GatherFirstError(steps, 1);
    } else {
      GatherSingletons(steps);
    }
  }

  /** For a language other than German with `n` titles, the groups
      contribute `n` triples pairing the German and the translated title at
      each position; they fail with a KeyError without German titles and
      with an IndexError when the language has more titles than German. */
  lemma GroupEntriesPairs(h: Harvester, lang: string)
    requires lang != "de" && lang in h.groups
    ensures var g := h.groups;
            h.GroupEntries(lang).Ok? <==> g[lang] == [] || ("de" in g && |g[lang]| <= |g["de"]|)
    ensures var g := h.groups;
            h.GroupEntries(lang).Err? ==> h.GroupEntries(lang).error == (if "de" in g then IndexError else KeyError)
    ensures var g := h.groups;
            var r := h.GroupEntries(lang);
            r.Ok? ==> |r.value| == |g[lang]|
                      && forall i :: 0 <= i < |g[lang]| ==> r.value[i] == Translation(lang, g["de"][i], g[lang][i])
  {
    var g := h.groups;
    var titles := g[lang];
    var steps := seq(|titles|, idx requires 0 <= idx < |titles| => Wrap(h.GroupTranslation(lang, idx)));
    assert h.GroupEntries(lang) == Gather(steps);
    if g[lang] == [] || ("de" in g && |g[lang]| <= |g["de"]|) {
      GatherSingletons(steps);
    } else if "de" !in g {
      GatherFirstError(steps, 0);
    } else {
      GatherFirstError(steps, |g["de"]|);
    }
  }

  /** The triples one organisation step produces, and for which language. */
  lemma OrgStepMembers(h: Harvester, lang: string)
    requires h.OrgEntries(lang).Ok?
    ensures forall t :: t in h.OrgEntries(lang).value <==> t.langCode == lang && IsOrgTranslation(h, t)
  {
    if lang != "de" {
      OrgEntriesPair(h, lang);
      forall t: Translation | t.langCode == lang && IsOrgTranslation(h, t)
        ensures t in h.OrgEntries(lang).value
      {
        var org := h.organization;
        var field :| field in OrgFields && field in org["de"] && field in org[t.langCode]
                     && t.term == org["de"][field] && t.termTranslation == org[t.langCode][field];
        assert t == Translation(lang, org["de"][field], org[lang][field]);
      }
      forall t | t in h.OrgEntries(lang).value
        ensures t.langCode == lang && IsOrgTranslation(h, t)
      {
        var org := h.organization;
        if t == h.OrgEntries(lang).value[0] {
          assert "name" in OrgFields;
        } else {
          assert "description" in OrgFields;
        }
      }
    }
  }

  /** The triples one group step produces, and for which language. */
  lemma GroupStepMembers(h: Harvester, lang: string)
    requires h.GroupEntries(lang).Ok?
    ensures forall t :: t in h.GroupEntries(lang).value <==> t.langCode == lang && IsGroupTranslation(h, t)
  {
    if lang != "de" {
      GroupEntriesPairs(h, lang);
      var g := h.groups;
      var r := h.GroupEntries(lang).value;
      forall t: Translation | t.langCode == lang && IsGroupTranslation(h, t)
        ensures t in r
      {
        var i :| 0 <= i < |g[t.langCode]| && i < |g["de"]|
                 && t.term == g["de"][i] && t.termTranslation == g[t.langCode][i];
        assert r[i] == t;
      }
      forall t | t in r
        ensures t.langCode == lang && IsGroupTranslation(h, t)
      {
        var i :| 0 <= i < |r| && r[i] == t;
        assert r[i] == Translation(lang, g["de"][i], g[lang][i]);
      }
    }
  }

  /** When the generation succeeds, it yields exactly the organisation
      triples and the group triples, so none of them is for German. */
  lemma TermTranslationsMembers(h: Harvester, orgOrder: seq<string>, groupOrder: seq<string>)
    requires Enumerates(orgOrder, h.organization.Keys) && Enumerates(groupOrder, h.groups.Keys)
    requires h.TermTranslations(orgOrder, groupOrder).Ok?
    ensures forall t ::
              (t in h.TermTranslations(orgOrder, groupOrder).value) <==> (IsOrgTranslation(h, t) || IsGroupTranslation(h, t))
    ensures forall t :: t in h.TermTranslations(orgOrder, groupOrder).value ==> t.langCode != "de"
  {
    var os, gs := h.OrgSteps(orgOrder), h.GroupSteps(groupOrder);
    var steps := os + gs;
    GatherValue(steps);
    var value := h.TermTranslations(orgOrder, groupOrder).value;
    forall t | t in value
      ensures IsOrgTranslation(h, t) || IsGroupTranslation(h, t)
    {
      var i :| 0 <= i < |steps| && steps[i].Ok? && t in steps[i].value;
      if i < |orgOrder| {
        assert steps[i] == h.OrgEntries(orgOrder[i]);
        OrgStepMembers(h, orgOrder[i]);
      } else {
        assert steps[i] == h.GroupEntries(groupOrder[i - |orgOrder|]);
        GroupStepMembers(h, groupOrder[i - |orgOrder|]);
      }
    }
    forall t | IsOrgTranslation(h, t) || IsGroupTranslation(h, t)
      ensures t in value
    {
      if IsOrgTranslation(h, t) {
        assert t.langCode in h.organization.Keys;
        var i :| 0 <= i < |orgOrder| && orgOrder[i] == t.langCode;
        assert steps[i] == h.OrgEntries(t.langCode);
        OrgStepMembers(h, t.langCode);
        assert Produces(steps, t);
      } else {
        assert t.langCode in h.groups.Keys;
        var i :| 0 <= i < |groupOrder| && groupOrder[i] == t.langCode;
        assert steps[|orgOrder| + i] == h.GroupEntries(t.langCode);
        GroupStepMembers(h, t.langCode);
        assert Produces(steps, t);
      }
    }
  }

  /** The number of languages other than German in an iteration order. */
  function NonGerman(order: seq<string>): nat
  {
    if order == [] then 0
    else NonGerman(order[..|order| - 1]) + (if order[|order| - 1] != "de" then 1 else 0)
  }

  /** The number of titles of the languages other than German in an
      iteration order of the group table. */
  function GroupTitles(h: Harvester, order: seq<string>): nat
    requires forall k :: k in order ==> k in h.groups
  {
    if order == [] then 0
    else
      var lang := order[|order| - 1];
      GroupTitles(h, order[..|order| - 1]) + (if lang != "de" then |h.groups[lang]| else 0)
  }

  /** An order without repetitions skips German at most once. */
  lemma {:induction false} NonGermanDistinct(order: seq<string>)
    requires Distinct(order)
    ensures NonGerman(order) == |order| - (if "de" in order then 1 else 0)
    decreases |order|
  {
    if order != [] {
      var front := order[..|order| - 1];
      assert Distinct(front);
      NonGermanDistinct(front);
      assert order == front + [order[|order| - 1]];
      if order[|order| - 1] == "de" {
        assert "de" !in front;
      }
    }
  }

  /** Each successful organisation step adds two triples. */
  lemma {:induction false} OrgStepsSizes(h: Harvester, order: seq<string>)
    requires forall i :: 0 <= i < |order| ==> h.OrgEntries(order[i]).Ok?
    ensures Sizes(h.OrgSteps(order)) == 2 * NonGerman(order)
    decreases |order|
  {
    if order != [] {
      var n := |order|;
      var front := order[..n - 1];
      assert h.OrgSteps(order)[..n - 1] == h.OrgSteps(front);
      OrgStepsSizes(h, front);
      if order[n - 1] != "de" {
        OrgEntriesPair(h, order[n - 1]);
      }
    }
  }

  /** Each successful group step adds one triple per title. */
  lemma {:induction false} GroupStepsSizes(h: Harvester, order: seq<string>)
    requires forall k :: k in order ==> k in h.groups
    requires forall i :: 0 <= i < |order| ==> h.GroupEntries(order[i]).Ok?
    ensures Sizes(h.GroupSteps(order)) == GroupTitles(h, order)
    decreases |order|
  {
    if order != [] {
      var n := |order|;
      var front := order[..n - 1];
      assert h.GroupSteps(order)[..n - 1] == h.GroupSteps(front);
      GroupStepsSizes(h, front);
      if order[n - 1] != "de" {
        GroupEntriesPairs(h, order[n - 1]);
      }
    }
  }

  /** A successful generation yields two triples per language of the
      organisation other than German, and one per title of each language of
      the groups other than German. */
  lemma TermTranslationsCount(h: Harvester, orgOrder: seq<string>, groupOrder: seq<string>)
    requires Enumerates(orgOrder, h.organization.Keys) && Enumerates(groupOrder, h.groups.Keys)
    requires h.TermTranslations(orgOrder, groupOrder).Ok?
    ensures |h.TermTranslations(orgOrder, groupOrder).value|
            == 2 * (|h.organization.Keys| - (if "de" in h.organization then 1 else 0)) + GroupTitles(h, groupOrder)
  {
    var os, gs := h.OrgSteps(orgOrder), h.GroupSteps(groupOrder);
    GatherAppend(os, gs);
    GatherValue(os);
    GatherValue(gs);
    assert forall i :: 0 <= i < |orgOrder| ==> os[i] == h.OrgEntries(orgOrder[i]);
    assert forall i :: 0 <= i < |groupOrder| ==> gs[i] == h.GroupEntries(groupOrder[i]);
    assert forall k :: k in groupOrder ==> k in h.groups;
    OrgStepsSizes(h, orgOrder);
    GroupStepsSizes(h, groupOrder);
    EnumerationDistinct(orgOrder, h.organization.Keys);
    NonGermanDistinct(orgOrder);
  }

  /** With one title per language, the groups add one triple per language
      other than German. */
  lemma {:induction false} GroupTitlesSingle(h: Harvester, order: seq<string>)
    requires forall k :: k in order ==> k in h.groups && |h.groups[k]| == 1
    ensures GroupTitles(h, order) == NonGerman(order)
    decreases |order|
  {
    if order != [] {
      GroupTitlesSingle(h, order[..|order| - 1]);
    }
  }

  /** Every language of the shipped organisation table has a name and a
      description, and German is one of them. */
  lemma ShippedOrganizationComplete()
    ensures ShippedOrganization.Keys == {"de", "fr", "it", "en"}
    ensures forall lang :: lang in ShippedOrganization ==>
              "name" in ShippedOrganization[lang] && "description" in ShippedOrganization[lang]
  {
  }

  /** The shipped group table has one title in each of its languages. */
  lemma ShippedGroupsSingle()
    ensures ShippedGroups.Keys == {"de", "fr", "it", "en"}
    ensures forall lang :: lang in ShippedGroups ==> |ShippedGroups[lang]| == 1
  {
  }

  /** The shipped organisation and group tables yield nine triples, in any
      iteration order: name and description in French, Italian and English,
      and the one group title in each of these. */
  lemma ShippedTranslations(h: Harvester, orgOrder: seq<string>, groupOrder: seq<string>)
    requires h.organization == ShippedOrganization && h.groups == ShippedGroups
    requires Enumerates(orgOrder, h.organization.Keys) && Enumerates(groupOrder, h.groups.Keys)
    ensures h.TermTranslations(orgOrder, groupOrder).Ok?
    ensures |h.TermTranslations(orgOrder, groupOrder).value| == 9
  {
    var os, gs := h.OrgSteps(orgOrder), h.GroupSteps(groupOrder);
    ShippedOrganizationComplete();
    ShippedGroupsSingle();
    forall i | 0 <= i < |orgOrder|
      ensures os[i].Ok?
    {
      assert orgOrder[i] in h.organization.Keys;
      if orgOrder[i] != "de" {
        OrgEntriesPair(h, orgOrder[i]);
      }
    }
    forall i | 0 <= i < |groupOrder|
      ensures gs[i].Ok?
    {
      assert groupOrder[i] in h.groups.Keys;
      if groupOrder[i] != "de" {
        GroupEntriesPairs(h, groupOrder[i]);
      }
    }
    GatherValue(os);
    GatherValue(gs);
    GatherAppend(os, gs);
    TermTranslationsCount(h, orgOrder, groupOrder);
    assert forall k :: k in groupOrder ==> k in h.groups && |h.groups[k]| == 1;
    GroupTitlesSingle(h, groupOrder);
    EnumerationDistinct(groupOrder, h.groups.Keys);
    NonGermanDistinct(groupOrder);
    assert "de" in groupOrder;
  }

  // ------------------------------------------------------- service type

  /** Removing `OGC:` from a service type that starts with it and has no
      other occurrence leaves the rest. */
  lemma RemoveOgcPrefix(t: string)
    requires !Occurs(t, "OGC:")
    ensures Replace("OGC:" + t, "OGC:", "") == t
  {
    var s := "OGC:" + t;
    assert s[..4] == "OGC:" && s[4..] == t;
    ReplaceAbsent(t, "OGC:", "");
  }

  /** The removal joins the pieces between the occurrences of `OGC:`,
      none of which contains it. */
  lemma OgcRemovalJoinsPieces(s: string)
    ensures Replace(s, "OGC:", "") == Join(Split(s, "OGC:"), "")
    ensures forall k :: 0 <= k < |Split(s, "OGC:")| ==> !Occurs(Split(s, "OGC:")[k], "OGC:")
  {
    ReplaceIsJoinOfSplit(s, "OGC:", "");
    SplitPiecesFree(s, "OGC:");
  }

  /** A single pass can leave `OGC:` behind: the pieces around a removed
      occurrence can join into a new one. */
  lemma OgcRemovalCanRejoin()
    ensures Replace("OGOGC:C:", "OGC:", "") == "OGC:"
  {
    var p := "OGC:";
    assert "C:"[..] == "C:";
    assert Replace("C:", p, "") == "C:";
    assert "OGC:C:"[..4] == p && "OGC:C:"[4..] == "C:";
    assert Replace("OGC:C:", p, "") == "C:";
    assert "GOGC:C:"[..4] != p && "GOGC:C:"[1..] == "OGC:C:";
    assert Replace("GOGC:C:", p, "") == "G" + "C:";
    assert "OGOGC:C:"[..4] != p && "OGOGC:C:"[1..] == "GOGC:C:";
    assert Replace("OGOGC:C:", p, "") == "O" + ("G" + "C:");
  }

  // ------------------------------------------------------- enrichment

  /** The fields the gather stage rewrites or adds. */
  const Rewritten: set<string> := {"name", "service_type", "url", "tags", "license_id", "license_url"}

  /** The rewrites succeed exactly when the record has a name the munger
      accepts, a string service type, a list of tags, a service URL, a
      title and an id, and the translations were generated. The staged
      record then has the munged name, the service type without `OGC:`, the
      registry page as URL, the registry tags after the extracted ones and
      the harvester's licence; every other field is as extracted; the guid
      is the record's id; and the one resource points at the service URL,
      named after the rewritten service type and the title. */
  lemma EnrichOutcome(h: Harvester, metadata: map<string, Value>, entry: RegistryEntry,
                      translations: Result<seq<Translation>>)
    ensures var r := h.Enrich(metadata, entry, translations);
            r.Ok? <==>
              && "name" in metadata && h.munge(metadata["name"]).Ok?
              && "service_type" in metadata && metadata["service_type"].Str?
              && "tags" in metadata && metadata["tags"].List?
              && translations.Ok?
              && "service_url" in metadata && "title" in metadata && "id" in metadata
    ensures var r := h.Enrich(metadata, entry, translations);
            r.Ok? ==>
              var f := r.value.content.fields;
              var st := Replace(metadata["service_type"].str, "OGC:", "");
              && f.Keys == metadata.Keys + {"url", "license_id", "license_url"}
              && f["name"] == Str(h.munge(metadata["name"]).value)
              && f["service_type"] == Str(st)
              && f["url"] == Str(entry.geolionUrl)
              && f["tags"] == List(metadata["tags"].items + TagValues(entry.tags))
              && f["license_id"] == Str(h.license.name) && f["license_url"] == Str(h.license.url)
              && (forall k :: k in metadata && k !in Rewritten ==> f[k] == metadata[k])
              && r.value.guid == metadata["id"]
              && r.value.content.translations == translations.value
              && r.value.content.resources
                 == [Resource(metadata["service_url"], st + " (" + h.Format(metadata["title"]) + ")", Str(st), "api")]
  {
  }

  // --------------------------------------------------------- staging

  /** Staging a dataset either fails with the exception of fetching its
      document or enriches the record the GIS-ZH driver extracts from it. */
  lemma StageThroughRecord(h: Harvester, datasetId: string, entry: RegistryEntry,
                           keyOrder: seq<string>, orgOrder: seq<string>, groupOrder: seq<string>)
    requires Enumerates(keyOrder, KeySet)
    ensures var c := ZhGisCsw(h.catalog, h.lib);
            var r := h.Stage(datasetId, entry, keyOrder, orgOrder, groupOrder);
            && (c.Document(datasetId).Err? ==> r == Err(c.Document(datasetId).error))
            && (c.Document(datasetId).Ok? ==>
                  r == h.Enrich(c.FetchById(EmptyRecord, datasetId, "de", keyOrder).record, entry,
                                h.TermTranslations(orgOrder, groupOrder)))
  {
    assert EmptyRecord.Keys == KeySet;
    ZhGisFetchById(h.catalog, h.lib, EmptyRecord, datasetId, "de", keyOrder);
  }

  /** The schema has every field the gather stage reads, and its URL and
      licence URL, but no licence id. */
  lemma SchemaHasEnrichedFields()
    ensures {"id", "name", "title", "url", "service_url", "service_type", "tags", "license_url"} <= KeySet
    ensures "license_id" !in KeySet
  {
  }

  /** Enriching a record of the GIS-ZH schema, whose tags are the mapped
      `gis` and `geodaten`: it succeeds unless the service type is not text,
      the munger rejects the name or the translations fail, and then has
      the schema's fields plus `license_id`, the registry URL, the registry
      tags after the mapped ones, and the harvester's licence URL. */
  lemma ZhGisEnrich(h: Harvester, m: map<string, Value>, entry: RegistryEntry, translations: Result<seq<Translation>>)
    requires m.Keys == KeySet && m["tags"] == List([Str("gis"), Str("geodaten")])
    ensures var r := h.Enrich(m, entry, translations);
            r.Ok? <==> m["service_type"].Str? && h.munge(m["name"]).Ok? && translations.Ok?
    ensures var r := h.Enrich(m, entry, translations);
            r.Ok? ==>
              && r.value.guid == m["id"]
              && r.value.content.fields.Keys == KeySet + {"license_id"}
              && r.value.content.fields["url"] == Str(entry.geolionUrl)
              && r.value.content.fields["tags"] == List([Str("gis"), Str("geodaten")] + TagValues(entry.tags))
              && r.value.content.fields["license_url"] == Str(h.license.url)
  {
    SchemaHasEnrichedFields();
    EnrichOutcome(h, m, entry, translations);
    var r := h.Enrich(m, entry, translations);
    if r.Ok? {
      assert m.Keys + {"url", "license_id", "license_url"} == KeySet + {"license_id"};
    }
  }

  /** The record the GIS-ZH driver extracts in German has the schema's
      fields, the mapped tags, and the id extractor's value as id. */
  lemma ZhGisRecord(h: Harvester, datasetId: string, keyOrder: seq<string>)
    requires Enumerates(keyOrder, KeySet)
    ensures var c := ZhGisCsw(h.catalog, h.lib);
            var m := c.FetchById(EmptyRecord, datasetId, "de", keyOrder).record;
            c.Document(datasetId).Ok? ==>
              && m.Keys == KeySet
              && m["tags"] == List([Str("gis"), Str("geodaten")])
              && Ok(m["id"]) == Eval(DefaultMapping["id"], h.lib, c.Document(datasetId).value, "de")
  {
    var c := ZhGisCsw(h.catalog, h.lib);
    assert EmptyRecord.Keys == KeySet;
    ZhGisFetchById(h.catalog, h.lib, EmptyRecord, datasetId, "de", keyOrder);
    if c.Document(datasetId).Ok? {
      var doc := c.Document(datasetId).value;
      SchemaHasEnrichedFields();
      ZhGisTags(h.lib, doc, "de");
    }
  }

  /** A dataset whose document cannot be fetched or parsed is not staged:
      the fetch's exception ends the staging. */
  lemma ZhGisStageFails(h: Harvester, datasetId: string, entry: RegistryEntry,
                        keyOrder: seq<string>, orgOrder: seq<string>, groupOrder: seq<string>)
    requires Enumerates(keyOrder, KeySet)
    ensures var c := ZhGisCsw(h.catalog, h.lib);
            c.Document(datasetId).Err? ==> h.Stage(datasetId, entry, keyOrder, orgOrder, groupOrder) == Err(c.Document(datasetId).error)
  {
    StageThroughRecord(h, datasetId, entry, keyOrder, orgOrder, groupOrder);
  }

  /** With the GIS-ZH mapping, a dataset whose document is found is staged
      exactly when its service type is text, the munger accepts its name and
      the translations succeed. */
  lemma ZhGisStageSucceeds(h: Harvester, datasetId: string, entry: RegistryEntry,
                           keyOrder: seq<string>, orgOrder: seq<string>, groupOrder: seq<string>)
    requires Enumerates(keyOrder, KeySet)
    ensures var c := ZhGisCsw(h.catalog, h.lib);
            var m := c.FetchById(EmptyRecord, datasetId, "de", keyOrder).record;
            c.Document(datasetId).Ok? ==>
              && m.Keys == KeySet
              && (h.Stage(datasetId, entry, keyOrder, orgOrder, groupOrder).Ok? <==>
                    (m["service_type"].Str? && h.munge(m["name"]).Ok? && h.TermTranslations(orgOrder, groupOrder).Ok?))
  {
    StageThroughRecord(h, datasetId, entry, keyOrder, orgOrder, groupOrder);
    ZhGisRecord(h, datasetId, keyOrder);
    var c := ZhGisCsw(h.catalog, h.lib);
    if c.Document(datasetId).Ok? {
      var m := c.FetchById(EmptyRecord, datasetId, "de", keyOrder).record;
      ZhGisEnrich(h, m, entry, h.TermTranslations(orgOrder, groupOrder));
    }
  }

  /** A dataset staged with the GIS-ZH mapping has the id extractor's value
      as guid, its registry URL as `url`, the tags `gis` and `geodaten`
      followed by its registry tags, the harvester's licence URL in place of
      the mapped one, and the schema's fields plus `license_id`. */
  lemma ZhGisStage(h: Harvester, datasetId: string, entry: RegistryEntry,
                   keyOrder: seq<string>, orgOrder: seq<string>, groupOrder: seq<string>)
    requires Enumerates(keyOrder, KeySet)
    ensures var r := h.Stage(datasetId, entry, keyOrder, orgOrder, groupOrder);
            r.Ok? ==>
              && ZhGisCsw(h.catalog, h.lib).Document(datasetId).Ok?
              && r.value.content.fields.Keys == KeySet + {"license_id"}
              && r.value.content.fields["url"] == Str(entry.geolionUrl)
              && r.value.content.fields["tags"] == List([Str("gis"), Str("geodaten")] + TagValues(entry.tags))
              && r.value.content.fields["license_url"] == Str(h.license.url)
    ensures var r := h.Stage(datasetId, entry, keyOrder, orgOrder, groupOrder);
            var c := ZhGisCsw(h.catalog, h.lib);
            r.Ok? ==>
              && c.Document(datasetId).Ok?
              && Ok(r.value.guid) == Eval(DefaultMapping["id"], h.lib, c.Document(datasetId).value, "de")
  {
    StageThroughRecord(h, datasetId, entry, keyOrder, orgOrder, groupOrder);
    ZhGisRecord(h, datasetId, keyOrder);
    var c := ZhGisCsw(h.catalog, h.lib);
    if c.Document(datasetId).Ok? {
      var m := c.FetchById(EmptyRecord, datasetId, "de", keyOrder).record;
      ZhGisEnrich(h, m, entry, h.TermTranslations(orgOrder, groupOrder));
    }
  }

  /** A registered dataset tagged `Wald` is staged with the tags `gis`,
      `geodaten` and `Wald`. */
  lemma ZhGisStageWald(h: Harvester, datasetId: string, geolionUrl: string,
                       keyOrder: seq<string>, orgOrder: seq<string>, groupOrder: seq<string>)
    requires Enumerates(keyOrder, KeySet)
    requires h.Stage(datasetId, RegistryEntry(geolionUrl, ["Wald"]), keyOrder, orgOrder, groupOrder).Ok?
    ensures h.Stage(datasetId, RegistryEntry(geolionUrl, ["Wald"]), keyOrder, orgOrder, groupOrder).value.content.fields["url"]
            == Str(geolionUrl)
    ensures h.Stage(datasetId, RegistryEntry(geolionUrl, ["Wald"]), keyOrder, orgOrder, groupOrder).value.content.fields["tags"]
            == List([Str("gis"), Str("geodaten"), Str("Wald")])
  {
    ZhGisStage(h, datasetId, RegistryEntry(geolionUrl, ["Wald"]), keyOrder, orgOrder, groupOrder);
    assert [Str("gis"), Str("geodaten")] + TagValues(["Wald"]) == [Str("gis"), Str("geodaten"), Str("Wald")];
  }

  /** The gather stage stages one object per registered dataset, in the
      registry's order, when every dataset can be staged. */
  lemma GatheredOnePerDataset(h: Harvester, keyOrder: seq<string>, orgOrder: seq<string>, groupOrder: seq<string>)
    ensures var r := h.Gathered(keyOrder, orgOrder, groupOrder);
            r.Ok? <==> forall i :: 0 <= i < |h.datasets| ==> h.Stage(h.datasets[i].0, h.datasets[i].1, keyOrder, orgOrder, groupOrder).Ok?
    ensures var r := h.Gathered(keyOrder, orgOrder, groupOrder);
            r.Ok? ==> |r.value| == |h.datasets|
                      && forall i :: 0 <= i < |h.datasets| ==>
                           Ok(r.value[i]) == h.Stage(h.datasets[i].0, h.datasets[i].1, keyOrder, orgOrder, groupOrder)
  {
    var xs := h.Stages(keyOrder, orgOrder, groupOrder);
    GatherWrapped(xs);
    assert forall i :: 0 <= i < |h.datasets| ==> xs[i] == h.Stage(h.datasets[i].0, h.datasets[i].1, keyOrder, orgOrder, groupOrder);
  }

  /** The first dataset that cannot be staged ends the gather stage with
      its exception. */
  lemma GatheredFirstFailure(h: Harvester, keyOrder: seq<string>, orgOrder: seq<string>, groupOrder: seq<string>, k: nat)
    requires k < |h.datasets|
    requires h.Stage(h.datasets[k].0, h.datasets[k].1, keyOrder, orgOrder, groupOrder).Err?
    requires forall i :: 0 <= i < k ==> h.Stage(h.datasets[i].0, h.datasets[i].1, keyOrder, orgOrder, groupOrder).Ok?
    ensures h.Gathered(keyOrder, orgOrder, groupOrder)
            == Err(h.Stage(h.datasets[k].0, h.datasets[k].1, keyOrder, orgOrder, groupOrder).error)
  {
    var xs := h.Stages(keyOrder, orgOrder, groupOrder);
    assert forall i :: 0 <= i <= k ==> xs[i] == h.Stage(h.datasets[i].0, h.datasets[i].1, keyOrder, orgOrder, groupOrder);
    GatherWrappedFirstError(xs, k);
  }

  // ----------------------------------------------------------- import

  /** The prepared package carries the object's guid as id, the staged
      translations and resources, the one group and the organisation, and
      the licence URL as its only extra when the record has one. */
  lemma PreparedPackageFields(h: Harvester, obj: HarvestObject, groupId: string, organizationId: string)
    ensures var p := h.PreparedPackage(obj, groupId, organizationId);
            && p.fields.Keys == obj.content.fields.Keys + {"id"}
            && p.fields["id"] == obj.guid
            && (forall k :: k in obj.content.fields && k != "id" ==> p.fields[k] == obj.content.fields[k])
            && p.translations == obj.content.translations && p.resources == obj.content.resources
            && p.groups == [groupId] && p.ownerOrg == organizationId
            && (p.extras == if "license_url" in obj.content.fields then [("license_url", obj.content.fields["license_url"])] else [])
  {
  }

  /** A package prepared from a staged record keeps the record's id and has
      the harvester's licence URL as its one extra. */
  lemma StagedPackage(h: Harvester, metadata: map<string, Value>, entry: RegistryEntry,
                      translations: Result<seq<Translation>>, groupId: string, organizationId: string)
    requires h.Enrich(metadata, entry, translations).Ok?
    ensures var p := h.PreparedPackage(h.Enrich(metadata, entry, translations).value, groupId, organizationId);
            && p.fields["id"] == metadata["id"]
            && p.extras == [("license_url", Str(h.license.url))]
  {
    EnrichOutcome(h, metadata, entry, translations);
  }
}
