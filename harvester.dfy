/** The GIS-ZH harvester's deterministic part: for every registered dataset
    it fetches the extracted record, rewrites and enriches it, adds term
    translations built from the organisation and group tables and one API
    resource, and stages the result; the import stage prepares the package
    from a staged object. Persistence and the catalogue are outside. */
module ZhGisHarvester {
  import opened Base
  import opened PyStrings
  import opened Xml
  import opened Attributes
  import opened CkanCsw

  /** A DATASETS entry: the registry page and the extra tags of a dataset. */
  datatype RegistryEntry = RegistryEntry(geolionUrl: string, tags: seq<string>)

  datatype License = License(name: string, url: string)

  /** `{'lang_code': ..., 'term': ..., 'term_translation': ...}`. */
  datatype Translation = Translation(langCode: string, term: string, termTranslation: string)

  /** `{'url': ..., 'name': ..., 'format': ..., 'resource_type': ...}`. */
  datatype Resource = Resource(url: Value, name: string, format: Value, resourceType: string)

  /** The enriched metadata dict: its plain fields, and its `translations`
      and `resources` entries. */
  datatype StagedRecord = StagedRecord(fields: map<string, Value>, translations: seq<Translation>, resources: seq<Resource>)

  /** A staged harvest object: its guid and its content. */
  datatype HarvestObject = HarvestObject(guid: Value, content: StagedRecord)

  /** The package dict the import stage hands to the catalogue. */
  datatype PackageDict = PackageDict(
    fields: map<string, Value>, translations: seq<Translation>, resources: seq<Resource>,
    groups: seq<string>, ownerOrg: string, extras: seq<(string, Value)>)

  /** `import_stage`: False for a missing object, or the prepared package. */
  datatype ImportOutcome = NotReceived | Imported(package: PackageDict)

  /** The organisation fields that are translated. */
  const OrgFields: seq<string> := ["name", "description"]

  const ShippedLicense := License(
    "GIS-ZH Lizenz",
    "http://www.are.zh.ch/internet/baudirektion/are/de/" + "geoinformationen/gis-zh_gis-zentrum/geodaten.html")

  /** `ORGANIZATION`: for each language, the organisation's texts. */
  const ShippedOrganization: map<string, map<string, string>> := map[
    "de" := map[
      "name" := "Kanton Zürich",
      "description" :=
        "Im Rahmen eines Pilotversuchs veröffentlicht der Kanton "
        + "Zürich ausgewählte Datensätze des Statistischen Amts "
        + "und des GIS-ZH (Geografisches Informationssystem "
        + "des Kantons Zürich).",
      "website" := "http://opendata.zh.ch"],
    "fr" := map[
      "name" := "Canton de Zurich",
      "description" :=
        "Dans le cadre d'un projet pilote le canton de Zurich publie "
        + "des données sélectionnées de l'Office de la statistique "
        + "et du GIS-ZH (Système d'information géographique du "
        + "canton de Zurich)."],
    "it" := map[
      "name" := "Cantone di Zurigo",
      "description" :=
        "Come parte di un test pilota, il cantone di Zurigo pubblica "
        + "dei dati selezionati dell'Ufficio statistico e del GIS-ZH "
        + "(Sistema Informativo Territoriale del cantone di Zurigo)"],
    "en" := map[
      "name" := "Canton of Zurich",
      "description" :=
        "As part of a pilot project, the Canton of Zurich publishes "
        + "selected data of the Statistical Office and of the GIS-ZH "
        + "(Geographic Information System of the Canton of Zurich)."]]

  /** `GROUPS`: for each language, the group titles. */
  const ShippedGroups: map<string, seq<string>> := map[
    "de" := ["Raum und Umwelt"],
    "fr" := ["Espace et environnement"],
    "it" := ["Territorio e ambiente"],
    "en" := ["Territory and environment"]]

  /** Registry tags as list items. */
  function TagValues(tags: seq<string>): (vs: seq<Value>)
    ensures |vs| == |tags| && forall i :: 0 <= i < |tags| ==> vs[i] == Str(tags[i])
  {
    seq(|tags|, i requires 0 <= i < |tags| => Str(tags[i]))
  }

  /** The harvester: its tables (DATASETS in its iteration order, LICENSE,
      ORGANIZATION, GROUPS), the catalogue client and XML library the
      drivers it creates use, `munge_title_to_name`, and the `%s`
      rendering of an element or a list. */
  datatype Harvester = Harvester(
    datasets: seq<(string, RegistryEntry)>,
    license: License,
    organization: map<string, map<string, string>>,
    groups: map<string, seq<string>>,
    catalog: Catalogue,
    lib: XmlLib,
    munge: Value -> Result<string>,
    render: Value -> string)
  {
    // ------------------------------------------------ term translations

    /** The triple for one organisation field in language `lang`. */
    function OrgTranslation(lang: string, field: string): Result<Translation>
    {
      if "de" in organization && field in organization["de"] && lang in organization && field in organization[lang]
      then Ok(Translation(lang, organization["de"][field], organization[lang][field]))
      else Err(KeyError)
    }

    /** The triples for the organisation in language `lang`. */
    function OrgEntries(lang: string): Result<seq<Translation>>
    {
      if lang == "de" then Ok([])
      else Gather(seq(|OrgFields|, j requires 0 <= j < |OrgFields| => Wrap(OrgTranslation(lang, OrgFields[j]))))
    }

    /** The triple for the `idx`-th group title in language `lang`. */
    function GroupTranslation(lang: string, idx: nat): Result<Translation>
      requires lang in groups && idx < |groups[lang]|
    {
      if "de" !in groups then Err(KeyError)
      else if idx >= |groups["de"]| then Err(IndexError)
      else Ok(Translation(lang, groups["de"][idx], groups[lang][idx]))
    }

    /** The triples for the groups in language `lang`. */
    function GroupEntries(lang: string): Result<seq<Translation>>
    {
      if lang == "de" then Ok([])
      else if lang !in groups then Err(KeyError)
      else
        var titles := groups[lang];
        Gather(seq(|titles|, idx requires 0 <= idx < |titles| => Wrap(GroupTranslation(lang, idx))))
    }

    /** The steps of the first loop of `_generate_term_translations`: one
        per organisation language in `orgOrder`. */
    function OrgSteps(orgOrder: seq<string>): (steps: seq<Result<seq<Translation>>>)
      ensures |steps| == |orgOrder|
    {
      seq(|orgOrder|, i requires 0 <= i < |orgOrder| => OrgEntries(orgOrder[i]))
    }

    /** The steps of its second loop: one per group language in `groupOrder`. */
    function GroupSteps(groupOrder: seq<string>): (steps: seq<Result<seq<Translation>>>)
      ensures |steps| == |groupOrder|
    {
      seq(|groupOrder|, i requires 0 <= i < |groupOrder| => GroupEntries(groupOrder[i]))
    }

    /** `_generate_term_translations()`, the tables iterated in the given orders. */
    function TermTranslations(orgOrder: seq<string>, groupOrder: seq<string>): Result<seq<Translation>>
    {
      Gather(OrgSteps(orgOrder) + GroupSteps(groupOrder))
    }

    /** The inner loop over the organisation fields. */
    method OrgEntriesOf(lang: string) returns (r: Result<seq<Translation>>)
      requires lang != "de" && lang in organization
      ensures r == OrgEntries(lang)
    {
      var org := organization[lang];
      ghost var steps := seq(|OrgFields|, j requires 0 <= j < |OrgFields| => Wrap(OrgTranslation(lang, OrgFields[j])));
      var translations: seq<Translation> := [];
      for j := 0 to |OrgFields|
        invariant Gather(steps[..j]) == Ok(translations)
      {
        var field := OrgFields[j];
        assert steps[..j + 1][..j] == steps[..j];
        if "de" !in organization || field !in organization["de"] || field !in org {
          GatherSticks(steps, j + 1);
          return Err(KeyError);
        }
        translations := translations + [Translation(lang, organization["de"][field], org[field])];
      }
      assert steps[..|OrgFields|] == steps;
      r := Ok(translations);
    }

    /** The inner loop over the group titles of one language. */
    method GroupEntriesOf(lang: string) returns (r: Result<seq<Translation>>)
      requires lang != "de" && lang in groups
      ensures r == GroupEntries(lang)
    {
      var titles := groups[lang];
      ghost var steps := seq(|titles|, idx requires 0 <= idx < |titles| => Wrap(GroupTranslation(lang, idx)));
      var translations: seq<Translation> := [];
      for idx := 0 to |titles|
        invariant Gather(steps[..idx]) == Ok(translations)
      {
        assert steps[..idx + 1][..idx] == steps[..idx];
        if "de" !in groups {
          GatherSticks(steps, idx + 1);
          return Err(KeyError);
        }
        if idx >= |groups["de"]| {
          GatherSticks(steps, idx + 1);
          return Err(IndexError);
        }
        translations := translations + [Translation(lang, groups["de"][idx], titles[idx])];
      }
      assert steps[..|titles|] == steps;
      r := Ok(translations);
    }

    /** The first loop of `_generate_term_translations()`, over the
        organisation languages. */
    method OrgTermTranslations(orgOrder: seq<string>) returns (r: Result<seq<Translation>>)
      requires Enumerates(orgOrder, organization.Keys)
      ensures r == Gather(OrgSteps(orgOrder))
    {
      ghost var steps := OrgSteps(orgOrder);
      var translations: seq<Translation> := [];
      for i := 0 to |orgOrder|
        invariant Gather(steps[..i]) == Ok(translations)
      {
        var lang := orgOrder[i];
        var entries: Result<seq<Translation>> := Ok([]);
        if lang != "de" {
          assert orgOrder[i] in organization.Keys;
          entries := OrgEntriesOf(lang);
        }
        if entries.Err? {
          GatherStepFails(steps, i, translations);
          return entries;
        }
        GatherStep(steps, i, translations, entries.value);
        translations := translations + entries.value;
      }
      assert steps[..|orgOrder|] == steps;
      r := Ok(translations);
    }

    /** The second loop of `_generate_term_translations()`, over the group
        languages. */
    method GroupTermTranslations(groupOrder: seq<string>) returns (r: Result<seq<Translation>>)
      requires Enumerates(groupOrder, groups.Keys)
      ensures r == Gather(GroupSteps(groupOrder))
    {
      ghost var steps := GroupSteps(groupOrder);
      var translations: seq<Translation> := [];
      for i := 0 to |groupOrder|
        invariant Gather(steps[..i]) == Ok(translations)
      {
        var lang := groupOrder[i];
        var entries: Result<seq<Translation>> := Ok([]);
        if lang != "de" {
          assert groupOrder[i] in groups.Keys;
          entries := GroupEntriesOf(lang);
        }
        if entries.Err? {
          GatherStepFails(steps, i, translations);
          return entries;
        }
        GatherStep(steps, i, translations, entries.value);
        translations := translations + entries.value;
      }
      assert steps[..|groupOrder|] == steps;
      r := Ok(translations);
    }

    /** `_generate_term_translations()`: the organisation triples, then the
        group triples. */
    method GenerateTermTranslations(orgOrder: seq<string>, groupOrder: seq<string>) returns (r: Result<seq<Translation>>)
      requires Enumerates(orgOrder, organization.Keys) && Enumerates(groupOrder, groups.Keys)
      ensures r == TermTranslations(orgOrder, groupOrder)
    {
      GatherAppend(OrgSteps(orgOrder), GroupSteps(groupOrder));
      var orgPart := OrgTermTranslations(orgOrder);
      if orgPart.Err? {
        return orgPart;
      }
      var groupPart := GroupTermTranslations(groupOrder);
      if groupPart.Err? {
        return groupPart;
      }
      r := Ok(orgPart.value + groupPart.value);
    }

    // ------------------------------------------------------- resources

    /** `'%s' % v`. */
    function Format(v: Value): string
    {
      match v
      case Str(s) => s
      case Null => "None"
      case _ => render(v)
    }

    /** `_generate_resource_dict_array(metadata)`: exactly one API resource
        for the dataset's service. */
    function ResourceDictArray(metadata: map<string, Value>): (r: Result<seq<Resource>>)
      ensures r.Ok? <==> "service_url" in metadata && "service_type" in metadata && "title" in metadata
      ensures r.Ok? ==> |r.value| == 1 && r.value[0].resourceType == "api"
      ensures r.Ok? ==> r.value[0].url == metadata["service_url"] && r.value[0].format == metadata["service_type"]
      ensures r.Ok? ==> r.value[0].name == Format(metadata["service_type"]) + " (" + Format(metadata["title"]) + ")"
    {
      if "service_url" !in metadata || "service_type" !in metadata || "title" !in metadata then Err(KeyError)
      else
        Ok([Resource(
          metadata["service_url"],
          Format(metadata["service_type"]) + " (" + Format(metadata["title"]) + ")",
          metadata["service_type"],
          "api")])
    }

    // ------------------------------------------------------ gather stage

    /** The rewrites and enrichments of one extracted record, in the order
        the gather stage applies them, with the exception the first failing
        one raises. */
    function Enrich(metadata: map<string, Value>, entry: RegistryEntry, translations: Result<seq<Translation>>): Result<HarvestObject>
    {
      if "name" !in metadata then Err(KeyError)
      else
        match munge(metadata["name"])
        case Err(e) => Err(e)
        case Ok(name) =>
          var named := metadata["name" := Str(name)];
          if "service_type" !in named then Err(KeyError)
          else if !named["service_type"].Str? then Err(AttributeError)
          else
            var typed := named["service_type" := Str(Replace(named["service_type"].str, "OGC:", ""))];
            var linked := typed["url" := Str(entry.geolionUrl)];
            if "tags" !in linked then Err(KeyError)
            else if !linked["tags"].List? then Err(AttributeError)
            else
              var tagged := linked["tags" := List(linked["tags"].items + TagValues(entry.tags))];
              match translations
              case Err(e) => Err(e)
              case Ok(ts) =>
                match ResourceDictArray(tagged)
                case Err(e) => Err(e)
                case Ok(resources) =>
                  var licensed := tagged["license_id" := Str(license.name)]["license_url" := Str(license.url)];
                  if "id" !in licensed then Err(KeyError)
                  else Ok(HarvestObject(licensed["id"], StagedRecord(licensed, ts, resources)))
    }

    /** One iteration of the gather loop: a fresh GIS-ZH driver fetches the
        dataset in German, and its record is enriched. */
    function Stage(datasetId: string, entry: RegistryEntry, keyOrder: seq<string>,
                   orgOrder: seq<string>, groupOrder: seq<string>): Result<HarvestObject>
    {
      match ZhGisCsw(catalog, lib).FetchById(EmptyRecord, datasetId, "de", keyOrder).Outcome()
      case Err(e) => Err(e)
      case Ok(metadata) => Enrich(metadata, entry, TermTranslations(orgOrder, groupOrder))
    }

    /** What staging each registered dataset gives, in the registry's order. */
    function Stages(keyOrder: seq<string>, orgOrder: seq<string>, groupOrder: seq<string>): (rs: seq<Result<HarvestObject>>)
      ensures |rs| == |datasets|
    {
      seq(|datasets|, i requires 0 <= i < |datasets| => Stage(datasets[i].0, datasets[i].1, keyOrder, orgOrder, groupOrder))
    }

    /** `gather_stage`: the objects staged, one per dataset in order. */
    function Gathered(keyOrder: seq<string>, orgOrder: seq<string>, groupOrder: seq<string>): Result<seq<HarvestObject>>
    {
      Gather(Wrapped(Stages(keyOrder, orgOrder, groupOrder)))
    }

    /** The body of the gather loop for one dataset. */
    method StageDataset(datasetId: string, entry: RegistryEntry, keyOrder: seq<string>,
                        orgOrder: seq<string>, groupOrder: seq<string>) returns (r: Result<HarvestObject>)
      requires Enumerates(keyOrder, KeySet)
      requires Enumerates(orgOrder, organization.Keys) && Enumerates(groupOrder, groups.Keys)
      ensures r == Stage(datasetId, entry, keyOrder, orgOrder, groupOrder)
    {
      var csw := new CkanMetadata.ZhGis(catalog, lib);
      var fetched := csw.GetCkanMetadataById(datasetId, "de", keyOrder);
      if fetched.Err? {
        return Err(fetched.error);
      }
      var metadata := fetched.value;
      if "name" !in metadata {
        return Err(KeyError);
      }
      var name := munge(metadata["name"]);
      if name.Err? {
        return Err(name.error);
      }
      metadata := metadata["name" := Str(name.value)];
      if "service_type" !in metadata {
        return Err(KeyError);
      }
      if !metadata["service_type"].Str? {
        return Err(AttributeError);
      }
      metadata := metadata["service_type" := Str(Replace(metadata["service_type"].str, "OGC:", ""))];
      metadata := metadata["url" := Str(entry.geolionUrl)];
      if "tags" !in metadata {
        return Err(KeyError);
      }
      if !metadata["tags"].List? {
        return Err(AttributeError);
      }
      metadata := metadata["tags" := List(metadata["tags"].items + TagValues(entry.tags))];
      var translations := GenerateTermTranslations(orgOrder, groupOrder);
      if translations.Err? {
        return Err(translations.error);
      }
      var resources := ResourceDictArray(metadata);
      if resources.Err? {
        return Err(resources.error);
      }
      metadata := metadata["license_id" := Str(license.name)];
      metadata := metadata["license_url" := Str(license.url)];
      if "id" !in metadata {
        return Err(KeyError);
      }
      r := Ok(HarvestObject(metadata["id"], StagedRecord(metadata, translations.value, resources.value)));
    }

    /** `gather_stage(harvest_job)`, the record fields iterated in
        `keyOrder` and the tables in `orgOrder` and `groupOrder`. */
    method GatherStage(keyOrder: seq<string>, orgOrder: seq<string>, groupOrder: seq<string>) returns (r: Result<seq<HarvestObject>>)
      requires Enumerates(keyOrder, KeySet)
      requires Enumerates(orgOrder, organization.Keys) && Enumerates(groupOrder, groups.Keys)
      ensures r == Gathered(keyOrder, orgOrder, groupOrder)
    {
      ghost var steps := Wrapped(Stages(keyOrder, orgOrder, groupOrder));
      var objects: seq<HarvestObject> := [];
      for i := 0 to |datasets|
        invariant Gather(steps[..i]) == Ok(objects)
      {
        var (datasetId, entry) := datasets[i];
        var staged := StageDataset(datasetId, entry, keyOrder, orgOrder, groupOrder);
        if staged.Err? {
          GatherStepFails(steps, i, objects);
          return Err(staged.error);
        }
        GatherStep(steps, i, objects, [staged.value]);
        objects := objects + [staged.value];
      }
      assert steps[..|datasets|] == steps;
      r := Ok(objects);
    }

    // ------------------------------------------------------ import stage

    /** The package `import_stage` prepares from a staged object: the
        staged record with the object's guid as its id, the group and the
        organisation assigned, and the licence URL, when there is one, as its
        only extra. `groupId` and `organizationId` are what the catalogue's
        find-or-create of the group and the organisation return. */
    function PreparedPackage(obj: HarvestObject, groupId: string, organizationId: string): PackageDict
    {
      var fields := obj.content.fields["id" := obj.guid];
      PackageDict(
        fields, obj.content.translations, obj.content.resources, [groupId], organizationId,
        if "license_url" in fields then [("license_url", fields["license_url"])] else [])
    }

    /** The package preparation of `import_stage`. */
    method ImportStage(obj: Option<HarvestObject>, groupId: string, organizationId: string) returns (r: ImportOutcome)
      ensures r.NotReceived? <==> obj.None?
      ensures obj.Some? ==> r.package == PreparedPackage(obj.value, groupId, organizationId)
    {
      if obj.None? {
        return NotReceived;
      }
      var content := obj.value.content;
      var fields := content.fields;
      fields := fields["id" := obj.value.guid];
      var extras: seq<(string, Value)> := [];
      if "license_url" in fields {
        extras := extras + [("license_url", fields["license_url"])];
      }
      r := Imported(PackageDict(fields, content.translations, content.resources, [groupId], organizationId, extras));
    }
  }
}
