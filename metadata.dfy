/** The metadata retrieval driver: fetches one metadata document from a CSW
    catalogue, by id or by dataset name, and fills a fixed-schema record by
    evaluating one extractor per field. The catalogue client is an oracle;
    the driver's configuration is a value (`Csw`) and the record it fills
    in place is the one mutable field of `CkanMetadata`. */
module CkanCsw {
  import opened Base
  import opened PyStrings
  import opened Xml
  import opened Attributes
  import opened AttributeLemmas

  /** A record of a catalogue search result. */
  datatype CswRecord = CswRecord(identifier: string)

  /** What `getrecords` leaves in the client: no response at all, or the
      reported number of matches and the records in the client's order. */
  datatype SearchResponse = NoResponse | Response(matches: int, records: seq<CswRecord>)

  /** The catalogue client: `getrecordbyid(id=[id], outputschema=schema)`
      followed by reading `response` (None when there is none), and
      `getrecords(keywords=[term], propertyname=name)`. */
  datatype Catalogue = Catalogue(
    getRecordById: (string, string) -> Option<string>,
    getRecords: (seq<string>, string) -> SearchResponse)

  /** The record's fields, as `dict.fromkeys` lists them. */
  const Keys: seq<string> := [
    "id", "name", "title", "url", "author", "maintainer", "maintainer_email",
    "license_url", "version", "service_url", "service_type", "notes", "tags",
    "metadata_url", "metadata_raw"]

  const KeySet: set<string> := set k | k in Keys

  /** The record every driver starts with: every field None. */
  const EmptyRecord: map<string, Value> := map k | k in KeySet :: Null

  const ZhGisUrl := "http://www.geocat.ch/geonetwork/srv/eng/csw?"
  const ZhGisSchema := "http://www.geocat.ch/2008/che"
  const DefaultVersion := "2.0.2"
  const DefaultLang := "en-US"

  // The location paths of the GIS-ZH mapping. Those selecting localised
  // text carry one `#DE` tag between a head and a tail.
  const IdPath := ".//gmd:fileIdentifier/gco:CharacterString"
  const NameHead := ".//gmd:identificationInfo" + "//gmd:citation" + "//gmd:title" + "//gmd:textGroup"
                  + "/gmd:LocalisedCharacterString" + "[@locale='"
  const AlternateTitleHead := ".//gmd:identificationInfo//gmd:citation//gmd:alternateTitle//gmd:textGroup/gmd:LocalisedCharacterString[@locale='"
  const AuthorHead := ".//gmd:contact//gmd:organisationName//gmd:textGroup/gmd:LocalisedCharacterString[@locale='"
  const ServiceUrlHead := ".//gmd:identificationInfo//srv:connectPoint//gmd:linkage//che:LocalisedURL[@locale='"
  const NotesHead := ".//gmd:identificationInfo//gmd:abstract//gmd:textGroup/gmd:LocalisedCharacterString[@locale='"
  const TagTail := "']"
  const UrlPath := ".//gmd:contact//gmd:onlineResource//gmd:linkage"
  const VersionPath := ".//gmd:identificationInfo//gmd:citation//gmd:date/gco:Date"
  const ServiceTypePath := ".//gmd:identificationInfo//srv:serviceType//gco:LocalName"

  const Maintainer := "GIS-Zentrum Kanton Zürich"
  const MaintainerEmail := "gis@bd.zh.ch"
  const MappedLicenseUrl := "http://www.are.zh.ch/internet/baudirektion/are/de/geoinformation/geodaten_uebersicht/Open_Data_Kanton_Zuerich.html#subtitle-content-internet-baudirektion-are-de-geoinformation-geodaten_uebersicht-Open_Data_Kanton_Zuerich-jcr-content-contentPar-textimage_1"

  /** `ZhGisCkanMetadata.default_mapping`. */
  const DefaultMapping: map<string, Attribute> := map[
    "id" := XPathTextAttribute(IdPath),
    "name" := XPathTextAttribute(NameHead + "#DE" + TagTail),
    "title" := FirstInOrderAttribute([
      XPathTextAttribute(AlternateTitleHead + "#DE" + TagTail),
      XPathTextAttribute(NameHead + "#DE" + TagTail)]),
    "url" := XPathTextAttribute(UrlPath),
    "author" := XPathTextAttribute(AuthorHead + "#DE" + TagTail),
    "maintainer" := StringAttribute(Maintainer),
    "maintainer_email" := StringAttribute(MaintainerEmail),
    "license_url" := StringAttribute(MappedLicenseUrl),
    "version" := XPathTextAttribute(VersionPath),
    "service_url" := XPathTextAttribute(ServiceUrlHead + "#DE" + TagTail),
    "service_type" := XPathTextAttribute(ServiceTypePath),
    "notes" := XPathTextAttribute(NotesHead + "#DE" + TagTail),
    "tags" := ArrayAttribute([StringAttribute("gis"), StringAttribute("geodaten")]),
    "metadata_url" := StringAttribute(""),
    "metadata_raw" := XmlAttribute]

  /** A partly filled record, and the exception that stopped the filling. */
  datatype Filling = Filling(record: map<string, Value>, failure: Option<Error>)
  {
    /** What the driver method returns: the record, or the exception. */
    function Outcome(): Result<map<string, Value>>
    {
      if failure.Some? then Err(failure.value) else Ok(record)
    }
  }

  /** The driver's configuration: the client's parameters, the client, the
      XML library, and the attribute mapping (None for the base driver,
      whose `get_attribute` is abstract). */
  datatype Csw = Csw(
    url: string, schema: string, version: string, lang: string,
    catalog: Catalogue, lib: XmlLib, mapping: Option<map<string, Attribute>>)
  {
    /** `get_xml`: the document text, or `DatasetNotFoundError`. */
    function GetXml(id: string): (r: Result<string>)
      ensures r.Ok? <==> catalog.getRecordById(id, schema).Some?
      ensures r.Ok? ==> Some(r.value) == catalog.getRecordById(id, schema)
      ensures r.Err? ==> r.error == DatasetNotFoundError("Dataset with id " + id + " not found")
    {
      match catalog.getRecordById(id, schema)
      case None => Err(DatasetNotFoundError("Dataset with id " + id + " not found"))
      case Some(text) => Ok(text)
    }

    /** `etree.fromstring(get_xml(id))`. */
    function Document(id: string): Result<XmlNode>
    {
      match GetXml(id)
      case Err(e) => Err(e)
      case Ok(text) =>
        match lib.fromstring(text)
        case None => Err(XmlSyntaxError)
        case Some(doc) => Ok(doc)
    }

    /** `get_by_search`: the records found, or `DatasetNotFoundError` when
        there is no response or no match. */
    function GetBySearch(searchterm: string, propertyname: string): (r: Result<seq<CswRecord>>)
      ensures var resp := catalog.getRecords([searchterm], propertyname);
              && (r.Err? <==> resp.NoResponse? || resp.matches == 0)
              && (r.Ok? ==> r.value == resp.records)
              && (r.Err? ==> r.error == DatasetNotFoundError(
                    "No dataset for the given searchterm '" + searchterm + "' (" + propertyname + ") found"))
    {
      var resp := catalog.getRecords([searchterm], propertyname);
      if resp.NoResponse? || resp.matches == 0 then
        Err(DatasetNotFoundError("No dataset for the given searchterm '" + searchterm + "' (" + propertyname + ") found"))
      else Ok(resp.records)
    }

    /** `get_id_by_dataset_name`: the identifier of the first record whose
        title matches; `next()` on an empty collection raises StopIteration. */
    function GetIdByDatasetName(datasetName: string): (r: Result<string>)
      ensures var resp := catalog.getRecords([datasetName], "title");
              && (resp.NoResponse? || resp.matches == 0 ==>
                    r == Err(DatasetNotFoundError("No dataset for the given searchterm '" + datasetName + "' (title) found")))
              && (resp.Response? && resp.matches != 0 && resp.records == [] ==> r == Err(StopIteration))
              && (resp.Response? && resp.matches != 0 && resp.records != [] ==> r == Ok(resp.records[0].identifier))
    {
      match GetBySearch(datasetName, "title")
      case Err(e) => Err(e)
      case Ok(records) => if records == [] then Err(StopIteration) else Ok(records[0].identifier)
    }

    /** `get_attribute`: the extractor mapped to a field. */
    function GetAttribute(key: string): (r: Result<Attribute>)
      ensures mapping.None? ==> r == Err(NotImplementedError)
      ensures mapping.Some? && key in mapping.value ==> r == Ok(mapping.value[key])
      ensures mapping.Some? && key !in mapping.value ==>
                r == Err(AttributeMappingNotFoundError("No mapping found for attribute '" + key + "'"))
    {
      match mapping
      case None => Err(NotImplementedError)
      case Some(m) =>
        if key in m then Ok(m[key])
        else Err(AttributeMappingNotFoundError("No mapping found for attribute '" + key + "'"))
    }

    /** `get_attribute(key).get_value(xml=doc, lang=language)`. */
    function FieldValue(key: string, doc: XmlNode, language: string): Result<Value>
    {
      match GetAttribute(key)
      case Err(e) => Err(e)
      case Ok(a) => Eval(a, lib, doc, language)
    }

    /** The loop of `get_ckan_metadata_by_id` over the fields `keys`,
        starting from `record`: each field is set to its extractor's value;
        the first exception stops the loop and leaves the fields set so far. */
    function Fill(record: map<string, Value>, keys: seq<string>, doc: XmlNode, language: string): Filling
      decreases |keys|
    {
      if keys == [] then Filling(record, None)
      else
        var before := Fill(record, keys[..|keys| - 1], doc, language);
        var key := keys[|keys| - 1];
        if before.failure.Some? then before
        else
          match FieldValue(key, doc, language)
          case Err(e) => Filling(before.record, Some(e))
          case Ok(v) => Filling(before.record[key := v], None)
    }

    /** `get_ckan_metadata_by_id` as a whole. */
    function FetchById(record: map<string, Value>, id: string, language: string, keys: seq<string>): Filling
    {
      match Document(id)
      case Err(e) => Filling(record, Some(e))
      case Ok(doc) => Fill(record, keys, doc, language)
    }

    /** `get_ckan_metadata` as a whole. */
    function FetchByName(record: map<string, Value>, datasetName: string, language: string, keys: seq<string>): Filling
    {
      match GetIdByDatasetName(datasetName)
      case Err(e) => Filling(record, Some(e))
      case Ok(id) => FetchById(record, id, language, keys)
    }

    /** Once the loop has stopped, later fields change nothing. */
    lemma {:induction false} FillSticks(record: map<string, Value>, keys: seq<string>, k: nat, doc: XmlNode, language: string)
      requires k <= |keys| && Fill(record, keys[..k], doc, language).failure.Some?
      ensures Fill(record, keys, doc, language) == Fill(record, keys[..k], doc, language)
      decreases |keys|
    {
      if k == |keys| {
        assert keys[..k] == keys;
      } else {
        assert keys[..|keys| - 1][..k] == keys[..k];
        FillSticks(record, keys[..|keys| - 1], k, doc, language);
      }
    }

    /** Filling only ever overwrites fields the record already has, so on
        success and on failure alike the record keeps its key set. */
    lemma {:induction false} FillKeepsKeys(record: map<string, Value>, keys: seq<string>, doc: XmlNode, language: string)
      requires forall i :: 0 <= i < |keys| ==> keys[i] in record
      ensures Fill(record, keys, doc, language).record.Keys == record.Keys
      decreases |keys|
    {
      if keys != [] {
        FillKeepsKeys(record, keys[..|keys| - 1], doc, language);
      }
    }

    /** Fetching by id or by name keeps the record's key set. */
    lemma FetchKeepsKeys(record: map<string, Value>, id: string, datasetName: string, language: string, keys: seq<string>)
      requires forall i :: 0 <= i < |keys| ==> keys[i] in record
      ensures FetchById(record, id, language, keys).record.Keys == record.Keys
      ensures FetchByName(record, datasetName, language, keys).record.Keys == record.Keys
    {
      if Document(id).Ok? {
        FillKeepsKeys(record, keys, Document(id).value, language);
      }
      var named := GetIdByDatasetName(datasetName);
      if named.Ok? && Document(named.value).Ok? {
        FillKeepsKeys(record, keys, Document(named.value).value, language);
      }
    }
  }

  /** The configuration `ZhGisCkanMetadata()` builds. */
  function ZhGisCsw(catalog: Catalogue, lib: XmlLib): Csw
  {
    Csw(ZhGisUrl, ZhGisSchema, DefaultVersion, DefaultLang, catalog, lib, Some(DefaultMapping))
  }

  /** A driver: its configuration, and the record it fills in place. */
  class CkanMetadata {
    const csw: Csw
    var metadata: map<string, Value>

    /** The record always has exactly the schema's fields. */
    ghost predicate Valid()
      reads this
    {
      metadata.Keys == KeySet
    }

    /** `CkanMetadata(url, schema, version, lang)`, whose client is `catalog`. */
    constructor (url: string, schema: string, version: string, lang: string, catalog: Catalogue, lib: XmlLib)
      ensures csw == Csw(url, schema, version, lang, catalog, lib, None)
      ensures metadata == EmptyRecord && Valid()
    {
      csw := Csw(url, schema, version, lang, catalog, lib, None);
      metadata := EmptyRecord;
    }

    /** `ZhGisCkanMetadata()` with its default arguments. */
    constructor ZhGis(catalog: Catalogue, lib: XmlLib)
      ensures csw == ZhGisCsw(catalog, lib)
      ensures metadata == EmptyRecord && Valid()
    {
      csw := ZhGisCsw(catalog, lib);
      metadata := EmptyRecord;
    }

    /** `get_ckan_metadata_by_id(id, language)`, iterating the record's
        fields in `order`. Returns the driver's own record. */
    method GetCkanMetadataById(id: string, language: string, order: seq<string>) returns (r: Result<map<string, Value>>)
      requires Valid() && Enumerates(order, KeySet)
      modifies this
      ensures var o := csw.FetchById(old(metadata), id, language, order);
              metadata == o.record && r == o.Outcome()
      ensures Valid()
    {
      csw.FetchKeepsKeys(metadata, id, "", language, order);
      var xml := csw.GetXml(id);
      if xml.Err? {
        return Err(xml.error);
      }
      var parsed := csw.lib.fromstring(xml.value);
      if parsed.None? {
        return Err(XmlSyntaxError);
      }
      var doc := parsed.value;
      ghost var start := metadata;
      for i := 0 to |order|
        invariant csw.Fill(start, order[..i], doc, language) == Filling(metadata, None)
      {
        var key := order[i];
        assert order[..i + 1][..i] == order[..i];
        var attribute := csw.GetAttribute(key);
        if attribute.Err? {
          csw.FillSticks(start, order, i + 1, doc, language);
          return Err(attribute.error);
        }
        var value := GetValue(attribute.value, csw.lib, doc, language);
        if value.Err? {
          csw.FillSticks(start, order, i + 1, doc, language);
          return Err(value.error);
        }
        metadata := metadata[key := value.value];
      }
      assert order[..|order|] == order;
      r := Ok(metadata);
    }

    /** `get_ckan_metadata(dataset_name, language)`. */
    method GetCkanMetadata(datasetName: string, language: string, order: seq<string>) returns (r: Result<map<string, Value>>)
      requires Valid() && Enumerates(order, KeySet)
      modifies this
      ensures var o := csw.FetchByName(old(metadata), datasetName, language, order);
              metadata == o.record && r == o.Outcome()
      ensures Valid()
    {
      csw.FetchKeepsKeys(metadata, "", datasetName, language, order);
      var id := csw.GetIdByDatasetName(datasetName);
      if id.Err? {
        return Err(id.error);
      }
      r := GetCkanMetadataById(id.value, language, order);
    }
  }
}
