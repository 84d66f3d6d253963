/** What the retrieval driver promises: which failures stop it, and that the
    GIS-ZH mapping fills every field of the schema without failing. */
module CkanCswLemmas {
  import opened Base
  import opened PyStrings
  import opened Xml
  import opened Attributes
  import opened AttributeLemmas
  import opened CkanCsw

  // ------------------------------------------------------ the record loop

  /** When every field's extractor succeeds, the loop sets each listed field
      to its extractor's value and leaves every other field as it was. */
  lemma {:induction false} FillEvaluatesEachKey(c: Csw, record: map<string, Value>, keys: seq<string>,
                                                doc: XmlNode, language: string)
    requires forall k :: k in keys ==> c.FieldValue(k, doc, language).Ok?
    ensures var o := c.Fill(record, keys, doc, language);
            && o.failure == None
            && o.record.Keys == record.Keys + (set k | k in keys)
            && (forall k :: k in keys ==> o.record[k] == c.FieldValue(k, doc, language).value)
            && (forall k :: k in record && k !in keys ==> o.record[k] == record[k])
    decreases |keys|
  {
    if keys != [] {
      var front := keys[..|keys| - 1];
      assert keys == front + [keys[|keys| - 1]];
      FillEvaluatesEachKey(c, record, front, doc, language);
    }
  }

  /** The first field whose lookup or extractor fails stops the loop with
      that exception; the fields before it are set. */
  lemma FillStopsAtFirstFailure(c: Csw, record: map<string, Value>, keys: seq<string>,
                                doc: XmlNode, language: string, i: nat)
    requires i < |keys| && c.FieldValue(keys[i], doc, language).Err?
    requires forall j :: 0 <= j < i ==> c.FieldValue(keys[j], doc, language).Ok?
    ensures c.Fill(record, keys, doc, language)
         == Filling(c.Fill(record, keys[..i], doc, language).record, Some(c.FieldValue(keys[i], doc, language).error))
    ensures c.Fill(record, keys[..i], doc, language).failure == None
  {
    forall k | k in keys[..i]
      ensures c.FieldValue(k, doc, language).Ok?
    {
      var j :| 0 <= j < i && keys[..i][j] == k;
    }
    FillEvaluatesEachKey(c, record, keys[..i], doc, language);
    assert keys[..i + 1][..i] == keys[..i];
    c.FillSticks(record, keys, i + 1, doc, language);
  }

  /** The base driver has no mapping: once the document is found, the first
      field raises NotImplementedError and nothing is set. */
  lemma BaseDriverNeedsMapping(c: Csw, record: map<string, Value>, id: string, language: string, keys: seq<string>)
    requires c.mapping.None? && c.Document(id).Ok? && keys != []
    ensures c.FetchById(record, id, language, keys) == Filling(record, Some(NotImplementedError))
  {
    var doc := c.Document(id).value;
    assert keys[..0] == [];
    FillStopsAtFirstFailure(c, record, keys, doc, language, 0);
  }

  // ------------------------------------------------------ failure paths

  /** An id the catalogue does not know raises DatasetNotFoundError and
      leaves the record untouched. */
  lemma NotFoundById(c: Csw, record: map<string, Value>, id: string, language: string, keys: seq<string>)
    requires c.catalog.getRecordById(id, c.schema).None?
    ensures c.FetchById(record, id, language, keys)
         == Filling(record, Some(DatasetNotFoundError("Dataset with id " + id + " not found")))
  {
  }

  /** A name search without response or match raises DatasetNotFoundError
      before any document is fetched, and leaves the record untouched. */
  lemma NotFoundByName(c: Csw, record: map<string, Value>, name: string, language: string, keys: seq<string>)
    requires var resp := c.catalog.getRecords([name], "title"); resp.NoResponse? || resp.matches == 0
    ensures c.FetchByName(record, name, language, keys)
         == Filling(record, Some(DatasetNotFoundError("No dataset for the given searchterm '" + name + "' (title) found")))
  {
  }

  /** A successful name search fetches the first matching record by id. */
  lemma FetchByNameUsesFirstRecord(c: Csw, record: map<string, Value>, name: string, language: string, keys: seq<string>)
    requires var resp := c.catalog.getRecords([name], "title");
             resp.Response? && resp.matches != 0 && resp.records != []
    ensures c.FetchByName(record, name, language, keys)
         == c.FetchById(record, c.catalog.getRecords([name], "title").records[0].identifier, language, keys)
  {
  }

  // ------------------------------------------------- the GIS-ZH mapping

  /** The mapping has an extractor for exactly the schema's 15 fields. */
  lemma DefaultMappingCoversSchema()
    ensures DefaultMapping.Keys == KeySet
    ensures |Keys| == 15 && Distinct(Keys) && Enumerates(Keys, KeySet)
  {
    assert Distinct(Keys);
    DistinctElements(Keys);
  }

  /** No extractor of the mapping can fail. */
  lemma DefaultMappingTotal()
    ensures forall k :: k in DefaultMapping ==> Total(DefaultMapping[k])
  {
    var title := DefaultMapping["title"];
    assert Total(title.children[0]) && Total(title.children[1]);
    var tags := DefaultMapping["tags"];
    assert Total(tags.children[0]) && Total(tags.children[1]);
  }

  /** Every field's lookup in the GIS-ZH driver succeeds, and so does its
      extractor. */
  lemma ZhGisFieldValues(catalog: Catalogue, lib: XmlLib, doc: XmlNode, language: string)
    ensures forall k :: k in KeySet ==>
              && Eval(DefaultMapping[k], lib, doc, language).Ok?
              && ZhGisCsw(catalog, lib).FieldValue(k, doc, language) == Eval(DefaultMapping[k], lib, doc, language)
  {
    DefaultMappingCoversSchema();
    DefaultMappingTotal();
    forall k | k in KeySet
      ensures Eval(DefaultMapping[k], lib, doc, language).Ok?
    {
      TotalNeverFails(DefaultMapping[k], lib, doc, language);
    }
  }

  /** With the GIS-ZH mapping every field of an enumeration of the schema is
      set, to its extractor's value, and the loop never fails. */
  lemma ZhGisFillsEveryField(catalog: Catalogue, lib: XmlLib, record: map<string, Value>,
                             order: seq<string>, doc: XmlNode, language: string)
    requires Enumerates(order, KeySet)
    ensures var o := ZhGisCsw(catalog, lib).Fill(record, order, doc, language);
            && o.failure == None
            && o.record.Keys == record.Keys + KeySet
            && (forall k :: k in KeySet ==> Ok(o.record[k]) == Eval(DefaultMapping[k], lib, doc, language))
  {
    ZhGisFieldValues(catalog, lib, doc, language);
    FillEvaluatesEachKey(ZhGisCsw(catalog, lib), record, order, doc, language);
  }

  /** `ZhGisCkanMetadata().get_ckan_metadata_by_id(id, language)` fails only
      when the document cannot be fetched or parsed; otherwise the record
      holds exactly the schema's fields, each its extractor's value. */
  lemma ZhGisFetchById(catalog: Catalogue, lib: XmlLib, record: map<string, Value>, id: string,
                       language: string, order: seq<string>)
    requires record.Keys == KeySet && Enumerates(order, KeySet)
    ensures var c := ZhGisCsw(catalog, lib);
            var o := c.FetchById(record, id, language, order);
            && (o.Outcome().Ok? <==> c.Document(id).Ok?)
            && (c.Document(id).Err? ==> o == Filling(record, Some(c.Document(id).error)))
            && (c.Document(id).Ok? ==>
                  && o.record.Keys == KeySet
                  && forall k :: k in KeySet ==> Ok(o.record[k]) == Eval(DefaultMapping[k], lib, c.Document(id).value, language))
  {
    var c := ZhGisCsw(catalog, lib);
    if c.Document(id).Ok? {
      ZhGisFillsEveryField(catalog, lib, record, order, c.Document(id).value, language);
    }
  }

  /** The tags field is always `['gis', 'geodaten']`. */
  lemma ZhGisTags(lib: XmlLib, doc: XmlNode, language: string)
    ensures Eval(DefaultMapping["tags"], lib, doc, language) == Ok(List([Str("gis"), Str("geodaten")]))
  {
    var tags := [StringAttribute("gis"), StringAttribute("geodaten")];
    ArrayAttributeValue(tags, lib, doc, language);
    var r := Eval(ArrayAttribute(tags), lib, doc, language);
    assert r.value.items == [Str("gis"), Str("geodaten")];
  }

  /** The title is the alternate title unless that is `''`, and then the
      same text the name field selects. */
  lemma ZhGisTitlePrefersAlternate(lib: XmlLib, doc: XmlNode, language: string)
    ensures var alternate := Eval(XPathTextAttribute(AlternateTitleHead + "#DE" + TagTail), lib, doc, language);
            Eval(DefaultMapping["title"], lib, doc, language)
              == if alternate != Ok(Str("")) then alternate else Eval(DefaultMapping["name"], lib, doc, language)
  {
    FirstInOrderFallback(XPathTextAttribute(AlternateTitleHead + "#DE" + TagTail),
                         XPathTextAttribute(NameHead + "#DE" + TagTail), lib, doc, language);
  }

  /** The name is the text of the first title string localised to the
      requested language, and German selects the configured path itself. */
  lemma ZhGisNameLocalised(lib: XmlLib, doc: XmlNode, language: string)
    ensures Eval(DefaultMapping["name"], lib, doc, language)
         == Ok(TextOf(SelectFirst(lib.xpath(doc, NameHead + "#" + Upper(language) + TagTail))))
    ensures Upper(language) == "DE" ==>
              (Eval(DefaultMapping["name"], lib, doc, language)
               == Ok(TextOf(SelectFirst(lib.xpath(doc, NameHead + "#DE" + TagTail)))))
  {
    assert '#' !in NameHead && '#' !in TagTail;
    LocaliseTaggedPath(NameHead, TagTail, language);
    if Upper(language) == "DE" {
      assert NameHead + "#" + Upper(language) + TagTail == NameHead + "#DE" + TagTail;
    }
  }
}
