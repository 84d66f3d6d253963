# ckanext-zhgis in Dafny

This project models the deterministic core of the GIS-ZH harvester for CKAN.

**The metadata driver.** A catalogue record, an ISO 19139 metadata document, is fetched by id. A configured mapping of extractors then turns it into a flat record of 15 CKAN fields. There are ten extractor kinds:
- a constant;
- the raw document;
- four XPath selectors, with or without text projection;
- four combinators: concatenation, flattening, list building and first-non-empty choice.

Every `#DE` locale tag in a path is retargeted to the requested language.

**The harvester.** For every registered dataset, the harvester takes the German record and then, in order:
1. rewrites it: munges the name and strips `OGC:` from the service type;
2. enriches it: adds the registry page and tags, the term translations built from the organisation and group tables, one API resource, and the harvester's licence;
3. stages it under the record's id.

The import stage turns a staged object into the package handed to the catalogue.

The model has these modules:
- `Base`:
  - `Option`, `Result` and the exceptions that can leave the code;
  - the `Enumerates` predicate, which fixes an iteration order of a dictionary's keys;
  - the `Gather` fold, which models a loop that appends the items of each step until one raises.
- `PyStrings`: the Python string operations the code uses (`upper`, `replace`, `strip(chars)`), with their laws. `split` and `join` are defined too, as vocabulary for the round-trip and decomposition lemmas; the modelled code never calls them.
- `Xml`: the parsed document as an abstract node tree, and the XML library as an oracle value (`fromstring`, `xpath`, `tostring`).
- `Attributes`:
  - the extractor tree;
  - its meaning `Eval`;
  - the `get_value` loops as methods proved equal to `Eval`.
- `AttributeLemmas`: what each extractor kind yields.
- `CkanCsw`:
  - the catalogue client as an oracle value;
  - the driver configuration `Csw` and the schema constants and GIS-ZH mapping;
  - the `CkanMetadata` class, whose `metadata` field the fetch methods overwrite in place.
- `CkanCswLemmas`: the fill loop, the not-found paths and the GIS-ZH mapping.
- `ZhGisHarvester`:
  - the harvester's tables;
  - the term-translation loops;
  - the resource builder;
  - the enrichment;
  - the gather loop, which creates a driver object per dataset;
  - the import preparation.
- `ZhGisHarvesterLemmas`: the translation triples and their count, the enrichment and staging facts, and the import package.

The concatenating extractor skips only `None` children. An empty-string child still adds a separator, so `'a'`, `''`, `'b'` combine to `'a  b'` and not `'a b'`; see `AttributeLemmas.CombinedKeepsEmptyChildren` and `AttributeLemmas.CombinedEmptyChildMatters`.

## Model

| member | source | states |
|---|---|---|
| Attributes.GetValue | ckanext/zhgis/helpers/ckan_csw.py:35-163 | evaluating any extractor (dispatch on its kind, recursion into children) yields exactly its meaning `Eval`, including the TypeError cases |
| Attributes.GetCombinedValue | ckanext/zhgis/helpers/ckan_csw.py:90-102 | the accumulating loop over the children, with its early exit on an exception, yields `Eval` of the concatenation |
| Attributes.GetMultiValue | ckanext/zhgis/helpers/ckan_csw.py:105-126 | the nested loop over children and their items yields `Eval` of the flattening extractor |
| Attributes.AppendItemTexts | ckanext/zhgis/helpers/ckan_csw.py:117-123 | the inner loop appends every item's text followed by the separator, and raises TypeError when an item cannot be appended |
| Attributes.GetArrayValue | ckanext/zhgis/helpers/ckan_csw.py:129-154 | the list-building loop yields `Eval` of the array extractor |
| Attributes.GetFirstInOrderValue | ckanext/zhgis/helpers/ckan_csw.py:157-163 | the loop with early return yields `Eval` of the first-in-order extractor |
| AttributeLemmas.LocalisePathGerman | ckanext/zhgis/helpers/ckan_csw.py:61 | with a German locale the configured path is used unchanged |
| AttributeLemmas.LocalisePathWithoutTag | ckanext/zhgis/helpers/ckan_csw.py:61 | a path without `#DE` is used unchanged in every language |
| AttributeLemmas.LocalisePathReplacesEveryTag | ckanext/zhgis/helpers/ckan_csw.py:61 | the path is cut at every `#DE` and the tag-free pieces are rejoined with `#` + the upper-cased language |
| AttributeLemmas.LocaliseTaggedPath | ckanext/zhgis/helpers/ckan_csw.py:61 | a path with one tag between tag-free parts becomes `x + "#" + upper(lang) + y` |
| AttributeLemmas.XPathAttributeFirstMatch | ckanext/zhgis/helpers/ckan_csw.py:52-70 | the selector never fails; it yields the first match, or `''` exactly when there is no match or the path cannot be evaluated |
| AttributeLemmas.XPathMultiAttributeAllMatches | ckanext/zhgis/helpers/ckan_csw.py:73-75 | the multi selector yields all matches in document order (`[]` for none) and `''` on a path error |
| AttributeLemmas.XPathTextAttributeProjects | ckanext/zhgis/helpers/ckan_csw.py:78-81 | the text selector yields the match's text (None when it has none) and passes `''` through |
| AttributeLemmas.XPathMultiTextAttributePassesThrough | ckanext/zhgis/helpers/ckan_csw.py:84-87 | a list has no text, so the multi text selector yields exactly what the multi selector yields |
| AttributeLemmas.CombinedTextJoins | ckanext/zhgis/helpers/ckan_csw.py:98-101 | the accumulator succeeds iff every child yields a string or None, and is then each string followed by the separator, in child order |
| AttributeLemmas.CombinedAttributeValue | ckanext/zhgis/helpers/ckan_csw.py:90-102 | the concatenation is the accumulator stripped of the separator's characters, with `' '` as the default separator |
| AttributeLemmas.CombinedOfConstants | ckanext/zhgis/helpers/ckan_csw.py:90-102 | constant children combine to their separator-terminated concatenation stripped of the separator's characters |
| AttributeLemmas.CombinedSplitRoundTrip | ckanext/zhgis/helpers/ckan_csw.py:90-102 | constant non-empty parts free of a one-character separator combine to their join, and splitting that at the separator gives the parts back |
| AttributeLemmas.CombinedAttributeSkipsNone | ckanext/zhgis/helpers/ckan_csw.py:100 | a child yielding None leaves the value unchanged |
| AttributeLemmas.CombinedKeepsEmptyChildren | ckanext/zhgis/helpers/ckan_csw.py:100-101 | an empty-string child is not skipped: for any `x` not starting and `y` not ending with a space, `x`, `''`, `y` combine to `x + '  ' + y` (so `'a'`, `''`, `'b'` give `'a  b'`) |
| AttributeLemmas.CombinedEmptyChildMatters | ckanext/zhgis/helpers/ckan_csw.py:100-101 | `x`, `y` combine to `x + ' ' + y`, which differs from the result with an empty child between them |
| AttributeLemmas.MultiTextFlattens | ckanext/zhgis/helpers/ckan_csw.py:113-125 | the accumulator succeeds iff every child iterates over items that all have text, and is then every piece of every child followed by the separator |
| AttributeLemmas.PiecesOfString | ckanext/zhgis/helpers/ckan_csw.py:116-123 | a string child is iterated one character per piece |
| AttributeLemmas.PiecesOfMatches | ckanext/zhgis/helpers/ckan_csw.py:116-121 | the pieces of a list of matches are their texts |
| AttributeLemmas.MultiOverMatches | ckanext/zhgis/helpers/ckan_csw.py:105-126 | over one multi selector: `''` on a path error, the stripped separator-terminated texts of all matches, and TypeError when a match has no text |
| AttributeLemmas.MultiSplitsStrings | ckanext/zhgis/helpers/ckan_csw.py:105-126 | a string child contributes one piece per character: a non-empty string with a one-character separator it does not contain yields its characters joined by the separator (`'abc'` with `','` gives `'a,b,c'`) |
| AttributeLemmas.ArrayItemsOnePerChild | ckanext/zhgis/helpers/ckan_csw.py:139-153 | the list is built iff every child succeeds, and then holds exactly one item per child, its value unchanged |
| AttributeLemmas.ArrayItemsFirstError | ckanext/zhgis/helpers/ckan_csw.py:139-153 | the first failing child decides the exception |
| AttributeLemmas.ArrayAttributeValue | ckanext/zhgis/helpers/ckan_csw.py:129-154 | the array extractor yields the list of its children's values, one item each |
| AttributeLemmas.ArrayKeepsStringsWhole | ckanext/zhgis/helpers/ckan_csw.py:142-153 | a string child is one item and is not split (the failing `_isstr` call lands in the TypeError handler) |
| AttributeLemmas.ArrayKeepsListsWhole | ckanext/zhgis/helpers/ckan_csw.py:142-153 | a list-valued child becomes one nested item and is not flattened |
| AttributeLemmas.FirstNonEmptyPicksFirst | ckanext/zhgis/helpers/ckan_csw.py:159-162 | the result is the first child value other than `''` when every earlier child yielded `''` |
| AttributeLemmas.FirstNonEmptyAllEmpty | ckanext/zhgis/helpers/ckan_csw.py:163 | when every child yields `''`, so does the extractor |
| AttributeLemmas.FirstInOrderFallback | ckanext/zhgis/helpers/ckan_csw.py:157-163 | with two children, the first one's value unless it is `''`, and then the second one's |
| AttributeLemmas.FirstNonEmptyIsOneOf | ckanext/zhgis/helpers/ckan_csw.py:157-163 | the result is `''` or one of the children's values |
| AttributeLemmas.TextualYieldsText | ckanext/zhgis/helpers/ckan_csw.py:40-102 | an extractor built only from constants, text selectors and concatenations of them always yields a string or None |
| AttributeLemmas.TotalNeverFails | ckanext/zhgis/helpers/ckan_csw.py:40-163 | an extractor built from never-failing parts never raises |
| CkanCsw.Csw.GetXml | ckanext/zhgis/helpers/ckan_csw.py:209-234 | the document text when the catalogue has the id, else DatasetNotFoundError with the id in its message |
| CkanCsw.Csw.GetBySearch | ckanext/zhgis/helpers/ckan_csw.py:195-207 | the records of a search, or DatasetNotFoundError naming the search term and the property when there is no response or no match |
| CkanCsw.Csw.GetIdByDatasetName | ckanext/zhgis/helpers/ckan_csw.py:214-221 | the first record's identifier for a title search, the search's error, or StopIteration when the record collection is empty (with lines 316-319) |
| CkanCsw.Csw.GetAttribute | ckanext/zhgis/helpers/ckan_csw.py:223-228 | the base driver raises NotImplementedError; the GIS-ZH driver returns the mapped extractor, or AttributeMappingNotFoundError naming the key (with lines 321-331) |
| CkanCsw.Csw.FillKeepsKeys | ckanext/zhgis/helpers/ckan_csw.py:240-246 | the fill loop only overwrites fields the record already has, so the record keeps its key set whether the loop completes or stops at an exception |
| CkanCsw.Csw.FetchKeepsKeys | ckanext/zhgis/helpers/ckan_csw.py:236-252 | fetching by id or by name keeps the record's key set, on success and on every failure path |
| CkanCsw.CkanMetadata.constructor | ckanext/zhgis/helpers/ckan_csw.py:168-193 | the driver keeps its configuration and starts with every one of the 15 fields set to None |
| CkanCsw.CkanMetadata.ZhGis | ckanext/zhgis/helpers/ckan_csw.py:308-314 | the GIS-ZH driver: geocat URL and schema, default version and language, and the GIS-ZH mapping |
| CkanCsw.CkanMetadata.GetCkanMetadataById | ckanext/zhgis/helpers/ckan_csw.py:236-247 | the fill loop overwrites the driver's own record field by field, in the record's key order, and returns it; an exception leaves the fields set so far; the record keeps exactly the schema's fields either way (`Valid`), so the driver can fetch again |
| CkanCsw.CkanMetadata.GetCkanMetadata | ckanext/zhgis/helpers/ckan_csw.py:249-252 | fetch by the id of the first record found by title; the record keeps exactly the schema's fields (`Valid`) |
| CkanCswLemmas.FillEvaluatesEachKey | ckanext/zhgis/helpers/ckan_csw.py:240-246 | when every field's extractor succeeds, the loop sets exactly these fields, each to its extractor's value, and keeps the others |
| CkanCswLemmas.FillStopsAtFirstFailure | ckanext/zhgis/helpers/ckan_csw.py:240-246 | the first failing field decides the exception, and the fields before it stay set |
| CkanCswLemmas.BaseDriverNeedsMapping | ckanext/zhgis/helpers/ckan_csw.py:223-242 | the base driver fails with NotImplementedError on its first field |
| CkanCswLemmas.NotFoundById | ckanext/zhgis/helpers/ckan_csw.py:230-239 | an unknown id fails with DatasetNotFoundError and leaves the record as it was |
| CkanCswLemmas.NotFoundByName | ckanext/zhgis/helpers/ckan_csw.py:201-206 | a title without matches fails with DatasetNotFoundError and leaves the record as it was (with lines 249-252) |
| CkanCswLemmas.FetchByNameUsesFirstRecord | ckanext/zhgis/helpers/ckan_csw.py:214-252 | fetching by name is fetching by the first found record's identifier |
| CkanCswLemmas.DefaultMappingCoversSchema | ckanext/zhgis/helpers/ckan_csw.py:177-193 | the GIS-ZH mapping has exactly the 15 schema fields, which are listed once each (with lines 258-306) |
| CkanCswLemmas.DefaultMappingTotal | ckanext/zhgis/helpers/ckan_csw.py:258-306 | no GIS-ZH extractor can raise |
| CkanCswLemmas.ZhGisFillsEveryField | ckanext/zhgis/helpers/ckan_csw.py:240-246 | in any order of the schema's fields, the loop never fails and sets every field to its extractor's value (with lines 324-331) |
| CkanCswLemmas.ZhGisFetchById | ckanext/zhgis/helpers/ckan_csw.py:236-247 | the GIS-ZH fetch fails only when the document cannot be fetched or parsed, and otherwise holds exactly the schema's fields with their extractors' values (with lines 258-306) |
| CkanCswLemmas.ZhGisTags | ckanext/zhgis/helpers/ckan_csw.py:300-303 | the tags field is always `['gis', 'geodaten']` |
| CkanCswLemmas.ZhGisTitlePrefersAlternate | ckanext/zhgis/helpers/ckan_csw.py:264-273 | the title is the alternate title unless that is `''`, and then the name path's text |
| CkanCswLemmas.ZhGisNameLocalised | ckanext/zhgis/helpers/ckan_csw.py:61 | the name is the first title text localised to the requested language; German selects the configured path (with lines 260-263) |
| ZhGisHarvester.Harvester.OrgEntriesOf | ckanext/zhgis/harvesters/zhgisharvester.py:403-409 | the inner loop over name and description yields the language's organisation triples |
| ZhGisHarvester.Harvester.GroupEntriesOf | ckanext/zhgis/harvesters/zhgisharvester.py:412-418 | the inner loop over a language's titles yields its group triples, with KeyError and IndexError where the lookups of German titles raise |
| ZhGisHarvester.Harvester.OrgTermTranslations | ckanext/zhgis/harvesters/zhgisharvester.py:402-409 | the loop over the organisation languages yields the gathered per-language triples |
| ZhGisHarvester.Harvester.GroupTermTranslations | ckanext/zhgis/harvesters/zhgisharvester.py:411-418 | the loop over the group languages yields the gathered per-language triples |
| ZhGisHarvester.Harvester.GenerateTermTranslations | ckanext/zhgis/harvesters/zhgisharvester.py:395-424 | the organisation triples, then the group triples, or the first exception |
| ZhGisHarvester.Harvester.ResourceDictArray | ckanext/zhgis/harvesters/zhgisharvester.py:431-439 | exactly one `api` resource at the service URL, with the service type as format and `"<service type> (<title>)"` as name; KeyError iff one of the three fields is missing |
| ZhGisHarvester.Harvester.StageDataset | ckanext/zhgis/harvesters/zhgisharvester.py:260-290 | one iteration of the gather loop: a fresh GIS-ZH driver, the German record, its rewrites and enrichment, in source order |
| ZhGisHarvester.Harvester.GatherStage | ckanext/zhgis/harvesters/zhgisharvester.py:256-295 | the loop over the registered datasets yields the staged objects, or the first exception |
| ZhGisHarvester.Harvester.ImportStage | ckanext/zhgis/harvesters/zhgisharvester.py:304-332 | nothing is imported iff no object is received; otherwise the prepared package |
| ZhGisHarvesterLemmas.OrgEntriesPair | ckanext/zhgis/harvesters/zhgisharvester.py:402-409 | a non-German language gives its name triple then its description triple, term from German and translation from the language; KeyError iff a text is missing |
| ZhGisHarvesterLemmas.GroupEntriesPairs | ckanext/zhgis/harvesters/zhgisharvester.py:411-418 | a non-German language gives one triple per title pairing German and translated title at the same position; KeyError without German titles, IndexError when it has more titles than German |
| ZhGisHarvesterLemmas.TermTranslationsMembers | ckanext/zhgis/harvesters/zhgisharvester.py:395-424 | on success the triples are exactly the organisation triples (name and description only) and the group triples, and none is for German |
| ZhGisHarvesterLemmas.TermTranslationsCount | ckanext/zhgis/harvesters/zhgisharvester.py:395-424 | on success there are two triples per non-German organisation language plus one per title of each non-German group language |
| ZhGisHarvesterLemmas.ShippedOrganizationComplete | ckanext/zhgis/harvesters/zhgisharvester.py:203-239 | the shipped organisation table has German, French, Italian and English, each with a name and a description |
| ZhGisHarvesterLemmas.ShippedGroupsSingle | ckanext/zhgis/harvesters/zhgisharvester.py:241-246 | the shipped group table has one title in each of the four languages |
| ZhGisHarvesterLemmas.ShippedTranslations | ckanext/zhgis/harvesters/zhgisharvester.py:395-424 | with the shipped tables the generation succeeds with nine triples in any iteration order (with the tables at lines 203-246) |
| ZhGisHarvesterLemmas.RemoveOgcPrefix | ckanext/zhgis/harvesters/zhgisharvester.py:266-268 | a service type `OGC:` + t with no other occurrence becomes t |
| ZhGisHarvesterLemmas.OgcRemovalJoinsPieces | ckanext/zhgis/harvesters/zhgisharvester.py:266-268 | the rewritten service type is the concatenation of the pieces between occurrences of `OGC:`, none of which contains it |
| ZhGisHarvesterLemmas.OgcRemovalCanRejoin | ckanext/zhgis/harvesters/zhgisharvester.py:266-268 | one pass can leave `OGC:` behind: `'OGOGC:C:'` becomes `'OGC:'` |
| ZhGisHarvesterLemmas.EnrichOutcome | ckanext/zhgis/harvesters/zhgisharvester.py:264-290 | the enrichment succeeds iff name, string service type, list of tags, service URL, title and id are present, the munger accepts the name and the translations exist; the staged record then has the rewritten and added fields, every other field as extracted, the id as guid, and the one resource built from the rewritten service type |
| ZhGisHarvesterLemmas.ZhGisEnrich | ckanext/zhgis/harvesters/zhgisharvester.py:264-290 | for a GIS-ZH record, the enrichment fails only on a non-text service type, a rejected name or failed translations, and sets the registry URL, adds the registry tags after `gis`, `geodaten` and the harvester's licence URL |
| ZhGisHarvesterLemmas.StageThroughRecord | ckanext/zhgis/harvesters/zhgisharvester.py:260-261 | a dataset is staged from the record of a fresh GIS-ZH driver in German, or fails with the document's exception |
| ZhGisHarvesterLemmas.ZhGisRecord | ckanext/zhgis/harvesters/zhgisharvester.py:260-261 | that record has the schema's fields, the mapped tags and the extracted id |
| ZhGisHarvesterLemmas.ZhGisStageFails | ckanext/zhgis/harvesters/zhgisharvester.py:259-262 | a dataset whose document cannot be fetched or parsed is not staged, with the fetch's exception |
| ZhGisHarvesterLemmas.ZhGisStageSucceeds | ckanext/zhgis/harvesters/zhgisharvester.py:259-290 | for a found document, staging succeeds iff the service type is text, the name is accepted and the translations exist |
| ZhGisHarvesterLemmas.ZhGisStage | ckanext/zhgis/harvesters/zhgisharvester.py:259-290 | a staged object has the extracted id as guid, the schema's fields plus `license_id`, the registry URL as `url`, the tags `gis`, `geodaten` then the registry tags, and the harvester's licence URL in place of the mapped one |
| ZhGisHarvesterLemmas.ZhGisStageWald | ckanext/zhgis/harvesters/zhgisharvester.py:272-273 | a dataset registered with the tag `Wald` is staged with its registry URL as `url` and the tags `gis`, `geodaten`, `Wald` |
| ZhGisHarvesterLemmas.GatheredOnePerDataset | ckanext/zhgis/harvesters/zhgisharvester.py:259-295 | the gather stage succeeds iff every dataset can be staged, and then stages one object per dataset in the registry's order |
| ZhGisHarvesterLemmas.GatheredFirstFailure | ckanext/zhgis/harvesters/zhgisharvester.py:259-295 | the first dataset that cannot be staged ends the gather stage with its exception |
| ZhGisHarvesterLemmas.PreparedPackageFields | ckanext/zhgis/harvesters/zhgisharvester.py:310-329 | the package has the guid as id, every other field as staged, the one group, the organisation, and the licence URL as only extra when present (no extras otherwise) |
| ZhGisHarvesterLemmas.StagedPackage | ckanext/zhgis/harvesters/zhgisharvester.py:310-329 | a package prepared from a staged record keeps the record's id and has the harvester's licence URL as its one extra (with lines 283-284) |

## Left out

- The catalogue client (`CatalogueServiceWeb`, its network calls and timeout) is an oracle value: a record lookup by id and a search returning a response or none.
- lxml is an oracle value. Parsing, XPath evaluation and serialisation are not implemented. XPath results are node lists or an evaluation error; XPath expressions yielding strings or numbers are not modelled.
- `munge_title_to_name` is an oracle that may raise. The `%s` rendering of an element or a list is an oracle too.
- All catalogue persistence is out: `HarvestObject.save`, `get_action` show/create of the group and the organisation, user and package roles, package create/update, term translation submission, and the commit. The group and organisation ids the find-or-create calls return are parameters of `ImportStage`.
- JSON serialisation of the staged record and its deserialisation in the import stage are left out. A staged object carries its record as a value; a round trip through JSON is taken as the identity.
- The gather stage yields the staged objects themselves, not the database ids of the saved objects.
- Logging, `info` and `fetch_stage` are left out.
- Python dictionary iteration order is a parameter: an order that enumerates the keys, for the record fields, the organisation table and the group table. The registered datasets are a sequence in their iteration order. The contents of the shipped 43-entry dataset table are not reproduced.
- The extractors' mutable `env` is modelled as construction options (the separator) merged with the call's document and language. Callers always pass both, so the mutation has no further observable effect.
- Upper-casing the language changes only ASCII letters.
- ZhGisHarvester.Harvester.Enrich: a `tags` value that is an element raises AttributeError in the model, while an lxml element does have `extend`. The GIS-ZH mapping cannot produce that case, because its tags come from a list extractor that always yields a list.
- The shallow `.copy()` of the driver's record shares its tag list with the driver. Each dataset uses a fresh driver, so nothing observes the sharing; the model copies values.
- MultiAttribute exception cascade: the model raises TypeError when a child value or item cannot be concatenated (None text, a list, an element without text). It does not model the source's retry in the TypeError handler, which raises TypeError again anyway.
- RemoveOgcPrefix: the code does not guarantee that the resource format and name are free of `OGC:`. A single left-to-right `replace` can rejoin pieces into a new occurrence: `OGOGC:C:` becomes `OGC:` (`OgcRemovalCanRejoin`). The model proves the removal of a leading `OGC:` and the pieces decomposition (`OgcRemovalJoinsPieces`) instead.
- `ckanext/zhgis/commands/zhgis.py` is not part of this model: CLI dispatch, printing and exit codes; it also depends on a metadata class the driver module does not define. `setup.py` is packaging metadata.
