# mapmakers, modelled in Dafny

mapmakers builds ArcGIS web maps from published services. A **template** is
read from an existing web map, or from a CSV workbook written from one. It
holds one `TemplateItem` per layer: title, group, nickname, layer and popup
definitions, url, and search fields. A new map is assembled from **items**,
where each item is a service url plus an optional template item. Items turn
into feature, raster or vector-tile **layers**, each with a random layer id
and search descriptors. Layers can be gathered into **group** layers, and
the result is written into the target web map's definition by `Map.build`.

The project models:

- `mapmakers/utils.py`: `create_layer_id` and `expand_urls`.
- `mapmakers/template.py`:
  - the `TemplateItem` constructor and its definition normalisation;
  - `from_layer`, `from_raster`, `from_parts`, `into_search`, `into_item`;
  - `Template.read`, `load`, `with_names`, `get_search`, `from_workbook`, `into_items`;
  - `Templates.add`, `from_workbook`, `into_items`.
- `mapmakers/map.py`: `Item`, `Items`, `Layer`, `Layers`, `Group`, and `Map`'s constructor and `build`.
- `examples/grants_pass/services.py`: `Service.portal` and `Service.urls`.

Files:

| file | module | contents |
|---|---|---|
| `wrappers.dfy` | `Wrappers` | `Option`, `Result`, and the Python exceptions the core can raise |
| `dicts.dfy` | `Dicts` | insertion-ordered dicts as sequences of pairs, with `dict.update` semantics |
| `json.dfy` | `Json` | JSON values; Python's `in`, `[key]` and iteration on them; `json.dumps` of a string |
| `utils.dfy` | `Utils` | layer ids and url expansion |
| `template.dfy` | `TemplateModel` | template items, templates, the search table, the workbook reader |
| `map.dfy` | `MapModel` | items, layers, groups, the map and `build` |
| `services.dfy` | `Services` | the Grants Pass service table |

Objects that the source updates in place are classes with `seq` fields:
`Items`, `Layers`, `Template`, `Templates`, `Map`, `Service`, and the
`Runtime` that supplies random draws. Their methods state the whole new
state, relative to the old one. `Item`, `TemplateItem`, `Layer` and `Group`
are values. Each Python loop is a `while`/`for` loop, proved against a
recursive function. The properties of that function are stated as lemmas.

Randomness is a parameter. `Runtime` holds an infinite stream of draws,
and a counter of draws used:

- each `Layer(...)` or `Group(...)` takes the next draw;
- the contracts name the layer id by its position in the stream;
- this lets them state which layer gets which id, and that each layer's
  search descriptors name its own id.

The template UUIDs that `read` creates are indexed the same way, through a
stream `uuids`.

Quirks of the code that the model keeps as written:

- A `TemplateItem` layer definition is dropped only when it is the text
  `"nan"`. A popup is dropped when it is `"nan"` or `"null"`. The empty
  text is kept in both cases (`NormaliseDefinition`, `NormalisePopup`).
- The workbook does not round-trip search fields. It stores `str(list)`,
  and reads that text back as one field name unless it is `"[]"`. Only
  templates without search fields survive (`WorkbookSearchRoundTrip`).
- When the web map has no `operationalLayers`, `build` stores
  `[json.loads(str(layers))]`. `str` puts dict keys in single quotes, which
  JSON refuses, so this raises for every layer list that holds a layer.
  Only a list of numbers, nested lists and empty dicts reads back, and it
  ends up as one element of the new list (`LoadsBack`, `WithLayersRefused`).
- A workbook row's id goes through `uuid.UUID`, which raises on a malformed
  id. Each item keeps the UUID's canonical text. The template that
  `Template.from_workbook` returns keeps the first row's id as written.
- In `Layers.append` and `Layers.insert`, a list whose first element is a
  `Layers` adds nothing. The second `case "Layer"` is unreachable.
- `Layers.__init__`'s `Group` case reads `content._layers`, which a `Group`
  does not have.
- Appending a `Layer` whose search is `None` raises: `list.extend(None)`.

## Model

| member | source | states |
|---|---|---|
| Utils.CreateLayerId | mapmakers/utils.py:16-20 | an id is the 11-character prefix, then `-layer-`, then the decimal index |
| Utils.LayerIdRoundTrip | mapmakers/utils.py:16-20 | every id can be parsed back into the prefix and the index it was built from |
| Utils.LayerIdFormat | mapmakers/utils.py:16-20 | with an index of 10000..99999 (as every caller draws), an id has 23 characters: 11 lower-case letters or digits, `-layer-`, and five digits that spell the index |
| Utils.RangeValues | mapmakers/utils.py:36-37 | `list(range(start, stop, step))`: the k-th value is `start + k*step`, and every value lies before `stop` in the step's direction |
| Utils.WithSlash | mapmakers/utils.py:41-42 | the stub ends in `/`; a stub that already does is unchanged, any other gets one `/` |
| Utils.ExpandUrls | mapmakers/utils.py:34-45 | one url per index of the range or list, in order, each the slash-terminated stub followed by the index; any other argument gives no urls |
| TemplateModel.NormaliseDefinition | mapmakers/template.py:53-68 | a layer definition is kept exactly when it is a dict or a text other than `"nan"`, and a kept one is unchanged |
| TemplateModel.NormalisePopup | mapmakers/template.py:69-84 | a popup is kept exactly when it is a dict or a text other than `"nan"` and `"null"`, and a kept one is unchanged |
| TemplateModel.NormaliseStable | mapmakers/template.py:53-84 | normalising a stored definition again leaves it as it is |
| TemplateModel.PopupStricter | mapmakers/template.py:53-84 | a definition dropped as a layer definition is dropped as a popup too; the two rules disagree only on the text `"null"` |
| TemplateModel.NewTemplateItem | mapmakers/template.py:40-87 | the constructor stores every argument, normalises both definitions and takes a fresh UUID |
| TemplateModel.FromLayer | mapmakers/template.py:90-129 | fails exactly when the layer has no url (KeyError) or an id that is a list or dict (TypeError); otherwise takes the title or `No title.`, the optional definitions, the url, no nickname, and the search fields recorded for the layer's id, else none |
| TemplateModel.FromRaster | mapmakers/template.py:171-194 | fails exactly when the raster has no url; otherwise the whole raster dict is the definition, `str(id)` the nickname, no popup and no search fields |
| TemplateModel.FromParts | mapmakers/template.py:132-168 | a workbook row's columns become the item's fields as text, with `"nan"` (and `"null"` for the popup) dropped, and the row's id replacing the fresh one |
| TemplateModel.IntoSearch | mapmakers/template.py:209-229 | one search descriptor per search field, in order, each for the given layer id |
| TemplateModel.SearchEntryFields | mapmakers/template.py:221-228 | a descriptor carries the layer id under `id` and the field name under `field.name` |
| TemplateModel.DescriptorsInverse | mapmakers/template.py:209-229 | reading the descriptors back gives the layer id and the search fields, in order |
| TemplateModel.Template.constructor | mapmakers/template.py:333-337 | a new template has its name and id and no items |
| TemplateModel.Template.Read | mapmakers/template.py:386-417 | `read` returns the items of the layer list appended to those already found, recursing into group layers and skipping other layer types |
| TemplateModel.Template.ReadOne | mapmakers/template.py:400-416 | one layer of `read`'s loop: `title` and `layerType` must be present, a group is read recursively, feature and raster layers are converted |
| TemplateModel.ReadLayersExtends | mapmakers/template.py:386-417 | `read` only appends: earlier items stay, and each new item belongs to the template being read and carries the UUID of its position |
| TemplateModel.ReadFailureSticks | mapmakers/template.py:400-417 | once one layer fails, `read` fails with that error, whatever follows |
| TemplateModel.Nicknamed | mapmakers/template.py:436-438 | an item without a nickname is named `<template>_<position>`; one with a nickname is unchanged |
| TemplateModel.NamedKeyed | mapmakers/template.py:434-440 | after `load`'s loop every item is stored under its own nickname with no repeated key, and a nickname finds the last item that carries it |
| TemplateModel.NamedFindsEvery | mapmakers/template.py:434-440 | an item whose nickname no later item takes is found under that nickname |
| TemplateModel.Template.Load | mapmakers/template.py:419-441 | a failed read leaves the template unchanged; otherwise each item read is stored under its nickname |
| TemplateModel.Template.Store | mapmakers/template.py:434-440 | the loop of `load` stores each item read under its nickname, or under the template's name and its position |
| TemplateModel.Renamed | mapmakers/template.py:378-383 | renaming keeps the number of items and their keys |
| TemplateModel.RekeyedExact | mapmakers/template.py:378-383 | with distinct names, the new template holds one item per name, in order, each carrying that name |
| TemplateModel.RekeyedKeyed | mapmakers/template.py:378-383 | whatever the names, every item of the new template is stored under its own nickname |
| TemplateModel.Template.WithNames | mapmakers/template.py:363-384 | with a name count other than the item count, the same template is returned unchanged; otherwise the items are renamed in place and a new template keyed by the new names is returned |
| TemplateModel.SearchFailureSticks | mapmakers/template.py:463-473 | once one search record fails, `get_search` fails with that error |
| TemplateModel.GetSearch | mapmakers/template.py:444-474 | the search table of a definition: descend through `applicationProperties`, `viewing`, `search` and `layers` where present, then add each record's field name under its layer id |
| TemplateModel.EntryStep | mapmakers/template.py:463-473 | reading one descriptor appends its field name to the names of its layer id |
| TemplateModel.SearchRoundTrip | mapmakers/template.py:463-473 | the descriptors `into_search` writes for one layer are read back as exactly one entry: the layer id with its field names |
| TemplateModel.RecordStepReadable | mapmakers/template.py:464-473 | a readable record (a dict with a hashable id and a dict field) adds its field name, if any, under its id |
| TemplateModel.NamesForUnrecorded | mapmakers/template.py:463-473 | a layer id that no record names collects no field names |
| TemplateModel.SearchTableGroups | mapmakers/template.py:463-474 | for readable records, `get_search` succeeds, and maps exactly the layer ids named by some record to their field names in record order |
| TemplateModel.DecodeSearch | mapmakers/template.py:616-625 | reading a search cell fails exactly when it is not text: TypeError for a cell of a column without text (numbers, or NaN for an empty cell), AttributeError (`tolist`) for an empty cell of a column that also holds text; the text `"[]"` gives no fields, and any other text gives that text as the single field |
| TemplateModel.WorkbookSearchRoundTrip | mapmakers/template.py:616-625 | a field list written as `str(list)` reads back as itself exactly when it is empty |
| TemplateModel.WorkbookFailureSticks | mapmakers/template.py:614-637 | once a row fails, reading the workbook fails with that error |
| TemplateModel.WorkbookItemsSucceed | mapmakers/template.py:614-637 | a workbook reads without error exactly when every row reads: its search cell is text and its id is a UUID |
| TemplateModel.WorkbookItemsStep | mapmakers/template.py:614-637 | a workbook reads exactly when its rows but the last read and the last row reads |
| TemplateModel.WorkbookItemsKeyed | mapmakers/template.py:627-637 | the items read are stored under their nicknames, with no repeated key |
| TemplateModel.WorkbookItemsFind | mapmakers/template.py:627-637 | the item under a name is the one built from the last row with that name, carrying the canonical text of that row's UUID |
| TemplateModel.Template.FromWorkbook | mapmakers/template.py:594-640 | the first failed row's error (a search cell that is not text, or ValueError for an id that is no UUID), no rows is a KeyError on `ids[0]`, and otherwise the template is named after the file stem, takes the first row's id text as written and holds the rows' items |
| TemplateModel.PartitionGrouped | mapmakers/template.py:820-832 | the per-group templates hold only items of their own group, each stored under its nickname, and no group name is repeated |
| TemplateModel.PartitionCovers | mapmakers/template.py:820-832 | every item's group has a template |
| TemplateModel.PartitionStep | mapmakers/template.py:822-831 | one more item adds a new group's template, or joins its group's template |
| TemplateModel.Templates.constructor | mapmakers/template.py:694-695 | a new collection holds no templates |
| TemplateModel.Templates.Add | mapmakers/template.py:700-712 | `add` stores the template under its name, replacing one of the same name, and keeps the collection keyed by name |
| TemplateModel.Templates.FileItem | mapmakers/template.py:823-831 | one item joins its group's template, which is created with the item's id on the group's first item |
| TemplateModel.Templates.FileItems | mapmakers/template.py:822-831 | the loop files every item, in order, so that the templates mirror the partition of the items by group |
| TemplateModel.Templates.FromWorkbook | mapmakers/template.py:811-832 | fails when the workbook does; otherwise one fresh template per group, in order of first appearance, each taking its first item's id (the canonical UUID text) and holding the group's named items |
| MapModel.Runtime.Next | mapmakers/map.py:348 | each new layer or group takes the next random draw |
| MapModel.IntoItemFields | mapmakers/template.py:196-207 | `into_item` keeps the template and its title, is not visible, has no opacity, and turns a missing url into `none` |
| MapModel.TemplateItems | mapmakers/template.py:649-652 | one item per template item, in the template's order |
| MapModel.TemplateIntoItems | mapmakers/template.py:642-652 | `Template.into_items` is a new `Items` of the template's items, in order |
| MapModel.TemplatesIntoItems | mapmakers/template.py:834-844 | `Templates.into_items` concatenates the items of every template, in order |
| MapModel.Items.constructor | mapmakers/map.py:184-186 | a new `Items` holds the given list |
| MapModel.Reversed | mapmakers/map.py:197-200 | the i-th element of the result is the i-th from the end |
| MapModel.ReversedTwice | mapmakers/map.py:197-200 | reversing twice restores the list |
| MapModel.Items.Reverse | mapmakers/map.py:197-200 | the items are reversed in place |
| MapModel.Items.Append | mapmakers/map.py:285-295 | the item is added at the end |
| MapModel.Items.Extend | mapmakers/map.py:297-307 | the items are added at the end, in order |
| MapModel.InsertPosition | mapmakers/map.py:318 | Python's `list.insert` position: a negative index counts from the end, and an index out of range clamps to the nearer end |
| MapModel.InsertAtSpec | mapmakers/map.py:318 | `insert` adds exactly the one element at the clamped position, and keeps every other element, in order, around it |
| MapModel.InsertAtEnd | mapmakers/map.py:318 | inserting at or beyond the length appends |
| MapModel.Items.Insert | mapmakers/map.py:309-319 | the item is inserted in place at the clamped position |
| MapModel.NamedItems | mapmakers/map.py:224-227 | succeeds exactly when every name is a key of the template, giving one item per url with that name's template item |
| MapModel.NamedItemsFailure | mapmakers/map.py:225-226 | once one name is missing, the later pairs do not change the error |
| MapModel.NamedItemsFirstMissing | mapmakers/map.py:225-226 | the error is a KeyError for the first missing name |
| MapModel.Items.FromNames | mapmakers/map.py:207-227 | unequal lengths give nothing; otherwise a new `Items` of the named items, or the KeyError of the first missing name |
| MapModel.Items.FromTemplate | mapmakers/map.py:230-251 | nothing exactly when the url count differs from the template's item count; otherwise the i-th url paired with the template's i-th item |
| MapModel.EntryGet | mapmakers/map.py:351-357 | an optional entry holds its key exactly when there is a value |
| MapModel.LayerGet | mapmakers/map.py:345-405 | a new layer holds the drawn id, the url, the item's title or else the template's, the feature-layer type, the opacity or 0.5, the template's decoded definition and popup when present, and the visibility; and nothing under any other key |
| MapModel.LayerSearchIds | mapmakers/map.py:407-413 | a layer has descriptors exactly when its template has search fields: one per field, in order, each naming the layer's own id |
| MapModel.LayerDescriptors | mapmakers/map.py:407-413 | a layer contributes one descriptor per search field of its template, all naming its own id |
| MapModel.HeadUpdates | mapmakers/map.py:347-362 | the first updates: id, url, the title when there is one, the type, and the opacity |
| MapModel.TitleUpdate | mapmakers/map.py:351-357 | the title entry is appended: the item's title, else the template's, else nothing |
| MapModel.TypeOpacityUpdates | mapmakers/map.py:358-362 | then the feature-layer type and the item's opacity, or 0.5 without one, are appended |
| MapModel.DefinitionUpdate | mapmakers/map.py:363-387 | a text definition is decoded (`eval` when it holds a `'`, else `json.loads`), or kept as its `json.dumps` text for a raster; a dict is kept; none adds nothing |
| Json.EscapePlain | mapmakers/map.py:383-385 | `json.dumps` leaves printable ASCII text without quotes or backslashes as it is |
| Json.QuotePlain | mapmakers/map.py:383-385 | the `json.dumps` text of such a definition is the definition in double quotes |
| Json.KeyedQuoted | mapmakers/map.py:1062 | `str` of a dict with a key holds a single quote |
| Json.QuotedRefused | mapmakers/map.py:1062 | `str` of a list holding a string or a dict with a key holds a single quote, and `json.loads` does not read it back |
| MapModel.PopupUpdate | mapmakers/map.py:388-402 | a text popup is decoded in the same way; a dict is kept; none adds nothing |
| MapModel.NewLayer | mapmakers/map.py:345-414 | `Layer(item, raster)` is the layer of the item with the next drawn id, and takes exactly one draw |
| MapModel.RasterHead | mapmakers/map.py:440-454 | a raster takes the template's nickname as id, and the tiled or plain map-service type when its definition's JSON mentions one (the tiled one winning) |
| MapModel.RasterTail | mapmakers/map.py:457-462 | then the fixed scales, opacity 1, and the item's title, url and visibility, in that order |
| MapModel.RasterLayer | mapmakers/map.py:427-465 | `from_raster` replaces the drawn layer by the template entries and fixed fields, and its search by the template's field names; it still takes one draw |
| MapModel.TileHead | mapmakers/map.py:473-484 | a vector tile takes the template's nickname as id, followed by the vector-tile type exactly when the template has a layer definition that mentions `VectorTileLayer` |
| MapModel.TileTail | mapmakers/map.py:488-491 | then opacity 0.5, the title, the url as the style url, and the visibility |
| MapModel.TypeUpdate | mapmakers/map.py:484-487 | setting the vector-tile type a second time keeps the single entry |
| MapModel.VectorTileLayer | mapmakers/map.py:468-494 | `from_vector_tile` always has the vector-tile type, and the template's field names as its search; it takes one draw |
| MapModel.GroupFields | mapmakers/map.py:816-826 | a group holds exactly id, type `GroupLayer`, title, visibility and the given layers, in that order, and keeps the given search |
| MapModel.NewGroup | mapmakers/map.py:816-826 | `Group(...)` is that group with the next drawn id |
| MapModel.Assembled | mapmakers/map.py:598-602 | the layer list is each layer's dict, in order |
| MapModel.ItemLayersIds | mapmakers/map.py:596-603 | `from_items` gives one layer per item, in order, the k-th with the k-th id drawn |
| MapModel.ItemLayersCount | mapmakers/map.py:596-603 | the descriptors number exactly the search fields of all the items' templates |
| MapModel.ItemLayersSearch | mapmakers/map.py:596-603 | every descriptor names the id of one of the layers |
| MapModel.ItemsAs | mapmakers/map.py:631-632 | one layer per item, in order |
| MapModel.TemplateLayersCount | mapmakers/map.py:629-649 | for rasters and vector tiles, the search list numbers exactly the search fields of the items' templates |
| MapModel.LayerEntries | mapmakers/map.py:562-573 | the constructor keeps at most one entry per element |
| MapModel.LayerEntriesKept | mapmakers/map.py:562-573 | with only Layer and dict elements it keeps every element's dict, in order |
| MapModel.Layers.constructor | mapmakers/map.py:560-575 | `Layers(contents, search)` keeps the dicts of the Layer and dict contents, in order, and the search list as given |
| MapModel.GatherItemLayers | mapmakers/map.py:596-603 | the loop builds the layers and descriptors of the items, taking one draw per item |
| MapModel.Layers.FromItems | mapmakers/map.py:587-603 | `from_items` holds the layers and descriptors of the items, with one draw taken per item |
| MapModel.Layers.FromGroup | mapmakers/map.py:606-617 | `from_group` holds the group's dict as its one layer and the group's search, taking one draw for the placeholder layer |
| MapModel.Layers.FromRasters | mapmakers/map.py:620-637 | `from_rasters` holds the raster layers in order, and the templates' field names |
| MapModel.Layers.FromVectorTiles | mapmakers/map.py:640-649 | `from_vector_tiles` holds the vector-tile layers in order, and the templates' field names |
| MapModel.Layers.Group | mapmakers/map.py:651-660 | the layers become a group over the same layer list and search, with the next drawn id |
| MapModel.ElementAddition | mapmakers/map.py:689-707 | the first element of a list adds one entry when it is a Layer, Group or dict, and raises for a Layer whose search is `None` |
| MapModel.AppendAddition | mapmakers/map.py:673-711 | `append` raises for an empty list, and for a Layer (alone or first in a list) whose search is `None` |
| MapModel.AppendKinds | mapmakers/map.py:673-711 | `append` only adds at the end: a Layer, Group or dict adds one entry, a Layers all its entries, a dict no descriptor; any other kind leaves both lists alone |
| MapModel.Layers.Append | mapmakers/map.py:662-712 | the lists after `append` and the exception it raises, if any |
| MapModel.Layers.AppendElement | mapmakers/map.py:689-707 | `append`'s branch for the first element of a list |
| MapModel.ExtendedConcat | mapmakers/map.py:714-726 | extending by two lists in turn is extending by their concatenation, stopping at the first exception |
| MapModel.ExtendedGrows | mapmakers/map.py:714-726 | `extend` only adds at the end of both lists |
| MapModel.ExtendedShort | mapmakers/map.py:714-726 | extending by nothing changes nothing, and extending by one element is appending it |
| MapModel.Layers.Extend | mapmakers/map.py:714-726 | `extend` is `append` of each element in turn, stopping at the first exception |
| MapModel.InsertAddition | mapmakers/map.py:739-777 | `insert` adds at most one entry: a Layers is inserted as one nested list, and every other kind behaves as in `append` |
| MapModel.InsertShape | mapmakers/map.py:739-777 | `insert` puts its one entry at the clamped index and keeps the others, in order, around it; descriptors go at the end |
| MapModel.InsertAtEndAppends | mapmakers/map.py:739-777 | `insert` at or beyond the end, for anything but a Layers, is `append` |
| MapModel.Layers.Insert | mapmakers/map.py:728-778 | the lists after `insert` and the exception it raises, if any |
| MapModel.Layers.InsertElement | mapmakers/map.py:755-773 | `insert`'s branch for the first element of a list |
| MapModel.GroupFromItems | mapmakers/map.py:839-859 | the group's layers and search are those `from_items` gives for the items, and the group takes the draw after them |
| MapModel.ItemLayersSingle | mapmakers/map.py:862-875 | the layers of a one-item list are that item's layer and descriptors |
| MapModel.GroupFromItem | mapmakers/map.py:862-875 | `from_item` is `from_items` of the one-item list |
| MapModel.GroupFromLayers | mapmakers/map.py:896-910 | the group wraps the given layers and search unchanged |
| MapModel.IntoLayer | mapmakers/map.py:912-919 | `into_layer` is a Layers with the group as its one entry, and the group's search |
| MapModel.Contribute | mapmakers/map.py:962-1016 | what `Map(id, layers)` keeps of one argument, by kind, and the draws it takes (Items and Item build their layers) |
| MapModel.FlattenListNext | mapmakers/map.py:987-1010 | each element of a list argument adds its contribution after the earlier ones, with the ids drawn after theirs |
| MapModel.ContributeAt | mapmakers/map.py:989-1008 | element `k` of a list argument contributes what its kind adds inside a list, and reading it leaves the list's view unchanged |
| MapModel.ContributeNext | mapmakers/map.py:988-1008 | one pass of the list loop: element `k`'s contribution follows those of the elements before it, with the ids drawn after theirs |
| MapModel.ContributeAll | mapmakers/map.py:987-1010 | a list argument contributes each element in turn: a nested Layers or Items is spread, a Group, Layer or dict adds its entry, and a nested Item, list or other value adds nothing |
| MapModel.Map.constructor | mapmakers/map.py:956-1019 | the map's layers and search are the argument's contribution |
| MapModel.WithLayersGet | mapmakers/map.py:1060-1065 | adding the layers fails exactly when `operationalLayers` is present and not a list (AttributeError), or absent while `str(layers)` is not JSON (ValueError); otherwise it is the old list followed by the layers, or a one-element list holding the layer list when absent; a new key goes last and other keys are unchanged |
| MapModel.WithLayersRefused | mapmakers/map.py:1060-1062 | with no `operationalLayers`, a layer list holding a dict with a key always fails with ValueError |
| MapModel.WithSearchGet | mapmakers/map.py:1066-1090 | placing the search fails exactly when `applicationProperties`, or its `viewing`, is present and not a dict; other top-level keys are unchanged and a new key goes last |
| MapModel.WithSearchPlaced | mapmakers/map.py:1066-1090 | on success, `applicationProperties.viewing.search` is the search block (enabled, place finder off, hint text, the descriptors), and the other keys at both levels are unchanged |
| MapModel.WithSearchRead | mapmakers/map.py:1066-1090 | the search block placed by `build` is where `get_search` reads its records: the descriptors come back unchanged |
| MapModel.Map.Build | mapmakers/map.py:1051-1092 | `build` adds the layers, then, when there are descriptors, the search block; the first failure is the result |
| Services.Service.constructor | examples/grants_pass/services.py:21-25 | a service stores its name and its three url lists |
| Services.Service.Portal | examples/grants_pass/services.py:59-69 | the url list of `agol`, `gp` or `edit`, and `[""]` for any other name |
| Services.Service.Urls | examples/grants_pass/services.py:71-79 | the i-th item takes the portal's i-th url in place, and later items are unchanged; it fails with IndexError exactly when there are fewer items than urls, having retargeted every item first |

## Left out

- The network is not modelled, and neither is the GIS:
  - `gis.content.get`, `Item.check_url`, `Template.check_template`, `Templates.from_obj`;
  - `Map.clear`'s layer removal.
  - `Template.load` takes the web map's layers and search table as arguments.
  - `Map.build` takes the fetched definition as an argument and returns the new one.
  - Writing `str(definition)` back through `handle.update` is not modelled.
- CSV files and pandas are not modelled: `Template.workbook`, `Templates.workbook`/`workbooks`, `workbook_parts`.
  - `from_workbook` takes the rows as the CSV reader would give them.
  - The `str()` of a non-text cell is given as text.
- `eval` and `json.loads` are one abstract total function `decode`. The model does not describe which texts they accept, or what they raise.
  - The `json.loads(str(layers))` in `build` is modelled apart, by `LoadsBack`: which layer lists read back, as `Show` prints them. `Show` always puts strings in single quotes; Python's double quotes for a string holding `'` are not modelled.
  - It also includes `str()` of a dict, except for the `Show` text used for titles and ids.
- `uuid.UUID` on a workbook id is an abstract partial function `uuid`. Which texts it accepts, and the canonical text it prints, are not described.
- Random draws and UUIDs are the `Runtime` stream and the `uuids` stream. Their distribution is not modelled.
- The `_index` iteration cursors and `__next__`/`__iter__` are not modelled.
- Aliasing of shared Python objects is not modelled. `Item`, `TemplateItem`, `Layer` and `Group` are values.
  - An item listed twice in `Service.urls` is modelled as two independent entries.
  - The shared default `edit=[]` of `Service` is not modelled.
  - `Template.read`'s shared default `items=[]` is replaced by an explicit accumulator.
- MapModel.Layers.Insert: requires that the argument is not the receiving `Layers`. The source would insert a list into itself, making a cyclic structure.
- MapModel.Layers.Extend: requires that the receiving `Layers` is not among the arguments, at any depth. The contract reads every argument as it was before the call. Python reads a `Layers` argument when its turn comes, so `l.extend([x, l])` appends the grown `l`. A `Layers` extending itself, and seeing its own growth, is not modelled.
- MapModel.Contribute: never takes a top-level list argument; the constructor hands such a list to MapModel.ContributeAll, which walks its elements.
- MapModel.Layers.constructor: requires no `Group` content, because that branch reads an attribute a `Group` does not have.
- The `return self` chaining of the in-place methods is not modelled. Each method returns nothing, or the exception it raises.
- `Group.from_layer`, `Layer.from_group` and `Layer.group` are not modelled.
- The one-line delegations are not modelled:
  - `Item.layer`, `group`, `raster`, `vector_tile`;
  - `Items.group`, `layers`, `rasters`, `vector_tiles`.
  - The members they delegate to are modelled.
- Property getters and setters are the fields themselves.
- Logging is not modelled.
- Floating-point opacity is kept as its literal text (`0.5`, `1`). No arithmetic is done on it.
