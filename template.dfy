/**
 * Templates: the layers of an existing web map (or of a workbook written
 * from one), kept as `TemplateItem` values a new map can be built from.
 */
module TemplateModel {
  import opened Wrappers
  import opened Dicts
  import opened Utils
  import opened Json

  // ---------------------------------------------------------------------
  // Stored definitions
  // ---------------------------------------------------------------------

  /**
   * A layer definition or popup definition as a template item keeps it:
   * nothing, a text still to be decoded, or an already-decoded dict.
   */
  datatype Def = Absent | Text(text: string) | Structured(obj: Members)

  /** The Python value a stored definition is (`None`, a str or a dict). */
  function DefValue(d: Def): Json {
    match d
    case Absent => JNull
    case Text(s) => JStr(s)
    case Structured(m) => JObj(m)
  }

  /** How the constructor stores a layer definition it is given. */
  function NormaliseDefinition(raw: Json): (d: Def)
    ensures d != Absent <==> (raw.JStr? && raw.s != "nan") || raw.JObj?
    ensures d != Absent ==> DefValue(d) == raw
  {
    match raw
    case JStr(s) => if s != "nan" then Text(s) else Absent
    case JObj(m) => Structured(m)
    case _ => Absent
  }

  /** How the constructor stores a popup definition: "null" is dropped too. */
  function NormalisePopup(raw: Json): (d: Def)
    ensures d != Absent <==> (raw.JStr? && raw.s != "nan" && raw.s != "null") || raw.JObj?
    ensures d != Absent ==> DefValue(d) == raw
  {
    match raw
    case JStr(s) => if s != "nan" && s != "null" then Text(s) else Absent
    case JObj(m) => Structured(m)
    case _ => Absent
  }

  /** Storing a stored definition again keeps it as it is. */
  lemma NormaliseStable(raw: Json)
    ensures NormaliseDefinition(DefValue(NormaliseDefinition(raw))) == NormaliseDefinition(raw)
    ensures NormalisePopup(DefValue(NormalisePopup(raw))) == NormalisePopup(raw)
  {
  }

  /** The two rules differ on the text "null" alone, which only a popup drops. */
  lemma PopupStricter(raw: Json)
    ensures NormaliseDefinition(raw) == Absent ==> NormalisePopup(raw) == Absent
    ensures NormalisePopup(raw) != NormaliseDefinition(raw) <==> raw == JStr("null")
  {
  }

  // ---------------------------------------------------------------------
  // Template items
  // ---------------------------------------------------------------------

  /**
   * Display information of one layer of a template web map. `url` is `JNull`
   * for Python's `None`; `id` is the item's UUID as text.
   */
  datatype TemplateItem = TemplateItem(
    title: string,
    groupName: string,
    itemName: Option<string>,
    layerDefinition: Def,
    popupInfo: Def,
    url: Json,
    search: Option<seq<Json>>,
    id: string)

  /** The constructor: definitions are normalised, `id` is a fresh UUID. */
  function NewTemplateItem(title: string, groupName: string, itemName: Option<string>,
                           layerDefinition: Json, popupInfo: Json, url: Json,
                           search: Option<seq<Json>>, uuid: string): (t: TemplateItem)
    ensures t.title == title && t.groupName == groupName && t.itemName == itemName
    ensures t.url == url && t.search == search && t.id == uuid
    ensures t.layerDefinition == NormaliseDefinition(layerDefinition)
    ensures t.popupInfo == NormalisePopup(popupInfo)
  {
    TemplateItem(title, groupName, itemName, NormaliseDefinition(layerDefinition),
                 NormalisePopup(popupInfo), url, search, uuid)
  }

  /** `str(layer["title"])` when present, else the placeholder title. */
  function TitleOf(layer: Members): string {
    match Get(layer, "title")
    case Some(t) => Show(t)
    case None => "No title."
  }

  /** The value under `k`, or `None` when the dict lacks it. */
  function Optional(layer: Members, k: string): Json {
    match Get(layer, k)
    case Some(v) => v
    case None => JNull
  }

  /**
   * A feature layer of a web map as a template item: its search fields are
   * the ones recorded for its id; a missing url is a KeyError and an id that
   * is a list or a dict cannot be looked up (TypeError).
   */
  function FromLayer(layer: Members, groupName: string, searches: Dict<Json, seq<Json>>,
                     uuid: string): (r: Result<TemplateItem>)
    ensures r.Failure? <==>
      !HasKey(layer, "url") || (HasKey(layer, "id") && !Hashable(Get(layer, "id").value))
    ensures !HasKey(layer, "url") ==> r == Failure(KeyError("url"))
    ensures r.Success? ==>
      var t := r.value;
      && Get(layer, "url") == Some(t.url)
      && t.title == TitleOf(layer)
      && t.groupName == groupName && t.itemName == None && t.id == uuid
      && t.layerDefinition == NormaliseDefinition(Optional(layer, "layerDefinition"))
      && t.popupInfo == NormalisePopup(Optional(layer, "popupInfo"))
      && t.search == Some(
           if HasKey(layer, "id") && HasKey(searches, Get(layer, "id").value)
           then Get(searches, Get(layer, "id").value).value
           else [])
  {
    match Get(layer, "url")
    case None => Failure(KeyError("url"))
    case Some(url) =>
      var search: Result<seq<Json>> :=
        match Get(layer, "id")
        case None => Success([])
        case Some(id) =>
          if !Hashable(id) then Failure(TypeError("unhashable type"))
          else match Get(searches, id)
            case Some(names) => Success(names)
            case None => Success([]);
      if search.Failure? then Failure(search.error)
      else Success(NewTemplateItem(TitleOf(layer), groupName, None,
                                   Optional(layer, "layerDefinition"),
                                   Optional(layer, "popupInfo"), url,
                                   Some(search.value), uuid))
  }

  /**
   * A raster layer of a web map as a template item: the whole layer dict is
   * its definition, its id becomes its nickname, it has no search fields.
   */
  function FromRaster(raster: Members, groupName: string, uuid: string): (r: Result<TemplateItem>)
    ensures r.Failure? <==> !HasKey(raster, "url")
    ensures r.Failure? ==> r.error == KeyError("url")
    ensures r.Success? ==>
      var t := r.value;
      && Get(raster, "url") == Some(t.url)
      && t.title == TitleOf(raster)
      && t.groupName == groupName && t.id == uuid
      && t.itemName == (if HasKey(raster, "id") then Some(Show(Get(raster, "id").value)) else None)
      && t.layerDefinition == Structured(raster)
      && t.popupInfo == Absent
      && t.search == Some([])
  {
    match Get(raster, "url")
    case None => Failure(KeyError("url"))
    case Some(url) =>
      var itemName := match Get(raster, "id") case Some(id) => Some(Show(id)) case None => None;
      Success(NewTemplateItem(TitleOf(raster), groupName, itemName, JObj(raster), JNull,
                              url, Some([]), uuid))
  }

  /**
   * A workbook row as a template item: every column is text, and the row's
   * own id replaces the fresh one.
   */
  function FromParts(title: string, groupName: string, itemName: string,
                     layerDefinition: string, popupInfo: string, url: string,
                     search: seq<Json>, id: string): (t: TemplateItem)
    ensures t.itemName == Some(itemName) && t.groupName == groupName && t.title == title
    ensures t.layerDefinition == (if layerDefinition == "nan" then Absent else Text(layerDefinition))
    ensures t.popupInfo == (if popupInfo in {"nan", "null"} then Absent else Text(popupInfo))
    ensures t.url == JStr(url) && t.search == Some(search) && t.id == id
  {
    NewTemplateItem(title, groupName, Some(itemName), JStr(layerDefinition), JStr(popupInfo),
                    JStr(url), Some(search), id)
  }

  // ---------------------------------------------------------------------
  // Search descriptors
  // ---------------------------------------------------------------------

  /** The descriptor that makes field `name` of layer `id` searchable in a web map. */
  function SearchEntry(id: string, name: Json): Json {
    JObj([("id", JStr(id)),
          ("field", JObj([("name", name), ("exactMatch", JBool(false)),
                          ("type", JStr("esriFieldTypeString"))]))])
  }

  /** The search field names of a template item (none when `None`). */
  function SearchNames(t: TemplateItem): seq<Json> {
    if t.search.Some? then t.search.value else []
  }

  /** One descriptor per search field of the item, in order, all for layer `id`. */
  function Descriptors(t: TemplateItem, id: string): (r: seq<Json>)
    ensures |r| == |SearchNames(t)|
  {
    seq(|SearchNames(t)|, k requires 0 <= k < |SearchNames(t)| => SearchEntry(id, SearchNames(t)[k]))
  }

  /** The layer a descriptor refers to. */
  function DescriptorId(e: Json): Option<Json> {
    Field(e, "id")
  }

  /** The field a descriptor makes searchable. */
  function DescriptorName(e: Json): Option<Json> {
    match Field(e, "field")
    case Some(f) => Field(f, "name")
    case None => None
  }

  /** `into_search`: builds the descriptors one field at a time. */
  method IntoSearch(t: TemplateItem, id: string) returns (fields: seq<Json>)
    ensures |fields| == |SearchNames(t)|
    ensures fields == Descriptors(t, id)
  {
    fields := [];
    if t.search.Some? {
      var names := t.search.value;
      for i := 0 to |names|
        invariant fields == Descriptors(t, id)[..i]
      {
        var field: Members := [];
        field := Put(field, "name", names[i]);
        field := Put(field, "exactMatch", JBool(false));
        field := Put(field, "type", JStr("esriFieldTypeString"));
        var entry: Members := [];
        entry := Put(entry, "id", JStr(id));
        entry := Put(entry, "field", JObj(field));
        assert field == [("name", names[i]), ("exactMatch", JBool(false)),
                         ("type", JStr("esriFieldTypeString"))];
        assert entry == [("id", JStr(id)), ("field", JObj(field))];
        fields := fields + [JObj(entry)];
      }
    }
  }

  /** The two fields of one descriptor. */
  lemma SearchEntryFields(id: string, name: Json)
    ensures DescriptorId(SearchEntry(id, name)) == Some(JStr(id))
    ensures DescriptorName(SearchEntry(id, name)) == Some(name)
  {
    var f: Members := [("name", name), ("exactMatch", JBool(false)), ("type", JStr("esriFieldTypeString"))];
    assert IndexOf(f, "name") == Some(0);
    var e: Members := [("id", JStr(id)), ("field", JObj(f))];
    assert IndexOf(e, "id") == Some(0);
    assert IndexOf(e, "field") == Some(1);
  }

  /** Reading the descriptors back gives the layer id and the field names, in order. */
  lemma DescriptorsInverse(t: TemplateItem, id: string)
    ensures forall k :: 0 <= k < |Descriptors(t, id)| ==>
      DescriptorId(Descriptors(t, id)[k]) == Some(JStr(id)) &&
      DescriptorName(Descriptors(t, id)[k]) == Some(SearchNames(t)[k])
  {
    forall k | 0 <= k < |Descriptors(t, id)|
      ensures DescriptorId(Descriptors(t, id)[k]) == Some(JStr(id))
      ensures DescriptorName(Descriptors(t, id)[k]) == Some(SearchNames(t)[k])
    {
      SearchEntryFields(id, SearchNames(t)[k]);
    }
  }

  // ---------------------------------------------------------------------
  // Reading a web map
  // ---------------------------------------------------------------------

  /**
   * What `read` returns for `layers` when `acc` holds the items found so far:
   * group layers are read recursively, feature and raster layers become
   * items, other layers are skipped, and the first missing key or ill-typed
   * value is the error. The item created at position k of the list takes
   * `uuids(k)` as its UUID.
   */
  function ReadLayers(group: string, layers: seq<Json>, searches: Dict<Json, seq<Json>>,
                      uuids: nat -> string, acc: seq<TemplateItem>): Result<seq<TemplateItem>>
    decreases layers, 0
  {
    if layers == [] then Success(acc)
    else match ReadLayers(group, layers[..|layers| - 1], searches, uuids, acc)
      case Failure(e) => Failure(e)
      case Success(a) => ReadLayer(group, layers[|layers| - 1], searches, uuids, a)
  }

  /** One layer of `read`'s loop. */
  function ReadLayer(group: string, layer: Json, searches: Dict<Json, seq<Json>>,
                     uuids: nat -> string, acc: seq<TemplateItem>): Result<seq<TemplateItem>>
    decreases layer, 0
  {
    match Index(layer, "title")
    case Failure(e) => Failure(e)
    case Success(title) =>
      if !Hashable(title) then Failure(TypeError("unhashable type"))
      else match Index(layer, "layerType")
      case Failure(e) => Failure(e)
      case Success(kind) =>
        if kind == JStr("GroupLayer") then
          match IndexOf(layer.members, "layers")
          case None => Failure(KeyError("layers"))
          case Some(i) => ReadChildren(group, layer.members[i], searches, uuids, acc)
        else if kind == JStr("ArcGISFeatureLayer") then
          match FromLayer(layer.members, group, searches, uuids(|acc|))
          case Failure(e) => Failure(e)
          case Success(t) => Success(acc + [t])
        else if kind == JStr("ArcGISMapServiceLayer") || kind == JStr("ArcGISTiledMapServiceLayer") then
          match FromRaster(layer.members, group, uuids(|acc|))
          case Failure(e) => Failure(e)
          case Success(t) => Success(acc + [t])
        else Success(acc)
  }

  /**
   * The recursive call on a group's "layers" member: iterating a dict or a
   * string visits strings, which cannot be indexed by "title".
   */
  function ReadChildren(group: string, member: (string, Json), searches: Dict<Json, seq<Json>>,
                        uuids: nat -> string, acc: seq<TemplateItem>): Result<seq<TemplateItem>>
    decreases member, 0
  {
    match member.1
    case JArr(xs) => ReadLayers(group, xs, searches, uuids, acc)
    case JObj(ms) => if ms == [] then Success(acc) else Failure(TypeError("string indices must be integers"))
    case JStr(s) => if s == "" then Success(acc) else Failure(TypeError("string indices must be integers"))
    case _ => Failure(TypeError("object is not iterable"))
  }

  /** `a` extends `acc` with items of template `group`, the k-th taking `uuids(k)`. */
  ghost predicate Extends(group: string, uuids: nat -> string, acc: seq<TemplateItem>, a: seq<TemplateItem>) {
    acc <= a && forall k :: |acc| <= k < |a| ==> a[k].groupName == group && a[k].id == uuids(k)
  }

  lemma ExtendsTransitive(group: string, uuids: nat -> string, a: seq<TemplateItem>,
                          b: seq<TemplateItem>, c: seq<TemplateItem>)
    requires Extends(group, uuids, a, b) && Extends(group, uuids, b, c)
    ensures Extends(group, uuids, a, c)
  {
  }

  /**
   * `read` only appends: the items already found stay, and every new item
   * belongs to the template being read and carries the UUID of its position.
   */
  lemma {:induction false} ReadLayersExtends(group: string, layers: seq<Json>, searches: Dict<Json, seq<Json>>,
                                             uuids: nat -> string, acc: seq<TemplateItem>)
    ensures ReadLayers(group, layers, searches, uuids, acc).Success? ==>
      Extends(group, uuids, acc, ReadLayers(group, layers, searches, uuids, acc).value)
    decreases layers, 0
  {
    if layers != [] {
      ReadLayersExtends(group, layers[..|layers| - 1], searches, uuids, acc);
      var r := ReadLayers(group, layers[..|layers| - 1], searches, uuids, acc);
      if r.Success? {
        ReadLayerExtends(group, layers[|layers| - 1], searches, uuids, r.value);
        if ReadLayer(group, layers[|layers| - 1], searches, uuids, r.value).Success? {
          ExtendsTransitive(group, uuids, acc, r.value,
                            ReadLayer(group, layers[|layers| - 1], searches, uuids, r.value).value);
        }
      }
    }
  }

  lemma {:induction false} ReadLayerExtends(group: string, layer: Json, searches: Dict<Json, seq<Json>>,
                                            uuids: nat -> string, acc: seq<TemplateItem>)
    ensures ReadLayer(group, layer, searches, uuids, acc).Success? ==>
      Extends(group, uuids, acc, ReadLayer(group, layer, searches, uuids, acc).value)
    decreases layer, 0
  {
    match Index(layer, "title")
    case Failure(_) =>
    case Success(title) =>
      if Hashable(title) {
        match Index(layer, "layerType")
        case Failure(_) =>
        case Success(kind) =>
          if kind == JStr("GroupLayer") {
            match IndexOf(layer.members, "layers")
            case None =>
            case Some(i) => ReadChildrenExtends(group, layer.members[i], searches, uuids, acc);
          } else if kind == JStr("ArcGISFeatureLayer") {
            var r := FromLayer(layer.members, group, searches, uuids(|acc|));
            if r.Success? {
              ExtendsOne(group, uuids, acc, r.value);
            }
          } else if kind == JStr("ArcGISMapServiceLayer") || kind == JStr("ArcGISTiledMapServiceLayer") {
            var r := FromRaster(layer.members, group, uuids(|acc|));
            if r.Success? {
              ExtendsOne(group, uuids, acc, r.value);
            }
          }
      }
  }

  lemma ExtendsOne(group: string, uuids: nat -> string, acc: seq<TemplateItem>, t: TemplateItem)
    requires t.groupName == group && t.id == uuids(|acc|)
    ensures Extends(group, uuids, acc, acc + [t])
  {
  }

  lemma {:induction false} ReadChildrenExtends(group: string, member: (string, Json), searches: Dict<Json, seq<Json>>,
                                               uuids: nat -> string, acc: seq<TemplateItem>)
    ensures ReadChildren(group, member, searches, uuids, acc).Success? ==>
      Extends(group, uuids, acc, ReadChildren(group, member, searches, uuids, acc).value)
    decreases member, 0
  {
    if member.1.JArr? {
      ReadLayersExtends(group, member.1.items, searches, uuids, acc);
    }
  }

  /** Once a layer fails, `read` fails with that error whatever follows. */
  lemma {:induction false} ReadFailureSticks(group: string, layers: seq<Json>, searches: Dict<Json, seq<Json>>,
                                             uuids: nat -> string, acc: seq<TemplateItem>, j: nat)
    requires j <= |layers|
    requires ReadLayers(group, layers[..j], searches, uuids, acc).Failure?
    ensures ReadLayers(group, layers, searches, uuids, acc) == ReadLayers(group, layers[..j], searches, uuids, acc)
    decreases |layers| - j
  {
    if j < |layers| {
      assert layers[..j + 1][..j] == layers[..j];
      ReadFailureSticks(group, layers, searches, uuids, acc, j + 1);
    } else {
      assert layers[..j] == layers;
    }
  }

  // ---------------------------------------------------------------------
  // Naming and keying items
  // ---------------------------------------------------------------------

  /** Every item of the dict is stored under its own nickname. */
  ghost predicate KeyedByName(d: Dict<string, TemplateItem>) {
    forall i :: 0 <= i < |d| ==> d[i].1.itemName == Some(d[i].0)
  }

  lemma PutKeyed(d: Dict<string, TemplateItem>, k: string, t: TemplateItem)
    requires KeyedByName(d) && t.itemName == Some(k)
    ensures KeyedByName(Put(d, k, t))
  {
  }

  /** The nickname `load` gives the item at position `i`: its own, else "<template>_<i>". */
  function Nicknamed(t: TemplateItem, template: string, i: nat): (u: TemplateItem)
    ensures u.itemName.Some?
    ensures t.itemName.Some? ==> u == t
    ensures t.itemName.None? ==> u == t.(itemName := Some(template + "_" + NatToString(i)))
  {
    if t.itemName.None? then t.(itemName := Some(template + "_" + NatToString(i))) else t
  }

  /** The items of `load` after its loop over `data`, starting from `d`. */
  function Named(d: Dict<string, TemplateItem>, template: string, data: seq<TemplateItem>): Dict<string, TemplateItem>
    decreases |data|
  {
    if data == [] then d
    else
      var u := Nicknamed(data[|data| - 1], template, |data| - 1);
      Put(Named(d, template, data[..|data| - 1]), u.itemName.value, u)
  }

  /** The item stored under `key` after the loop: the last one with that nickname. */
  function LastNamed(d: Dict<string, TemplateItem>, template: string, data: seq<TemplateItem>,
                     key: string): Option<TemplateItem>
    decreases |data|
  {
    if data == [] then Get(d, key)
    else if Nicknamed(data[|data| - 1], template, |data| - 1).itemName == Some(key)
    then Some(Nicknamed(data[|data| - 1], template, |data| - 1))
    else LastNamed(d, template, data[..|data| - 1], key)
  }

  /**
   * `load` keeps its items keyed by their nicknames, without duplicate keys,
   * and looking a nickname up gives the last item that carries it.
   */
  lemma {:induction false} NamedKeyed(d: Dict<string, TemplateItem>, template: string, data: seq<TemplateItem>)
    requires KeyedByName(d) && Distinct(d)
    ensures KeyedByName(Named(d, template, data)) && Distinct(Named(d, template, data))
    ensures forall key :: Get(Named(d, template, data), key) == LastNamed(d, template, data, key)
    decreases |data|
  {
    if data != [] {
      var prev := Named(d, template, data[..|data| - 1]);
      NamedKeyed(d, template, data[..|data| - 1]);
      var u := Nicknamed(data[|data| - 1], template, |data| - 1);
      PutKeyed(prev, u.itemName.value, u);
      PutDistinct(prev, u.itemName.value, u);
      forall key ensures Get(Named(d, template, data), key) == LastNamed(d, template, data, key) {
        PutGet(prev, u.itemName.value, u, key);
      }
    }
  }

  /** Every item read ends up under its nickname unless a later item takes it. */
  lemma NamedFindsEvery(d: Dict<string, TemplateItem>, template: string, data: seq<TemplateItem>, k: nat)
    requires KeyedByName(d) && Distinct(d) && k < |data|
    requires forall j :: k < j < |data| ==>
      Nicknamed(data[j], template, j).itemName != Nicknamed(data[k], template, k).itemName
    ensures Get(Named(d, template, data), Nicknamed(data[k], template, k).itemName.value)
            == Some(Nicknamed(data[k], template, k))
  {
    NamedKeyed(d, template, data);
    LastNamedAt(d, template, data, k);
  }

  lemma {:induction false} LastNamedAt(d: Dict<string, TemplateItem>, template: string, data: seq<TemplateItem>, k: nat)
    requires k < |data|
    requires forall j :: k < j < |data| ==>
      Nicknamed(data[j], template, j).itemName != Nicknamed(data[k], template, k).itemName
    ensures LastNamed(d, template, data, Nicknamed(data[k], template, k).itemName.value)
            == Some(Nicknamed(data[k], template, k))
    decreases |data|
  {
    if k < |data| - 1 {
      var p := data[..|data| - 1];
      assert p[k] == data[k];
      forall j | k < j < |p| ensures Nicknamed(p[j], template, j).itemName != Nicknamed(p[k], template, k).itemName {
        assert p[j] == data[j];
      }
      LastNamedAt(d, template, p, k);
    }
  }

  /** The nickname `with_names` gives each item, keeping the keys. */
  function Renamed(d: Dict<string, TemplateItem>, names: seq<string>): (r: Dict<string, TemplateItem>)
    requires |d| == |names|
    ensures |r| == |d| && Keys(r) == Keys(d)
  {
    seq(|d|, i requires 0 <= i < |d| => (d[i].0, d[i].1.(itemName := Some(names[i]))))
  }

  /** The items of the template `with_names` returns: each renamed item under its new name. */
  function Rekeyed(d: Dict<string, TemplateItem>, names: seq<string>): Dict<string, TemplateItem>
    requires |d| == |names|
    decreases |d|
  {
    if d == [] then []
    else
      Put(Rekeyed(d[..|d| - 1], names[..|names| - 1]), names[|names| - 1],
          d[|d| - 1].1.(itemName := Some(names[|names| - 1])))
  }

  /** `names` has no repeats. */
  predicate Unique<T(==)>(names: seq<T>) {
    forall i, j :: 0 <= i < j < |names| ==> names[i] != names[j]
  }

  /** The dict `with_names` returns, written out when the names are distinct. */
  function RekeyedSpec(d: Dict<string, TemplateItem>, names: seq<string>): Dict<string, TemplateItem>
    requires |d| == |names|
  {
    seq(|d|, i requires 0 <= i < |d| => (names[i], d[i].1.(itemName := Some(names[i]))))
  }

  /**
   * With distinct names, the renamed template holds one item per name, in
   * the given order, each carrying its name and otherwise unchanged.
   */
  lemma {:induction false} RekeyedExact(d: Dict<string, TemplateItem>, names: seq<string>)
    requires |d| == |names| && Unique(names)
    ensures Rekeyed(d, names) == RekeyedSpec(d, names)
    ensures KeyedByName(Rekeyed(d, names))
    decreases |d|
  {
    if d != [] {
      var n := |d| - 1;
      var prev := Rekeyed(d[..n], names[..n]);
      RekeyedExact(d[..n], names[..n]);
      assert Rekeyed(d, names) == prev + [(names[n], d[n].1.(itemName := Some(names[n])))];
    }
  }

  lemma RekeyedStep(d: Dict<string, TemplateItem>, names: seq<string>, i: nat)
    requires |d| == |names| && i < |d|
    ensures Rekeyed(d[..i + 1], names[..i + 1])
            == Put(Rekeyed(d[..i], names[..i]), names[i], d[i].1.(itemName := Some(names[i])))
  {
    assert d[..i + 1][..i] == d[..i];
    assert names[..i + 1][..i] == names[..i];
  }

  /** Whatever the names, every item of the renamed template carries the key it is stored under. */
  lemma {:induction false} RekeyedKeyed(d: Dict<string, TemplateItem>, names: seq<string>)
    requires |d| == |names|
    ensures KeyedByName(Rekeyed(d, names))
    decreases |d|
  {
    if d != [] {
      var n := |d| - 1;
      RekeyedKeyed(d[..n], names[..n]);
      PutKeyed(Rekeyed(d[..n], names[..n]), names[n], d[n].1.(itemName := Some(names[n])));
    }
  }

  // ---------------------------------------------------------------------
  // Reading the search table of a web map
  // ---------------------------------------------------------------------

  /** `if key in v: v = v[key]`, one step of `get_search`'s descent. */
  function Descend(v: Json, key: string): Result<Json> {
    match In(key, v)
    case Failure(e) => Failure(e)
    case Success(found) => if found then Index(v, key) else Success(v)
  }

  /** Where `get_search` looks for the search records of a web-map definition. */
  function SearchSection(definition: Members): Result<Json> {
    match Descend(JObj(definition), "applicationProperties")
    case Failure(e) => Failure(e)
    case Success(v1) =>
      match Descend(v1, "viewing")
      case Failure(e) => Failure(e)
      case Success(v2) =>
        match Descend(v2, "search")
        case Failure(e) => Failure(e)
        case Success(v3) => Descend(v3, "layers")
  }

  /** The table after one search record: its field name is added under its layer id. */
  function RecordStep(d: Dict<Json, seq<Json>>, search: Json): Result<Dict<Json, seq<Json>>> {
    match In("id", search)
    case Failure(e) => Failure(e)
    case Success(hasId) =>
      if !hasId then Success(d)
      else match Index(search, "id")
      case Failure(e) => Failure(e)
      case Success(sid) =>
        if !Hashable(sid) then Failure(TypeError("unhashable type"))
        else
          var names := match Get(d, sid) case Some(ns) => ns case None => [];
          match Get(search.members, "field")
          case None => Success(Put(d, sid, names))
          case Some(field) =>
            match In("name", field)
            case Failure(e) => Failure(e)
            case Success(hasName) =>
              if !hasName then Success(Put(d, sid, names))
              else match Index(field, "name")
              case Failure(e) => Failure(e)
              case Success(n) => Success(Put(d, sid, names + [n]))
  }

  /** `get_search`'s loop over the records, from table `d`. */
  function SearchTable(d: Dict<Json, seq<Json>>, records: seq<Json>): Result<Dict<Json, seq<Json>>>
    decreases |records|
  {
    if records == [] then Success(d)
    else match SearchTable(d, records[..|records| - 1])
      case Failure(e) => Failure(e)
      case Success(t) => RecordStep(t, records[|records| - 1])
  }

  /** What `get_search` returns for a web-map definition. */
  function SearchIndex(definition: Members): Result<Dict<Json, seq<Json>>> {
    match SearchSection(definition)
    case Failure(e) => Failure(e)
    case Success(section) =>
      match Iter(section)
      case Failure(e) => Failure(e)
      case Success(records) => SearchTable([], records)
  }

  lemma {:induction false} SearchFailureSticks(d: Dict<Json, seq<Json>>, records: seq<Json>, j: nat)
    requires j <= |records| && SearchTable(d, records[..j]).Failure?
    ensures SearchTable(d, records) == SearchTable(d, records[..j])
    decreases |records| - j
  {
    if j < |records| {
      assert records[..j + 1][..j] == records[..j];
      SearchFailureSticks(d, records, j + 1);
    } else {
      assert records[..j] == records;
    }
  }

  /**
   * `get_search`: maps each layer id of the definition's search records to
   * the field names recorded for it, in record order.
   */
  method GetSearch(definition: Members) returns (r: Result<Dict<Json, seq<Json>>>)
    ensures r == SearchIndex(definition)
  {
    var mapDef: Json := JObj(definition);
    var next := Descend(mapDef, "applicationProperties");
    if next.Failure? {
      return Failure(next.error);
    }
    next := Descend(next.value, "viewing");
    if next.Failure? {
      return Failure(next.error);
    }
    next := Descend(next.value, "search");
    if next.Failure? {
      return Failure(next.error);
    }
    next := Descend(next.value, "layers");
    if next.Failure? {
      return Failure(next.error);
    }
    mapDef := next.value;
    var records := Iter(mapDef);
    if records.Failure? {
      return Failure(records.error);
    }
    var recs := records.value;
    var d: Dict<Json, seq<Json>> := [];
    for k := 0 to |recs|
      invariant SearchTable([], recs[..k]) == Success(d)
    {
      assert recs[..k + 1][..k] == recs[..k];
      var step := RecordStep(d, recs[k]);
      if step.Failure? {
        SearchFailureSticks([], recs, k + 1);
        return step;
      }
      d := step.value;
    }
    assert recs[..|recs|] == recs;
    r := Success(d);
  }

  /** Reading one descriptor adds its field name under its layer id. */
  lemma EntryStep(d: Dict<Json, seq<Json>>, id: string, name: Json)
    ensures RecordStep(d, SearchEntry(id, name)) ==
      Success(Put(d, JStr(id), (match Get(d, JStr(id)) case Some(ns) => ns case None => []) + [name]))
  {
    var f: Members := [("name", name), ("exactMatch", JBool(false)), ("type", JStr("esriFieldTypeString"))];
    assert IndexOf(f, "name") == Some(0);
    var e: Members := [("id", JStr(id)), ("field", JObj(f))];
    assert IndexOf(e, "id") == Some(0);
    assert IndexOf(e, "field") == Some(1);
  }

  /** The table after one more descriptor of the same layer. */
  lemma SearchRoundTripStep(es: seq<Json>, names: seq<Json>, id: string, k: nat)
    requires |es| == |names| && k < |es| && es[k] == SearchEntry(id, names[k])
    requires SearchTable([], es[..k]) == Success(if k == 0 then [] else [(JStr(id), names[..k])])
    ensures SearchTable([], es[..k + 1]) == Success([(JStr(id), names[..k + 1])])
  {
    assert es[..k + 1][..k] == es[..k];
    assert names[..k + 1] == names[..k] + [names[k]];
    var d: Dict<Json, seq<Json>> := if k == 0 then [] else [(JStr(id), names[..k])];
    EntryStep(d, id, names[k]);
    assert SearchTable([], es[..k + 1]) == RecordStep(d, es[k]);
    if k == 0 {
      assert Put(d, JStr(id), [] + [names[k]]) == [(JStr(id), names[..k + 1])];
    } else {
      assert IndexOf(d, JStr(id)) == Some(0);
      assert Put(d, JStr(id), names[..k] + [names[k]]) == [(JStr(id), names[..k + 1])];
    }
  }

  /**
   * The descriptors `into_search` writes for a layer are read back by
   * `get_search` as exactly one entry: the layer id with its field names.
   */
  lemma {:induction false} SearchRoundTrip(t: TemplateItem, id: string)
    ensures SearchTable([], Descriptors(t, id)) ==
      Success(if SearchNames(t) == [] then [] else [(JStr(id), SearchNames(t))])
  {
    var es := Descriptors(t, id);
    var names := SearchNames(t);
    for k := 0 to |es|
      invariant SearchTable([], es[..k]) == Success(if k == 0 then [] else [(JStr(id), names[..k])])
    {
      SearchRoundTripStep(es, names, id, k);
    }
    assert es[..|es|] == es;
    assert names[..|names|] == names;
  }

  /** A search record `get_search` reads without error: a dict whose id, if any, is hashable and whose field, if any, is a dict. */
  predicate ReadableRecord(r: Json) {
    && r.JObj?
    && (HasKey(r.members, "id") ==>
          && Hashable(Get(r.members, "id").value)
          && (HasKey(r.members, "field") ==> Get(r.members, "field").value.JObj?))
  }

  /** The field names recorded for layer `sid`, in record order. */
  function NamesFor(records: seq<Json>, sid: Json): seq<Json>
    decreases |records|
  {
    if records == [] then []
    else
      var r := records[|records| - 1];
      NamesFor(records[..|records| - 1], sid)
        + (if DescriptorId(r) == Some(sid) && DescriptorName(r).Some? then [DescriptorName(r).value] else [])
  }

  /** Some record names layer `sid`. */
  predicate Recorded(records: seq<Json>, sid: Json) {
    exists k :: 0 <= k < |records| && DescriptorId(records[k]) == Some(sid)
  }

  /** The names recorded so far for `sid` in table `t`. */
  function NamesIn(t: Dict<Json, seq<Json>>, sid: Json): seq<Json> {
    match Get(t, sid) case Some(ns) => ns case None => []
  }

  lemma RecordStepReadable(t: Dict<Json, seq<Json>>, r: Json)
    requires ReadableRecord(r)
    ensures RecordStep(t, r) == Success(
      match DescriptorId(r)
      case None => t
      case Some(sid) =>
        Put(t, sid, NamesIn(t, sid) + (if DescriptorName(r).Some? then [DescriptorName(r).value] else [])))
  {
    assert In("id", r) == Success(HasKey(r.members, "id"));
    if HasKey(r.members, "id") {
      var sid := Get(r.members, "id").value;
      assert Index(r, "id") == Success(sid);
      match Get(r.members, "field")
      case None =>
        assert NamesIn(t, sid) + [] == NamesIn(t, sid);
      case Some(f) =>
        assert In("name", f) == Success(HasKey(f.members, "name"));
        if HasKey(f.members, "name") {
          assert Index(f, "name") == Success(Get(f.members, "name").value);
        } else {
          assert NamesIn(t, sid) + [] == NamesIn(t, sid);
        }
    }
  }

  lemma RecordedSnoc(prefix: seq<Json>, r: Json, sid: Json)
    ensures Recorded(prefix + [r], sid) <==> Recorded(prefix, sid) || DescriptorId(r) == Some(sid)
  {
    var records := prefix + [r];
    if Recorded(records, sid) {
      var k :| 0 <= k < |records| && DescriptorId(records[k]) == Some(sid);
      if k < |prefix| { assert prefix[k] == records[k]; }
    }
    if Recorded(prefix, sid) {
      var k :| 0 <= k < |prefix| && DescriptorId(prefix[k]) == Some(sid);
      assert records[k] == prefix[k];
    }
    if DescriptorId(r) == Some(sid) {
      assert DescriptorId(records[|prefix|]) == Some(sid);
    }
  }

  lemma {:induction false} NamesForUnrecorded(records: seq<Json>, sid: Json)
    requires !Recorded(records, sid)
    ensures NamesFor(records, sid) == []
    decreases |records|
  {
    if records != [] {
      var n := |records| - 1;
      assert !Recorded(records[..n], sid) by {
        RecordedSnoc(records[..n], records[n], sid);
        assert records[..n] + [records[n]] == records;
      }
      assert DescriptorId(records[n]) != Some(sid);
      NamesForUnrecorded(records[..n], sid);
    }
  }

  lemma GroupStepAt(prefix: seq<Json>, r: Json, t: Dict<Json, seq<Json>>, sid: Json)
    requires ReadableRecord(r)
    requires Get(t, sid) == (if Recorded(prefix, sid) then Some(NamesFor(prefix, sid)) else None)
    ensures Get(RecordStep(t, r).value, sid) ==
      (if Recorded(prefix + [r], sid) then Some(NamesFor(prefix + [r], sid)) else None)
  {
    RecordStepReadable(t, r);
    RecordedSnoc(prefix, r, sid);
    assert (prefix + [r])[..|prefix|] == prefix;
    assert NamesFor(prefix + [r], sid) == NamesFor(prefix, sid)
      + (if DescriptorId(r) == Some(sid) && DescriptorName(r).Some? then [DescriptorName(r).value] else []);
    match DescriptorId(r)
    case None =>
      assert NamesFor(prefix + [r], sid) == NamesFor(prefix, sid);
    case Some(sid0) =>
      PutGet(t, sid0, NamesIn(t, sid0) + (if DescriptorName(r).Some? then [DescriptorName(r).value] else []), sid);
      if sid != sid0 {
        assert NamesFor(prefix + [r], sid) == NamesFor(prefix, sid);
      } else if !Recorded(prefix, sid) {
        NamesForUnrecorded(prefix, sid);
      }
  }

  /**
   * For readable records, `get_search` succeeds and maps every layer id that
   * some record names to the field names recorded for it, in record order,
   * and no other value.
   */
  lemma {:induction false} SearchTableGroups(records: seq<Json>)
    requires forall k :: 0 <= k < |records| ==> ReadableRecord(records[k])
    ensures SearchTable([], records).Success?
    ensures forall sid :: (Get(SearchTable([], records).value, sid) ==
                           (if Recorded(records, sid) then Some(NamesFor(records, sid)) else None))
    decreases |records|
  {
    if records != [] {
      var n := |records| - 1;
      var prefix := records[..n];
      var r := records[n];
      assert records == prefix + [r];
      SearchTableGroups(prefix);
      var t := SearchTable([], prefix).value;
      RecordStepReadable(t, r);
      forall sid
        ensures Get(SearchTable([], records).value, sid) ==
          (if Recorded(records, sid) then Some(NamesFor(records, sid)) else None)
      {
        GroupStepAt(prefix, r, t, sid);
      }
    }
  }

  // ---------------------------------------------------------------------
  // Workbooks
  // ---------------------------------------------------------------------

  /**
   * The search cell of a workbook row as the CSV reader yields it: text, or
   * a number. A column without any text holds numpy scalars, its empty
   * cells NaN among them (`SearchScalar`). In a column that also holds
   * text, an empty cell is the Python float NaN (`SearchBlank`).
   */
  datatype SearchCell = SearchText(text: string) | SearchScalar | SearchBlank

  /**
   * `str(uuid.UUID(s))`: the canonical text of the UUID written as `s`, or
   * nothing when `uuid.UUID` raises ValueError on it.
   */
  type UuidParser = string -> Option<string>

  const BadUuid := ValueError("badly formed hexadecimal UUID string")

  /** `list.extend` of a number. */
  const NotExtendable := TypeError("object is not iterable")

  /** One workbook row; every column but `search` is the text `str` gives for its cell. */
  datatype Row = Row(name: string, title: string, group: string, id: string,
                     layerDefinition: string, popupInfo: string, url: string, search: SearchCell)

  /**
   * The search fields of a row: "[]" is none, any other text is one field.
   * A numpy scalar's `tolist` gives a Python number, which cannot be
   * extended from (TypeError), and a Python float has no `tolist`
   * (AttributeError).
   */
  function DecodeSearch(c: SearchCell): (r: Result<seq<Json>>)
    ensures r.Failure? <==> !c.SearchText?
    ensures c.SearchScalar? ==> r.error.TypeError?
    ensures c.SearchBlank? ==> r.error == AttributeError("tolist")
    ensures c.SearchText? ==> |r.value| == (if c.text == "[]" then 0 else 1)
    ensures c.SearchText? && c.text != "[]" ==> r.value[0] == JStr(c.text)
  {
    match c
    case SearchText(t) => Success(if t != "[]" then [JStr(t)] else [])
    case SearchScalar => Failure(NotExtendable)
    case SearchBlank => Failure(AttributeError("tolist"))
  }

  /**
   * A workbook stores a field list as the text `str` gives for it, and reads
   * that text back as one field: only an empty list survives the round trip.
   */
  lemma WorkbookSearchRoundTrip(names: seq<Json>)
    ensures DecodeSearch(SearchText(Show(JArr(names)))) == Success(names) <==> names == []
  {
    var text := Show(JArr(names));
    if names != [] {
      if |names| == 1 && names[0].JStr? {
        assert ReprItems(names) == Repr(names[0]);
        assert |text| == |names[0].s| + 4;
      }
    }
  }

  /** The item of a workbook row, with its search fields and the canonical text of its UUID. */
  function RowItem(row: Row, search: seq<Json>, id: string): TemplateItem {
    FromParts(row.title, row.group, row.name, row.layerDefinition, row.popupInfo, row.url, search, id)
  }

  /**
   * The items `from_workbook` builds from `rows`, keyed by the name column:
   * a row fails on its search cell first, then on its id.
   */
  function WorkbookItems(rows: seq<Row>, uuid: UuidParser): Result<Dict<string, TemplateItem>>
    decreases |rows|
  {
    if rows == [] then Success([])
    else match WorkbookItems(rows[..|rows| - 1], uuid)
      case Failure(e) => Failure(e)
      case Success(d) =>
        var row := rows[|rows| - 1];
        match DecodeSearch(row.search)
        case Failure(e) => Failure(e)
        case Success(s) =>
          match uuid(row.id)
          case None => Failure(BadUuid)
          case Some(id) => Success(Put(d, row.name, RowItem(row, s, id)))
  }

  /** A row that reads: its search cell decodes and its id is a UUID. */
  predicate RowReads(row: Row, uuid: UuidParser) {
    row.search.SearchText? && uuid(row.id).Some?
  }

  lemma {:induction false} WorkbookFailureSticks(rows: seq<Row>, uuid: UuidParser, j: nat)
    requires j <= |rows| && WorkbookItems(rows[..j], uuid).Failure?
    ensures WorkbookItems(rows, uuid) == WorkbookItems(rows[..j], uuid)
    decreases |rows| - j
  {
    if j < |rows| {
      assert rows[..j + 1][..j] == rows[..j];
      WorkbookFailureSticks(rows, uuid, j + 1);
    } else {
      assert rows[..j] == rows;
    }
  }

  /** A workbook reads without error exactly when every row reads: no search cell is empty and every id is a UUID. */
  lemma {:induction false} WorkbookItemsSucceed(rows: seq<Row>, uuid: UuidParser)
    ensures WorkbookItems(rows, uuid).Success? <==> forall k :: 0 <= k < |rows| ==> RowReads(rows[k], uuid)
    decreases |rows|
  {
    if rows != [] {
      var n := |rows| - 1;
      WorkbookItemsSucceed(rows[..n], uuid);
      WorkbookItemsStep(rows, uuid);
      assert forall k :: 0 <= k < n ==> rows[..n][k] == rows[k];
    }
  }

  /** A workbook reads when its rows but the last read and the last row reads. */
  lemma WorkbookItemsStep(rows: seq<Row>, uuid: UuidParser)
    requires rows != []
    ensures var n := |rows| - 1;
      WorkbookItems(rows, uuid).Success? <==> WorkbookItems(rows[..n], uuid).Success? && RowReads(rows[n], uuid)
  {
  }

  /** The items read from a workbook are keyed by their nicknames, without repeats. */
  lemma {:induction false} WorkbookItemsKeyed(rows: seq<Row>, uuid: UuidParser)
    requires WorkbookItems(rows, uuid).Success?
    ensures KeyedByName(WorkbookItems(rows, uuid).value) && Distinct(WorkbookItems(rows, uuid).value)
    decreases |rows|
  {
    if rows != [] {
      var n := |rows| - 1;
      WorkbookItemsKeyed(rows[..n], uuid);
      var item := RowItem(rows[n], DecodeSearch(rows[n].search).value, uuid(rows[n].id).value);
      PutKeyed(WorkbookItems(rows[..n], uuid).value, rows[n].name, item);
      PutDistinct(WorkbookItems(rows[..n], uuid).value, rows[n].name, item);
    }
  }

  /** The item of a row that reads. */
  function ReadRow(row: Row, uuid: UuidParser): TemplateItem
    requires RowReads(row, uuid)
  {
    RowItem(row, DecodeSearch(row.search).value, uuid(row.id).value)
  }

  /** A workbook that reads is its rows but the last, read, and then the last row stored under its name. */
  lemma WorkbookItemsLast(rows: seq<Row>, uuid: UuidParser)
    requires rows != [] && WorkbookItems(rows, uuid).Success?
    ensures var n := |rows| - 1;
      && WorkbookItems(rows[..n], uuid).Success? && RowReads(rows[n], uuid)
      && WorkbookItems(rows, uuid) == Success(Put(WorkbookItems(rows[..n], uuid).value, rows[n].name, ReadRow(rows[n], uuid)))
  {
  }

  /** A name's item is the one built from the last row with that name, with the canonical text of its UUID. */
  lemma {:induction false} WorkbookItemsFind(rows: seq<Row>, uuid: UuidParser, k: nat)
    requires WorkbookItems(rows, uuid).Success? && k < |rows|
    requires forall j :: k < j < |rows| ==> rows[j].name != rows[k].name
    ensures RowReads(rows[k], uuid)
    ensures Get(WorkbookItems(rows, uuid).value, rows[k].name) == Some(ReadRow(rows[k], uuid))
    decreases |rows|
  {
    var n := |rows| - 1;
    var prefix := rows[..n];
    WorkbookItemsLast(rows, uuid);
    var d := WorkbookItems(prefix, uuid).value;
    var item := ReadRow(rows[n], uuid);
    assert WorkbookItems(rows, uuid).value == Put(d, rows[n].name, item);
    if k == n {
      PutGet(d, rows[n].name, item, rows[n].name);
    } else {
      assert prefix[k] == rows[k];
      assert RowReads(rows[k], uuid) && Get(d, rows[k].name) == Some(ReadRow(rows[k], uuid)) by {
        forall j | k < j < |prefix| ensures prefix[j].name != prefix[k].name {
          assert prefix[j] == rows[j];
        }
        WorkbookItemsFind(prefix, uuid, k);
      }
      PutGet(d, rows[n].name, item, rows[k].name);
    }
  }

  /** The named items of a group template after adding `item`. */
  function AddNamed(d: Dict<string, TemplateItem>, item: TemplateItem): Dict<string, TemplateItem> {
    if item.itemName.Some? then Put(d, item.itemName.value, item) else d
  }

  /**
   * How `Templates.from_workbook` splits items by group: per group name, in
   * order of first appearance, the id of the group's first item and the
   * group's named items.
   */
  function Partition(items: seq<TemplateItem>): Dict<string, (string, Dict<string, TemplateItem>)>
    decreases |items|
  {
    if items == [] then [] else PartitionAdd(Partition(items[..|items| - 1]), items[|items| - 1])
  }

  /** The partition after one more item: a new part for a new group, else the group's part grows. */
  function PartitionAdd(p: Dict<string, (string, Dict<string, TemplateItem>)>, item: TemplateItem)
    : Dict<string, (string, Dict<string, TemplateItem>)>
  {
    match Get(p, item.groupName)
    case None => Put(p, item.groupName, (item.id, AddNamed([], item)))
    case Some(g) => Put(p, item.groupName, (g.0, AddNamed(g.1, item)))
  }

  /** Every part holds only items of its own group, keyed by their nicknames. */
  ghost predicate WellGrouped(p: Dict<string, (string, Dict<string, TemplateItem>)>) {
    && Distinct(p)
    && forall i :: 0 <= i < |p| ==>
         && KeyedByName(p[i].1.1) && Distinct(p[i].1.1)
         && forall j :: 0 <= j < |p[i].1.1| ==> p[i].1.1[j].1.groupName == p[i].0
  }

  lemma AddNamedGrouped(d: Dict<string, TemplateItem>, item: TemplateItem, g: string)
    requires KeyedByName(d) && Distinct(d) && item.groupName == g
    requires forall j :: 0 <= j < |d| ==> d[j].1.groupName == g
    ensures KeyedByName(AddNamed(d, item)) && Distinct(AddNamed(d, item))
    ensures forall j :: 0 <= j < |AddNamed(d, item)| ==> AddNamed(d, item)[j].1.groupName == g
  {
    if item.itemName.Some? {
      PutKeyed(d, item.itemName.value, item);
      PutDistinct(d, item.itemName.value, item);
    }
  }

  /** The parts are well grouped. */
  lemma {:induction false} PartitionGrouped(items: seq<TemplateItem>)
    ensures WellGrouped(Partition(items))
    decreases |items|
  {
    if items != [] {
      var n := |items| - 1;
      var p := Partition(items[..n]);
      var item := items[n];
      PartitionGrouped(items[..n]);
      assert forall k :: 0 <= k < n ==> items[..n][k] == items[k];
      var g: (string, Dict<string, TemplateItem>) :=
        match Get(p, item.groupName)
        case None => (item.id, AddNamed([], item))
        case Some(old_g) => (old_g.0, AddNamed(old_g.1, item));
      assert Partition(items) == PartitionAdd(p, item) == Put(p, item.groupName, g);
      match Get(p, item.groupName)
      case None =>
        AddNamedGrouped([], item, item.groupName);
      case Some(old_g) =>
        GetAt(p, IndexOf(p, item.groupName).value);
        AddNamedGrouped(old_g.1, item, item.groupName);
      PutDistinct(p, item.groupName, g);
    }
  }

  lemma PartitionStep(items: seq<TemplateItem>, k: nat)
    requires k < |items|
    ensures Partition(items[..k + 1]) == PartitionAdd(Partition(items[..k]), items[k])
  {
    assert items[..k + 1][..k] == items[..k];
  }

  /** Two dicts with the same keys at the same positions agree on where a key is. */
  lemma KeysAgree<V, W>(a: Dict<string, V>, b: Dict<string, W>, k: string)
    requires |a| == |b| && forall i :: 0 <= i < |a| ==> a[i].0 == b[i].0
    ensures IndexOf(a, k) == IndexOf(b, k)
    decreases |a|
  {
    if a != [] {
      KeysAgree(a[1..], b[1..], k);
    }
  }

  /** Every item's group has a part. */
  lemma {:induction false} PartitionCovers(items: seq<TemplateItem>, k: nat)
    requires k < |items|
    ensures HasKey(Partition(items), items[k].groupName)
    decreases |items|
  {
    var n := |items| - 1;
    var p := Partition(items[..n]);
    var item := items[n];
    var g: (string, Dict<string, TemplateItem>) :=
      match Get(p, item.groupName)
      case None => (item.id, AddNamed([], item))
      case Some(old_g) => (old_g.0, AddNamed(old_g.1, item));
    assert Partition(items) == PartitionAdd(p, item) == Put(p, item.groupName, g);
    PutGet(p, item.groupName, g, items[k].groupName);
    if k < n {
      assert items[..n][k] == items[k];
      PartitionCovers(items[..n], k);
    }
  }

  /** Template objects, one per part, that hold exactly what the parts say. */
  ghost predicate Mirrors(ts: Dict<string, Template>, p: Dict<string, (string, Dict<string, TemplateItem>)>)
    reads set i | 0 <= i < |ts| :: ts[i].1
  {
    && |ts| == |p|
    && (forall i :: 0 <= i < |ts| ==>
          && ts[i].0 == p[i].0 && ts[i].1.name == p[i].0
          && ts[i].1.id == p[i].1.0 && ts[i].1.items == p[i].1.1)
    && (forall i, j :: 0 <= i < j < |ts| ==> ts[i].1 != ts[j].1)
  }

  lemma MirrorsValid(ts: Dict<string, Template>, p: Dict<string, (string, Dict<string, TemplateItem>)>)
    requires Mirrors(ts, p) && Distinct(p)
    ensures Distinct(ts) && forall i :: 0 <= i < |ts| ==> ts[i].1.name == ts[i].0
  {
  }

  lemma MirrorsAppend(ts: Dict<string, Template>, p: Dict<string, (string, Dict<string, TemplateItem>)>,
                      item: TemplateItem, temp: Template)
    requires Mirrors(ts, p) && !HasKey(ts, item.groupName)
    requires forall i :: 0 <= i < |ts| ==> ts[i].1 != temp
    requires temp.name == item.groupName && temp.id == item.id && temp.items == AddNamed([], item)
    ensures Mirrors(Put(ts, item.groupName, temp), PartitionAdd(p, item))
  {
    KeysAgree(ts, p, item.groupName);
    assert Put(ts, item.groupName, temp) == ts + [(item.groupName, temp)];
    assert PartitionAdd(p, item) == p + [(item.groupName, (item.id, AddNamed([], item)))];
  }

  lemma MirrorsUpdate(ts: Dict<string, Template>, p: Dict<string, (string, Dict<string, TemplateItem>)>,
                      item: TemplateItem, at: nat)
    requires |ts| == |p| && at < |ts| && IndexOf(p, item.groupName) == Some(at)
    requires forall i :: 0 <= i < |ts| && i != at ==>
      ts[i].0 == p[i].0 && ts[i].1.name == p[i].0 && ts[i].1.id == p[i].1.0 && ts[i].1.items == p[i].1.1
    requires ts[at].0 == p[at].0 && ts[at].1.name == p[at].0 && ts[at].1.id == p[at].1.0
    requires ts[at].1.items == AddNamed(p[at].1.1, item)
    requires forall i, j :: 0 <= i < j < |ts| ==> ts[i].1 != ts[j].1
    ensures Mirrors(ts, PartitionAdd(p, item))
  {
    assert PartitionAdd(p, item) == p[at := (item.groupName, (p[at].1.0, AddNamed(p[at].1.1, item)))];
  }

  // ---------------------------------------------------------------------
  // Templates
  // ---------------------------------------------------------------------

  /** The layers of one template web map, keyed by nickname. */
  class Template {
    const name: string
    const id: string
    var items: Dict<string, TemplateItem>

    constructor(name: string, id: string)
      ensures this.name == name && this.id == id && items == []
    {
      this.name := name;
      this.id := id;
      items := [];
    }

    /** `read`: the items of `layers`, appended to those in `found`. */
    method Read(layers: seq<Json>, searches: Dict<Json, seq<Json>>, found: seq<TemplateItem>,
                uuids: nat -> string) returns (r: Result<seq<TemplateItem>>)
      ensures r == ReadLayers(name, layers, searches, uuids, found)
      decreases layers, 0
    {
      var acc := found;
      for k := 0 to |layers|
        invariant ReadLayers(name, layers[..k], searches, uuids, found) == Success(acc)
      {
        assert layers[..k + 1][..k] == layers[..k];
        var step := ReadOne(layers[k], searches, acc, uuids);
        if step.Failure? {
          ReadFailureSticks(name, layers, searches, uuids, found, k + 1);
          return step;
        }
        acc := step.value;
      }
      assert layers[..|layers|] == layers;
      r := Success(acc);
    }

    /** The body of `read`'s loop for one layer. */
    method ReadOne(layer: Json, searches: Dict<Json, seq<Json>>, acc: seq<TemplateItem>,
                   uuids: nat -> string) returns (step: Result<seq<TemplateItem>>)
      ensures step == ReadLayer(name, layer, searches, uuids, acc)
      decreases layer, 0
    {
      var title := Index(layer, "title");
      if title.Failure? {
        return Failure(title.error);
      }
      if !Hashable(title.value) {
        return Failure(TypeError("unhashable type"));
      }
      var kind := Index(layer, "layerType");
      if kind.Failure? {
        return Failure(kind.error);
      }
      step := Success(acc);
      if kind.value == JStr("GroupLayer") {
        var i := IndexOf(layer.members, "layers");
        if i.None? {
          return Failure(KeyError("layers"));
        }
        var member := layer.members[i.value];
        match member.1 {
          case JArr(xs) =>
            step := Read(xs, searches, acc, uuids);
          case JObj(ms) =>
            if ms != [] { step := Failure(TypeError("string indices must be integers")); }
          case JStr(s) =>
            if s != "" { step := Failure(TypeError("string indices must be integers")); }
          case _ =>
            step := Failure(TypeError("object is not iterable"));
        }
        assert step == ReadChildren(name, member, searches, uuids, acc);
      } else if kind.value == JStr("ArcGISFeatureLayer") {
        var t := FromLayer(layer.members, name, searches, uuids(|acc|));
        step := if t.Failure? then Failure(t.error) else Success(acc + [t.value]);
      } else if kind.value == JStr("ArcGISMapServiceLayer") || kind.value == JStr("ArcGISTiledMapServiceLayer") {
        var t := FromRaster(layer.members, name, uuids(|acc|));
        step := if t.Failure? then Failure(t.error) else Success(acc + [t.value]);
      }
    }

    /**
     * `load`, once the web map's layers and search table are fetched: the
     * items read are stored under their nicknames, unnamed ones being named
     * after the template and their position. A failed read changes nothing.
     */
    method Load(layers: seq<Json>, searches: Dict<Json, seq<Json>>, uuids: nat -> string)
      returns (r: Result<()>)
      modifies this
      ensures ReadLayers(name, layers, searches, uuids, []).Failure? ==>
        r == Failure(ReadLayers(name, layers, searches, uuids, []).error) && items == old(items)
      ensures ReadLayers(name, layers, searches, uuids, []).Success? ==>
        r == Success(()) && items == Named(old(items), name, ReadLayers(name, layers, searches, uuids, []).value)
    {
      var data := Read(layers, searches, [], uuids);
      if data.Failure? {
        return Failure(data.error);
      }
      Store(data.value);
      r := Success(());
    }

    /** The loop of `load`: each item read is stored under its nickname, or else under the template's name and its position. */
    method Store(d: seq<TemplateItem>)
      modifies this
      ensures items == Named(old(items), name, d)
    {
      for index := 0 to |d|
        invariant items == Named(old(items), name, d[..index])
      {
        assert d[..index + 1][..index] == d[..index];
        var datum := d[index];
        if datum.itemName.None? {
          datum := datum.(itemName := Some(name + "_" + NatToString(index)));
        }
        items := Put(items, datum.itemName.value, datum);
      }
      assert d[..|d|] == d;
    }

    /**
     * `with_names`: with one name per item, renames the items in place and
     * returns a new template keyed by the new names; otherwise returns this
     * template unchanged.
     */
    method WithNames(names: seq<string>) returns (t: Template)
      modifies this
      ensures |old(items)| != |names| ==> t == this && items == old(items)
      ensures |old(items)| == |names| ==>
        && fresh(t) && t.name == name && t.id == id
        && items == Renamed(old(items), names)
        && t.items == Rekeyed(old(items), names)
    {
      if |items| != |names| {
        return this;
      }
      t := new Template(name, id);
      var original := items;
      for index := 0 to |names|
        invariant |items| == |original|
        invariant forall j :: 0 <= j < index ==> items[j] == Renamed(original, names)[j]
        invariant forall j :: index <= j < |items| ==> items[j] == original[j]
        invariant t.items == Rekeyed(original[..index], names[..index])
      {
        var value := original[index].1.(itemName := Some(names[index]));
        items := items[index := (items[index].0, value)];
        RekeyedStep(original, names, index);
        t.items := Put(t.items, names[index], value);
      }
      assert original[..|names|] == original && names[..|names|] == names;
    }
 
    /**
     * `from_workbook`, once the CSV file is read into rows: the template is
     * named after the file's stem and takes the first row's id text as it
     * is. An empty search cell or an id that is no UUID fails; so does a
     * workbook with no rows (`ids[0]`).
     */
    static method FromWorkbook(stem: string, rows: seq<Row>, uuid: UuidParser) returns (r: Result<Template>)
      ensures WorkbookItems(rows, uuid).Failure? ==> r == Failure(WorkbookItems(rows, uuid).error)
      ensures WorkbookItems(rows, uuid).Success? && rows == [] ==> r == Failure(KeyError("0"))
      ensures WorkbookItems(rows, uuid).Success? && rows != [] ==>
        && r.Success? && fresh(r.value)
        && r.value.name == stem && r.value.id == rows[0].id
        && r.value.items == WorkbookItems(rows, uuid).value
    {
      var items: Dict<string, TemplateItem> := [];
      for i := 0 to |rows|
        invariant WorkbookItems(rows[..i], uuid) == Success(items)
      {
        assert rows[..i + 1][..i] == rows[..i];
        var searchItem: seq<Json> := [];
        match rows[i].search {
          case SearchText(t) =>
            if t != "[]" {
              searchItem := searchItem + [JStr(t)];
            }
          case SearchScalar =>
            WorkbookFailureSticks(rows, uuid, i + 1);
            return Failure(NotExtendable);
          case SearchBlank =>
            WorkbookFailureSticks(rows, uuid, i + 1);
            return Failure(AttributeError("tolist"));
        }
        assert searchItem == DecodeSearch(rows[i].search).value;
        var id := uuid(rows[i].id);
        if id.None? {
          WorkbookFailureSticks(rows, uuid, i + 1);
          return Failure(BadUuid);
        }
        var item := FromParts(rows[i].title, rows[i].group, rows[i].name, rows[i].layerDefinition,
                              rows[i].popupInfo, rows[i].url, searchItem, id.value);
        assert WorkbookItems(rows[..i + 1], uuid) == Success(Put(items, rows[i].name, RowItem(rows[i], searchItem, id.value)));
        items := Put(items, rows[i].name, item);
      }
      assert rows[..|rows|] == rows;
      if |rows| == 0 {
        return Failure(KeyError("0"));
      }
      var tmp := new Template(stem, rows[0].id);
      tmp.items := items;
      r := Success(tmp);
    }
  }

  /** A collection of templates, each stored under its own name. */
  class Templates {
    var templates: Dict<string, Template>

    constructor()
      ensures templates == []
    {
      templates := [];
    }

    /** No name twice, and every template under its own name. */
    ghost predicate Valid()
      reads this
    {
      Distinct(templates) && forall i :: 0 <= i < |templates| ==> templates[i].1.name == templates[i].0
    }

    /** `add`: stores `t` under its name, replacing a template of the same name. */
    method Add(t: Template)
      modifies this
      ensures templates == Put(old(templates), t.name, t)
      ensures old(Valid()) ==> Valid()
    {
      if Distinct(templates) {
        PutDistinct(templates, t.name, t);
      }
      templates := Put(templates, t.name, t);
    }

    /** The loop body of `from_workbook`: `item` joins its group's template, created on first sight. */
    static method FileItem(ts: Dict<string, Template>, item: TemplateItem,
                           ghost p: Dict<string, (string, Dict<string, TemplateItem>)>)
      returns (ts': Dict<string, Template>)
      requires Mirrors(ts, p)
      modifies set i | 0 <= i < |ts| :: ts[i].1
      ensures Mirrors(ts', PartitionAdd(p, item))
      ensures forall i :: 0 <= i < |ts'| ==> fresh(ts'[i].1) || exists j :: 0 <= j < |ts| && ts'[i].1 == ts[j].1
    {
      var name := item.groupName;
      if !HasKey(ts, name) {
        var temp := new Template(name, item.id);
        if item.itemName.Some? {
          temp.items := Put(temp.items, item.itemName.value, item);
        }
        MirrorsAppend(ts, p, item, temp);
        assert Put(ts, name, temp) == ts + [(name, temp)];
        ts' := Put(ts, name, temp);
      } else {
        var at := IndexOf(ts, name).value;
        KeysAgree(ts, p, name);
        var temp := ts[at].1;
        label before:
        if item.itemName.Some? {
          temp.items := Put(temp.items, item.itemName.value, item);
        }
        assert forall i :: 0 <= i < |ts| && i != at ==> ts[i].1.items == old@before(ts[i].1.items);
        MirrorsUpdate(ts, p, item, at);
        ts' := ts;
      }
    }

    /** The loop of `from_workbook`: every item joins its group's template, in order. */
    static method FileItems(values: seq<TemplateItem>) returns (ts: Dict<string, Template>)
      ensures Mirrors(ts, Partition(values))
      ensures forall i :: 0 <= i < |ts| ==> fresh(ts[i].1)
    {
      ts := [];
      for k := 0 to |values|
        invariant Mirrors(ts, Partition(values[..k]))
        invariant forall i :: 0 <= i < |ts| ==> fresh(ts[i].1)
      {
        PartitionStep(values, k);
        ts := FileItem(ts, values[k], Partition(values[..k]));
      }
      assert values[..|values|] == values;
    }

    /**
     * `from_workbook`: the workbook's items split into one template per
     * group, in order of the groups' first rows; each template takes the id
     * of its group's first item (the canonical text of its UUID) and holds
     * the group's named items.
     */
    static method FromWorkbook(stem: string, rows: seq<Row>, uuid: UuidParser) returns (r: Result<Templates>)
      ensures WorkbookItems(rows, uuid).Failure? || rows == [] ==> r.Failure?
      ensures WorkbookItems(rows, uuid).Success? && rows != [] ==>
        && r.Success? && fresh(r.value) && r.value.Valid()
        && Mirrors(r.value.templates, Partition(Values(WorkbookItems(rows, uuid).value)))
        && forall i :: 0 <= i < |r.value.templates| ==> fresh(r.value.templates[i].1)
    {
      var tmp := Template.FromWorkbook(stem, rows, uuid);
      if tmp.Failure? {
        return Failure(tmp.error);
      }
      var values := Values(tmp.value.items);
      assert values == Values(WorkbookItems(rows, uuid).value);
      var ts := FileItems(values);
      assert Mirrors(ts, Partition(values));
      PartitionGrouped(values);
      MirrorsValid(ts, Partition(values));
      var t := new Templates();
      t.templates := ts;
      assert Mirrors(t.templates, Partition(values));
      r := Success(t);
    }
  }
}
