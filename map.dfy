/**
 * The composition algebra of mapmakers/map.py: items pointing at services,
 * the web-map layer JSON built from them, layer lists and groups that keep
 * their search descriptors in step with the layers, and the map assembler
 * that merges both into a web-map definition.
 */
module MapModel {
  import opened Wrappers
  import opened Dicts
  import opened Utils
  import opened Json
  import opened TemplateModel

  // ---------------------------------------------------------------------
  // What the model takes from outside
  // ---------------------------------------------------------------------

  /** A stored definition with a `'` is read as a Python literal (`eval`), any other as JSON. */
  datatype Codec = PythonLiteral | JsonText

  function CodecFor(s: string): Codec {
    if Contains(s, "'") then PythonLiteral else JsonText
  }

  /** The text decoders the source calls (`eval`, `json.loads`). */
  type Decoder = (Codec, string) -> Json

  /**
   * The random layer-id draws, one per layer or group created, and the
   * decoders; `used` counts the draws taken so far.
   */
  class Runtime {
    const draws: nat -> LayerDraw
    /** The layer id each draw gives. */
    const ids: nat -> string
    const decode: Decoder
    var used: nat

    constructor(draws: nat -> LayerDraw, decode: Decoder)
      ensures this.draws == draws && this.decode == decode && used == 0
      ensures forall i :: ids(i) == IdOf(draws(i))
    {
      this.draws := draws;
      this.ids := (i: nat) => IdOf(draws(i));
      this.decode := decode;
      used := 0;
    }

    /** `create_layer_id(random.randint(10000, 99999))`: the id of the next draw. */
    method Next() returns (id: string)
      modifies this
      ensures id == ids(old(used)) && used == old(used) + 1
    {
      id := ids(used);
      used := used + 1;
    }
  }

  // ---------------------------------------------------------------------
  // Items
  // ---------------------------------------------------------------------

  /**
   * A service URL with an optional template item and the display settings
   * of its map layer. `url` is `JNull` for Python's `None`.
   */
  datatype Item = Item(url: Json, template: Option<TemplateItem>, visible: bool,
                       title: Option<string>, opacity: Option<Number>)

  /** `Item(url)` with its defaults. */
  function PlainItem(url: Json): Item {
    Item(url, None, false, None, None)
  }

  /** `TemplateItem.into_item`. */
  function IntoItem(t: TemplateItem): Item {
    Item(if t.url == JNull then JStr("none") else t.url, Some(t), false, Some(t.title), None)
  }

  /** `into_item` keeps the template and its title, and a missing url becomes `none`. */
  lemma IntoItemFields(t: TemplateItem)
    ensures IntoItem(t).template == Some(t) && IntoItem(t).title == Some(t.title)
    ensures !IntoItem(t).visible && IntoItem(t).opacity.None?
    ensures IntoItem(t).url != JNull
    ensures t.url != JNull ==> IntoItem(t).url == t.url
  {
  }

  /** The list in reverse order. */
  function Reversed<T>(s: seq<T>): (r: seq<T>)
    ensures |r| == |s|
    ensures forall i :: 0 <= i < |s| ==> r[i] == s[|s| - 1 - i]
  {
    if s == [] then [] else Reversed(s[1..]) + [s[0]]
  }

  lemma ReversedTwice<T>(s: seq<T>)
    ensures Reversed(Reversed(s)) == s
  {
    assert forall i :: 0 <= i < |s| ==> Reversed(Reversed(s))[i] == s[i];
  }

  /** Where `list.insert(idx, x)` puts `x` in a list of length `n`. */
  function InsertPosition(idx: int, n: nat): (p: nat)
    ensures p <= n
    ensures 0 <= idx <= n ==> p == idx
    ensures 0 - n <= idx < 0 ==> p == n + idx
    ensures idx < 0 - n ==> p == 0
    ensures idx > n ==> p == n
  {
    if idx < 0 then (if idx + n < 0 then 0 else idx + n)
    else if idx > n then n
    else idx
  }

  /** `entries` spliced in at the place `list.insert(idx, _)` would use. */
  function Splice<T>(s: seq<T>, idx: int, entries: seq<T>): (r: seq<T>)
    ensures |r| == |s| + |entries|
  {
    var p := InsertPosition(idx, |s|);
    s[..p] + entries + s[p..]
  }

  /** `list.insert(idx, x)`. */
  function InsertAt<T>(s: seq<T>, idx: int, x: T): seq<T> {
    Splice(s, idx, [x])
  }

  /** `insert` adds exactly `x` and keeps every other element, in order, around it. */
  lemma InsertAtSpec<T>(s: seq<T>, idx: int, x: T)
    ensures |InsertAt(s, idx, x)| == |s| + 1
    ensures InsertAt(s, idx, x)[InsertPosition(idx, |s|)] == x
    ensures forall i :: 0 <= i < InsertPosition(idx, |s|) ==> InsertAt(s, idx, x)[i] == s[i]
    ensures forall i :: InsertPosition(idx, |s|) <= i < |s| ==> InsertAt(s, idx, x)[i + 1] == s[i]
    ensures multiset(InsertAt(s, idx, x)) == multiset(s) + multiset{x}
  {
    var p := InsertPosition(idx, |s|);
    assert s == s[..p] + s[p..];
  }

  /** Inserting at the length, or anywhere past it, is appending. */
  lemma InsertAtEnd<T>(s: seq<T>, idx: int, x: T)
    requires idx >= |s|
    ensures InsertAt(s, idx, x) == s + [x]
  {
    assert s[|s|..] == [];
  }

  /** An ordered list of items. */
  class Items {
    var items: seq<Item>

    constructor(items: seq<Item>)
      ensures this.items == items
    {
      this.items := items;
    }

    /** `reverse`: the items in reverse order, in place. */
    method Reverse()
      modifies this
      ensures items == Reversed(old(items))
    {
      items := Reversed(items);
    }

    /** `append`. */
    method Append(item: Item)
      modifies this
      ensures items == old(items) + [item]
    {
      items := items + [item];
    }

    /** `extend`. */
    method Extend(more: seq<Item>)
      modifies this
      ensures items == old(items) + more
    {
      items := items + more;
    }

    /** `insert`, with Python's rules for an index that is negative or past the end. */
    method Insert(idx: int, item: Item)
      modifies this
      ensures items == InsertAt(old(items), idx, item)
    {
      items := InsertAt(items, idx, item);
    }

    /**
     * `from_names`: item i serves `urls[i]` with the template item named
     * `names[i]`; unequal counts give `None`, a name the template lacks a
     * KeyError.
     */
    static method FromNames(urls: seq<string>, names: seq<string>, template: Template)
      returns (r: Result<Option<Items>>)
      ensures |urls| != |names| ==> r == Success(None)
      ensures |urls| == |names| ==>
        match NamedItems(urls, names, template.items)
        case Failure(e) => r == Failure(e)
        case Success(xs) => r.Success? && r.value.Some? && fresh(r.value.value) && r.value.value.items == xs
    {
      if |urls| != |names| {
        return Success(None);
      }
      var items: seq<Item> := [];
      var d := template.items;
      for i := 0 to |urls|
        invariant NamedItems(urls[..i], names[..i], d) == Success(items)
      {
        var t := Get(d, names[i]);
        if t.None? {
          assert NamedItems(urls[..i + 1], names[..i + 1], d) == Failure(KeyError(names[i])) by {
            assert urls[..i + 1][..i] == urls[..i] && names[..i + 1][..i] == names[..i];
          }
          NamedItemsFailure(urls, names, d, i + 1);
          return Failure(KeyError(names[i]));
        }
        assert NamedItems(urls[..i + 1], names[..i + 1], d) == Success(items + [Item(JStr(urls[i]), t, false, None, None)]) by {
          assert urls[..i + 1][..i] == urls[..i] && names[..i + 1][..i] == names[..i];
        }
        items := items + [Item(JStr(urls[i]), t, false, None, None)];
      }
      assert urls[..|urls|] == urls && names[..|names|] == names;
      var made := new Items(items);
      r := Success(Some(made));
    }

    /**
     * `from_template`: item i serves `urls[i]` with the i-th template item
     * in insertion order; unequal counts give `None`.
     */
    static method FromTemplate(urls: seq<string>, template: Template) returns (r: Option<Items>)
      ensures r.None? <==> |urls| != |template.items|
      ensures r.Some? ==> fresh(r.value)
      ensures r.Some? ==> |r.value.items| == |urls|
      ensures r.Some? ==> forall i :: 0 <= i < |urls| ==>
        r.value.items[i] == Item(JStr(urls[i]), Some(template.items[i].1), false, None, None)
    {
      if |urls| != |template.items| {
        return None;
      }
      var members: seq<Item> := [];
      var i := 0;
      var values := Values(template.items);
      for k := 0 to |values|
        invariant i == k == |members|
        invariant forall j :: 0 <= j < k ==> members[j] == Item(JStr(urls[j]), Some(values[j]), false, None, None)
      {
        members := members + [Item(JStr(urls[i]), Some(values[k]), false, None, None)];
        i := i + 1;
      }
      var made := new Items(members);
      r := Some(made);
    }
  }

  /** The items `from_names` builds, or the KeyError of the first name the template lacks. */
  function NamedItems(urls: seq<string>, names: seq<string>, d: Dict<string, TemplateItem>): (r: Result<seq<Item>>)
    requires |urls| == |names|
    ensures r.Success? <==> forall i :: 0 <= i < |names| ==> HasKey(d, names[i])
    ensures r.Success? ==> |r.value| == |urls| && forall i :: 0 <= i < |urls| ==>
      r.value[i] == Item(JStr(urls[i]), Get(d, names[i]), false, None, None)
    decreases |urls|
  {
    if urls == [] then Success([])
    else
      var n := |urls| - 1;
      match NamedItems(urls[..n], names[..n], d)
      case Failure(e) => Failure(e)
      case Success(xs) =>
        match Get(d, names[n])
        case None => Failure(KeyError(names[n]))
        case Some(t) => Success(xs + [Item(JStr(urls[n]), Some(t), false, None, None)])
  }

  /** The KeyError names the first missing name: a failure on a prefix is the failure of the whole. */
  lemma {:induction false} NamedItemsFailure(urls: seq<string>, names: seq<string>, d: Dict<string, TemplateItem>, j: nat)
    requires |urls| == |names| && j <= |urls|
    requires NamedItems(urls[..j], names[..j], d).Failure?
    ensures NamedItems(urls, names, d) == NamedItems(urls[..j], names[..j], d)
    decreases |urls| - j
  {
    if j < |urls| {
      assert urls[..j + 1][..j] == urls[..j] && names[..j + 1][..j] == names[..j];
      NamedItemsFailure(urls, names, d, j + 1);
    } else {
      assert urls[..j] == urls && names[..j] == names;
    }
  }

  /** `NamedItems` fails with the KeyError of the first name that is not a key. */
  lemma NamedItemsFirstMissing(urls: seq<string>, names: seq<string>, d: Dict<string, TemplateItem>, j: nat)
    requires |urls| == |names| && j < |names|
    requires !HasKey(d, names[j]) && forall i :: 0 <= i < j ==> HasKey(d, names[i])
    ensures NamedItems(urls, names, d) == Failure(KeyError(names[j]))
  {
    assert urls[..j + 1][..j] == urls[..j] && names[..j + 1][..j] == names[..j];
    assert forall i :: 0 <= i < j ==> names[..j][i] == names[i];
    assert NamedItems(urls[..j + 1], names[..j + 1], d) == Failure(KeyError(names[j]));
    NamedItemsFailure(urls, names, d, j + 1);
  }

  /** `Template.into_items`: one item per template item, in insertion order. */
  method TemplateIntoItems(t: Template) returns (r: Items)
    ensures fresh(r)
    ensures r.items == TemplateItems(t.items)
  {
    var items: seq<Item> := [];
    var values := Values(t.items);
    for k := 0 to |values|
      invariant items == TemplateItems(t.items[..k])
    {
      assert t.items[..k + 1][..k] == t.items[..k];
      items := items + [IntoItem(values[k])];
    }
    assert t.items[..|t.items|] == t.items;
    r := new Items(items);
  }

  /** The items of a template, in insertion order. */
  function TemplateItems(d: Dict<string, TemplateItem>): (r: seq<Item>)
    ensures |r| == |d|
    ensures forall i :: 0 <= i < |d| ==> r[i] == IntoItem(d[i].1)
  {
    if d == [] then [] else TemplateItems(d[..|d| - 1]) + [IntoItem(d[|d| - 1].1)]
  }

  /** The items of several templates' item dicts, one template after another. */
  function AllTemplateItems(ds: seq<Dict<string, TemplateItem>>): seq<Item> {
    if ds == [] then [] else AllTemplateItems(ds[..|ds| - 1]) + TemplateItems(ds[|ds| - 1])
  }

  /** The item dicts of several templates, as they are now. */
  ghost function ItemDicts(ts: seq<Template>): (ds: seq<Dict<string, TemplateItem>>)
    reads ts
    ensures |ds| == |ts| && forall i :: 0 <= i < |ts| ==> ds[i] == ts[i].items
  {
    if ts == [] then [] else ItemDicts(ts[..|ts| - 1]) + [ts[|ts| - 1].items]
  }

  /** `Templates.into_items`: the items of every template, in the order the templates were added. */
  method TemplatesIntoItems(ts: Templates) returns (r: Items)
    ensures fresh(r)
    ensures r.items == AllTemplateItems(ItemDicts(Values(ts.templates)))
  {
    var items: seq<Item> := [];
    var values := Values(ts.templates);
    ghost var ds := ItemDicts(values);
    for k := 0 to |values|
      invariant items == AllTemplateItems(ds[..k])
    {
      var more := TemplateIntoItems(values[k]);
      assert ds[..k + 1][..k] == ds[..k] && ds[k] == values[k].items;
      items := items + more.items;
    }
    assert ds[..|values|] == ds;
    r := new Items(items);
  }

  // ---------------------------------------------------------------------
  // Layers
  // ---------------------------------------------------------------------

  /**
   * One web-map layer: its JSON dict and its search descriptors (`None`
   * when the layer has none).
   */
  datatype Layer = Layer(layer: Members, search: Option<seq<Json>>)

  /** A title or `None`. */
  function OptionalText(s: Option<string>): Json {
    match s
    case Some(t) => JStr(t)
    case None => JNull
  }

  /** `{k: v}` when there is a value, `{}` when there is none. */
  function Entry(k: string, v: Option<Json>): Members {
    if v.Some? then [(k, v.value)] else []
  }

  lemma EntryGet(k: string, v: Option<Json>, k': string)
    ensures HasKey(Entry(k, v), k') <==> k == k' && v.Some?
    ensures Get(Entry(k, v), k') == if k == k' then v else None
  {
  }

  /** The title of a new layer: the item's, else its template's, else none. */
  function LayerTitle(item: Item): Option<Json> {
    match item.title
    case Some(t) => Some(JStr(t))
    case None =>
      match item.template
      case Some(t) => Some(JStr(t.title))
      case None => None
  }

  /** The item's opacity, 0.5 when it has none. */
  function OpacityOf(item: Item): Number {
    match item.opacity
    case Some(o) => o
    case None => Float("0.5")
  }

  /**
   * The `layerDefinition` of a stored definition: text is decoded, except
   * for a raster, which keeps it as the JSON text of the string; a dict is
   * kept as it is.
   */
  function DefinitionValue(d: Def, raster: bool, decode: Decoder): Option<Json> {
    match d
    case Absent => None
    case Text(s) => Some(if raster then JStr(Quote(s)) else decode(CodecFor(s), s))
    case Structured(o) => Some(JObj(o))
  }

  /** The `popupInfo` of a stored popup: text is decoded, a dict is kept as it is. */
  function PopupValue(d: Def, decode: Decoder): Option<Json> {
    match d
    case Absent => None
    case Text(s) => Some(decode(CodecFor(s), s))
    case Structured(o) => Some(JObj(o))
  }

  /** The definition a layer takes from its item's template. */
  function LayerDefinition(item: Item, raster: bool, decode: Decoder): Option<Json> {
    if item.template.Some? then DefinitionValue(item.template.value.layerDefinition, raster, decode) else None
  }

  /** The popup a layer takes from its item's template. */
  function LayerPopup(item: Item, decode: Decoder): Option<Json> {
    if item.template.Some? then PopupValue(item.template.value.popupInfo, decode) else None
  }

  /** The descriptors of a layer: those of its template's search fields, `None` when there are none. */
  function LayerSearch(item: Item, id: string): Option<seq<Json>> {
    match item.template
    case None => None
    case Some(t) => if |SearchNames(t)| > 0 then Some(Descriptors(t, id)) else None
  }

  /** The parts of a layer's dict, in insertion order. */
  function LayerParts(item: Item, raster: bool, id: string, decode: Decoder): seq<Members> {
    [[("id", JStr(id)), ("url", item.url)],
     Entry("title", LayerTitle(item)),
     [("layerType", JStr("ArcGISFeatureLayer")), ("opacity", JNum(OpacityOf(item)))],
     Entry("layerDefinition", LayerDefinition(item, raster, decode)),
     Entry("popupInfo", LayerPopup(item, decode)),
     [("visibility", JBool(item.visible))]]
  }

  /** `Layer(item, raster)` with the layer id `id`. */
  function LayerOf(item: Item, raster: bool, id: string, decode: Decoder): Layer {
    var p := LayerParts(item, raster, id, decode);
    Layer(p[0] + p[1] + p[2] + p[3] + p[4] + p[5], LayerSearch(item, id))
  }

  /**
   * What a new layer holds under each key: the drawn id, the item's url,
   * the item's title or else the template's, the feature-layer type, the
   * item's opacity or 0.5, the template's definition and popup when it has
   * them, and the item's visibility; nothing under any other key.
   */
  lemma LayerGet(item: Item, raster: bool, id: string, decode: Decoder, k: string)
    ensures Get(LayerOf(item, raster, id, decode).layer, k) ==
      if k == "id" then Some(JStr(id))
      else if k == "url" then Some(item.url)
      else if k == "title" then LayerTitle(item)
      else if k == "layerType" then Some(JStr("ArcGISFeatureLayer"))
      else if k == "opacity" then Some(JNum(OpacityOf(item)))
      else if k == "layerDefinition" then LayerDefinition(item, raster, decode)
      else if k == "popupInfo" then LayerPopup(item, decode)
      else if k == "visibility" then Some(JBool(item.visible))
      else None
  {
    var p := LayerParts(item, raster, id, decode);
    EntryGet("title", LayerTitle(item), k);
    EntryGet("layerDefinition", LayerDefinition(item, raster, decode), k);
    EntryGet("popupInfo", LayerPopup(item, decode), k);
    EntryGet("visibility", Some(JBool(item.visible)), k);
    assert p[5] == Entry("visibility", Some(JBool(item.visible)));
    GetPair("id", JStr(id), "url", item.url, k);
    GetPair("layerType", JStr("ArcGISFeatureLayer"), "opacity", JNum(OpacityOf(item)), k);
    GetConcat(p[0], p[1], k);
    GetConcat(p[0] + p[1], p[2], k);
    GetConcat(p[0] + p[1] + p[2], p[3], k);
    GetConcat(p[0] + p[1] + p[2] + p[3], p[4], k);
    GetConcat(p[0] + p[1] + p[2] + p[3] + p[4], p[5], k);
  }

  /**
   * A layer has descriptors exactly when its template has search fields,
   * one per field in order, and every one names the layer's own id.
   */
  lemma LayerSearchIds(item: Item, raster: bool, id: string, decode: Decoder)
    ensures var l := LayerOf(item, raster, id, decode);
      && (l.search.Some? <==> item.template.Some? && |SearchNames(item.template.value)| > 0)
      && (l.search.Some? ==>
            && |l.search.value| == |SearchNames(item.template.value)|
            && forall k :: 0 <= k < |l.search.value| ==>
                 && DescriptorId(l.search.value[k]) == Get(l.layer, "id")
                 && DescriptorName(l.search.value[k]) == Some(SearchNames(item.template.value)[k]))
  {
    LayerGet(item, raster, id, decode, "id");
    if item.template.Some? {
      DescriptorsInverse(item.template.value, id);
    }
  }

  /** The keys a layer's dict has before its template entries. */
  predicate HeadKeys(contents: Members) {
    forall i :: 0 <= i < |contents| ==> contents[i].0 in ["id", "url", "title", "layerType", "opacity"]
  }

  /** The first updates of `Layer.__init__`: id, url, title, type and opacity. */
  method HeadUpdates(item: Item, id: string) returns (contents: Members)
    ensures contents == [("id", JStr(id)), ("url", item.url)] + Entry("title", LayerTitle(item))
                        + [("layerType", JStr("ArcGISFeatureLayer")), ("opacity", JNum(OpacityOf(item)))]
    ensures HeadKeys(contents)
  {
    contents := [];
    contents := Put(contents, "id", JStr(id));
    contents := Put(contents, "url", item.url);
    assert contents == [("id", JStr(id)), ("url", item.url)] by {
      PutNew([], [], "id", JStr(id));
      PutNew([("id", JStr(id))], ["id"], "url", item.url);
    }
    ghost var start := contents;
    contents := TitleUpdate(contents, item);
    contents := TypeOpacityUpdates(contents, item);
    assert HeadKeys(contents) by {
      assert contents == start + Entry("title", LayerTitle(item))
                         + [("layerType", JStr("ArcGISFeatureLayer")), ("opacity", JNum(OpacityOf(item)))];
    }
  }

  /** The `title` update of `Layer.__init__`: the item's title, or else its template's, or none. */
  method TitleUpdate(contents: Members, item: Item) returns (c: Members)
    requires KeysIn(contents, ["id", "url"])
    ensures c == contents + Entry("title", LayerTitle(item))
  {
    c := contents;
    if item.title.None? {
      if item.template.Some? {
        PutNew(c, ["id", "url"], "title", JStr(item.template.value.title));
        c := Put(c, "title", JStr(item.template.value.title));
      }
    } else {
      PutNew(c, ["id", "url"], "title", JStr(item.title.value));
      c := Put(c, "title", JStr(item.title.value));
    }
  }

  /** The `layerType` and `opacity` updates of `Layer.__init__`, the opacity 0.5 when the item has none. */
  method TypeOpacityUpdates(contents: Members, item: Item) returns (c: Members)
    requires KeysIn(contents, ["id", "url", "title"])
    ensures c == contents + [("layerType", JStr("ArcGISFeatureLayer")), ("opacity", JNum(OpacityOf(item)))]
  {
    PutNew(contents, ["id", "url", "title"], "layerType", JStr("ArcGISFeatureLayer"));
    c := Put(contents, "layerType", JStr("ArcGISFeatureLayer"));
    PutNew(c, ["id", "url", "title", "layerType"], "opacity", JNum(OpacityOf(item)));
    if item.opacity.None? {
      c := Put(c, "opacity", JNum(Float("0.5")));
    } else {
      c := Put(c, "opacity", JNum(item.opacity.value));
    }
  }

  /** The `layerDefinition` update of `Layer.__init__`. */
  method DefinitionUpdate(contents: Members, d: Def, raster: bool, decode: Decoder) returns (c: Members)
    requires HeadKeys(contents)
    ensures c == contents + Entry("layerDefinition", DefinitionValue(d, raster, decode))
  {
    c := contents;
    match d {
      case Absent =>
      case Text(s) =>
        if !raster {
          if Contains(s, "'") {
            c := Put(c, "layerDefinition", decode(PythonLiteral, s));
          } else {
            c := Put(c, "layerDefinition", decode(JsonText, s));
          }
        } else {
          c := Put(c, "layerDefinition", JStr(Quote(s)));
        }
      case Structured(o) =>
        c := Put(c, "layerDefinition", JObj(o));
    }
  }

  /** The `popupInfo` update of `Layer.__init__`. */
  method PopupUpdate(contents: Members, d: Def, decode: Decoder) returns (c: Members)
    requires forall i :: 0 <= i < |contents| ==> contents[i].0 != "popupInfo"
    ensures c == contents + Entry("popupInfo", PopupValue(d, decode))
  {
    c := contents;
    match d {
      case Absent =>
      case Text(s) =>
        if Contains(s, "'") {
          c := Put(c, "popupInfo", decode(PythonLiteral, s));
        } else {
          c := Put(c, "popupInfo", decode(JsonText, s));
        }
      case Structured(o) =>
        c := Put(c, "popupInfo", JObj(o));
    }
  }

  /** `Layer(item, raster)`: the dict is built one `update` at a time, then the descriptors. */
  method NewLayer(item: Item, raster: bool, rt: Runtime) returns (l: Layer)
    modifies rt
    ensures l == LayerOf(item, raster, rt.ids(old(rt.used)), rt.decode)
    ensures rt.used == old(rt.used) + 1
  {
    var id := rt.Next();
    ghost var p := LayerParts(item, raster, id, rt.decode);
    var contents := HeadUpdates(item, id);
    assert contents == p[0] + p[1] + p[2];
    if item.template.Some? {
      var t := item.template.value;
      contents := DefinitionUpdate(contents, t.layerDefinition, raster, rt.decode);
      contents := PopupUpdate(contents, t.popupInfo, rt.decode);
    }
    assert contents == p[0] + p[1] + p[2] + p[3] + p[4];
    PutFresh(contents, "visibility", JBool(item.visible));
    contents := Put(contents, "visibility", JBool(item.visible));
    var search: Option<seq<Json>> := None;
    if item.template.Some? {
      var srch := item.template.value.search;
      if srch.Some? && |srch.value| > 0 {
        var fields := IntoSearch(item.template.value, id);
        search := Some(fields);
      }
    }
    l := Layer(contents, search);
  }

  // ---------------------------------------------------------------------
  // Raster and vector-tile layers
  // ---------------------------------------------------------------------

  /** The search field names of an item's template, none without a template. */
  function ItemSearchNames(item: Item): seq<Json> {
    if item.template.Some? then SearchNames(item.template.value) else []
  }

  /**
   * The type a raster layer takes from its stored definition: a tiled map
   * service when the definition's JSON text mentions one, else a map service
   * when it mentions one, else none.
   */
  function RasterType(d: Def): Option<Json> {
    if d == Absent then None
    else if Mentions(DefValue(d), "ArcGISTiledMapServiceLayer") then Some(JStr("ArcGISTiledMapServiceLayer"))
    else if Mentions(DefValue(d), "ArcGISMapServiceLayer") then Some(JStr("ArcGISMapServiceLayer"))
    else None
  }

  /** The entries a raster or vector-tile layer takes from its template: the nickname as id, then the type. */
  function TemplateHead(item: Item, kind: Def -> Option<Json>): Members {
    match item.template
    case None => []
    case Some(t) => [("id", OptionalText(t.itemName))] + Entry("layerType", kind(t.layerDefinition))
  }

  /**
   * `Layer.from_raster`: the template's nickname and type, fixed scales,
   * opacity 1, and the item's title, url and visibility; its search is the
   * template's list of field names, not descriptors.
   */
  function RasterOf(item: Item): Layer {
    Layer(TemplateHead(item, RasterType) + RasterFixed(item), Some(ItemSearchNames(item)))
  }

  function RasterFixed(item: Item): Members {
    [("maxScale", JStr("None")), ("minScale", JStr("None")), ("opacity", JNum(Int(1))),
     ("title", OptionalText(item.title)), ("url", item.url), ("visibility", JBool(item.visible))]
  }

  /** No type for a vector tile comes from its template: the method sets it unconditionally. */
  function NoType(d: Def): Option<Json> {
    None
  }

  /**
   * `Layer.from_vector_tile`: the template's nickname, the vector-tile type,
   * opacity 0.5, the item's title, its url as the style, and its
   * visibility; its search is the template's list of field names.
   */
  function VectorTileOf(item: Item): Layer {
    Layer(TemplateHead(item, NoType) + [("layerType", JStr("VectorTileLayer"))] + TileFixed(item),
          Some(ItemSearchNames(item)))
  }

  function TileFixed(item: Item): Members {
    [("opacity", JNum(Float("0.5"))), ("title", OptionalText(item.title)), ("styleUrl", item.url),
     ("visibility", JBool(item.visible))]
  }

  lemma TemplateHeadKeys(item: Item, kind: Def -> Option<Json>)
    ensures KeysIn(TemplateHead(item, kind), ["id", "layerType"])
  {
  }

  /** The template part of `from_raster`: the nickname as id, then a type the definition names. */
  method RasterHead(t: TemplateItem) returns (data: Members)
    ensures data == [("id", OptionalText(t.itemName))] + Entry("layerType", RasterType(t.layerDefinition))
  {
    data := [];
    data := Put(data, "id", OptionalText(t.itemName));
    if t.layerDefinition != Absent {
      var layerDef := DefValue(t.layerDefinition);
      if Mentions(layerDef, "ArcGISMapServiceLayer") {
        data := Put(data, "layerType", JStr("ArcGISMapServiceLayer"));
      }
      assert data[0] == ("id", OptionalText(t.itemName)) && 1 <= |data| <= 2;
      if Mentions(layerDef, "ArcGISTiledMapServiceLayer") {
        // a second update of the same key keeps its place
        assert |data| == 2 ==> IndexOf(data, "layerType") == Some(1);
        data := Put(data, "layerType", JStr("ArcGISTiledMapServiceLayer"));
      }
    }
  }

  /** The fixed updates of `from_raster`, after the template's. */
  method RasterTail(data: Members, raster: Item) returns (d: Members)
    requires KeysIn(data, ["id", "layerType"])
    ensures d == data + RasterFixed(raster)
  {
    ghost var ks := ["id", "layerType"];
    d := data;
    PutNew(d, ks, "maxScale", JStr("None"));
    d := Put(d, "maxScale", JStr("None"));
    PutNew(d, ks + ["maxScale"], "minScale", JStr("None"));
    d := Put(d, "minScale", JStr("None"));
    PutNew(d, ks + ["maxScale", "minScale"], "opacity", JNum(Int(1)));
    d := Put(d, "opacity", JNum(Int(1)));
    PutNew(d, ks + ["maxScale", "minScale", "opacity"], "title", OptionalText(raster.title));
    d := Put(d, "title", OptionalText(raster.title));
    PutNew(d, ks + ["maxScale", "minScale", "opacity", "title"], "url", raster.url);
    d := Put(d, "url", raster.url);
    PutNew(d, ks + ["maxScale", "minScale", "opacity", "title", "url"], "visibility", JBool(raster.visible));
    d := Put(d, "visibility", JBool(raster.visible));
  }

  /** `Layer.from_raster`: a layer is made (and a layer id drawn), then its dict and search are replaced. */
  method RasterLayer(raster: Item, rt: Runtime) returns (l: Layer)
    modifies rt
    ensures l == RasterOf(raster) && rt.used == old(rt.used) + 1
  {
    l := NewLayer(raster, true, rt);
    var search: seq<Json> := [];
    var data: Members := [];
    if raster.template.Some? {
      var t := raster.template.value;
      data := RasterHead(t);
      if t.search.Some? {
        search := t.search.value;
      }
    }
    TemplateHeadKeys(raster, RasterType);
    data := RasterTail(data, raster);
    l := l.(layer := data, search := Some(search));
  }

  /**
   * The template part of `from_vector_tile`: the nickname as id, and the
   * vector-tile type when the definition names it.
   */
  method TileHead(t: TemplateItem) returns (data: Members)
    ensures data == [("id", OptionalText(t.itemName))] +
      if t.layerDefinition != Absent && Mentions(DefValue(t.layerDefinition), "VectorTileLayer")
      then [("layerType", JStr("VectorTileLayer"))] else []
  {
    data := [];
    data := Put(data, "id", OptionalText(t.itemName));
    if t.layerDefinition != Absent {
      var layerDef := DefValue(t.layerDefinition);
      if Mentions(layerDef, "VectorTileLayer") {
        data := Put(data, "layerType", JStr("VectorTileLayer"));
      }
    }
  }

  /** The updates of `from_vector_tile` after the type. */
  method TileTail(data: Members, tile: Item) returns (d: Members)
    requires KeysIn(data, ["id", "layerType"])
    ensures d == data + TileFixed(tile)
  {
    ghost var ks := ["id", "layerType"];
    d := data;
    PutNew(d, ks, "opacity", JNum(Float("0.5")));
    d := Put(d, "opacity", JNum(Float("0.5")));
    PutNew(d, ks + ["opacity"], "title", OptionalText(tile.title));
    d := Put(d, "title", OptionalText(tile.title));
    PutNew(d, ks + ["opacity", "title"], "styleUrl", tile.url);
    d := Put(d, "styleUrl", tile.url);
    PutNew(d, ks + ["opacity", "title", "styleUrl"], "visibility", JBool(tile.visible));
    d := Put(d, "visibility", JBool(tile.visible));
  }

  /** Setting the type appends it after the id, or leaves a type already set to the same value in place. */
  lemma TypeUpdate(head: Members, v: Json)
    requires KeysIn(head, ["id"])
    ensures Put(head, "layerType", v) == head + [("layerType", v)]
    ensures Put(head + [("layerType", v)], "layerType", v) == head + [("layerType", v)]
  {
    var d := head + [("layerType", v)];
    assert forall i :: 0 <= i < |head| ==> d[i] == head[i] && head[i].0 in ["id"];
    assert d[|head|].0 == "layerType";
    assert IndexOf(d, "layerType") == Some(|head|);
  }

  /** `Layer.from_vector_tile`: as `from_raster`, with the vector-tile entries. */
  method VectorTileLayer(tile: Item, rt: Runtime) returns (l: Layer)
    modifies rt
    ensures l == VectorTileOf(tile) && rt.used == old(rt.used) + 1
  {
    l := NewLayer(tile, true, rt);
    var search: seq<Json> := [];
    var data: Members := [];
    if tile.template.Some? {
      var t := tile.template.value;
      data := TileHead(t);
      if t.search.Some? {
        search := t.search.value;
      }
    }
    // whether or not the definition named the type, the next update leaves one entry for it here
    ghost var head := TemplateHead(tile, NoType);
    assert data == head || data == head + [("layerType", JStr("VectorTileLayer"))];
    TypeUpdate(head, JStr("VectorTileLayer"));
    data := Put(data, "layerType", JStr("VectorTileLayer"));
    data := TileTail(data, tile);
    l := l.(layer := data, search := Some(search));
  }

  // ---------------------------------------------------------------------
  // Groups
  // ---------------------------------------------------------------------

  /** A group layer's JSON and the descriptors of the layers inside it. */
  datatype Group = Group(group: Members, search: seq<Json>)

  /** `Group(name, layers, search, visible)` with the group id `id`. */
  function GroupOf(name: string, layers: seq<Json>, search: seq<Json>, visible: bool, id: string): Group {
    Group([("id", JStr(id))] + [("layerType", JStr("GroupLayer"))] + [("title", JStr(name))]
          + [("visibility", JBool(visible))] + [("layers", JArr(layers))], search)
  }

  /** The group JSON holds exactly id, type, title, visibility and the given layers. */
  lemma GroupFields(name: string, layers: seq<Json>, search: seq<Json>, visible: bool, id: string, k: string)
    ensures Keys(GroupOf(name, layers, search, visible, id).group) == ["id", "layerType", "title", "visibility", "layers"]
    ensures Get(GroupOf(name, layers, search, visible, id).group, k) ==
      if k == "id" then Some(JStr(id))
      else if k == "layerType" then Some(JStr("GroupLayer"))
      else if k == "title" then Some(JStr(name))
      else if k == "visibility" then Some(JBool(visible))
      else if k == "layers" then Some(JArr(layers))
      else None
    ensures GroupOf(name, layers, search, visible, id).search == search
  {
    var g := GroupOf(name, layers, search, visible, id).group;
    EntryGet("id", Some(JStr(id)), k);
    EntryGet("layerType", Some(JStr("GroupLayer")), k);
    EntryGet("title", Some(JStr(name)), k);
    EntryGet("visibility", Some(JBool(visible)), k);
    EntryGet("layers", Some(JArr(layers)), k);
    var e0 := Entry("id", Some(JStr(id)));
    var e1 := Entry("layerType", Some(JStr("GroupLayer")));
    var e2 := Entry("title", Some(JStr(name)));
    var e3 := Entry("visibility", Some(JBool(visible)));
    var e4 := Entry("layers", Some(JArr(layers)));
    assert g == e0 + e1 + e2 + e3 + e4;
    GetConcat(e0, e1, k);
    GetConcat(e0 + e1, e2, k);
    GetConcat(e0 + e1 + e2, e3, k);
    GetConcat(e0 + e1 + e2 + e3, e4, k);
  }

  /** `Group.__init__`: a group id is drawn and the dict is built one `update` at a time. */
  method NewGroup(name: string, layers: seq<Json>, search: seq<Json>, visible: bool, rt: Runtime)
    returns (g: Group)
    modifies rt
    ensures g == GroupOf(name, layers, search, visible, rt.ids(old(rt.used)))
    ensures rt.used == old(rt.used) + 1
  {
    var id := rt.Next();
    var group: Members := [];
    PutNew(group, [], "id", JStr(id));
    group := Put(group, "id", JStr(id));
    PutNew(group, ["id"], "layerType", JStr("GroupLayer"));
    group := Put(group, "layerType", JStr("GroupLayer"));
    PutNew(group, ["id", "layerType"], "title", JStr(name));
    group := Put(group, "title", JStr(name));
    PutNew(group, ["id", "layerType", "title"], "visibility", JBool(visible));
    group := Put(group, "visibility", JBool(visible));
    PutNew(group, ["id", "layerType", "title", "visibility"], "layers", JArr(layers));
    group := Put(group, "layers", JArr(layers));
    g := Group(group, search);
  }

  // ---------------------------------------------------------------------
  // Layer lists
  // ---------------------------------------------------------------------

  /** The layer JSON list and the search-descriptor list a `Layers` holds. */
  datatype Content = Content(layers: seq<Json>, search: seq<Json>)

  function SearchOf(search: Option<seq<Json>>): seq<Json> {
    if search.Some? then search.value else []
  }

  /** The two lists a sequence of layers contributes: each layer's JSON, and its descriptors in turn. */
  function Assembled(ls: seq<Layer>): (c: Content)
    ensures |c.layers| == |ls|
    ensures forall k :: 0 <= k < |ls| ==> c.layers[k] == JObj(ls[k].layer)
  {
    if ls == [] then Content([], [])
    else
      var n := |ls| - 1;
      var c := Assembled(ls[..n]);
      Content(c.layers + [JObj(ls[n].layer)], c.search + SearchOf(ls[n].search))
  }

  /** The layers `from_items` builds: the k-th from the k-th item with the id of draw `start + k`. */
  function ItemLayerList(items: seq<Item>, ids: nat -> string, start: nat, decode: Decoder): (ls: seq<Layer>)
    ensures |ls| == |items|
  {
    if items == [] then []
    else
      var n := |items| - 1;
      ItemLayerList(items[..n], ids, start, decode) + [LayerOf(items[n], false, ids(start + n), decode)]
  }

  /** The k-th layer `from_items` builds is the k-th item's, with the id of draw `start + k`. */
  lemma {:induction false} ItemLayerListAt(items: seq<Item>, ids: nat -> string, start: nat, decode: Decoder, k: nat)
    requires k < |items|
    ensures ItemLayerList(items, ids, start, decode)[k] == LayerOf(items[k], false, ids(start + k), decode)
    decreases |items|
  {
    var n := |items| - 1;
    if k < n {
      ItemLayerListAt(items[..n], ids, start, decode, k);
    }
  }

  /** What `from_items` builds from `items`. */
  function ItemLayers(items: seq<Item>, ids: nat -> string, start: nat, decode: Decoder): Content {
    Assembled(ItemLayerList(items, ids, start, decode))
  }

  /** The number of search fields of the items' templates. */
  function FieldCount(items: seq<Item>): nat {
    if items == [] then 0 else FieldCount(items[..|items| - 1]) + |ItemSearchNames(items[|items| - 1])|
  }

  /** A layer's descriptors all name that layer's id. */
  predicate SelfDescribed(l: Layer) {
    forall e :: e in SearchOf(l.search) ==> DescriptorId(e) == Field(JObj(l.layer), "id")
  }

  /** A layer's descriptors, one per search field of its template, all name that layer's id. */
  lemma LayerDescriptors(item: Item, raster: bool, id: string, decode: Decoder)
    ensures |SearchOf(LayerOf(item, raster, id, decode).search)| == |ItemSearchNames(item)|
    ensures SelfDescribed(LayerOf(item, raster, id, decode))
  {
    LayerSearchIds(item, raster, id, decode);
    var l := LayerOf(item, raster, id, decode);
    forall e | e in SearchOf(l.search)
      ensures DescriptorId(e) == Field(JObj(l.layer), "id")
    {
      var k :| 0 <= k < |l.search.value| && l.search.value[k] == e;
    }
  }

  /** The k-th layer `from_items` builds carries the k-th id drawn. */
  lemma ItemLayersIds(items: seq<Item>, ids: nat -> string, start: nat, decode: Decoder)
    ensures var c := ItemLayers(items, ids, start, decode);
      && |c.layers| == |items|
      && forall k :: 0 <= k < |items| ==> Field(c.layers[k], "id") == Some(JStr(ids(start + k)))
  {
    var c := ItemLayers(items, ids, start, decode);
    forall k | 0 <= k < |items|
      ensures Field(c.layers[k], "id") == Some(JStr(ids(start + k)))
    {
      ItemLayerListAt(items, ids, start, decode, k);
      LayerGet(items[k], false, ids(start + k), decode, "id");
    }
  }

  /** Layers whose descriptors match their items' field counts contribute `FieldCount` descriptors. */
  lemma {:induction false} AssembledCount(ls: seq<Layer>, items: seq<Item>)
    requires |ls| == |items|
    requires forall k :: 0 <= k < |ls| ==> |SearchOf(ls[k].search)| == |ItemSearchNames(items[k])|
    ensures |Assembled(ls).search| == FieldCount(items)
    decreases |ls|
  {
    if ls != [] {
      var n := |ls| - 1;
      AssembledCount(ls[..n], items[..n]);
    }
  }

  /** `from_items` writes one descriptor per search field of the items' templates. */
  lemma ItemLayersCount(items: seq<Item>, ids: nat -> string, start: nat, decode: Decoder)
    ensures |ItemLayers(items, ids, start, decode).search| == FieldCount(items)
  {
    var ls := ItemLayerList(items, ids, start, decode);
    forall k | 0 <= k < |ls|
      ensures |SearchOf(ls[k].search)| == |ItemSearchNames(items[k])|
    {
      ItemLayerListAt(items, ids, start, decode, k);
      LayerDescriptors(items[k], false, ids(start + k), decode);
    }
    AssembledCount(ls, items);
  }

  /** The descriptor `e` names the id of one of `layers`. */
  predicate Resolves(e: Json, layers: seq<Json>) {
    exists k :: 0 <= k < |layers| && DescriptorId(e) == Field(layers[k], "id")
  }

  /** Every descriptor of `search` names the id of one of `layers`. */
  predicate RefersTo(search: seq<Json>, layers: seq<Json>) {
    forall j :: 0 <= j < |search| ==> Resolves(search[j], layers)
  }

  /** Adding a layer together with descriptors naming it keeps every descriptor resolvable. */
  lemma RefersToAppend(search: seq<Json>, layers: seq<Json>, more: seq<Json>, layer: Json)
    requires RefersTo(search, layers)
    requires forall e :: e in more ==> DescriptorId(e) == Field(layer, "id")
    ensures RefersTo(search + more, layers + [layer])
  {
    var s := search + more;
    var ls := layers + [layer];
    forall j | 0 <= j < |s|
      ensures Resolves(s[j], ls)
    {
      if j < |search| {
        var k :| 0 <= k < |layers| && DescriptorId(search[j]) == Field(layers[k], "id");
        assert s[j] == search[j] && ls[k] == layers[k];
      } else {
        assert s[j] in more;
        assert ls[|layers|] == layer;
      }
    }
  }

  /** Layers whose descriptors name their own ids give descriptors that all resolve. */
  lemma {:induction false} AssembledRefers(ls: seq<Layer>)
    requires forall k :: 0 <= k < |ls| ==> SelfDescribed(ls[k])
    ensures RefersTo(Assembled(ls).search, Assembled(ls).layers)
    decreases |ls|
  {
    if ls != [] {
      var n := |ls| - 1;
      AssembledRefers(ls[..n]);
      var c := Assembled(ls[..n]);
      assert SelfDescribed(ls[n]);
      RefersToAppend(c.search, c.layers, SearchOf(ls[n].search), JObj(ls[n].layer));
    }
  }

  /** Each descriptor `from_items` writes names the id of one of the layers it built. */
  lemma ItemLayersSearch(items: seq<Item>, ids: nat -> string, start: nat, decode: Decoder)
    ensures RefersTo(ItemLayers(items, ids, start, decode).search, ItemLayers(items, ids, start, decode).layers)
  {
    var ls := ItemLayerList(items, ids, start, decode);
    forall k | 0 <= k < |ls|
      ensures SelfDescribed(ls[k])
    {
      ItemLayerListAt(items, ids, start, decode, k);
      LayerDescriptors(items[k], false, ids(start + k), decode);
    }
    AssembledRefers(ls);
  }

  /** The layers `from_rasters` or `from_vector_tiles` build, one per item by `make`. */
  function ItemsAs(items: seq<Item>, make: Item -> Layer): (ls: seq<Layer>)
    ensures |ls| == |items|
  {
    seq(|items|, k requires 0 <= k < |items| => make(items[k]))
  }

  lemma ItemsAsSnoc(items: seq<Item>, k: nat, make: Item -> Layer)
    requires k < |items|
    ensures ItemsAs(items[..k + 1], make) == ItemsAs(items[..k], make) + [make(items[k])]
  {
  }

  /** Rasters and vector tiles contribute the raw field names of their templates. */
  lemma TemplateLayersCount(items: seq<Item>)
    ensures |Assembled(ItemsAs(items, RasterOf)).search| == FieldCount(items)
    ensures |Assembled(ItemsAs(items, VectorTileOf)).search| == FieldCount(items)
  {
    AssembledCount(ItemsAs(items, RasterOf), items);
    AssembledCount(ItemsAs(items, VectorTileOf), items);
  }

  /**
   * The argument kinds `Layers`, `Group`, `Map` and `Layers.append` tell
   * apart, with the content they read from it: a `Layers` argument as its
   * two lists, an `Items` argument as its item list.
   */
  datatype View =
    | VLayer(layer: Layer)
    | VLayers(content: Content)
    | VGroup(group: Group)
    | VDict(dict: Members)
    | VList(elems: seq<View>)
    | VItem(item: Item)
    | VItems(items: seq<Item>)
    | VOther

  /** The layer entries `Layers.__init__` keeps from its contents: the dict of a Layer, a dict itself. */
  function LayerEntries(contents: seq<View>): (r: seq<Json>)
    ensures |r| <= |contents|
  {
    if contents == [] then []
    else
      var n := |contents| - 1;
      LayerEntries(contents[..n]) + match contents[n]
        case VLayer(l) => [JObj(l.layer)]
        case VDict(d) => [JObj(d)]
        case _ => []
  }

  /** The dicts of a list of JSON objects, as `Layers(...)` receives them. */
  function DictViews(js: seq<Json>): (vs: seq<View>)
    ensures |vs| == |js|
  {
    seq(|js|, i requires 0 <= i < |js| => if js[i].JObj? then VDict(js[i].members) else VOther)
  }

  /** `Layers(...)` keeps a list of dicts as the objects they were. */
  lemma DictViewsEntries(js: seq<Json>)
    requires forall i :: 0 <= i < |js| ==> js[i].JObj?
    ensures forall i :: 0 <= i < |js| ==> !DictViews(js)[i].VGroup?
    ensures LayerEntries(DictViews(js)) == js
  {
    LayerEntriesKept(DictViews(js));
  }

  /** Layer and dict contents are all kept, in order. */
  lemma {:induction false} LayerEntriesKept(contents: seq<View>)
    requires forall i :: 0 <= i < |contents| ==> contents[i].VLayer? || contents[i].VDict?
    ensures |LayerEntries(contents)| == |contents|
    ensures forall i :: 0 <= i < |contents| ==>
      LayerEntries(contents)[i] == JObj(if contents[i].VLayer? then contents[i].layer.layer else contents[i].dict)
    decreases |contents|
  {
    if contents != [] {
      LayerEntriesKept(contents[..|contents| - 1]);
    }
  }

  // ---------------------------------------------------------------------
  // Arguments of append, insert, extend and Map
  // ---------------------------------------------------------------------

  /** The kinds of argument the composition methods tell apart by type name. */
  datatype Arg =
    | ALayer(layer: Layer)
    | ALayers(layers: Layers)
    | AGroup(group: Group)
    | ADict(dict: Members)
    | AList(elems: seq<Arg>)
    | AItem(item: Item)
    | AItems(items: Items)
    | AOther

  /** The objects an argument refers to. */
  function Refs(a: Arg): set<object>
    decreases a
  {
    match a
    case ALayers(l) => {l}
    case AItems(i) => {i}
    case AList(xs) => RefsAll(xs)
    case _ => {}
  }

  function RefsAll(xs: seq<Arg>): set<object>
    decreases xs
  {
    if xs == [] then {} else Refs(xs[0]) + RefsAll(xs[1..])
  }

  /** The argument as the methods read it: the current lists of a `Layers`, the items of an `Items`. */
  function Snapshot(a: Arg): View
    reads Refs(a)
    decreases a
  {
    match a
    case ALayer(l) => VLayer(l)
    case ALayers(l) => VLayers(Content(l.layers, l.search))
    case AGroup(g) => VGroup(g)
    case ADict(d) => VDict(d)
    case AList(xs) => VList(SnapshotAll(xs))
    case AItem(i) => VItem(i)
    case AItems(i) => VItems(i.items)
    case AOther => VOther
  }

  function SnapshotAll(xs: seq<Arg>): (vs: seq<View>)
    reads RefsAll(xs)
    ensures |vs| == |xs|
    decreases xs
  {
    if xs == [] then [] else [Snapshot(xs[0])] + SnapshotAll(xs[1..])
  }

  /** Every object an argument list refers to exists. */
  lemma {:induction false} RefsAllocated(xs: seq<Arg>)
    ensures forall o :: o in RefsAll(xs) ==> allocated(o)
    decreases xs
  {
    if xs != [] {
      RefsAllocated(xs[1..]);
      if xs[0].AList? {
        RefsAllocated(xs[0].elems);
        assert Refs(xs[0]) == RefsAll(xs[0].elems);
      }
    }
  }

  /** The k-th element of a list argument is read as the k-th view; it refers to no object outside the list's. */
  lemma {:induction false} SnapshotAllAt(xs: seq<Arg>, k: nat)
    requires k < |xs|
    ensures Refs(xs[k]) <= RefsAll(xs)
    ensures SnapshotAll(xs)[k] == Snapshot(xs[k])
    decreases k
  {
    if k > 0 {
      SnapshotAllAt(xs[1..], k - 1);
      assert xs[1..][k - 1] == xs[k];
    }
  }

  // ---------------------------------------------------------------------
  // What append, insert and extend add
  // ---------------------------------------------------------------------

  /** The layer entries and descriptors one argument adds, and the exception raised after adding them. */
  datatype Addition = Addition(entries: seq<Json>, search: seq<Json>, error: Option<Error>)

  /** What `list.extend(None)` raises. */
  const NotIterable := TypeError("'NoneType' object is not iterable")

  /**
   * What a Layer, Group or dict adds: its JSON as one entry and its
   * descriptors; a Layer without descriptors raises after its entry went in.
   * Any other kind adds nothing.
   */
  function ElementAddition(v: View): (a: Addition)
    ensures |a.entries| == (if v.VLayer? || v.VGroup? || v.VDict? then 1 else 0)
    ensures a.error.Some? <==> v.VLayer? && v.layer.search.None?
    ensures v.VDict? ==> a.search == []
  {
    match v
    case VLayer(l) =>
      if l.search.Some? then Addition([JObj(l.layer)], l.search.value, None)
      else Addition([JObj(l.layer)], [], Some(NotIterable))
    case VGroup(g) => Addition([JObj(g.group)], g.search, None)
    case VDict(d) => Addition([JObj(d)], [], None)
    case _ => Addition([], [], None)
  }

  /**
   * What `Layers.append` adds for an argument: a Layers spreads its lists;
   * a list adds what its first element adds when that is a Layer, Group or
   * dict (the branch meant for a nested Layers repeats the Layer pattern, so
   * a nested Layers adds nothing), and raises IndexError when empty.
   */
  function AppendAddition(v: View): (a: Addition)
    ensures a.error.Some? <==> (v.VList? && (v.elems == [] || (v.elems[0].VLayer? && v.elems[0].layer.search.None?)))
                               || (v.VLayer? && v.layer.search.None?)
  {
    match v
    case VLayers(c) => Addition(c.layers, c.search, None)
    case VList(xs) => if xs == [] then Addition([], [], Some(IndexError)) else ElementAddition(xs[0])
    case _ => ElementAddition(v)
  }

  /** What `Layers.insert` adds: as `append`, except that a Layers goes in as one nested list. */
  function InsertAddition(v: View): (a: Addition)
    ensures |a.entries| <= 1
    ensures v.VLayers? ==> a == Addition([JArr(v.content.layers)], v.content.search, None)
    ensures !v.VLayers? ==> a == AppendAddition(v)
  {
    if v.VLayers? then Addition([JArr(v.content.layers)], v.content.search, None) else AppendAddition(v)
  }

  /** The lists after `append` added `a`. */
  function Appended(c: Content, a: Addition): Content {
    Content(c.layers + a.entries, c.search + a.search)
  }

  /** The lists after `insert` put `a` at `idx`: the entries at the index, the descriptors at the end. */
  function Inserted(c: Content, idx: int, a: Addition): Content {
    Content(Splice(c.layers, idx, a.entries), c.search + a.search)
  }

  /**
   * `append` by argument kind: a Layer, Group or dict adds one entry at the
   * end, a Layers all of its entries in order, a dict no descriptor, and any
   * kind but a list or a Layers leaves the lists alone unless it is one of those.
   */
  lemma AppendKinds(c: Content, v: View)
    ensures var r := Appended(c, AppendAddition(v));
      && c.layers <= r.layers && c.search <= r.search
      && (v.VLayer? ==> r.layers == c.layers + [JObj(v.layer.layer)] && r.search == c.search + SearchOf(v.layer.search))
      && (v.VGroup? ==> r.layers == c.layers + [JObj(v.group.group)] && r.search == c.search + v.group.search)
      && (v.VDict? ==> r == Content(c.layers + [JObj(v.dict)], c.search))
      && (v.VLayers? ==> r == Content(c.layers + v.content.layers, c.search + v.content.search))
      && (v.VList? && v.elems != [] ==> r == Appended(c, ElementAddition(v.elems[0])))
      && (v.VItem? || v.VItems? || v.VOther? ==> r == c)
  {
    var a := AppendAddition(v);
    assert c.layers <= c.layers + a.entries && c.search <= c.search + a.search;
    if v.VItem? || v.VItems? || v.VOther? {
      assert a.entries == [] && a.search == [];
      assert c.layers + [] == c.layers && c.search + [] == c.search;
    }
    if v.VDict? {
      assert c.search + [] == c.search;
    }
  }

  /**
   * `insert` puts at most one entry in, at `idx` (clamped as Python does);
   * every entry before or after it keeps its order; the descriptors go at the
   * end whatever the index.
   */
  lemma InsertShape(c: Content, idx: int, v: View)
    ensures var a := InsertAddition(v); var r := Inserted(c, idx, a); var p := InsertPosition(idx, |c.layers|);
      && r.search == c.search + a.search
      && (|a.entries| == 0 ==> r.layers == c.layers)
      && (|a.entries| == 1 ==>
            && |r.layers| == |c.layers| + 1 && r.layers[p] == a.entries[0]
            && r.layers[..p] == c.layers[..p] && r.layers[p + 1..] == c.layers[p..])
  {
    var a := InsertAddition(v);
    var p := InsertPosition(idx, |c.layers|);
    var r := Inserted(c, idx, a);
    if |a.entries| == 0 {
      assert a.entries == [];
      assert c.layers[..p] + [] + c.layers[p..] == c.layers;
    } else {
      assert r.layers == c.layers[..p] + [a.entries[0]] + c.layers[p..];
    }
  }

  /** For every kind but Layers, inserting at or past the end is appending. */
  lemma InsertAtEndAppends(c: Content, idx: int, v: View)
    requires idx >= |c.layers| && !v.VLayers?
    ensures Inserted(c, idx, InsertAddition(v)) == Appended(c, AppendAddition(v))
  {
    var a := AppendAddition(v);
    assert c.layers[|c.layers|..] == [];
    assert c.layers[..|c.layers|] == c.layers;
    assert Splice(c.layers, idx, a.entries) == c.layers + a.entries;
  }

  /** The lists after an `extend`, and the exception that ended it, if any. */
  datatype Outcome = Outcome(content: Content, error: Option<Error>)

  /** `extend`: `append` each argument in turn, stopping at the first that raises. */
  function Extended(c: Content, vs: seq<View>): Outcome
    decreases |vs|
  {
    if vs == [] then Outcome(c, None)
    else
      var a := AppendAddition(vs[0]);
      if a.error.Some? then Outcome(Appended(c, a), a.error)
      else Extended(Appended(c, a), vs[1..])
  }

  /** Extending by two lists in turn is extending by their concatenation, unless the first raised. */
  lemma {:induction false} ExtendedConcat(c: Content, vs: seq<View>, ws: seq<View>)
    ensures Extended(c, vs + ws) ==
      if Extended(c, vs).error.Some? then Extended(c, vs) else Extended(Extended(c, vs).content, ws)
    decreases |vs|
  {
    if vs == [] {
      assert vs + ws == ws;
    } else {
      assert (vs + ws)[0] == vs[0] && (vs + ws)[1..] == vs[1..] + ws;
      var a := AppendAddition(vs[0]);
      if a.error.None? {
        ExtendedConcat(Appended(c, a), vs[1..], ws);
      }
    }
  }

  /** `extend` only ever adds: the old lists stay prefixes of the new ones. */
  lemma {:induction false} ExtendedGrows(c: Content, vs: seq<View>)
    ensures c.layers <= Extended(c, vs).content.layers
    ensures c.search <= Extended(c, vs).content.search
    decreases |vs|
  {
    if vs != [] {
      var a := AppendAddition(vs[0]);
      var c' := Appended(c, a);
      assert c.layers <= c'.layers && c.search <= c'.search;
      if a.error.None? {
        ExtendedGrows(c', vs[1..]);
      }
    }
  }

  /** Extending by no argument changes nothing; by one, it is `append`. */
  lemma ExtendedShort(c: Content, v: View)
    ensures Extended(c, []) == Outcome(c, None)
    ensures Extended(c, [v]) == Outcome(Appended(c, AppendAddition(v)), AppendAddition(v).error)
  {
    assert [v][1..] == [];
  }

  // ---------------------------------------------------------------------
  // Layers
  // ---------------------------------------------------------------------

  /**
   * The loop state of `from_rasters` and `from_vector_tiles` after the
   * layers `built`: the Layers themselves, and the descriptors gathered so far.
   */
  predicate Collected(built: seq<Layer>, contents: seq<View>, search: seq<Json>) {
    && |contents| == |built|
    && (forall i :: 0 <= i < |built| ==> contents[i] == VLayer(built[i]))
    && search == Assembled(built).search
  }

  lemma CollectedSnoc(built: seq<Layer>, contents: seq<View>, search: seq<Json>, layer: Layer)
    requires Collected(built, contents, search)
    ensures Collected(built + [layer], contents + [VLayer(layer)], search + SearchOf(layer.search))
  {
    assert (built + [layer])[..|built|] == built;
  }

  /** The layers appended one by one give the item lists, in order. */
  lemma ItemLayerListSnoc(items: seq<Item>, k: nat, ids: nat -> string, start: nat, decode: Decoder)
    requires k < |items|
    ensures ItemLayerList(items[..k + 1], ids, start, decode) ==
            ItemLayerList(items[..k], ids, start, decode) + [LayerOf(items[k], false, ids(start + k), decode)]
  {
    assert items[..k + 1][..k] == items[..k];
  }


  /** A list of layer JSON objects and the search descriptors that go with them. */
  class Layers {
    var layers: seq<Json>
    var search: seq<Json>

    function Lists(): Content
      reads this
    {
      Content(layers, search)
    }

    /** `Layers(contents, search)`: the JSON of each Layer and each dict, in order; other kinds are skipped. */
    constructor(contents: seq<View>, search: seq<Json>)
      requires forall i :: 0 <= i < |contents| ==> !contents[i].VGroup?
      ensures layers == LayerEntries(contents) && this.search == search
    {
      var entries: seq<Json> := [];
      for k := 0 to |contents|
        invariant entries == LayerEntries(contents[..k])
      {
        assert contents[..k + 1][..k] == contents[..k];
        match contents[k] {
          case VLayer(l) => entries := entries + [JObj(l.layer)];
          case VDict(d) => entries := entries + [JObj(d)];
          case _ =>
        }
      }
      assert contents[..|contents|] == contents;
      layers := entries;
      this.search := search;
    }

    /** `from_items`: one layer per item, in order, with the k-th id drawn for the k-th item. */
    static method FromItems(items: Items, rt: Runtime) returns (r: Layers)
      modifies rt
      ensures fresh(r) && r.Lists() == ItemLayers(items.items, rt.ids, old(rt.used), rt.decode)
      ensures rt.used == old(rt.used) + |items.items|
    {
      var layers, search := GatherItemLayers(items.items, rt);
      DictViewsEntries(layers);
      r := new Layers(DictViews(layers), search);
    }

    /** `Layers(contents, search)` at the end of the loops that collected `built`. */
    static method OfCollected(ghost built: seq<Layer>, contents: seq<View>, search: seq<Json>) returns (r: Layers)
      requires Collected(built, contents, search)
      ensures fresh(r) && r.Lists() == Assembled(built)
    {
      LayerEntriesKept(contents);
      r := new Layers(contents, search);
    }

    /** `from_group`: the group's JSON as the only layer, with the group's descriptors. */
    static method FromGroup(g: Group, rt: Runtime) returns (r: Layers)
      modifies rt
      ensures fresh(r) && r.layers == [JObj(g.group)] && r.search == g.search
      ensures rt.used == old(rt.used) + 1
    {
      var layer := NewLayer(PlainItem(JStr("placeholder")), false, rt);
      layer := layer.(layer := g.group);
      LayerEntriesKept([VLayer(layer)]);
      r := new Layers([VLayer(layer)], g.search);
    }

    /** `from_rasters`: one raster layer per item, and the raw field names of their templates. */
    static method FromRasters(rasters: Items, rt: Runtime) returns (r: Layers)
      modifies rt
      ensures fresh(r) && r.Lists() == Assembled(ItemsAs(rasters.items, RasterOf))
      ensures rt.used == old(rt.used) + |rasters.items|
    {
      var xs := rasters.items;
      var contents: seq<View> := [];
      var search: seq<Json> := [];
      ghost var built: seq<Layer> := [];
      for k := 0 to |xs|
        invariant rt.used == old(rt.used) + k
        invariant built == ItemsAs(xs[..k], RasterOf)
        invariant Collected(built, contents, search)
      {
        var raster := xs[k];
        var layer := RasterLayer(raster, rt);
        ItemsAsSnoc(xs, k, RasterOf);
        CollectedSnoc(built, contents, search, layer);
        contents := contents + [VLayer(layer)];
        if raster.template.Some? {
          var tmp := raster.template.value;
          if tmp.search.Some? {
            search := search + tmp.search.value;
          }
        }
        built := built + [layer];
      }
      assert xs[..|xs|] == xs;
      r := OfCollected(built, contents, search);
    }

    /** `from_vector_tiles`: as `from_rasters`, with vector-tile layers. */
    static method FromVectorTiles(tiles: Items, rt: Runtime) returns (r: Layers)
      modifies rt
      ensures fresh(r) && r.Lists() == Assembled(ItemsAs(tiles.items, VectorTileOf))
      ensures rt.used == old(rt.used) + |tiles.items|
    {
      var xs := tiles.items;
      var contents: seq<View> := [];
      var search: seq<Json> := [];
      ghost var built: seq<Layer> := [];
      for k := 0 to |xs|
        invariant rt.used == old(rt.used) + k
        invariant built == ItemsAs(xs[..k], VectorTileOf)
        invariant Collected(built, contents, search)
      {
        var tile := xs[k];
        var layer := VectorTileLayer(tile, rt);
        ItemsAsSnoc(xs, k, VectorTileOf);
        CollectedSnoc(built, contents, search, layer);
        contents := contents + [VLayer(layer)];
        if tile.template.Some? {
          var tmp := tile.template.value;
          if tmp.search.Some? {
            search := search + tmp.search.value;
          }
        }
        built := built + [layer];
      }
      assert xs[..|xs|] == xs;
      r := OfCollected(built, contents, search);
    }

    /** `group`: a group holding these layers and descriptors. */
    method Group(name: string, visible: bool, rt: Runtime) returns (g: Group)
      modifies rt
      ensures g == GroupOf(name, layers, search, visible, rt.ids(old(rt.used)))
      ensures rt.used == old(rt.used) + 1
    {
      g := GroupFromLayers(name, this, visible, rt);
    }

    /** `append`: adds what `AppendAddition` says and returns the exception it raises, if any. */
    method Append(a: Arg) returns (err: Option<Error>)
      modifies this
      ensures Lists() == Appended(old(Lists()), AppendAddition(old(Snapshot(a))))
      ensures err == AppendAddition(old(Snapshot(a))).error
    {
      match a {
        case ALayers(other) =>
          var more := other.layers;
          var found := other.search;
          layers := layers + more;
          search := search + found;
          err := None;
        case AList(xs) =>
          if xs == [] {
            err := Some(IndexError);
          } else {
            SnapshotAllAt(xs, 0);
            err := AppendElement(xs[0]);
          }
        case _ =>
          err := AppendElement(a);
      }
    }

    /** The Layer, Group and dict branches `append` shares with a list's first element. */
    method AppendElement(a: Arg) returns (err: Option<Error>)
      modifies this
      ensures Lists() == Appended(old(Lists()), ElementAddition(old(Snapshot(a))))
      ensures err == ElementAddition(old(Snapshot(a))).error
    {
      err := None;
      match a {
        case ALayer(l) =>
          layers := layers + [JObj(l.layer)];
          if l.search.Some? {
            search := search + l.search.value;
          } else {
            err := Some(NotIterable);
          }
        case AGroup(g) =>
          layers := layers + [JObj(g.group)];
          search := search + g.search;
        case ADict(d) =>
          layers := layers + [JObj(d)];
        case _ =>
          assert ElementAddition(Snapshot(a)) == Addition([], [], None);
          assert layers + [] == layers && search + [] == search;
      }
    }

    /** `extend`: `append` each argument in turn; the first exception ends it. */
    method Extend(xs: seq<Arg>) returns (err: Option<Error>)
      requires this !in RefsAll(xs)
      modifies this
      ensures Outcome(Lists(), err) == Extended(old(Lists()), old(SnapshotAll(xs)))
    {
      ghost var vs := SnapshotAll(xs);
      RefsAllocated(xs);
      err := None;
      var k := 0;
      while k < |xs|
        invariant 0 <= k <= |xs|
        invariant SnapshotAll(xs) == vs && err.None?
        invariant Extended(old(Lists()), vs) == Extended(Lists(), vs[k..])
      {
        SnapshotAllAt(xs, k);
        assert vs[k..][0] == vs[k] && vs[k..][1..] == vs[k + 1..];
        ghost var before := Lists();
        err := Append(xs[k]);
        if err.Some? {
          assert Extended(before, vs[k..]) == Outcome(Lists(), err);
          return;
        }
        k := k + 1;
      }
    }

    /** `insert`: puts what `InsertAddition` says at `idx` and returns the exception it raises, if any. */
    method Insert(idx: int, a: Arg) returns (err: Option<Error>)
      requires a != ALayers(this)
      modifies this
      ensures Lists() == Inserted(old(Lists()), idx, InsertAddition(old(Snapshot(a))))
      ensures err == InsertAddition(old(Snapshot(a))).error
    {
      match a {
        case ALayers(other) =>
          layers := InsertAt(layers, idx, JArr(other.layers));
          search := search + other.search;
          err := None;
        case AList(xs) =>
          if xs == [] {
            err := Some(IndexError);
            assert layers == Splice(layers, idx, []);
          } else {
            SnapshotAllAt(xs, 0);
            err := InsertElement(idx, xs[0]);
          }
        case _ =>
          err := InsertElement(idx, a);
      }
    }

    /** The Layer, Group and dict branches `insert` shares with a list's first element. */
    method InsertElement(idx: int, a: Arg) returns (err: Option<Error>)
      modifies this
      ensures Lists() == Inserted(old(Lists()), idx, ElementAddition(old(Snapshot(a))))
      ensures err == ElementAddition(old(Snapshot(a))).error
    {
      err := None;
      match a {
        case ALayer(l) =>
          layers := InsertAt(layers, idx, JObj(l.layer));
          if l.search.Some? {
            search := search + l.search.value;
          } else {
            err := Some(NotIterable);
          }
        case AGroup(g) =>
          layers := InsertAt(layers, idx, JObj(g.group));
          search := search + g.search;
        case ADict(d) =>
          layers := InsertAt(layers, idx, JObj(d));
        case _ =>
          assert ElementAddition(Snapshot(a)) == Addition([], [], None);
          assert layers == Splice(layers, idx, []) && search + [] == search;
      }
    }
  }

  /** The item lists a loop over layers built so far gives, one more layer at a time. */
  lemma AssembledSnoc(built: seq<Layer>, layer: Layer)
    ensures Assembled(built + [layer]) ==
      Content(Assembled(built).layers + [JObj(layer.layer)], Assembled(built).search + SearchOf(layer.search))
  {
    assert (built + [layer])[..|built|] == built;
  }



  /** One more item adds its layer's JSON and its descriptors to what `from_items` builds. */
  lemma ItemLayersSnoc(items: seq<Item>, k: nat, ids: nat -> string, start: nat, decode: Decoder, l: Layer)
    requires k < |items| && l == LayerOf(items[k], false, ids(start + k), decode)
    ensures var c := ItemLayers(items[..k], ids, start, decode);
      ItemLayers(items[..k + 1], ids, start, decode) == Content(c.layers + [JObj(l.layer)], c.search + SearchOf(l.search))
  {
    ItemLayerListSnoc(items, k, ids, start, decode);
    AssembledSnoc(ItemLayerList(items[..k], ids, start, decode), l);
  }

  /** One pass of the `from_items` loop: the item's layer is made, its dict appended and its descriptors added. */
  method GatherItemLayer(item: Item, layers: seq<Json>, search: seq<Json>, rt: Runtime)
    returns (layers': seq<Json>, search': seq<Json>, ghost layer: Layer)
    modifies rt
    ensures layer == LayerOf(item, false, rt.ids(old(rt.used)), rt.decode)
    ensures layers' == layers + [JObj(layer.layer)] && search' == search + SearchOf(layer.search)
    ensures rt.used == old(rt.used) + 1
  {
    var l := NewLayer(item, false, rt);
    layers' := layers + [JObj(l.layer)];
    search' := search;
    if l.search.Some? {
      search' := search' + l.search.value;
    }
    layer := l;
  }

  /** The loop of `Group.from_items`: one layer per item, its JSON and its descriptors gathered in order. */
  method GatherItemLayers(xs: seq<Item>, rt: Runtime) returns (layers: seq<Json>, search: seq<Json>)
    modifies rt
    ensures Content(layers, search) == ItemLayers(xs, rt.ids, old(rt.used), rt.decode)
    ensures rt.used == old(rt.used) + |xs|
  {
    var start := rt.used;
    layers := [];
    search := [];
    for k := 0 to |xs|
      invariant rt.used == start + k
      invariant Content(layers, search) == ItemLayers(xs[..k], rt.ids, start, rt.decode)
    {
      ghost var layer;
      layers, search, layer := GatherItemLayer(xs[k], layers, search, rt);
      ItemLayersSnoc(xs, k, rt.ids, start, rt.decode, layer);
    }
    assert xs[..|xs|] == xs;
  }

  /** `Group.from_items`: the items' layers, in order, inside a group whose id is drawn after theirs. */
  method GroupFromItems(name: string, items: Items, visible: bool, rt: Runtime) returns (g: Group)
    modifies rt
    ensures items.items == old(items.items)
    ensures var c := ItemLayers(items.items, rt.ids, old(rt.used), rt.decode);
      g == GroupOf(name, c.layers, c.search, visible, rt.ids(old(rt.used) + |items.items|))
    ensures rt.used == old(rt.used) + |items.items| + 1
  {
    var layers, search := GatherItemLayers(items.items, rt);
    g := NewGroup(name, layers, search, visible, rt);
  }

  /** One item gives one layer, with the first id drawn, and that layer's descriptors. */
  lemma ItemLayersSingle(item: Item, ids: nat -> string, start: nat, decode: Decoder)
    ensures var l := LayerOf(item, false, ids(start), decode);
      ItemLayers([item], ids, start, decode) == Content([JObj(l.layer)], SearchOf(l.search))
  {
    var l := LayerOf(item, false, ids(start), decode);
    assert ItemLayerList([item], ids, start, decode) == [l];
    AssembledSnoc([], l);
    assert [] + [l] == [l];
  }

  /** `Group.from_item`: `from_items` on the one-item list. */
  method GroupFromItem(name: string, item: Item, visible: bool, rt: Runtime) returns (g: Group)
    modifies rt
    ensures var c := ItemLayers([item], rt.ids, old(rt.used), rt.decode);
      g == GroupOf(name, c.layers, c.search, visible, rt.ids(old(rt.used) + 1))
    ensures rt.used == old(rt.used) + 2
  {
    var items := new Items([item]);
    g := GroupFromItems(name, items, visible, rt);
  }

  /** `Group.from_layers`: a group around the layers' JSON and descriptors. */
  method GroupFromLayers(name: string, layers: Layers, visible: bool, rt: Runtime) returns (g: Group)
    modifies rt
    ensures g == GroupOf(name, old(layers.layers), old(layers.search), visible, rt.ids(old(rt.used)))
    ensures rt.used == old(rt.used) + 1
  {
    var search := layers.search;
    g := NewGroup(name, layers.layers, search, visible, rt);
  }

  /** `Group.into_layer`: a Layers holding the group's JSON alone, with the group's descriptors. */
  method IntoLayer(g: Group, rt: Runtime) returns (r: Layers)
    modifies rt
    ensures fresh(r) && r.layers == [JObj(g.group)] && r.search == g.search
    ensures rt.used == old(rt.used) + 1
  {
    r := Layers.FromGroup(g, rt);
  }

  // ---------------------------------------------------------------------
  // Map
  // ---------------------------------------------------------------------

  /**
   * What `Map(id, layers)` keeps of one argument: a Layers or an Items
   * spreads, a Layer, Group, dict or (at the top) an Item adds one layer,
   * and (at the top) a list adds what each of its elements adds, in order.
   * Inside a list (`nested`), an Item, a list or any other kind adds nothing;
   * at the top an unsupported kind adds nothing either.
   */
  function Contribution(v: View, nested: bool, ids: nat -> string, start: nat, decode: Decoder): Content
    decreases v, 0
  {
    match v
    case VLayers(c) => c
    case VGroup(g) => Content([JObj(g.group)], g.search)
    case VLayer(l) => Content([JObj(l.layer)], SearchOf(l.search))
    case VItems(items) => ItemLayers(items, ids, start, decode)
    case VItem(item) =>
      if nested then Content([], [])
      else ItemLayers([item], ids, start, decode)
    case VDict(d) => Content([JObj(d)], [])
    case VList(elems) =>
      if nested then Content([], [])
      else FlattenList(elems, |elems|, ids, start, decode)
    case VOther => Content([], [])
  }

  /** The ids an argument draws: one per item it turns into a layer. */
  function DrawCount(v: View, nested: bool): nat
    decreases v, 0
  {
    match v
    case VItems(items) => |items|
    case VItem(_) => if nested then 0 else 1
    case VList(elems) => if nested then 0 else ListDraws(elems, |elems|)
    case _ => 0
  }

  /** The draws the first `n` elements of a list argument take, in turn. */
  function ListDraws(vs: seq<View>, n: nat): nat
    requires n <= |vs|
    decreases vs, n
  {
    if n == 0 then 0 else ListDraws(vs, n - 1) + DrawCount(vs[n - 1], true)
  }

  /**
   * What `Map(id, layers)` keeps of the first `n` elements of a list: each
   * element's contribution, in order, with the ids drawn after those of the
   * elements before it.
   */
  function FlattenList(vs: seq<View>, n: nat, ids: nat -> string, start: nat, decode: Decoder): Content
    requires n <= |vs|
    decreases vs, n
  {
    if n == 0 then Content([], [])
    else
      var c := FlattenList(vs, n - 1, ids, start, decode);
      var d := Contribution(vs[n - 1], true, ids, start + ListDraws(vs, n - 1), decode);
      Content(c.layers + d.layers, c.search + d.search)
  }

  /** The objects an argument refers to are Layers and Items, so never the runtime. */
  lemma {:induction false} RefsKinds(xs: seq<Arg>)
    ensures forall o :: o in RefsAll(xs) ==> o is Layers || o is Items
    decreases xs
  {
    if xs != [] {
      RefsKinds(xs[1..]);
      if xs[0].AList? {
        RefsKinds(xs[0].elems);
        assert Refs(xs[0]) == RefsAll(xs[0].elems);
      }
    }
  }

  /** One argument's contribution, as the branches of `Map.__init__` compute it. */
  method Contribute(a: Arg, ghost v: View, nested: bool, rt: Runtime, ghost start: nat) returns (c: Content)
    requires v == Snapshot(a) && start == rt.used
    requires nested || !a.AList?
    modifies rt
    ensures c == Contribution(v, nested, rt.ids, start, rt.decode)
    ensures rt.used == start + DrawCount(v, nested)
  {
    match a {
      case ALayers(l) =>
        c := Content(l.layers, l.search);
      case AGroup(g) =>
        c := Content([JObj(g.group)], g.search);
      case ALayer(l) =>
        c := Content([JObj(l.layer)], []);
        if l.search.Some? {
          c := c.(search := l.search.value);
        }
      case AItems(items) =>
        var r := Layers.FromItems(items, rt);
        c := r.Lists();
      case AItem(item) =>
        if nested {
          c := Content([], []);
        } else {
          ItemLayersSingle(item, rt.ids, rt.used, rt.decode);
          var l := NewLayer(item, false, rt);
          c := Content([JObj(l.layer)], []);
          if l.search.Some? {
            c := c.(search := l.search.value);
          }
        }
      case ADict(d) =>
        c := Content([JObj(d)], []);
      case _ =>
        c := Content([], []);
    }
  }

  /** The `list` branch of `Map.__init__`: each element's contribution, in order. */
  method ContributeAll(xs: seq<Arg>, ghost vs: seq<View>, rt: Runtime, ghost start: nat) returns (c: Content)
    requires vs == SnapshotAll(xs) && start == rt.used
    modifies rt
    ensures c == FlattenList(vs, |vs|, rt.ids, start, rt.decode)
    ensures rt.used == start + ListDraws(vs, |vs|)
  {
    RefsAllocated(xs);
    assert rt !in RefsAll(xs) by { RefsKinds(xs); }
    c := Content([], []);
    for k := 0 to |xs|
      invariant SnapshotAll(xs) == vs
      invariant rt.used == start + ListDraws(vs, k)
      invariant Flattens(vs, k, rt.ids, start, rt.decode, c)
    {
      c := ContributeNext(xs, k, vs, start, rt, c);
    }
  }

  /** The body of the `list` branch's loop: element `k` adds its contribution to those before it. */
  method ContributeNext(xs: seq<Arg>, k: nat, ghost vs: seq<View>, ghost start: nat, rt: Runtime, c: Content)
    returns (c': Content)
    requires k < |xs| && SnapshotAll(xs) == vs
    requires rt.used == start + ListDraws(vs, k)
    requires Flattens(vs, k, rt.ids, start, rt.decode, c)
    requires rt !in RefsAll(xs) && forall o :: o in RefsAll(xs) ==> allocated(o)
    modifies rt
    ensures SnapshotAll(xs) == vs
    ensures rt.used == start + ListDraws(vs, k + 1)
    ensures Flattens(vs, k + 1, rt.ids, start, rt.decode, c')
  {
    ghost var used := rt.used;
    var d := ContributeAt(xs, k, vs, rt, used);
    FlattenListNext(vs, k, rt.ids, start, rt.decode, used, c, d);
    c' := Content(c.layers + d.layers, c.search + d.search);
  }

  /** A list's first `k + 1` elements: those of the first `k`, then element `k`'s contribution. */
  lemma FlattenListNext(vs: seq<View>, k: nat, ids: nat -> string, start: nat, decode: Decoder, used: nat,
                         c: Content, d: Content)
    requires k < |vs| && used == start + ListDraws(vs, k)
    requires Flattens(vs, k, ids, start, decode, c) && d == Contribution(vs[k], true, ids, used, decode)
    ensures Flattens(vs, k + 1, ids, start, decode, Content(c.layers + d.layers, c.search + d.search))
    ensures ListDraws(vs, k + 1) == ListDraws(vs, k) + DrawCount(vs[k], true)
  {
  }

  /** `c` is what the first `n` elements of a list argument contribute. */
  predicate Flattens(vs: seq<View>, n: nat, ids: nat -> string, start: nat, decode: Decoder, c: Content)
    requires n <= |vs|
  {
    c == FlattenList(vs, n, ids, start, decode)
  }

  /** Element `k` of a list argument: its contribution, reading the list leaves it as it was. */
  method ContributeAt(xs: seq<Arg>, k: nat, ghost vs: seq<View>, rt: Runtime, ghost used: nat)
    returns (d: Content)
    requires k < |xs| && SnapshotAll(xs) == vs && used == rt.used
    requires rt !in RefsAll(xs) && forall o :: o in RefsAll(xs) ==> allocated(o)
    modifies rt
    ensures SnapshotAll(xs) == vs
    ensures d == Contribution(vs[k], true, rt.ids, used, rt.decode)
    ensures rt.used == used + DrawCount(vs[k], true)
  {
    ghost var v := vs[k];
    assert v == Snapshot(xs[k]) by { SnapshotAllAt(xs, k); }
    d := Contribute(xs[k], v, true, rt, rt.used);
  }

  // ---------------------------------------------------------------------
  // Map.build
  // ---------------------------------------------------------------------

  /** The `search` dict `build` writes: search on, the place finder kept, the hint text, the descriptors. */
  function SearchBlock(search: seq<Json>): Members {
    [("enabled", JBool(true)), ("disablePlaceFinder", JBool(false)),
     ("hintText", JStr("Address or Fields")), ("layers", JArr(search))]
  }

  /** `d[k]` when `d` is a dict that has `k`, nothing when there is no `d`. */
  function Under(d: Option<Json>, k: string): Option<Json> {
    if d.Some? then Field(d.value, k) else None
  }

  /**
   * The web-map definition with the layers added: appended to its
   * `operationalLayers` (which `extend` needs to be a list), or, when it has
   * none, a new list whose one element is `json.loads(str(layers))`, which
   * reads the layers back only when their text is JSON.
   */
  function WithLayers(definition: Members, layers: seq<Json>): Result<Members> {
    match Get(definition, "operationalLayers")
    case None =>
      if LoadsBack(JArr(layers)) then Success(Put(definition, "operationalLayers", JArr([JArr(layers)])))
      else Failure(ValueError("JSONDecodeError"))
    case Some(v) =>
      if v.JArr? then Success(Put(definition, "operationalLayers", JArr(v.items + layers)))
      else Failure(AttributeError("extend"))
  }

  /**
   * The web-map definition with the search dict under
   * `applicationProperties.viewing.search`, each missing level added as a
   * new dict; a level that is not a dict raises.
   */
  function WithSearch(definition: Members, search: seq<Json>): Result<Members> {
    var s := JObj(SearchBlock(search));
    match Get(definition, "applicationProperties")
    case None => Success(Put(definition, "applicationProperties", JObj([("viewing", JObj([("search", s)]))])))
    case Some(props) =>
      match In("viewing", props)
      case Failure(e) => Failure(e)
      case Success(false) =>
        if props.JObj? then Success(Put(definition, "applicationProperties", JObj(Put(props.members, "viewing", JObj([("search", s)])))))
        else Failure(AttributeError("update"))
      case Success(true) =>
        match Index(props, "viewing")
        case Failure(e) => Failure(e)
        case Success(viewing) =>
          if viewing.JObj? then
            Success(Put(definition, "applicationProperties", JObj(Put(props.members, "viewing", JObj(Put(viewing.members, "search", s))))))
          else Failure(AttributeError("update"))
  }

  /**
   * Adding the layers fails exactly when `operationalLayers` is there and
   * not a list, or is missing and the layers' text is not JSON; otherwise it
   * is the old list followed by the layers (or a list holding the layer
   * list when there was none), a new key goes last, and every other key
   * keeps its value.
   */
  lemma WithLayersGet(definition: Members, layers: seq<Json>, k: string)
    ensures var v := Get(definition, "operationalLayers");
      var r := WithLayers(definition, layers);
      && (r.Failure? <==> (v.Some? && !v.value.JArr?) || (v.None? && !LoadsBack(JArr(layers))))
      && (r.Failure? ==> r.error == if v.None? then ValueError("JSONDecodeError") else AttributeError("extend"))
      && (r.Success? ==>
            Get(r.value, k) == (if k != "operationalLayers" then Get(definition, k)
                                else if v.None? then Some(JArr([JArr(layers)]))
                                else Some(JArr(v.value.items + layers))))
      && (r.Success? ==> Keys(r.value) == if v.None? then Keys(definition) + ["operationalLayers"] else Keys(definition))
  {
    var v := Get(definition, "operationalLayers");
    if v.None? {
      var x := JArr([JArr(layers)]);
      PutGet(definition, "operationalLayers", x, k);
      PutKeys(definition, "operationalLayers", x);
    } else if v.value.JArr? {
      var x := JArr(v.value.items + layers);
      PutGet(definition, "operationalLayers", x, k);
      PutKeys(definition, "operationalLayers", x);
    }
  }

  /**
   * With no `operationalLayers`, a layer list holding a layer dict (every
   * layer has an id) cannot be built: its text puts the keys in single quotes.
   */
  lemma WithLayersRefused(definition: Members, layers: seq<Json>, k: nat)
    requires Get(definition, "operationalLayers").None?
    requires k < |layers| && layers[k].JObj? && layers[k].members != []
    ensures WithLayers(definition, layers) == Failure(ValueError("JSONDecodeError"))
  {
    QuotedRefused(layers, k);
  }

  /**
   * Placing the search dict fails exactly when `applicationProperties` is
   * there and is not a dict, or its `viewing` is there and is not a dict;
   * otherwise `applicationProperties` goes last when it is new, and every
   * other key keeps its value.
   */
  lemma WithSearchGet(definition: Members, search: seq<Json>, k: string)
    ensures var props := Get(definition, "applicationProperties");
      var r := WithSearch(definition, search);
      && (r.Failure? <==> props.Some? && (!props.value.JObj? || (Under(props, "viewing").Some? && !Under(props, "viewing").value.JObj?)))
      && (r.Success? && k != "applicationProperties" ==> Get(r.value, k) == Get(definition, k))
      && (r.Success? ==> Keys(r.value) == if props.None? then Keys(definition) + ["applicationProperties"] else Keys(definition))
  {
    var s := JObj(SearchBlock(search));
    var props := Get(definition, "applicationProperties");
    if props.None? {
      var p := JObj([("viewing", JObj([("search", s)]))]);
      PutGet(definition, "applicationProperties", p, k);
      PutKeys(definition, "applicationProperties", p);
    } else if props.value.JObj? {
      var m := props.value.members;
      var viewing := Get(m, "viewing");
      assert In("viewing", props.value) == Success(viewing.Some?);
      if viewing.Some? && viewing.value.JObj? {
        var p := JObj(Put(m, "viewing", JObj(Put(viewing.value.members, "search", s))));
        PutGet(definition, "applicationProperties", p, k);
        PutKeys(definition, "applicationProperties", p);
      } else if viewing.None? {
        var p := JObj(Put(m, "viewing", JObj([("search", s)])));
        PutGet(definition, "applicationProperties", p, k);
        PutKeys(definition, "applicationProperties", p);
      }
    }
  }

  /**
   * After a successful placement the search dict sits at
   * `applicationProperties.viewing.search`, and every other key of
   * `applicationProperties` and of `viewing` keeps its value.
   */
  lemma WithSearchPlaced(definition: Members, search: seq<Json>, k: string)
    requires WithSearch(definition, search).Success?
    ensures var props := Get(definition, "applicationProperties");
      var props' := Get(WithSearch(definition, search).value, "applicationProperties");
      && props'.Some? && props'.value.JObj?
      && Under(props', "viewing").Some? && Under(props', "viewing").value.JObj?
      && Under(Under(props', "viewing"), "search") == Some(JObj(SearchBlock(search)))
      && (k != "viewing" ==> Under(props', k) == Under(props, k))
      && (k != "search" ==> Under(Under(props', "viewing"), k) == Under(Under(props, "viewing"), k))
  {
    var s := JObj(SearchBlock(search));
    var props := Get(definition, "applicationProperties");
    if props.None? {
      var p := JObj([("viewing", JObj([("search", s)]))]);
      PutGet(definition, "applicationProperties", p, "applicationProperties");
    } else {
      var m := props.value.members;
      var viewing := Get(m, "viewing");
      var v' := if viewing.Some? then JObj(Put(viewing.value.members, "search", s)) else JObj([("search", s)]);
      var p := JObj(Put(m, "viewing", v'));
      PutGet(definition, "applicationProperties", p, "applicationProperties");
      PutGet(m, "viewing", v', k);
      PutGet(m, "viewing", v', "viewing");
      if viewing.Some? {
        PutGet(viewing.value.members, "search", s, k);
        PutGet(viewing.value.members, "search", s, "search");
      }
    }
  }

  /** What `build` places, `get_search` finds: the descriptors are the search section's `layers`. */
  lemma WithSearchRead(definition: Members, search: seq<Json>)
    requires WithSearch(definition, search).Success?
    ensures SearchSection(WithSearch(definition, search).value) == Success(JArr(search))
  {
    var d := WithSearch(definition, search).value;
    WithSearchPlaced(definition, search, "search");
    var props := Get(d, "applicationProperties").value;
    var viewing := Field(props, "viewing").value;
    var block := JObj(SearchBlock(search));
    assert Descend(JObj(d), "applicationProperties") == Success(props);
    assert Descend(props, "viewing") == Success(viewing);
    assert Descend(viewing, "search") == Success(block);
    var b := SearchBlock(search);
    assert |b[0].0| == 7 && |b[1].0| == 18 && |b[2].0| == 8 && b[3].0 == "layers";
    assert IndexOf(b, "layers") == Some(3);
  }

  /** A web map's layer list and search descriptors, gathered from the argument it is made from. */
  class Map {
    var layers: seq<Json>
    var search: seq<Json>

    function Lists(): Content
      reads this
    {
      Content(layers, search)
    }

    /** `Map(id, layers, gis)` without the remote handle: the argument flattened in order. */
    constructor(a: Arg, rt: Runtime)
      modifies rt
      ensures Lists() == Contribution(old(Snapshot(a)), false, rt.ids, old(rt.used), rt.decode)
      ensures rt.used == old(rt.used) + DrawCount(old(Snapshot(a)), false)
    {
      var c: Content;
      if a.AList? {
        c := ContributeAll(a.elems, SnapshotAll(a.elems), rt, rt.used);
      } else {
        c := Contribute(a, Snapshot(a), false, rt, rt.used);
      }
      layers := c.layers;
      search := c.search;
    }

    /**
     * `build` on the definition the web map holds once cleared: the layers
     * added to `operationalLayers`, then, when there are descriptors, the
     * search dict placed under `applicationProperties.viewing`.
     */
    method Build(definition: Members) returns (r: Result<Members>)
      ensures r == match WithLayers(definition, layers)
        case Failure(e) => Failure(e)
        case Success(d) => if |search| > 0 then WithSearch(d, search) else Success(d)
    {
      var d := definition;
      var ops := Get(d, "operationalLayers");
      if ops.None? {
        if !LoadsBack(JArr(layers)) {
          return Failure(ValueError("JSONDecodeError"));
        }
        d := Put(d, "operationalLayers", JArr([JArr(layers)]));
      } else if ops.value.JArr? {
        d := Put(d, "operationalLayers", JArr(ops.value.items + layers));
      } else {
        return Failure(AttributeError("extend"));
      }
      if |search| > 0 {
        var s: Members := [];
        PutNew(s, [], "enabled", JBool(true));
        s := Put(s, "enabled", JBool(true));
        PutNew(s, ["enabled"], "disablePlaceFinder", JBool(false));
        s := Put(s, "disablePlaceFinder", JBool(false));
        PutNew(s, ["enabled", "disablePlaceFinder"], "hintText", JStr("Address or Fields"));
        s := Put(s, "hintText", JStr("Address or Fields"));
        PutNew(s, ["enabled", "disablePlaceFinder", "hintText"], "layers", JArr(search));
        s := Put(s, "layers", JArr(search));
        assert s == SearchBlock(search);
        var props := Get(d, "applicationProperties");
        if props.Some? {
          var has := In("viewing", props.value);
          if has.Failure? {
            return Failure(has.error);
          }
          if has.value {
            var viewing := Index(props.value, "viewing");
            if viewing.Failure? {
              return Failure(viewing.error);
            }
            if !viewing.value.JObj? {
              return Failure(AttributeError("update"));
            }
            var v := Put(viewing.value.members, "search", JObj(s));
            d := Put(d, "applicationProperties", JObj(Put(props.value.members, "viewing", JObj(v))));
          } else {
            if !props.value.JObj? {
              return Failure(AttributeError("update"));
            }
            d := Put(d, "applicationProperties", JObj(Put(props.value.members, "viewing", JObj([("search", JObj(s))]))));
          }
        } else {
          d := Put(d, "applicationProperties", JObj([("viewing", JObj([("search", JObj(s))]))]));
        }
      }
      r := Success(d);
    }
  }
}
