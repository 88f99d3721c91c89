/**
 * The service table of the Grants Pass example (examples/grants_pass/services.py):
 * one URL list per portal, and the retargeting of a list of items to the
 * URLs of one portal, position by position.
 */
module Services {
  import opened Wrappers
  import opened Json
  import opened MapModel

  /** A named service with its URL lists on ArcGIS Online, on the city server and for editing. */
  class Service {
    var name: string
    var agol: seq<string>
    var gp: seq<string>
    var edit: seq<string>

    constructor(name: string, agol: seq<string>, gp: seq<string>, edit: seq<string>)
      ensures this.name == name && this.agol == agol && this.gp == gp && this.edit == edit
    {
      this.name := name;
      this.agol := agol;
      this.gp := gp;
      this.edit := edit;
    }

    /** `portal`: the URL list of the named portal, and the one-URL list `[""]` for an unknown name. */
    function Portal(portal: string): (urls: seq<string>)
      reads this
      ensures portal == "agol" ==> urls == agol
      ensures portal == "gp" ==> urls == gp
      ensures portal == "edit" ==> urls == edit
      ensures portal !in ["agol", "gp", "edit"] ==> urls == [""]
    {
      match portal
      case "agol" => agol
      case "gp" => gp
      case "edit" => edit
      case _ => [""]
    }

    /**
     * `urls(portal, items)`: the i-th item takes the portal's i-th URL, in
     * place, for every URL the portal has; later items are left alone. With
     * fewer items than URLs every item is retargeted and then the lookup of
     * the next item raises IndexError. Otherwise the same Items is returned.
     */
    method Urls(portal: string, items: Items) returns (r: Result<Items>)
      modifies items
      ensures var urls := Portal(portal);
        && |items.items| == |old(items.items)|
        && (forall i :: 0 <= i < |items.items| && i < |urls| ==> items.items[i] == old(items.items[i]).(url := JStr(urls[i])))
        && (forall i :: |urls| <= i < |items.items| ==> items.items[i] == old(items.items[i]))
        && (r.Success? <==> |urls| <= |old(items.items)|)
        && (r.Success? ==> r.value == items)
        && (r.Failure? ==> r.error == IndexError)
    {
      var urls := Portal(portal);
      ghost var xs := items.items;
      for i := 0 to |urls|
        invariant i <= |xs| && |items.items| == |xs|
        invariant forall j :: 0 <= j < |xs| ==> items.items[j] == if j < i then xs[j].(url := JStr(urls[j])) else xs[j]
      {
        if i >= |items.items| {
          return Failure(IndexError);
        }
        var item := items.items[i];
        item := item.(url := JStr(urls[i]));
        items.items := items.items[i := item];
      }
      return Success(items);
    }
  }
}
