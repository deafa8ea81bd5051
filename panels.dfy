/// The preference panels a preferences window controller hosts, the toolbar
/// item identifiers it hands to its toolbar, and the lookup of a registered
/// panel by identifier.
module Panels {

  datatype Option<+T> = None | Some(value: T)

  /// A width and a height in points.
  datatype Size = Size(width: real, height: real)

  type PanelId = string

  /// A registered panel, reduced to the data the controller reads from it:
  /// the identifier and title its class declares, the size of that title as
  /// measured in the system font, and the size of the window frame that fits
  /// the panel's content view.
  datatype Panel = Panel(id: PanelId, title: string, titleSize: Size, frameSize: Size)

  /// A toolbar item identifier: the flexible space, the item that hosts the
  /// segmented control, or the item of one panel.
  datatype ItemId = FlexibleSpace | SegmentedControlItem | PanelItem(id: PanelId)

  /// The toolbar item identifier of a panel.
  function ItemOf(p: Panel): ItemId {
    PanelItem(p.id)
  }

  /// The registered panels whose identifier is `id`, in registration order.
  function Matching(panels: seq<Panel>, id: PanelId): (r: seq<Panel>)
    decreases |panels|
  {
    if |panels| == 0 then []
    else (if panels[0].id == id then [panels[0]] else []) + Matching(panels[1..], id)
  }

  /// `r` is what a first-match search for `id` in `panels` yields: no panel
  /// when none carries `id`, otherwise the earliest one that does.
  ghost predicate IsFirstMatch(panels: seq<Panel>, id: PanelId, r: Option<Panel>) {
    match r
    case None => forall k :: 0 <= k < |panels| ==> panels[k].id != id
    case Some(p) =>
      exists k :: 0 <= k < |panels| && panels[k] == p && p.id == id &&
        forall j :: 0 <= j < k ==> panels[j].id != id
  }

  lemma {:induction false} MatchingStartsWithFirstMatch(panels: seq<Panel>, id: PanelId)
    ensures var m := Matching(panels, id);
      IsFirstMatch(panels, id, if |m| == 0 then None else Some(m[0]))
    decreases |panels|
  {
    if |panels| == 0 {
    } else if panels[0].id == id {
      assert Matching(panels, id)[0] == panels[0];
    } else {
      var tail := panels[1..];
      MatchingStartsWithFirstMatch(tail, id);
      assert Matching(panels, id) == Matching(tail, id);
      if |Matching(tail, id)| == 0 {
        forall k | 0 <= k < |panels| ensures panels[k].id != id {
          if k > 0 { assert panels[k] == tail[k - 1]; }
        }
      } else {
        var p := Matching(tail, id)[0];
        var k :| 0 <= k < |tail| && tail[k] == p && p.id == id &&
          forall j :: 0 <= j < k ==> tail[j].id != id;
        assert panels[k + 1] == p;
        forall j | 0 <= j < k + 1 ensures panels[j].id != id {
          if j > 0 { assert panels[j] == tail[j - 1]; }
        }
      }
    }
  }

  /// The panel registered under `id`: the first element of the panels
  /// filtered by identifier, or none.
  function Lookup(panels: seq<Panel>, id: PanelId): (r: Option<Panel>)
    ensures IsFirstMatch(panels, id, r)
  {
    MatchingStartsWithFirstMatch(panels, id);
    var m := Matching(panels, id);
    if |m| == 0 then None else Some(m[0])
  }

  /// No two registered panels share an identifier.
  ghost predicate UniqueIds(panels: seq<Panel>) {
    forall i, j :: 0 <= i < j < |panels| ==> panels[i].id != panels[j].id
  }

  /// With unique identifiers, looking up a registered panel's identifier
  /// finds exactly that panel.
  lemma LookupFindsRegistered(panels: seq<Panel>, k: nat)
    requires k < |panels| && UniqueIds(panels)
    ensures Lookup(panels, panels[k].id) == Some(panels[k])
  {
    var r := Lookup(panels, panels[k].id);
    assert r.Some?;
    var i :| 0 <= i < |panels| && panels[i] == r.value && r.value.id == panels[k].id &&
      forall j :: 0 <= j < i ==> panels[j].id != panels[k].id;
    assert i == k;
  }
}
