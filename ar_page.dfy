/**
 * The AR experience page (src/app/ar-experience/page.tsx): which sidebar
 * body and which main pane are shown for the page state, and the two pieces
 * of state the page owns, the probed capability and the selected model.
 * The catalog (`models`, `loading`, `error`) comes from the model context
 * and enters as parameters.
 */
module ArPage {
  import opened Wrappers
  import opened Capability

  /** A catalog entry; `createdAt` plays no part in the page's decisions. */
  datatype Model = Model(id: string, name: string, url: string)

  /** JavaScript truthiness of the context's `error: string | null`. */
  predicate Truthy(error: Option<string>) {
    error.Some? && error.value != ""
  }

  /** One `<li>` of the model list. */
  datatype Item = Item(model: Model, highlighted: bool)

  /** The sidebar body, in the order the nested conditional tests it. */
  datatype SidebarBody =
    | LoadingNote
    | ErrorNote(message: string)
    | NoModels
    | ModelList(items: seq<Item>)

  /** `selectedModel?.id === model.id`. */
  predicate IsHighlighted(selected: Option<Model>, m: Model) {
    selected.Some? && selected.value.id == m.id
  }

  /** `models.map(...)`: one item per model, in order. */
  function Items(models: seq<Model>, selected: Option<Model>): (items: seq<Item>)
    ensures |items| == |models|
    ensures forall i :: 0 <= i < |models| ==>
      items[i].model == models[i] && (items[i].highlighted <==> IsHighlighted(selected, models[i]))
  {
    if models == [] then []
    else [Item(models[0], IsHighlighted(selected, models[0]))] + Items(models[1..], selected)
  }

  /** The sidebar body for the context's `models`, `loading` and `error`. */
  function SidebarFor(models: seq<Model>, loading: bool, error: Option<string>,
                      selected: Option<Model>): (b: SidebarBody)
    ensures b == LoadingNote <==> loading
    ensures b.ErrorNote? <==> !loading && Truthy(error)
    ensures b.ErrorNote? ==> b.message == error.value
    ensures b == NoModels <==> !loading && !Truthy(error) && |models| == 0
    ensures b.ModelList? <==> !loading && !Truthy(error) && |models| > 0
    ensures b.ModelList? ==> b.items == Items(models, selected)
  {
    if loading then LoadingNote
    else if Truthy(error) then ErrorNote(error.value)
    else if |models| == 0 then NoModels
    else ModelList(Items(models, selected))
  }

  /** What the main pane's content slot renders. */
  datatype Content = ArView(modelUrl: string) | SelectPrompt(uploadLink: bool) | Blank

  /** The main pane: the not-supported overlay, and the content below it. */
  datatype Pane = Pane(overlay: bool, content: Content)

  function PaneFor(arSupported: Support, selected: Option<Model>, models: seq<Model>): (p: Pane)
    ensures p.overlay <==> arSupported == Known(false)
    ensures p.content.ArView? <==> arSupported == Known(true) && selected.Some?
    ensures p.content.ArView? ==> p.content.modelUrl == selected.value.url
    ensures p.content.SelectPrompt? <==> arSupported == Known(true) && selected.None?
    ensures p.content.SelectPrompt? ==> (p.content.uploadLink <==> |models| == 0)
  {
    var content :=
      if arSupported == Known(true) && selected.Some? then ArView(selected.value.url)
      else if arSupported == Known(true) then SelectPrompt(|models| == 0)
      else Blank;
    Pane(arSupported == Known(false), content)
  }

  /** The number of highlighted items. */
  function HighlightCount(items: seq<Item>): nat {
    if items == [] then 0 else (if items[0].highlighted then 1 else 0) + HighlightCount(items[1..])
  }

  /** The number of models carrying the given id. */
  function IdCount(models: seq<Model>, id: string): nat {
    if models == [] then 0 else (if models[0].id == id then 1 else 0) + IdCount(models[1..], id)
  }

  predicate DistinctIds(models: seq<Model>) {
    forall i, j :: 0 <= i < j < |models| ==> models[i].id != models[j].id
  }

  /** Exactly the models sharing the selected id are highlighted; none without a selection. */
  lemma {:induction false} HighlightCountIsIdCount(models: seq<Model>, selected: Option<Model>)
    ensures HighlightCount(Items(models, selected)) ==
      if selected.Some? then IdCount(models, selected.value.id) else 0
  {
    if models != [] {
      HighlightCountIsIdCount(models[1..], selected);
      assert Items(models, selected)[1..] == Items(models[1..], selected);
    }
  }

  /** In a catalog with distinct ids an id that occurs occurs exactly once. */
  lemma {:induction false} DistinctIdOccursOnce(models: seq<Model>, k: nat)
    requires DistinctIds(models)
    requires k < |models|
    ensures IdCount(models, models[k].id) == 1
  {
    if k == 0 {
      IdAbsent(models[1..], models[0].id);
    } else {
      DistinctIdOccursOnce(models[1..], k - 1);
    }
  }

  lemma {:induction false} IdAbsent(models: seq<Model>, id: string)
    requires forall i :: 0 <= i < |models| ==> models[i].id != id
    ensures IdCount(models, id) == 0
  {
    if models != [] {
      IdAbsent(models[1..], id);
    }
  }

  /**
   * After the user clicks item `k` of a list with distinct ids, exactly one
   * item is highlighted, and it is item `k`.
   */
  lemma ClickHighlightsOnlyThatItem(models: seq<Model>, k: nat)
    requires DistinctIds(models)
    requires k < |models|
    ensures var items := Items(models, Some(models[k]));
      HighlightCount(items) == 1 &&
      items[k].highlighted &&
      forall i :: 0 <= i < |models| && i != k ==> !items[i].highlighted
  {
    HighlightCountIsIdCount(models, Some(models[k]));
    DistinctIdOccursOnce(models, k);
  }

  /** With nothing selected, nothing is highlighted. */
  lemma NothingSelectedNothingHighlighted(models: seq<Model>)
    ensures HighlightCount(Items(models, None)) == 0
  {
  }

  /** The overlay and any content are never shown together; while unknown, neither is. */
  lemma PaneShowsAtMostOneThing(arSupported: Support, selected: Option<Model>, models: seq<Model>)
    ensures PaneFor(arSupported, selected, models).overlay ==>
      PaneFor(arSupported, selected, models).content == Blank
    ensures arSupported == Unknown ==>
      PaneFor(arSupported, selected, models) == Pane(false, Blank)
  {
  }

  /** The page component: its two `useState` cells. */
  class ArExperiencePage {
    var arSupported: Support
    var selected: Option<Model>

    constructor ()
      ensures arSupported == Unknown && selected == None
    {
      arSupported := Unknown;
      selected := None;
    }

    /** The mount effect's single write, once the probe has settled. */
    method ProbeSettled(p: Probe)
      modifies this
      ensures arSupported == Apply(old(arSupported), ViewProbeWrite(p))
      ensures old(arSupported) == Unknown ==> arSupported == ViewSupport(p)
      ensures selected == old(selected)
    {
      var w := ViewProbeWrite(p);
      if w.Some? {
        arSupported := Known(w.value);
      }
    }

    /** The list item's `onClick`: selects that model. */
    method Click(m: Model)
      modifies this
      ensures selected == Some(m)
      ensures SelectedPanel() == Some(m.name)
      ensures arSupported == old(arSupported)
    {
      selected := Some(m);
    }

    function Sidebar(models: seq<Model>, loading: bool, error: Option<string>): SidebarBody
      reads this
    {
      SidebarFor(models, loading, error, selected)
    }

    /** The "Selected Model" panel shows the selected model's name, if any. */
    function SelectedPanel(): Option<string>
      reads this
    {
      if selected.Some? then Some(selected.value.name) else None
    }

    function MainPane(models: seq<Model>): Pane
      reads this
    {
      PaneFor(arSupported, selected, models)
    }
  }

  /**
   * A browser whose probe settles with `true`: once the user clicks a model,
   * the AR view is rendered with that model's url.
   */
  method SelectAfterSupport(m: Model, models: seq<Model>) returns (pane: Pane)
    ensures pane.content == ArView(m.url) && !pane.overlay
  {
    var page := new ArExperiencePage();
    page.ProbeSettled(Settles(true));
    page.Click(m);
    pane := page.MainPane(models);
  }

  /**
   * Once the catalog has loaded without error, clicking item `k` of a list
   * with distinct ids shows the list with item `k` as its only highlight.
   */
  method ClickShowsHighlight(models: seq<Model>, k: nat) returns (body: SidebarBody)
    requires DistinctIds(models)
    requires k < |models|
    ensures body.ModelList? && |body.items| == |models|
    ensures body.items[k].highlighted && HighlightCount(body.items) == 1
  {
    var page := new ArExperiencePage();
    page.Click(models[k]);
    body := page.Sidebar(models, false, None);
    ClickHighlightsOnlyThatItem(models, k);
  }
}
