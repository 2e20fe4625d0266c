/** Two end-to-end runs of the plugin: an AJAX popover that fetches its
    content on the first `show` and then appears with it, and the placement
    of a popover anchored at the north-east corner of its anchor. */
module Scenarios {
  import opened Common
  import opened JsValues
  import opened Position
  import opened Bindings
  import opened Ajax
  import opened Widget
  import opened Lifecycle

  /** The three names the runs below use, through the alias table. */
  lemma NamesUsed()
    ensures Normalize("bottom") == "bottom-center" && "bottom-center" in CanonicalNames
    ensures Normalize("bottom") == PointName(Point(Bottom, Center))
    ensures Normalize("bottom-center") == PointName(Point(Bottom, Center))
    ensures Normalize("north-east") == PointName(Point(Top, Right))
  {
    assert PointName(Point(Bottom, Center)) == "bottom-center";
    assert PointName(Point(Top, Right)) == "top-right";
  }

  /** `{url: url, trigger: "manual"}`. */
  function ManualAjax(url: string): Options {
    map["url" := Str(url), "trigger" := Str("manual")]
  }

  /** The record `init({url: url, trigger: "manual"})` configures: the two
      options given, the rest defaults; an AJAX popover whose fetch is needed
      but not cued. */
  lemma ManualAjaxOptions(url: string)
    ensures var r := InitRecord(ManualAjax(url));
            && Lookup(r.options, "url") == Str(url)
            && Lookup(r.options, "trigger") == Str("manual")
            && Lookup(r.options, "anchorPosition") == Str("bottom")
            && r.isAjaxPopover && r.ajaxFetchNeeded && !r.ajaxFetchCued && !r.visible
  {
    var params := ManualAjax(url);
    DefaultFlags();
    InitOptionsLookup(params, "url");
    InitOptionsLookup(params, "trigger");
    InitOptionsLookup(params, "anchorPosition");
    InitOptionsLookup(params, "loadImmediately");
    InitConfigures(params);
  }

  /** Its bindings: the manual trigger binds nothing that fails, and no
      re-show is pending. */
  lemma ManualAjaxBindings(url: string)
    ensures var o := InitRecord(ManualAjax(url)).options;
            && Rebind([], o, 1, false).outcome == Pass
            && PendingShow(1) !in Rebind([], o, 1, false).bindings
  {
    var o := InitRecord(ManualAjax(url)).options;
    ManualAjaxOptions(url);
    TriggerTable(Str("manual"), 1, false);
    RebindShape([], o, 1, false);
    RebindDropsPendingShow([], o, 1, false);
  }

  /** `init(params)` on a fresh plugin whose options bind a known trigger and
      cue no fetch: the one element is registered with the record `init`
      configures and updates, and no request is issued. */
  method InitOne(params: Options, l: Layout) returns (p: Popovers)
    requires Rebind([], InitRecord(params).options, 1, false).outcome == Pass
    requires !InitRecord(params).ajaxFetchCued
    ensures fresh(p) && p.Valid()
    ensures p.data == map[1 := UpdatedRecord(InitRecord(params), l)]
    ensures p.requests == [] && p.completed == {}
    ensures p.bindings == Rebind([], InitRecord(params).options, 1, false).bindings
  {
    p := new Popovers(false);
    var out := p.Init(1, params, l);
  }

  /** `show` on an AJAX popover whose fetch is needed, then the plain-text
      answer to the one request it issues: the popover ends visible with the
      answer as its content, its canonical position written back, its fetch
      done, no re-show left pending, and every other popover as it was. */
  method ShowUntilFetched(p: Popovers, e: ElementId, name: string, response: Value, l: Layout) returns (out: Outcome)
    requires p.Valid() && e in p.data
    requires p.data[e].ajaxFetchNeeded && p.data[e].isAjaxPopover && Truthy(Lookup(p.data[e].options, "url"))
    requires Lookup(p.data[e].options, "anchorPosition") == Str(name) && Normalize(name) in CanonicalNames
    requires PendingShow(e) !in p.bindings && !IsObjectTyped(response)
    modifies p
    ensures p.Valid() && out == Pass
    ensures p.requests == old(p.requests) + [Request(e, SettingsFor(old(p.data[e].options)))]
    ensures e in p.data && p.data == old(p.data)[e := p.data[e]]
    ensures var r := p.data[e];
            && r.renderedContent == response && r.visible
            && Lookup(r.options, "anchorPosition") == Str(Normalize(name))
            && !r.ajaxFetchNeeded && !r.ajaxFetchCued && !r.updateNeeded
    ensures PendingShow(e) !in p.bindings
  {
    ghost var r := p.data[e];
    ShowCuesFetch(e, r);
    FetchCycle(r, name, response, l);
    ghost var u := UpdatedRecord(AnsweredPlain(Shown(r), response), l);
    var i := |p.requests|;
    out := p.Show(e);
    assert p.requests[i].element == e;
    ghost var b := p.bindings;
    out := p.FetchSucceeded(i, response, l);
    assert out == Pass && p.bindings == Keep(b, NotPendingShowOf(e));
    PendingShowWaits(b, e);
    assert p.data == old(p.data)[e := Shown(r)][e := u.(visible := true)];
    StoreTwice(old(p.data), e, Shown(r), u.(visible := true));
  }

  /** `init(params)` on a fresh plugin, where `params` configure an AJAX
      popover whose fetch is needed and not cued: the one element holds it,
      hidden, with its canonical position written back, and nothing is
      requested or pending yet. */
  method InitAwaitingShow(params: Options, name: string, l: Layout) returns (p: Popovers)
    requires var r := InitRecord(params);
             && r.ajaxFetchNeeded && r.isAjaxPopover && !r.ajaxFetchCued && !r.visible
             && Truthy(Lookup(r.options, "url"))
             && Lookup(r.options, "anchorPosition") == Str(name) && Normalize(name) in CanonicalNames
    requires var b := Rebind([], InitRecord(params).options, 1, false);
             b.outcome == Pass && PendingShow(1) !in b.bindings
    ensures fresh(p) && p.Valid() && p.data.Keys == {1}
    ensures p.requests == [] && PendingShow(1) !in p.bindings
    ensures var r := p.data[1];
            && r.ajaxFetchNeeded && r.isAjaxPopover && Truthy(Lookup(r.options, "url"))
            && Lookup(r.options, "anchorPosition") == Str(Normalize(name)) && !r.visible
  {
    p := InitOne(params, l);
    UpdateAwaitsShow(InitRecord(params), name, l);
  }

  /** `init({url: url, trigger: "manual"})`, on a fresh plugin, leaves it so. */
  method InitManualAjax(url: string, l: Layout) returns (p: Popovers)
    requires url != ""
    ensures fresh(p) && p.Valid() && p.data.Keys == {1}
    ensures p.requests == [] && PendingShow(1) !in p.bindings
    ensures var r := p.data[1];
            && r.ajaxFetchNeeded && r.isAjaxPopover && Truthy(Lookup(r.options, "url"))
            && Lookup(r.options, "anchorPosition") == Str("bottom-center") && !r.visible
  {
    ManualAjaxOptions(url);
    ManualAjaxBindings(url);
    NamesUsed();
    p := InitAwaitingShow(ManualAjax(url), "bottom", l);
  }

  /** `init({url: url, trigger: "manual"})`, then `show`, then the request
      answers with the text `response`: exactly one request is issued, and
      afterwards the rendered content is the response and the popover is
      visible. */
  method FetchThenShow(url: string, response: string, l: Layout) returns (content: Value, visible: bool, issued: nat)
    requires url != ""
    ensures content == Str(response) && visible && issued == 1
  {
    var p := InitManualAjax(url, l);
    NamesUsed();
    var out := ShowUntilFetched(p, 1, "bottom-center", Str(response), l);
    content := p.data[1].renderedContent;
    visible := p.data[1].visible;
    issued := |p.requests|;
  }

  /** The anchor at top 50, left 100, 20 wide and 10 high. */
  const Anchor: Layout := Layout(50.0, 100.0, 20.0, 10.0, 1024.0, 768.0)

  /** The two points the runs below use, on that anchor. */
  lemma PointsUsed()
    ensures PointName(Point(Top, Right)) == "top-right"
    ensures PointClasses(Point(Top, Right)) == {"popover-top", "popover-right"}
    ensures PointBox(Point(Top, Right), Anchor)
            == map["top" := Num(50.0), "right" := Str("auto"), "bottom" := Str("auto"), "left" := Num(120.0)]
    ensures PointName(Point(Bottom, Center)) == "bottom-center"
    ensures PointClasses(Point(Bottom, Center)) == {"popover-bottom", "popover-center"}
    ensures PointBox(Point(Bottom, Center), Anchor)
            == map["top" := Num(60.0), "right" := Str("auto"), "bottom" := Str("auto"), "left" := Num(110.0)]
  {
    assert "popover-" + VerticalName(Top) == "popover-top";
    assert "popover-" + HorizontalName(Right) == "popover-right";
    assert "popover-" + VerticalName(Bottom) == "popover-bottom";
    assert "popover-" + HorizontalName(Center) == "popover-center";
  }

  /** `anchorPosition: "north-east"` places the popover at the anchor's
      top-right corner, styled `popover-top popover-right`, and writes
      "top-right" back. */
  lemma NorthEastCorner()
    ensures ResolvePosition(Str("north-east"), Anchor)
            == Ok(Placement(Str("top-right"),
                            map["top" := Num(50.0), "right" := Str("auto"), "bottom" := Str("auto"), "left" := Num(120.0)],
                            {"popover-top", "popover-right"}))
  {
    NamesUsed();
    PointsUsed();
    ResolveNamed("north-east", Point(Top, Right), Anchor);

  }

  /** The `position` option is never read: a popover configured with
      `position: "north-east"` keeps the default `anchorPosition` "bottom" and
      sits at the middle of the anchor's bottom edge. */
  lemma PositionOptionIgnored()
    ensures var o := InitOptions(map["position" := Str("north-east")]);
            && Lookup(o, "anchorPosition") == Str("bottom")
            && ResolvePosition(Lookup(o, "anchorPosition"), Anchor)
               == Ok(Placement(Str("bottom-center"),
                               map["top" := Num(60.0), "right" := Str("auto"), "bottom" := Str("auto"), "left" := Num(110.0)],
                               {"popover-bottom", "popover-center"}))
  {
    var params := map["position" := Str("north-east")];
    InitOptionsLookup(params, "anchorPosition");
    DefaultFlags();
    NamesUsed();
    PointsUsed();
    ResolveNamed("bottom", Point(Bottom, Center), Anchor);

  }
}
