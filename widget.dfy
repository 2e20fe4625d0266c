/** The plugin's per-element state and the methods that move it: `init`,
    `setOptions`, `update`, `updateView`, `updatePosition`, `updateBindings`,
    `fetchAndUpdate`, `show`, `hide`, `showAll`, `hideAll`, and the success
    and error callbacks of the request `fetchAndUpdate` starts.

    The DOM is reduced to what the record says about it: the rendered title
    and content, whether the popover is visible, its inline CSS and its
    directional classes. The request is split in two: `FetchAndUpdate`
    records it, and `FetchSucceeded` or `FetchFailed` later answers it. */
module Widget {
  import opened Common
  import opened JsValues
  import opened Position
  import opened Bindings
  import opened Ajax

  const DefaultMarkup: string :=
    "<div class=\"popover\"><div class=\"arrow\"></div><div class=\"wrap\"><div class=\"title\"></div><div class=\"content\"></div></div></div>"

  /** The `defaults` options. Its `ajaxData` is one object, shared by every
      popover that does not override it; it has identity 0. */
  const Defaults: Options := map[
    "title" := Bool(false),
    "content" := Bool(false),
    "url" := Bool(false),
    "method" := Str("POST"),
    "ajaxData" := Obj(0, map[]),
    "ajaxAsJSON" := Bool(false),
    "titleFillMethod" := Str("plain"),
    "contentFillMethod" := Str("plain"),
    "loadImmediately" := Bool(false),
    "cache" := Bool(true),
    "markup" := Str(DefaultMarkup),
    "classes" := Bool(false),
    "position" := Str("bottom"),
    "anchorPosition" := Str("bottom"),
    "trigger" := Str("clicktouch"),
    "preventDefault" := Bool(true),
    "stopChildrenPropagation" := Bool(true),
    "hideOnHTMLClick" := Bool(true),
    "autoReposition" := Bool(true),
    "anchor" := Bool(false),
    "showSpeed" := Num(0.0),
    "hideSpeed" := Num(160.0)]

  /** The data object stored on an element, with the parts of its popover
      the plugin changes. */
  datatype Record = Record(
    options: Options,
    updateNeeded: bool,
    isAjaxPopover: bool,
    ajaxFetchNeeded: bool,
    ajaxFetchCued: bool,
    renderedTitle: Value,
    renderedContent: Value,
    visible: bool,
    css: map<string, Value>,
    posClasses: set<string>)

  /** A request `fetchAndUpdate` handed to `$.ajax`. */
  datatype Request = Request(element: ElementId, settings: AjaxSettings)

  /** The options whose change asks for a new request. */
  const AjaxKeys: seq<string> := ["url", "ajaxAsJSON", "titleFillMethod", "contentFillMethod", "loadImmediately", "cache"]

  /** The options whose change asks for a new rendering. */
  const ContentKeys: seq<string> := ["markup", "title", "content"]

  /** `data.options[key] != options[key]`. */
  predicate Differs(before: Options, after: Options, key: string) {
    !LooseEquals(Lookup(before, key), Lookup(after, key))
  }

  /** One of the first `n` keys differs. */
  predicate DiffersWithin(before: Options, after: Options, keys: seq<string>, n: nat) {
    exists j :: 0 <= j < n && j < |keys| && Differs(before, after, keys[j])
  }

  predicate AnyDiffers(before: Options, after: Options, keys: seq<string>) {
    DiffersWithin(before, after, keys, |keys|)
  }

  /** The record `init` stores before its first `setOptions`: hidden, with
      no options and nothing rendered or placed yet, and needing a fetch
      exactly when it is an AJAX popover. */
  function FreshRecord(o: Options): (r: Record)
    ensures WellFormed(r) && r.ajaxFetchNeeded == r.isAjaxPopover
    ensures r.options == map[] && !r.visible && !r.updateNeeded && r.css == map[] && r.posClasses == {}
  {
    Record(map[], false, Lookup(o, "url") != Bool(false), Lookup(o, "url") != Bool(false),
           Lookup(o, "loadImmediately") == Bool(true), Str(""), Str(""), false, map[], {})
  }

  /** The options `setOptions(incoming)` stores: `$.extend({}, old, incoming)`. */
  function Merged(current: Options, incoming: Options): Options {
    Extend(Extend(map[], current), incoming)
  }

  /** The record after `setOptions(incoming)`, its rebinding aside. It only
      ever raises the three flags, and changes nothing but them and the
      options. */
  function Configured(r: Record, incoming: Options): (c: Record)
    ensures r.isAjaxPopover ==> c.isAjaxPopover
    ensures r.ajaxFetchNeeded ==> c.ajaxFetchNeeded
    ensures r.updateNeeded ==> c.updateNeeded
    ensures c.ajaxFetchNeeded && !r.ajaxFetchNeeded ==> c.isAjaxPopover
    ensures c.(options := r.options, isAjaxPopover := r.isAjaxPopover,
               ajaxFetchNeeded := r.ajaxFetchNeeded, updateNeeded := r.updateNeeded) == r
  {
    var merged := Merged(r.options, incoming);
    var isAjax := r.isAjaxPopover || Lookup(merged, "url") != Bool(false);
    r.(options := merged,
       isAjaxPopover := isAjax,
       ajaxFetchNeeded := r.ajaxFetchNeeded || (isAjax && AnyDiffers(r.options, merged, AjaxKeys)),
       updateNeeded := r.updateNeeded || AnyDiffers(r.options, merged, ContentKeys))
  }

  /** The options `init` starts from: `$.extend({}, defaults, params)`. */
  function InitOptions(params: Options): Options {
    Merged(Defaults, params)
  }

  /** The record a fresh `init(params)` configures: its first `setOptions`
      applied to the record it stores before it. */
  function InitRecord(params: Options): Record {
    Configured(FreshRecord(InitOptions(params)), InitOptions(params))
  }

  /** The record after `updateView`. */
  function Rendered(r: Record): Record {
    r.(renderedTitle := Lookup(r.options, "title"),
       renderedContent := Lookup(r.options, "content"),
       updateNeeded := false)
  }

  function PositionOf(r: Record, l: Layout): Result<Placement> {
    ResolvePosition(Lookup(r.options, "anchorPosition"), l)
  }

  /** `.css(box)` over the inline style `css`: each property of the box
      is set, except that one whose value is `null` or `undefined` is
      skipped and keeps what the style had. */
  function ApplyCss(css: map<string, Value>, box: map<string, Value>): (c: map<string, Value>)
    ensures forall k :: k in c <==> k in css || (k in box && !IsNullish(box[k]))
    ensures forall k :: k in box && !IsNullish(box[k]) ==> c[k] == box[k]
    ensures forall k :: k in css && (k !in box || IsNullish(box[k])) ==> c[k] == css[k]
  {
    map k | k in css.Keys + box.Keys && (k in css || !IsNullish(box[k])) ::
      if k in box && !IsNullish(box[k]) then box[k] else css[k]
  }

  /** A box with no `null` or `undefined` value is applied whole. */
  lemma ApplyCssWhole(css: map<string, Value>, box: map<string, Value>)
    requires forall k :: k in box ==> !IsNullish(box[k])
    ensures ApplyCss(css, box) == css + box
  {
  }

  /** The record after a successful `updatePosition`: the normalised name is
      written back, the box is applied over the old inline style and the six
      directional classes are replaced. */
  function Placed(r: Record, p: Placement): Record {
    r.(options := r.options["anchorPosition" := p.anchorPosition],
       css := ApplyCss(r.css, p.css),
       posClasses := (r.posClasses - DirectionalClasses) + p.classes)
  }

  /** The record after `updatePosition`. A failure comes before any CSS or
      class change but after the alias step, so what that step found (an
      inherited member, for an inherited name) stays written back. */
  function Positioned(r: Record, l: Layout): (u: Record)
    ensures u.(options := r.options, css := r.css, posClasses := r.posClasses) == r
    ensures forall k :: k != "anchorPosition" ==> Lookup(u.options, k) == Lookup(r.options, k)
  {
    match PositionOf(r, l)
    case Ok(p) => Placed(r, p)
    case Failure(_) => FailedPlacement(r)
  }

  /** The record a failing `updatePosition` leaves. */
  function FailedPlacement(r: Record): Record {
    match AliasWriteBack(Lookup(r.options, "anchorPosition"))
    case Some(v) => r.(options := r.options["anchorPosition" := v])
    case None => r
  }

  function PositionOutcome(r: Record, l: Layout): Outcome {
    match PositionOf(r, l)
    case Ok(_) => Pass
    case Failure(err) => Fail(err)
  }

  /** `update`'s first step. */
  function ViewUpdated(r: Record): Record {
    if r.updateNeeded then Rendered(r) else r
  }

  /** `update`'s second step: the fetch, when one is cued. */
  function CuedFetch(r: Record): Outcome {
    if r.ajaxFetchCued then FetchGuard(r.isAjaxPopover, r.options) else Pass
  }

  /** The record after `update`: a failed cued fetch aborts before positioning. */
  function UpdatedRecord(r: Record, l: Layout): Record {
    var r1 := ViewUpdated(r);
    if CuedFetch(r1).Fail? then r1 else Positioned(r1, l)
  }

  function UpdateOutcome(r: Record, l: Layout): Outcome {
    var r1 := ViewUpdated(r);
    if CuedFetch(r1).Fail? then CuedFetch(r1) else PositionOutcome(r1, l)
  }

  /** The requests `update` issues. */
  function UpdateRequests(e: ElementId, r: Record): seq<Request> {
    if r.ajaxFetchCued && FetchGuard(r.isAjaxPopover, r.options).Pass?
    then [Request(e, SettingsFor(r.options))] else []
  }

  /** The record after `show`: cue a fetch when one is needed, else fade in. */
  function Shown(r: Record): Record {
    if r.ajaxFetchNeeded then r.(ajaxFetchCued := true) else r.(visible := true)
  }

  /** `show` fails only when it needs a fetch and the fetch guards refuse it. */
  function ShowOutcome(r: Record): Outcome {
    if r.ajaxFetchNeeded then FetchGuard(r.isAjaxPopover, r.options) else Pass
  }

  predicate ShowFails(r: Record) {
    ShowOutcome(r).Fail?
  }

  /** The one-shot listener `show` binds on `e` when it fetches. */
  function ShowBindings(e: ElementId, r: Record): seq<Binding> {
    if r.ajaxFetchNeeded then [PendingShow(e)] else []
  }

  /** The request `show` issues on `e`, when it fetches and the guards pass. */
  function ShowRequest(e: ElementId, r: Record): seq<Request> {
    if r.ajaxFetchNeeded && FetchGuard(r.isAjaxPopover, r.options).Pass?
    then [Request(e, SettingsFor(r.options))] else []
  }

  function Hidden(r: Record): Record {
    r.(visible := false)
  }

  /** The success callback's plain-text branch, before its `update`. */
  function AnsweredPlain(r: Record, response: Value): Record {
    r.(options := r.options["content" := response]["titleFillMethod" := Str("plain")]["contentFillMethod" := Str("ajax")],
       updateNeeded := true,
       ajaxFetchNeeded := false,
       ajaxFetchCued := false)
  }

  /** The one-shot listener `show` binds before it fetches. */
  function PendingShow(e: ElementId): Binding {
    Binding(Element(e), "ajaxFetchComplete", ShowWhenFetched)
  }

  /** The directional classes are either none or one point's two. */
  ghost predicate ClassesWellFormed(c: set<string>) {
    c == {} || exists p :: c == PointClasses(p)
  }

  /** What every stored record keeps: a needed fetch is only ever needed by
      an AJAX popover. (A cued fetch is not: `loadImmediately` cues one on
      a popover without a url.) */
  ghost predicate WellFormed(r: Record) {
    (r.ajaxFetchNeeded ==> r.isAjaxPopover) && ClassesWellFormed(r.posClasses)
  }

  /** Each element of the registry exactly once: the document order jQuery
      keeps a collection in, which the model takes as given. */
  ghost predicate DocumentOrder(order: seq<ElementId>, elements: set<ElementId>) {
    (forall i, j :: 0 <= i < j < |order| ==> order[i] != order[j])
    && (forall x :: x in order <==> x in elements)
  }

  /** The listeners `show` binds on the given elements, one for each that
      needs a fetch. */
  function PendingShows(order: seq<ElementId>, d: map<ElementId, Record>): (bs: seq<Binding>)
    ensures forall b :: b in bs ==> exists x :: x in order && b == PendingShow(x)
    ensures |bs| <= |order|
  {
    if order == [] then []
    else
      var last := order[|order| - 1];
      var rest := PendingShows(order[..|order| - 1], d);
      assert forall x :: x in order[..|order| - 1] ==> x in order;
      rest + (if last in d then ShowBindings(last, d[last]) else [])
  }

  /** The requests `show` issues on the given elements. */
  function ShowRequests(order: seq<ElementId>, d: map<ElementId, Record>): (rs: seq<Request>)
    ensures forall i :: 0 <= i < |rs| ==> rs[i].element in order && rs[i].element in d
    ensures forall i :: 0 <= i < |rs| ==> d[rs[i].element].ajaxFetchNeeded
    ensures |rs| <= |order|
  {
    if order == [] then []
    else
      var last := order[|order| - 1];
      var rest := ShowRequests(order[..|order| - 1], d);
      assert forall x :: x in order[..|order| - 1] ==> x in order;
      rest + (if last in d then ShowRequest(last, d[last]) else [])
  }

  /** One of `setOptions`' `$.each` loops: raise `flag` when any of `keys`
      differs between the old and the merged options; never lower it. */
  method RaiseOnChange(flag: bool, before: Options, after: Options, keys: seq<string>) returns (raised: bool)
    ensures raised <==> flag || AnyDiffers(before, after, keys)
  {
    raised := flag;
    var i := 0;
    while i < |keys|
      invariant 0 <= i <= |keys|
      invariant raised <==> flag || DiffersWithin(before, after, keys, i)
    {
      if Differs(before, after, keys[i]) {
        raised := true;
      }
      i := i + 1;
    }
  }

  /** The module-level state: the data of every element, the `popovers`
      registry, the bound handlers, the requests issued so far and the ones
      already answered. `touchDetected` is what the touch detector
      reports. */
  class Popovers {
    const touchDetected: bool
    var data: map<ElementId, Record>
    var registry: set<ElementId>
    var bindings: seq<Binding>
    var requests: seq<Request>
    var completed: set<nat>

    ghost predicate Valid()
      reads this
    {
      && registry == data.Keys
      && (forall e :: e in data ==> WellFormed(data[e]))
      && (forall i :: 0 <= i < |requests| ==> requests[i].element in data)
      && (forall i :: i in completed ==> i < |requests|)
    }

    constructor (touchDetected: bool)
      ensures Valid()
      ensures this.touchDetected == touchDetected
      ensures data == map[] && registry == {} && bindings == [] && requests == [] && completed == {}
    {
      this.touchDetected := touchDetected;
      data := map[];
      registry := {};
      bindings := [];
      requests := [];
      completed := {};
    }

    /** What `init(params)` on `e` does, from the state before the call to
        the state after it, ending with outcome `out`. */
    twostate predicate InitEffect(e: ElementId, params: Options, l: Layout, out: Outcome)
      reads this
    {
      && (e in old(data) ==> out == Fail(AlreadyInitialized) && unchanged(this))
      && (e !in old(data) ==>
            var r1 := InitRecord(params);
            var rb := Rebind(old(bindings), r1.options, e, touchDetected);
            && registry == old(registry) + {e}
            && bindings == rb.bindings
            && completed == old(completed)
            && (rb.outcome.Fail? ==> out == rb.outcome && data == old(data)[e := r1] && requests == old(requests))
            && (rb.outcome.Pass? ==>
                  && out == UpdateOutcome(r1, l)
                  && data == old(data)[e := UpdatedRecord(r1, l)]
                  && requests == old(requests) + UpdateRequests(e, r1)))
    }

    /** `init(params)`: fails on an element that already has data; otherwise
        stores a fresh record, registers the element, then runs `setOptions`
        with the merged options and, when that succeeds, `update`. */
    method Init(e: ElementId, params: Options, l: Layout) returns (out: Outcome)
      requires Valid()
      modifies this
      ensures Valid()
      ensures InitEffect(e, params, l, out)
    {
      if e in data {
        return Fail(AlreadyInitialized);
      }
      var o := InitOptions(params);
      Register(e, FreshRecord(o));
      ghost var r1 := InitRecord(params);
      out := SetOptions(e, o);
      StoreTwice(old(data), e, FreshRecord(o), r1);
      if out.Fail? {
        return;
      }
      out := Update(e, l);
      StoreTwice(old(data), e, r1, UpdatedRecord(r1, l));
    }

    /** `data(e, r)` on an element that already has data. */
    method Store(e: ElementId, r: Record)
      requires Valid() && e in data && WellFormed(r)
      modifies this
      ensures Valid()
      ensures data == old(data)[e := r]
      ensures registry == old(registry) && bindings == old(bindings)
      ensures requests == old(requests) && completed == old(completed)
    {
      data := data[e := r];
    }

    /** Bind one more handler. */
    method Bind(b: Binding)
      requires Valid()
      modifies this
      ensures Valid()
      ensures bindings == old(bindings) + [b]
      ensures data == old(data) && registry == old(registry) && requests == old(requests) && completed == old(completed)
    {
      bindings := bindings + [b];
    }

    /** Mark request `i` as answered. */
    method Complete(i: nat)
      requires Valid() && i < |requests|
      modifies this
      ensures Valid()
      ensures completed == old(completed) + {i}
      ensures data == old(data) && registry == old(registry) && bindings == old(bindings) && requests == old(requests)
    {
      completed := completed + {i};
    }

    /** `data(e, r)` and `popovers = popovers.add(e)`, the first steps of
        `init`. */
    method Register(e: ElementId, r: Record)
      requires Valid() && WellFormed(r)
      modifies this
      ensures Valid()
      ensures data == old(data)[e := r] && registry == old(registry) + {e}
      ensures bindings == old(bindings) && requests == old(requests) && completed == old(completed)
    {
      data := data[e := r];
      registry := registry + {e};
    }

    /** `setOptions(incoming)`: merge, raise the flags the changed keys ask
        for, store the options, then rebind. */
    method SetOptions(e: ElementId, incoming: Options) returns (out: Outcome)
      requires Valid()
      modifies this
      ensures Valid()
      ensures e !in old(data) ==> out == Fail(NotInitialized) && unchanged(this)
      ensures e in old(data) ==>
        var r := Configured(old(data)[e], incoming);
        var rb := Rebind(old(bindings), r.options, e, touchDetected);
        && data == old(data)[e := r]
        && bindings == rb.bindings
        && out == rb.outcome
      ensures registry == old(registry) && requests == old(requests) && completed == old(completed)
    {
      if e !in data {
        return Fail(NotInitialized);
      }
      var r := data[e];
      var merged := Merged(r.options, incoming);
      var isAjax := r.isAjaxPopover;
      if Lookup(merged, "url") != Bool(false) {
        isAjax := true;
      }
      var fetchNeeded := r.ajaxFetchNeeded;
      if isAjax {
        fetchNeeded := RaiseOnChange(fetchNeeded, r.options, merged, AjaxKeys);
      }
      var updateNeeded := RaiseOnChange(r.updateNeeded, r.options, merged, ContentKeys);
      r := r.(options := merged, isAjaxPopover := isAjax, ajaxFetchNeeded := fetchNeeded, updateNeeded := updateNeeded);
      Store(e, r);
      out := UpdateBindings(e);
    }

    /** `updateBindings`: replace the element's and popover's handlers. */
    method UpdateBindings(e: ElementId) returns (out: Outcome)
      requires Valid()
      modifies this
      ensures Valid()
      ensures e !in old(data) ==> out == Fail(NotInitialized) && unchanged(this)
      ensures e in old(data) ==>
        var rb := Rebind(old(bindings), old(data)[e].options, e, touchDetected);
        bindings == rb.bindings && out == rb.outcome
      ensures data == old(data) && registry == old(registry) && requests == old(requests) && completed == old(completed)
    {
      if e !in data {
        return Fail(NotInitialized);
      }
      var o := data[e].options;
      bindings := Unbind(bindings, e) + OptionBindings(o, e);
      match TriggerBindings(Lookup(o, "trigger"), e, touchDetected)
      case Ok(tb) =>
        bindings := bindings + tb;
        out := Pass;
      case Failure(err) =>
        out := Fail(err);
    }

    /** `updateView`: render title and content, clear `updateNeeded`. */
    method UpdateView(e: ElementId) returns (out: Outcome)
      requires Valid()
      modifies this
      ensures Valid()
      ensures e !in old(data) ==> out == Fail(NotInitialized) && unchanged(this)
      ensures e in old(data) ==> out == Pass && data == old(data)[e := Rendered(old(data)[e])]
      ensures registry == old(registry) && bindings == old(bindings)
      ensures requests == old(requests) && completed == old(completed)
    {
      if e !in data {
        return Fail(NotInitialized);
      }
      data := data[e := Rendered(data[e])];
      out := Pass;
    }

    /** `updatePosition`, with the anchor's geometry `l`. */
    method UpdatePosition(e: ElementId, l: Layout) returns (out: Outcome)
      requires Valid()
      modifies this
      ensures Valid()
      ensures e !in old(data) ==> out == Fail(NotInitialized) && unchanged(this)
      ensures e in old(data) ==>
        out == PositionOutcome(old(data)[e], l) && data == old(data)[e := Positioned(old(data)[e], l)]
      ensures registry == old(registry) && bindings == old(bindings)
      ensures requests == old(requests) && completed == old(completed)
    {
      if e !in data {
        return Fail(NotInitialized);
      }
      var r := data[e];
      match ResolvePosition(Lookup(r.options, "anchorPosition"), l)
      case Failure(err) =>
        if AliasWriteBack(Lookup(r.options, "anchorPosition")).Some? {
          Store(e, FailedPlacement(r));
        }
        out := Fail(err);
      case Ok(p) =>
        PlacedWellFormed(r, p);
        Store(e, Placed(r, p));
        out := Pass;
    }

    /** `fetchAndUpdate`: check the two guards, then issue the request. */
    method FetchAndUpdate(e: ElementId) returns (out: Outcome)
      requires Valid()
      modifies this
      ensures Valid()
      ensures e !in old(data) ==> out == Fail(NotInitialized) && unchanged(this)
      ensures e in old(data) ==>
        var r := old(data)[e];
        && out == FetchGuard(r.isAjaxPopover, r.options)
        && requests == old(requests) + (if out.Pass? then [Request(e, SettingsFor(r.options))] else [])
      ensures data == old(data) && registry == old(registry) && bindings == old(bindings) && completed == old(completed)
    {
      if e !in data {
        return Fail(NotInitialized);
      }
      var r := data[e];
      if !r.isAjaxPopover {
        return Fail(NotAjaxPopover);
      }
      if !Truthy(Lookup(r.options, "url")) {
        return Fail(MissingUrl);
      }
      requests := requests + [Request(e, SettingsFor(r.options))];
      out := Pass;
    }

    /** `update`: render when needed, fetch when cued, then position. */
    method Update(e: ElementId, l: Layout) returns (out: Outcome)
      requires Valid()
      modifies this
      ensures Valid()
      ensures e !in old(data) ==> out == Fail(NotInitialized) && unchanged(this)
      ensures e in old(data) ==>
        var r := old(data)[e];
        && out == UpdateOutcome(r, l)
        && data == old(data)[e := UpdatedRecord(r, l)]
        && requests == old(requests) + UpdateRequests(e, r)
      ensures registry == old(registry) && bindings == old(bindings) && completed == old(completed)
    {
      if e !in data {
        return Fail(NotInitialized);
      }
      ghost var r := data[e];
      ghost var r1 := ViewUpdated(r);
      if data[e].updateNeeded {
        out := UpdateView(e);
      }
      assert data == old(data)[e := r1];
      if data[e].ajaxFetchCued {
        out := FetchAndUpdate(e);
        if out.Fail? {
          assert UpdatedRecord(r, l) == r1 && UpdateOutcome(r, l) == out;
          return;
        }
      }
      assert requests == old(requests) + UpdateRequests(e, r);
      assert UpdatedRecord(r, l) == Positioned(r1, l) && UpdateOutcome(r, l) == PositionOutcome(r1, l);
      out := UpdatePosition(e, l);
      StoreTwice(old(data), e, r1, UpdatedRecord(r, l));
    }

    /** `show`: when a fetch is needed, cue it, bind the one-shot re-show and
        fetch; otherwise fade the popover in. */
    method Show(e: ElementId) returns (out: Outcome)
      requires Valid()
      modifies this
      ensures Valid()
      ensures e !in old(data) ==> out == Fail(NotInitialized) && unchanged(this)
      ensures e in old(data) ==>
        var r := old(data)[e];
        && data == old(data)[e := Shown(r)]
        && bindings == old(bindings) + ShowBindings(e, r)
        && out == ShowOutcome(r)
        && requests == old(requests) + ShowRequest(e, r)
      ensures registry == old(registry) && completed == old(completed)
    {
      if e !in data {
        return Fail(NotInitialized);
      }
      var r := data[e];
      if r.ajaxFetchNeeded {
        Store(e, r.(ajaxFetchCued := true));
        Bind(PendingShow(e));
        out := FetchAndUpdate(e);
      } else {
        Store(e, r.(visible := true));
        out := Pass;
      }
    }

    /** `hide`: fade the popover out. */
    method Hide(e: ElementId) returns (out: Outcome)
      requires Valid()
      modifies this
      ensures Valid()
      ensures e !in old(data) ==> out == Fail(NotInitialized) && unchanged(this)
      ensures e in old(data) ==> out == Pass && data == old(data)[e := Hidden(old(data)[e])]
      ensures registry == old(registry) && bindings == old(bindings)
      ensures requests == old(requests) && completed == old(completed)
    {
      if e !in data {
        return Fail(NotInitialized);
      }
      data := data[e := data[e].(visible := false)];
      out := Pass;
    }

    /** `hideAll`: `hide` on every registered element. */
    method HideAll()
      requires Valid()
      modifies this
      ensures Valid()
      ensures data.Keys == old(data).Keys
      ensures forall x :: x in old(data) ==> data[x] == Hidden(old(data)[x])
      ensures registry == old(registry) && bindings == old(bindings)
      ensures requests == old(requests) && completed == old(completed)
    {
      var todo := registry;
      HiddenOutsideAll(data);
      while todo != {}
        invariant Valid()
        invariant todo <= registry
        invariant data == HiddenOutside(old(data), todo)
        invariant registry == old(registry) && bindings == old(bindings)
        invariant requests == old(requests) && completed == old(completed)
        decreases |todo|
      {
        var x :| x in todo;
        HiddenStep(old(data), todo, x);
        var _ := Hide(x);
        todo := todo - {x};
      }
    }

    /** `showAll`: `show` on every registered element in document order,
        stopping at the first that fails. `touched` counts the elements
        `show` ran on, the failing one included. */
    method ShowAll(order: seq<ElementId>) returns (out: Outcome, ghost touched: nat)
      requires Valid()
      requires DocumentOrder(order, registry)
      modifies this
      ensures Valid()
      ensures touched <= |order|
      ensures out.Pass? ==> touched == |order|
      ensures out.Pass? ==> forall k :: 0 <= k < |order| ==> !ShowFails(old(data)[order[k]])
      ensures out.Fail? ==>
        && 0 < touched
        && ShowFails(old(data)[order[touched - 1]])
        && out == ShowOutcome(old(data)[order[touched - 1]])
        && forall k :: 0 <= k < touched - 1 ==> !ShowFails(old(data)[order[k]])
      ensures data == ShownOn(old(data), order[..touched])
      ensures bindings == old(bindings) + PendingShows(order[..touched], old(data))
      ensures requests == old(requests) + ShowRequests(order[..touched], old(data))
      ensures registry == old(registry) && completed == old(completed)
    {
      var i := 0;
      out := Pass;
      ShownOnNone(data, order);
      while i < |order|
        invariant 0 <= i <= |order|
        invariant Valid() && out.Pass?
        invariant forall k :: 0 <= k < i ==> !ShowFails(old(data)[order[k]])
        invariant data == ShownOn(old(data), order[..i])
        invariant bindings == old(bindings) + PendingShows(order[..i], old(data))
        invariant requests == old(requests) + ShowRequests(order[..i], old(data))
        invariant registry == old(registry) && completed == old(completed)
      {
        out := ShowNext(order, i, old(data), old(bindings), old(requests));
        if out.Fail? {
          touched := i + 1;
          return;
        }
        i := i + 1;
      }
      assert order[..i] == order;
      touched := i;
    }

    /** One step of `showAll`'s walk: `show` on the `i`-th element, with
        `d0`, `b0` and `q0` the records, bindings and requests before the
        walk began. */
    method ShowNext(order: seq<ElementId>, i: nat, ghost d0: map<ElementId, Record>,
                    ghost b0: seq<Binding>, ghost q0: seq<Request>) returns (out: Outcome)
      requires Valid()
      requires DocumentOrder(order, d0.Keys) && i < |order|
      requires data == ShownOn(d0, order[..i])
      requires bindings == b0 + PendingShows(order[..i], d0)
      requires requests == q0 + ShowRequests(order[..i], d0)
      modifies this
      ensures Valid()
      ensures out == ShowOutcome(d0[order[i]])
      ensures data == ShownOn(d0, order[..i + 1])
      ensures bindings == b0 + PendingShows(order[..i + 1], d0)
      ensures requests == q0 + ShowRequests(order[..i + 1], d0)
      ensures registry == old(registry) && completed == old(completed)
    {
      var x := order[i];
      assert x in d0 && x !in order[..i];
      ShownOnStep(d0, order, i);
      ShowStepAt(order, i, d0);
      ghost var pb := PendingShows(order[..i], d0);
      ghost var pq := ShowRequests(order[..i], d0);
      out := Show(x);
      ConcatAssoc(b0, pb, ShowBindings(x, d0[x]));
      ConcatAssoc(q0, pq, ShowRequest(x, d0[x]));
    }

    /** The success callback of request `i`. An object-typed response takes
        the JSON branch, which throws on the undeclared `reponse` before it
        changes anything. Otherwise the response becomes the content, both
        fetch flags are cleared, `update` runs and, when it succeeds, every
        pending one-shot re-show of the element fires once. */
    method FetchSucceeded(i: nat, response: Value, l: Layout) returns (out: Outcome)
      requires Valid()
      requires i < |requests| && i !in completed
      modifies this
      ensures Valid()
      ensures completed == old(completed) + {i}
      ensures registry == old(registry) && requests == old(requests)
      ensures IsObjectTyped(response) ==>
        out == Fail(UndefinedReference) && data == old(data) && bindings == old(bindings)
      ensures !IsObjectTyped(response) ==>
        var e := old(requests)[i].element;
        var r1 := AnsweredPlain(old(data)[e], response);
        var r2 := UpdatedRecord(r1, l);
        && out == UpdateOutcome(r1, l)
        && (out.Fail? ==> data == old(data)[e := r2] && bindings == old(bindings))
        && (out.Pass? ==>
              && bindings == Keep(old(bindings), NotPendingShowOf(e))
              && data == old(data)[e := if PendingShow(e) in old(bindings) then r2.(visible := true) else r2])
    {
      Complete(i);
      var e := requests[i].element;
      if IsObjectTyped(response) {
        return Fail(UndefinedReference);
      }
      out := AnswerPlain(e, response, l);
    }

    /** The plain-text branch of the success callback on element `e`. */
    method AnswerPlain(e: ElementId, response: Value, l: Layout) returns (out: Outcome)
      requires Valid() && e in data
      modifies this
      ensures Valid()
      ensures registry == old(registry) && requests == old(requests) && completed == old(completed)
      ensures var r1 := AnsweredPlain(old(data)[e], response);
        var r2 := UpdatedRecord(r1, l);
        && out == UpdateOutcome(r1, l)
        && (out.Fail? ==> data == old(data)[e := r2] && bindings == old(bindings))
        && (out.Pass? ==>
              && bindings == Keep(old(bindings), NotPendingShowOf(e))
              && data == old(data)[e := if PendingShow(e) in old(bindings) then r2.(visible := true) else r2])
    {
      var r1 := AnsweredPlain(data[e], response);
      Store(e, r1);
      out := Update(e, l);
      ghost var r2 := UpdatedRecord(r1, l);
      StoreTwice(old(data), e, r1, r2);
      if out.Fail? {
        return;
      }
      UpdatedRecordFlags(r1, l);
      FireFetchComplete(e);
      StoreTwice(old(data), e, r2, if PendingShow(e) in old(bindings) then r2.(visible := true) else r2);
    }

    /** The success callback's `trigger('ajaxFetchComplete')`: every one-shot
        re-show bound on the element is taken off and runs `show`, which,
        with no fetch needed any more, fades the popover in. */
    method FireFetchComplete(e: ElementId)
      requires Valid()
      requires e in data && !data[e].ajaxFetchNeeded
      modifies this
      ensures Valid()
      ensures bindings == Keep(old(bindings), NotPendingShowOf(e))
      ensures data == old(data)[e := if PendingShow(e) in old(bindings) then old(data)[e].(visible := true) else old(data)[e]]
      ensures registry == old(registry) && requests == old(requests) && completed == old(completed)
    {
      ghost var r := data[e];
      var waiting := Keep(bindings, PendingShowOf(e));
      bindings := Keep(bindings, NotPendingShowOf(e));
      var k := 0;
      while k < |waiting|
        invariant 0 <= k <= |waiting|
        invariant Valid()
        invariant e in data && data == old(data)[e := if k > 0 then r.(visible := true) else r]
        invariant bindings == Keep(old(bindings), NotPendingShowOf(e))
        invariant registry == old(registry) && requests == old(requests) && completed == old(completed)
      {
        ghost var current := data[e];
        var _ := Show(e);
        StoreTwice(old(data), e, current, r.(visible := true));
        k := k + 1;
      }
      PendingShowWaits(old(bindings), e);
    }

    /** The error callback of request `i`: it throws at once, so nothing
        changes and the pending re-shows stay bound. */
    method FetchFailed(i: nat) returns (out: Outcome)
      requires Valid()
      requires i < |requests| && i !in completed
      modifies this
      ensures Valid()
      ensures out == Fail(AjaxFailed)
      ensures completed == old(completed) + {i}
      ensures data == old(data) && registry == old(registry) && bindings == old(bindings) && requests == old(requests)
    {
      completed := completed + {i};
      out := Fail(AjaxFailed);
    }
  }

  // ---- Lemmas -------------------------------------------------------------

  /** The records after `hide` ran on every element outside `todo`. */
  ghost function HiddenOutside(d: map<ElementId, Record>, todo: set<ElementId>): (h: map<ElementId, Record>)
    ensures h.Keys == d.Keys
    ensures todo == {} ==> forall x :: x in d ==> h[x] == Hidden(d[x])
  {
    map x | x in d :: if x in todo then d[x] else Hidden(d[x])
  }

  /** Before `hideAll` walks the registry nothing is hidden. */
  lemma HiddenOutsideAll(d: map<ElementId, Record>)
    ensures HiddenOutside(d, d.Keys) == d
  {
  }

  /** Hiding one more element of `todo`. */
  lemma HiddenStep(d: map<ElementId, Record>, todo: set<ElementId>, x: ElementId)
    requires x in todo && x in d
    ensures HiddenOutside(d, todo)[x] == d[x]
    ensures HiddenOutside(d, todo - {x}) == HiddenOutside(d, todo)[x := Hidden(d[x])]
  {
  }

  /** The records after `show` ran on the elements of `prefix`. */
  ghost function ShownOn(d: map<ElementId, Record>, prefix: seq<ElementId>): map<ElementId, Record> {
    map x | x in d :: if x in prefix then Shown(d[x]) else d[x]
  }

  /** Before the walk nothing is shown. */
  lemma ShownOnNone(d: map<ElementId, Record>, order: seq<ElementId>)
    ensures ShownOn(d, order[..0]) == d
  {
  }

  /** One more element of `showAll`'s walk: when the element is not among
      the ones before it, it still has its old record, and afterwards it has
      the shown one. */
  lemma ShownOnStep(d: map<ElementId, Record>, order: seq<ElementId>, i: nat)
    requires i < |order| && order[i] in d && order[i] !in order[..i]
    ensures ShownOn(d, order[..i])[order[i]] == d[order[i]]
    ensures ShownOn(d, order[..i + 1]) == ShownOn(d, order[..i])[order[i] := Shown(d[order[i]])]
  {
    assert order[..i + 1] == order[..i] + [order[i]];
  }

  /** One more element of `showAll`'s walk. */
  lemma ShowStepAt(order: seq<ElementId>, i: nat, d: map<ElementId, Record>)
    requires i < |order|
    requires order[i] in d
    ensures PendingShows(order[..i + 1], d) == PendingShows(order[..i], d) + ShowBindings(order[i], d[order[i]])
    ensures ShowRequests(order[..i + 1], d) == ShowRequests(order[..i], d) + ShowRequest(order[i], d[order[i]])
  {
    assert order[..i + 1][..i] == order[..i];
  }

  /** `update` leaves the fetch flags and the visibility alone and always
      ends with `updateNeeded` cleared, whether it succeeds or not. */
  lemma UpdatedRecordFlags(r: Record, l: Layout)
    ensures UpdatedRecord(r, l).isAjaxPopover == r.isAjaxPopover
    ensures UpdatedRecord(r, l).ajaxFetchNeeded == r.ajaxFetchNeeded
    ensures UpdatedRecord(r, l).ajaxFetchCued == r.ajaxFetchCued
    ensures UpdatedRecord(r, l).visible == r.visible
    ensures !UpdatedRecord(r, l).updateNeeded
  {
  }

  /** The success callback fires the re-shows exactly when one is bound, and
      none is left bound after it. */
  lemma PendingShowWaits(bs: seq<Binding>, e: ElementId)
    ensures Keep(bs, PendingShowOf(e)) != [] <==> PendingShow(e) in bs
    ensures PendingShow(e) !in Keep(bs, NotPendingShowOf(e))
  {
    var waiting := Keep(bs, PendingShowOf(e));
    if waiting != [] {
      assert waiting[0] in waiting;
    }
  }

  lemma ConcatAssoc<T>(a: seq<T>, b: seq<T>, c: seq<T>)
    ensures (a + b) + c == a + (b + c)
  {
  }

  /** Storing twice under one key keeps the second value. */
  lemma StoreTwice<K, V>(m: map<K, V>, k: K, first: V, second: V)
    ensures m[k := first][k := second] == m[k := second]
  {
  }

  /** `updatePosition` keeps the classes well formed. */
  lemma PlacedWellFormed(r: Record, p: Placement)
    requires WellFormed(r)
    requires p.classes == {} || exists q :: p.classes == PointClasses(q)
    ensures WellFormed(Placed(r, p))
    ensures Placed(r, p).posClasses == p.classes
  {
    if r.posClasses != {} {
      var q :| r.posClasses == PointClasses(q);
      PointClassesDirectional(q);
    }
  }
}
