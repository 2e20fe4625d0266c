/** What the per-element record goes through: the flags `init` leaves, the
    change detection of `setOptions`, the write-back and the error case of
    `updatePosition`, and the show → fetch → update → show cycle of an AJAX
    popover. Each lemma is about the record functions the methods of
    `Widget.Popovers` are specified by. */
module Lifecycle {
  import opened Common
  import opened JsValues
  import opened Position
  import opened Ajax
  import opened Bindings
  import opened Widget

  /** `==` is reflexive on every value the model has (there is no NaN). */
  lemma LooseEqualsReflexive(v: Value)
    ensures LooseEquals(v, v)
  {
    match v
    case Bool(b) =>
      assert ToPrimitive(v) == Num(if b then 1.0 else 0.0);
    case _ =>
  }

  /** Every key of the merged options reads the caller's value when the
      caller gave one, and the default otherwise. */
  lemma InitOptionsLookup(params: Options, k: string)
    ensures Lookup(InitOptions(params), k)
            == if Lookup(params, k) != Undefined then Lookup(params, k) else Lookup(Defaults, k)
  {
    LookupExtend(map[], Defaults, k);
    LookupExtend(Extend(map[], Defaults), params, k);
  }

  /** Merging into the empty record's `{}` options changes no lookup. */
  lemma MergedOverEmpty(o: Options, k: string)
    ensures Lookup(Merged(map[], o), k) == Lookup(o, k)
  {
    LookupExtend(map[], map[], k);
    LookupExtend(Extend(map[], map[]), o, k);
  }

  /** The record a fresh `init` stores before its `update`: the merged
      options; `isAjaxPopover` and `ajaxFetchNeeded` both `url !== false`
      (the first `setOptions` diffs against `{}`, but it only raises a flag
      the fresh record already has); `ajaxFetchCued` exactly when
      `loadImmediately === true`. */
  lemma InitConfigures(params: Options)
    ensures var o := InitOptions(params);
            var r1 := Configured(FreshRecord(o), o);
            && (forall k :: Lookup(r1.options, k) == Lookup(o, k))
            && r1.isAjaxPopover == (Lookup(o, "url") != Bool(false))
            && r1.ajaxFetchNeeded == r1.isAjaxPopover
            && r1.ajaxFetchCued == (Lookup(o, "loadImmediately") == Bool(true))
            && !r1.visible
  {
    var o := InitOptions(params);
    forall k ensures Lookup(Configured(FreshRecord(o), o).options, k) == Lookup(o, k) {
      MergedOverEmpty(o, k);
    }
    MergedOverEmpty(o, "url");
  }

  /** `update` at the end of `init` leaves the view up to date and the three
      other flags as the configured record had them; it issues the
      `loadImmediately` request exactly when that is cued and the fetch
      guards pass. */
  lemma InitUpdates(e: ElementId, params: Options, l: Layout)
    ensures var o := InitOptions(params);
            var r1 := Configured(FreshRecord(o), o);
            var r2 := UpdatedRecord(r1, l);
            && !r2.updateNeeded
            && r2.isAjaxPopover == (Lookup(o, "url") != Bool(false))
            && r2.ajaxFetchNeeded == r2.isAjaxPopover
            && r2.ajaxFetchCued == (Lookup(o, "loadImmediately") == Bool(true))
            && !r2.visible
            && (UpdateRequests(e, r1) != [] <==>
                  Lookup(o, "loadImmediately") == Bool(true) && Lookup(o, "url") != Bool(false)
                  && Truthy(Lookup(o, "url")))
  {
    var o := InitOptions(params);
    InitConfigures(params);
    var r1 := Configured(FreshRecord(o), o);
    UpdatedRecordFlags(r1, l);
    MergedOverEmpty(o, "url");
  }

  /** The defaults of the options the flags depend on: no url, no immediate
      load, and the anchor position "bottom". */
  lemma DefaultFlags()
    ensures Lookup(Defaults, "url") == Bool(false)
    ensures Lookup(Defaults, "loadImmediately") == Bool(false)
    ensures Lookup(Defaults, "anchorPosition") == Str("bottom")
  {
  }

  /** A popover created with `loadImmediately: true` and no url (none
      given, or `false`) has a cued fetch but is no AJAX popover: the cue
      does not imply `isAjaxPopover`, and the `update` of `init` fails on the
      fetch guard without issuing a request. */
  lemma CueWithoutUrl(e: ElementId, params: Options, l: Layout)
    requires Lookup(params, "loadImmediately") == Bool(true)
    requires Lookup(params, "url") == Undefined || Lookup(params, "url") == Bool(false)
    ensures var r1 := InitRecord(params);
            && r1.ajaxFetchCued && !r1.isAjaxPopover
            && UpdateOutcome(r1, l) == Fail(NotAjaxPopover)
            && UpdateRequests(e, r1) == []
  {
    DefaultFlags();
    InitOptionsLookup(params, "url");
    InitOptionsLookup(params, "loadImmediately");
    InitConfigures(params);
    var r1 := InitRecord(params);
    assert r1.ajaxFetchCued && !r1.isAjaxPopover;
    var v := ViewUpdated(r1);
    assert v.ajaxFetchCued && !v.isAjaxPopover;
    assert CuedFetch(v) == Fail(NotAjaxPopover);
  }

  // ---- setOptions ---------------------------------------------------------

  /** One of the keys in `keys` differs. */
  lemma AnyDiffersAt(before: Options, after: Options, keys: seq<string>)
    ensures AnyDiffers(before, after, keys) <==> exists k :: k in keys && Differs(before, after, k)
  {
    if exists k :: k in keys && Differs(before, after, k) {
      var k :| k in keys && Differs(before, after, k);
      var j :| 0 <= j < |keys| && keys[j] == k;
      assert DiffersWithin(before, after, keys, |keys|);
    }
  }

  /** `setOptions(incoming)`: the stored options are the shallow merge in
      which the incoming keys win; `isAjaxPopover` is raised when the merged
      `url !== false` and is never lowered; `ajaxFetchNeeded` is raised on an
      AJAX popover when one of the six AJAX keys differs (loosely);
      `updateNeeded` when one of `markup`, `title`, `content` differs; neither
      flag is ever cleared, and the cue and the view are left alone. */
  lemma SetOptionsFlags(r: Record, incoming: Options)
    ensures var c := Configured(r, incoming);
            && (forall k :: Lookup(c.options, k)
                  == if Lookup(incoming, k) != Undefined then Lookup(incoming, k) else Lookup(r.options, k))
            && (c.isAjaxPopover <==> r.isAjaxPopover || Lookup(c.options, "url") != Bool(false))
            && (c.ajaxFetchNeeded <==>
                  r.ajaxFetchNeeded
                  || (c.isAjaxPopover
                      && exists k :: k in ["url", "ajaxAsJSON", "titleFillMethod", "contentFillMethod", "loadImmediately", "cache"]
                                     && !LooseEquals(Lookup(r.options, k), Lookup(c.options, k))))
            && (c.updateNeeded <==>
                  r.updateNeeded
                  || exists k :: k in ["markup", "title", "content"]
                                 && !LooseEquals(Lookup(r.options, k), Lookup(c.options, k)))
            && c.ajaxFetchCued == r.ajaxFetchCued
            && c.visible == r.visible && c.renderedTitle == r.renderedTitle && c.renderedContent == r.renderedContent
  {
    var c := Configured(r, incoming);
    forall k ensures Lookup(c.options, k)
                     == if Lookup(incoming, k) != Undefined then Lookup(incoming, k) else Lookup(r.options, k)
    {
      LookupExtend(map[], r.options, k);
      LookupExtend(Extend(map[], r.options), incoming, k);
    }
    AnyDiffersAt(r.options, c.options, AjaxKeys);
    AnyDiffersAt(r.options, c.options, ContentKeys);
  }

  /** Changing only `content` asks for a new rendering but not for a new
      request. */
  lemma ContentOnlyChange(r: Record, v: Value)
    requires v != Undefined && !LooseEquals(Lookup(r.options, "content"), v)
    ensures var c := Configured(r, map["content" := v]);
            c.updateNeeded && c.ajaxFetchNeeded == r.ajaxFetchNeeded
  {
    var incoming := map["content" := v];
    var c := Configured(r, incoming);
    SetOptionsFlags(r, incoming);
    forall k | k != "content" ensures LooseEquals(Lookup(r.options, k), Lookup(c.options, k)) {
      LooseEqualsReflexive(Lookup(r.options, k));
    }
  }

  /** Setting a url that `==` does not equate with `false` (any url but a
      string of white space or a run of zeros) on a popover that never had one makes it
      an AJAX popover that needs a fetch, and leaves the rendering flag as it
      was. */
  lemma UrlOnlyChange(r: Record, url: string)
    requires !r.isAjaxPopover && Lookup(r.options, "url") == Bool(false)
    requires !LooseEquals(Bool(false), Str(url))
    ensures var c := Configured(r, map["url" := Str(url)]);
            c.isAjaxPopover && c.ajaxFetchNeeded && c.updateNeeded == r.updateNeeded
  {
    var incoming := map["url" := Str(url)];
    var c := Configured(r, incoming);
    SetOptionsFlags(r, incoming);
    assert "url" in AjaxKeys;
    forall k | k != "url" ensures LooseEquals(Lookup(r.options, k), Lookup(c.options, k)) {
      LooseEqualsReflexive(Lookup(r.options, k));
    }
  }

  /** The change detection is loose: on a popover without a url, setting
      `url: "0"` makes it an AJAX popover, yet no fetch becomes needed,
      because `false == "0"`. */
  lemma UrlZeroLooksUnchanged(r: Record)
    requires !r.isAjaxPopover && !r.ajaxFetchNeeded && Lookup(r.options, "url") == Bool(false)
    ensures var c := Configured(r, map["url" := Str("0")]);
            c.isAjaxPopover && !c.ajaxFetchNeeded
  {
    var incoming := map["url" := Str("0")];
    var c := Configured(r, incoming);
    SetOptionsFlags(r, incoming);
    assert DecimalValue("0") == 0 by {
      assert "0"[..0] == "";
    }
    assert LooseEquals(Bool(false), Str("0"));
    forall k ensures LooseEquals(Lookup(r.options, k), Lookup(c.options, k)) {
      LooseEqualsReflexive(Lookup(r.options, k));
    }
  }

  // ---- updatePosition -----------------------------------------------------

  /** A successful `updatePosition` writes the normalised name back into
      `options.anchorPosition`, a canonical name; re-running it then resolves
      to the same placement. A failing one changes no CSS and no class, and
      leaves the option as it was unless the name is one a plain object
      inherits: the alias step has then already written that inherited
      member back. */
  lemma PositionWriteBack(r: Record, name: string, l: Layout)
    requires Lookup(r.options, "anchorPosition") == Str(name)
    ensures PositionOf(r, l).Ok? <==> Normalize(name) in CanonicalNames
    ensures PositionOf(r, l).Ok? ==>
              && Lookup(Positioned(r, l).options, "anchorPosition") == Str(Normalize(name))
              && PositionOf(Positioned(r, l), l) == PositionOf(r, l)
    ensures PositionOf(r, l).Failure? ==>
              && PositionOutcome(r, l) == Fail(InvalidPosition)
              && Positioned(r, l).css == r.css && Positioned(r, l).posClasses == r.posClasses
    ensures PositionOf(r, l).Failure? && name !in InheritedNames ==> Positioned(r, l) == r
    ensures name in InheritedNames ==>
              && PositionOf(r, l).Failure?
              && Positioned(r, l) == r.(options := r.options["anchorPosition" := InheritedMember(name)])
  {
    CanonicalNamesArePoints(Normalize(name));
    if name in InheritedNames {
      InheritedNoPositionName(name);
      ResolveInherited(name, l);
    } else if Normalize(name) in CanonicalNames {
      var p :| PointName(p) == Normalize(name);
      ResolveNamed(name, p, l);
      ResolveWriteBackStable(Str(name), l);
    } else {
      AliasesAreCanonical(name);
      ResolveUnknown(name, l);
    }
  }

  /** `anchorPosition: "__proto__"`: the first `updatePosition` writes
      `Object.prototype` back and throws; the next one finds an object, so
      it passes as an absolute box with every side 'auto' and takes every
      directional class off. */
  lemma ProtoAnchorTurnsAbsolute(r: Record, l: Layout)
    requires Lookup(r.options, "anchorPosition") == Str("__proto__")
    ensures PositionOutcome(r, l) == Fail(InvalidPosition)
    ensures var r1 := Positioned(r, l);
            && Lookup(r1.options, "anchorPosition") == ObjectPrototype
            && PositionOutcome(r1, l) == Pass
            && Positioned(r1, l).css == r.css + AutoBox
            && Positioned(r1, l).posClasses == r.posClasses - DirectionalClasses
  {
    PositionWriteBack(r, "__proto__", l);
    ResolveInherited("__proto__", l);
    ApplyCssWhole(Positioned(r, l).css, AutoBox);
  }

  /** Any other inherited name leaves a function in the option: that and
      every later `updatePosition` fail and change nothing more. */
  lemma InheritedAnchorSticks(r: Record, name: string, l: Layout)
    requires Lookup(r.options, "anchorPosition") == Str(name)
    requires name in InheritedNames && name != "__proto__"
    ensures PositionOutcome(r, l) == Fail(InvalidPosition)
    ensures var r1 := Positioned(r, l);
            && Lookup(r1.options, "anchorPosition") == Fn(name)
            && PositionOutcome(r1, l) == Fail(InvalidPosition)
            && Positioned(r1, l) == r1
  {
    PositionWriteBack(r, name, l);
    ResolveInherited(name, l);
  }

  /** An absolute position takes every directional class off and adds none;
      a named one leaves exactly its point's two. */
  lemma PositionClasses(r: Record, l: Layout)
    requires PositionOf(r, l).Ok?
    ensures IsObjectTyped(Lookup(r.options, "anchorPosition")) ==>
              Positioned(r, l).posClasses == r.posClasses - DirectionalClasses
    ensures !IsObjectTyped(Lookup(r.options, "anchorPosition")) ==>
              exists p :: Positioned(r, l).posClasses == (r.posClasses - DirectionalClasses) + PointClasses(p)
  {
  }

  /** A successful `updatePosition` with a known name changes no option but
      `anchorPosition` and no flag. */
  lemma PositionedKeeps(r: Record, name: string, l: Layout)
    requires Lookup(r.options, "anchorPosition") == Str(name) && Normalize(name) in CanonicalNames
    ensures var u := Positioned(r, l);
            && Lookup(u.options, "anchorPosition") == Str(Normalize(name))
            && (forall k :: k != "anchorPosition" ==> Lookup(u.options, k) == Lookup(r.options, k))
            && u.updateNeeded == r.updateNeeded && u.visible == r.visible
            && u.isAjaxPopover == r.isAjaxPopover && u.ajaxFetchNeeded == r.ajaxFetchNeeded
            && u.ajaxFetchCued == r.ajaxFetchCued
    ensures PositionOutcome(r, l) == Pass
  {
    PositionWriteBack(r, name, l);
  }

  /** `update` on a record with no cued fetch and a known position name: it
      succeeds without a request, renders when needed, and writes the
      canonical name back; the flags other than `updateNeeded` and every
      other option stay. */
  lemma UpdateUncued(e: ElementId, r: Record, name: string, l: Layout)
    requires !r.ajaxFetchCued && Lookup(r.options, "anchorPosition") == Str(name)
    requires Normalize(name) in CanonicalNames
    ensures UpdateOutcome(r, l) == Pass && UpdateRequests(e, r) == []
    ensures var u := UpdatedRecord(r, l);
            && Lookup(u.options, "anchorPosition") == Str(Normalize(name))
            && (forall k :: k != "anchorPosition" ==> Lookup(u.options, k) == Lookup(r.options, k))
            && !u.updateNeeded && u.visible == r.visible
            && u.isAjaxPopover == r.isAjaxPopover && u.ajaxFetchNeeded == r.ajaxFetchNeeded && !u.ajaxFetchCued
  {
    var v := ViewUpdated(r);
    assert v.options == r.options && !v.ajaxFetchCued && !v.updateNeeded;
    assert UpdatedRecord(r, l) == Positioned(v, l);
    assert UpdateOutcome(r, l) == PositionOutcome(v, l);
    PositionedKeeps(v, name, l);
  }

  /** `update` on an AJAX popover whose fetch is needed and not cued leaves
      it so: hidden, its fetch still needed, its canonical position written
      back. */
  lemma UpdateAwaitsShow(r: Record, name: string, l: Layout)
    requires r.ajaxFetchNeeded && r.isAjaxPopover && !r.ajaxFetchCued && !r.visible
    requires Truthy(Lookup(r.options, "url"))
    requires Lookup(r.options, "anchorPosition") == Str(name) && Normalize(name) in CanonicalNames
    ensures var u := UpdatedRecord(r, l);
            && u.ajaxFetchNeeded && u.isAjaxPopover && !u.ajaxFetchCued && !u.visible
            && Truthy(Lookup(u.options, "url"))
            && Lookup(u.options, "anchorPosition") == Str(Normalize(name))
  {
    UpdateUncued(0, r, name, l);
    assert "url" != "anchorPosition";
  }

  // ---- show, fetch, update, show ------------------------------------------

  /** `show` on an AJAX popover whose fetch is needed cues the fetch, binds
      one re-show and issues one request, without becoming visible. */
  lemma ShowCuesFetch(e: ElementId, r: Record)
    requires r.ajaxFetchNeeded && r.isAjaxPopover && Truthy(Lookup(r.options, "url"))
    ensures Shown(r) == r.(ajaxFetchCued := true)
    ensures ShowOutcome(r) == Pass
    ensures ShowRequest(e, r) == [Request(e, SettingsFor(r.options))]
    ensures ShowBindings(e, r) == [PendingShow(e)]
  {
  }

  /** The plain-text answer becomes the content, with `titleFillMethod`
      'plain' and `contentFillMethod` 'ajax', every other option as it was;
      the record needs a rendering and no longer a fetch. */
  lemma AnswerStored(r: Record, response: Value)
    ensures var a := AnsweredPlain(r, response);
            && Lookup(a.options, "content") == response
            && Lookup(a.options, "titleFillMethod") == Str("plain")
            && Lookup(a.options, "contentFillMethod") == Str("ajax")
            && (forall k :: k != "content" && k != "titleFillMethod" && k != "contentFillMethod" ==>
                  Lookup(a.options, k) == Lookup(r.options, k))
            && a.updateNeeded && !a.ajaxFetchNeeded && !a.ajaxFetchCued
            && a.isAjaxPopover == r.isAjaxPopover && a.visible == r.visible
  {
  }

  /** The `update` after the answer renders it, issues no second request
      (the cue is gone) and repositions; the queued re-`show` then makes the
      popover visible without fetching. */
  lemma AnswerRendered(e: ElementId, r: Record, response: Value, l: Layout)
    ensures var a := AnsweredPlain(r, response);
            var u := UpdatedRecord(a, l);
            && u.renderedContent == response
            && u.renderedTitle == Lookup(r.options, "title")
            && !u.updateNeeded && !u.ajaxFetchNeeded && !u.ajaxFetchCued && u.visible == r.visible
            && UpdateRequests(e, a) == []
            && UpdateOutcome(a, l) == PositionOutcome(Rendered(a), l)
            && ShowOutcome(u) == Pass && ShowRequest(e, u) == []
            && Shown(u) == u.(visible := true)
  {
    var a := AnsweredPlain(r, response);
    AnswerStored(r, response);
    assert ViewUpdated(a) == Rendered(a);
    assert CuedFetch(Rendered(a)) == Pass;
    UpdatedRecordFlags(a, l);
  }

  /** The whole cycle on a popover with a known position name: after `show`
      and the plain-text answer, the `update` succeeds, the content is the
      answer, the canonical name is written back and no fetch is left
      needed or cued. */
  lemma FetchCycle(r: Record, name: string, response: Value, l: Layout)
    requires r.ajaxFetchNeeded && r.isAjaxPopover && Truthy(Lookup(r.options, "url"))
    requires Lookup(r.options, "anchorPosition") == Str(name) && Normalize(name) in CanonicalNames
    ensures var u := UpdatedRecord(AnsweredPlain(Shown(r), response), l);
            && UpdateOutcome(AnsweredPlain(Shown(r), response), l) == Pass
            && u.renderedContent == response
            && Lookup(u.options, "anchorPosition") == Str(Normalize(name))
            && !u.ajaxFetchNeeded && !u.ajaxFetchCued && !u.updateNeeded
  {
    ShowCuesFetch(0, r);
    var a := AnsweredPlain(Shown(r), response);
    AnswerStored(Shown(r), response);
    AnswerRendered(0, Shown(r), response, l);
    UpdateUncued(0, a, name, l);
  }
}
