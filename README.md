# jQuery.popover, modelled in Dafny

This project models the part of the jQuery.popover plugin (version 2.0.0a,
`jquery.popover-2.0.0a.js`) that follows rules:

- **Placement: `updatePosition`.**
  - The `anchorPosition` option goes through the alias table onto one of nine
    canonical points.
  - Each point gets a `top`/`left` coordinate from the anchor's offset, width
    and height.
  - The result is a four-sided CSS box and two `popover-<vertical>` /
    `popover-<horizontal>` classes.
  - An absolute position object bypasses the table.
- **The per-element record and the methods that move it.**
  - The record holds `options`, `updateNeeded`, `isAjaxPopover`,
    `ajaxFetchNeeded` and `ajaxFetchCued`.
  - The methods are `init`, `setOptions` (a shallow merge plus change
    detection over two key lists), `update`, `updateView`, `show`, `hide`,
    `showAll`, `hideAll` and `fetchAndUpdate`.
  - The success and error callbacks of the request `fetchAndUpdate` issues are
    modelled too.
  - The module-level `popovers` registry is part of this state.
- **The trigger binder: `updateBindings`.**
- **The `defaults` options and the `$.fn.popover` dispatch.**

## Modules

| file | module | what it holds |
|---|---|---|
| common.dfy | `Common` | element identities, `Option`, `Result`, `Outcome`, and the errors the plugin raises with `$.error` |
| values.dfy | `JsValues` | JavaScript values (with the members every plain object inherits from `Object.prototype`), truthiness, loose `==`, and jQuery's shallow `$.extend` |
| position.dfy | `Position` | the anchor-point table, the alias table and `ResolvePosition` (pure) |
| bindings.dfy | `Bindings` | the handlers in the `popoverTrigger` namespace and `Rebind`, the effect of `updateBindings` (pure) |
| ajax.dfy | `Ajax` | the two guards of `fetchAndUpdate` and the request settings it builds (pure) |
| widget.dfy | `Widget` | `defaults`, the record, the record functions that specify each method, and the class `Popovers` holding the data map, the registry, the bindings and the requests, with one method per plugin method |
| lifecycle.dfy | `Lifecycle` | lemmas about the record functions: what `init` leaves, the change detection of `setOptions`, the write-back of `updatePosition`, and the show, fetch, update, show cycle |
| dispatch.dfy | `Dispatch` | `$.fn.popover(method, ...)`: routing and the call |
| scenarios.dfy | `Scenarios` | end-to-end runs: an AJAX popover that fetches on its first `show`, and the `north-east` placement |

### How the plugin becomes the model

- **Errors.** `$.error` throws. The model returns `Fail(error)`, and the call
  stops there. Changes made before the throw stay, because JavaScript does not
  roll them back. Examples: `show` binds its re-show and cues the fetch before
  `fetchAndUpdate` can fail; `updateBindings` unbinds and binds the option
  handlers before an unknown trigger fails.
- **The request is split in two.**
  - `FetchAndUpdate` checks the two guards and appends a `Request` (the element
    and the settings object) to `requests`.
  - `FetchSucceeded(i, response)` or `FetchFailed(i)` later answers request `i`.
- **Bindings.** Bound handlers form a sequence of `(target, event, handler)`
  records. The one-shot `ajaxFetchComplete` listener that `show` binds is one of
  them. It sits in the `popoverTrigger` namespace, so `updateBindings` removes
  it too.
- **The DOM** is reduced to fields of the record: `renderedTitle`,
  `renderedContent`, `visible`, `css` and `posClasses`.
- **External inputs become parameters.**
  - The anchor's geometry is a `Layout` parameter.
  - The touch detector is the constructor's `touchDetected`.
  - The document order that `popovers.popover('show')` walks is an `order`
    parameter, which must list the registry once each.

### Behaviour of the code worth knowing

- **The fetch cue does not imply `isAjaxPopover`.** `loadImmediately: true`
  without a url cues a fetch on a popover that is no AJAX popover. The `update`
  of `init` then fails on the fetch guard (`Lifecycle.CueWithoutUrl`). The
  invariant the code keeps is "a needed fetch implies an AJAX popover"
  (`Widget.WellFormed`).
- **The `position` option is never read.** `{position: "north-east"}` leaves
  the default `anchorPosition: "bottom"` (`Scenarios.PositionOptionIgnored`).
  With `anchorPosition: "north-east"` on an anchor at left 100, top 50, 20 wide
  and 10 high, the point is the top-right corner at left 120, top 50, styled
  `popover-top popover-right` (`Scenarios.NorthEastCorner`).
- **The `title` and `content` field setters are not write-through.** They run
  through the `stdEach` template, which passes only the element, so `options`
  is undefined and they throw a TypeError before changing anything.
- **A structured (object-typed) response takes no fields.** The JSON branch of
  the success callback reads the undeclared identifier `reponse`, which throws
  a ReferenceError before it changes anything.
- **A failed request emits nothing.** The error callback throws at once, so
  `ajaxFetchFailed` is never triggered.
- **Three lookup tables are plain objects.** `methods`, `triggerMethods` and
  `tmpAlternatives` also answer the twelve names every object inherits from
  `Object.prototype` (`JsValues.InheritedNames`).
  - A trigger such as `"toString"` calls that function, binds nothing and
    returns normally. `"__proto__"`, `"__defineGetter__"` and
    `"__defineSetter__"` throw a TypeError instead.
  - An `anchorPosition` such as `"toString"` has that function written back
    before the "Invalid position" error, and fails from then on. With
    `"__proto__"`, `Object.prototype` is written back, so the next
    `updatePosition` takes it as an absolute position with every side `auto`
    (`Lifecycle.ProtoAnchorTurnsAbsolute`).
  - `$.fn.popover("toString")` and the like apply that function to the
    collection and change nothing. `"__proto__"`, `"__defineGetter__"` and
    `"__defineSetter__"` throw a TypeError.

## Model

| member | source | states |
|---|---|---|
| JsValues.LooseEqualsSymmetric | jquery.popover-2.0.0a.js:509-522 | `a == b` iff `b == a`, so the operand order in the change checks does not matter |
| JsValues.LooseEqualsSameType | jquery.popover-2.0.0a.js:509-522 | on two strings, two booleans or two numbers, `==` is `===` |
| Lifecycle.LooseEqualsReflexive | jquery.popover-2.0.0a.js:509-522 | every value the model has is `==` to itself, so an unchanged key never raises a flag |
| JsValues.Extend | jquery.popover-2.0.0a.js:499 | `$.extend(target, source)`: the keys are target's plus source's defined keys; a defined source value wins, otherwise target's stays |
| JsValues.LookupExtend | jquery.popover-2.0.0a.js:147 | reading a key of an extended object gives source's value unless it is undefined, then target's |
| JsValues.LooseEquals | jquery.popover-2.0.0a.js:509-522 | `null == undefined` and nothing else is `==` to either; objects and functions are `==` iff they are the same; a string and a number compare as numbers; a boolean and a string compare as 0 or 1 against the string's number |
| JsValues.InheritedMember | jquery.popover-2.0.0a.js:301-302 | what a plain object gives for an inherited name is truthy, and is an object only for `__proto__` (which gives `Object.prototype`); the others are functions |
| Position.PointOfName | jquery.popover-2.0.0a.js:232-269 | each of the nine canonical names is the name of a point |
| Position.AnchorPoints | jquery.popover-2.0.0a.js:232-269 | the table's keys are exactly the nine canonical names |
| Position.PointNameIsCanonical | jquery.popover-2.0.0a.js:232-269 | every point's name is one of the nine canonical names |
| Position.CanonicalNamesArePoints | jquery.popover-2.0.0a.js:232-269 | a name is canonical iff it names one of the nine points |
| Position.AnchorPointsTable | jquery.popover-2.0.0a.js:232-269 | the anchor-point table has exactly the nine canonical keys, and the entry of each point is its top edge / middle / bottom edge and left edge / centre / right edge, from offset, width and height alone |
| Position.PointClassesDirectional | jquery.popover-2.0.0a.js:317-321 | a point's two classes are one vertical and one horizontal class among the six directional ones |
| Position.AliasesAreCanonical | jquery.popover-2.0.0a.js:272-303 | every alias maps to a canonical name, and a canonical name is no alias |
| Position.Normalize | jquery.popover-2.0.0a.js:301-303 | the normal form of a name is canonical iff the name is an alias or already canonical; a name that is no alias is kept |
| Position.NormalizeIdempotent | jquery.popover-2.0.0a.js:301-303 | normalising twice is normalising once |
| Position.SplitPointName | jquery.popover-2.0.0a.js:320 | `split('-')` of a canonical name gives its vertical and its horizontal part |
| Position.CanonicalNamesSplit | jquery.popover-2.0.0a.js:320-321 | for a canonical name the split has two tokens and the classes added are the point's two |
| Position.ResolvePosition | jquery.popover-2.0.0a.js:206-323 | an object (or null) always places, with no classes; a value that is neither a string nor an object fails with `InvalidPosition`; classes are none or one point's two |
| Position.ResolveNamed | jquery.popover-2.0.0a.js:301-321 | a name that normalises to a point places at that point's box, writes the canonical name back and adds exactly that point's two classes |
| Position.ExtendAutoBox | jquery.popover-2.0.0a.js:211-216 | the all-`auto` box extended with `top`/`left` keeps `right` and `bottom` at `auto` |
| Position.ResolveUnknown | jquery.popover-2.0.0a.js:307-312 | a name that is neither alias nor canonical fails with `InvalidPosition` |
| Position.AliasWriteBack | jquery.popover-2.0.0a.js:301-302 | the alias step writes back iff the value is a string naming an alias or an inherited name, and for an inherited name it writes back that inherited member |
| Position.ResolveInherited | jquery.popover-2.0.0a.js:301-312 | an inherited name is no position: its member is written back and the lookup fails; resolving that member again places `Object.prototype` as the all-`auto` box with no class, and fails again for every function |
| Position.ResolveAbsolute | jquery.popover-2.0.0a.js:217-221 | an absolute object is laid over the all-`auto` box and leaves itself in `anchorPosition`, with no class added |
| Position.ResolveIgnoresWindow | jquery.popover-2.0.0a.js:223-224 | the window's size takes no part: two layouts with the same anchor place alike |
| Position.ResolveWriteBackStable | jquery.popover-2.0.0a.js:301-308 | resolving the written-back value again gives the same placement |
| Bindings.Keep | jquery.popover-2.0.0a.js:380 | a filter keeps exactly the selected bindings |
| Bindings.KeepCount | jquery.popover-2.0.0a.js:380 | a filter keeps every copy of a selected binding and none of the others |
| Bindings.TriggerBindings | jquery.popover-2.0.0a.js:347-377 | a trigger binds iff it is one of the five names or an inherited name other than the three that throw; what it binds is on the element or its popover, with the show or the delayed-hide handler, and nothing for an inherited name; `__proto__`, `__defineGetter__` and `__defineSetter__` fail with `NotAFunction`, any other value with `InvalidTrigger` |
| Bindings.TriggerTable | jquery.popover-2.0.0a.js:399-404 | `click` binds click, `touch` touchstart, `clicktouch` touchstart iff touch is reported else click, `hover` its four handlers, `manual` and the callable inherited names nothing; the three throwing inherited names are a TypeError; anything else an `InvalidTrigger` error |
| Bindings.Rebind | jquery.popover-2.0.0a.js:380-405 | `updateBindings` passes iff the trigger is one of the five names or a callable inherited name |
| Bindings.RebindShape | jquery.popover-2.0.0a.js:380-404 | `updateBindings` leaves: the bindings after the unbind, then the option handlers, then the trigger's; it fails exactly when the trigger does |
| Bindings.RebindReplacesOwned | jquery.popover-2.0.0a.js:380-404 | afterwards, the element's and popover's bindings are exactly the new ones |
| Bindings.RebindKeepsOthers | jquery.popover-2.0.0a.js:380 | every other element's bindings are left as they were |
| Bindings.RebindAccumulatesWindow | jquery.popover-2.0.0a.js:393-397 | window handlers are never removed: with `autoReposition` each call adds one scroll and one resize handler more |
| Bindings.RebindDropsPendingShow | jquery.popover-2.0.0a.js:380 | the unbind removes the one-shot re-show that `show` binds |
| Ajax.FetchGuard | jquery.popover-2.0.0a.js:410-418 | the fetch passes iff AJAX popover and truthy url; `NotAjaxPopover` is checked first, then `MissingUrl` |
| Ajax.SettingsFor | jquery.popover-2.0.0a.js:421-429 | url as given; GET iff `method === "GET"`, else POST; data is `ajaxData` when object-typed, else a fresh `{}`; cache iff `cache !== false`; `dataType: 'json'` iff `ajaxAsJSON === true` |
| Ajax.OnlyExactGetIsGet | jquery.popover-2.0.0a.js:423 | `method: "get"` is sent as POST |
| Ajax.OnlyFalseDisablesCache | jquery.popover-2.0.0a.js:425 | a falsy `cache` other than `false` keeps caching on |
| Widget.RaiseOnChange | jquery.popover-2.0.0a.js:509-515 | one `$.each` loop: the flag ends raised iff it was or some listed key differs loosely |
| Widget.PendingShows | jquery.popover-2.0.0a.js:571-573 | every re-show bound over a walk is the re-show of an element of the walk, and there are at most as many as elements |
| Widget.ShowRequests | jquery.popover-2.0.0a.js:571-573 | every request issued over a walk is for an element of the walk whose record needed a fetch, and there are at most as many as elements |
| Widget.Popovers.constructor | jquery.popover-2.0.0a.js:12 | the plugin starts with no data, an empty registry, no bindings and no requests |
| Widget.FreshRecord | jquery.popover-2.0.0a.js:168-178 | the record `init` stores first is well formed, hidden, with no options, CSS or classes, and needs a fetch exactly when it is an AJAX popover |
| Widget.Configured | jquery.popover-2.0.0a.js:497-522 | `setOptions` only raises `isAjaxPopover`, `ajaxFetchNeeded` and `updateNeeded`, raises a needed fetch only on an AJAX popover, and changes nothing else but the options |
| Widget.Popovers.Init | jquery.popover-2.0.0a.js:136-189 | a second `init` fails and changes nothing; a fresh one registers the element, rebinds, and when that passes stores the updated record and issues the `update`'s requests |
| Widget.Popovers.SetOptions | jquery.popover-2.0.0a.js:497-541 | stores the configured record, then rebinds; the outcome is the rebinding's; an element without data fails and nothing changes |
| Widget.Popovers.UpdateBindings | jquery.popover-2.0.0a.js:326-405 | the bindings become `Rebind` of the old ones with the element's options; nothing else changes |
| Widget.Popovers.UpdateView | jquery.popover-2.0.0a.js:195-204 | renders the title and content options and clears `updateNeeded` |
| Widget.ApplyCss | jquery.popover-2.0.0a.js:316 | `$popover.css(css)` sets every property of the box whose value is neither `null` nor `undefined`; those are skipped, and properties the box lacks keep their inline value |
| Widget.Popovers.UpdatePosition | jquery.popover-2.0.0a.js:206-323 | the record becomes `Positioned`: on success the written-back name, the CSS and the classes; on failure no CSS or class change, only what the alias step wrote back |
| Widget.Popovers.FetchAndUpdate | jquery.popover-2.0.0a.js:408-478 | the outcome is the guard's; exactly one request with `SettingsFor` the options is appended iff it passes; no record changes |
| Widget.Popovers.Update | jquery.popover-2.0.0a.js:480-495 | renders when needed, fetches when cued (a failed fetch stops before positioning), then positions |
| Widget.Popovers.Show | jquery.popover-2.0.0a.js:543-557 | a needed fetch is cued, a re-show bound and the fetch started; otherwise the popover becomes visible |
| Widget.Popovers.Hide | jquery.popover-2.0.0a.js:559-565 | the popover becomes hidden; nothing else changes |
| Widget.Popovers.HideAll | jquery.popover-2.0.0a.js:567-569 | every registered popover is hidden; nothing else changes |
| Widget.Popovers.ShowAll | jquery.popover-2.0.0a.js:571-573 | `show` runs in document order until the first failure; the records, bindings and requests are those of `show` on exactly the elements it ran on |
| Widget.Popovers.FetchSucceeded | jquery.popover-2.0.0a.js:440-471 | an object-typed response fails on `reponse` and changes no record; a plain one becomes the content, clears both fetch flags, runs `update`, and when that passes fires the element's pending re-shows |
| Widget.Popovers.AnswerPlain | jquery.popover-2.0.0a.js:454-470 | the plain-text branch: the record becomes `update` of the answered record, made visible iff a re-show was pending |
| Widget.Popovers.FireFetchComplete | jquery.popover-2.0.0a.js:469-470 | each pending re-show is taken off once, and the popover becomes visible iff one was bound |
| Widget.Popovers.FetchFailed | jquery.popover-2.0.0a.js:431-438 | the error callback fails with `AjaxFailed` and changes nothing but the answered set |
| Widget.UpdatedRecordFlags | jquery.popover-2.0.0a.js:480-495 | `update` leaves the fetch flags and visibility alone and always clears `updateNeeded` |
| Widget.PendingShowWaits | jquery.popover-2.0.0a.js:547-549 | re-shows fire iff one is bound, and none is left bound afterwards |
| Lifecycle.InitOptionsLookup | jquery.popover-2.0.0a.js:147 | each option of a fresh popover is the caller's value when given, the default otherwise |
| Lifecycle.MergedOverEmpty | jquery.popover-2.0.0a.js:499 | merging into the fresh record's `{}` options changes no lookup |
| Lifecycle.InitConfigures | jquery.popover-2.0.0a.js:159-187 | after the first `setOptions`: `isAjaxPopover` and `ajaxFetchNeeded` are both `url !== false`, `ajaxFetchCued` is `loadImmediately === true`, the options are the merged ones, and the popover is hidden |
| Lifecycle.InitUpdates | jquery.popover-2.0.0a.js:187 | after `init`'s `update`, `updateNeeded` is clear, the other flags are as configured, and a request is issued iff `loadImmediately === true` with a truthy url |
| Lifecycle.CueWithoutUrl | jquery.popover-2.0.0a.js:177 | `loadImmediately: true` without a url cues a fetch on a non-AJAX popover, and `init`'s `update` fails with `NotAjaxPopover` without a request |
| Lifecycle.AnyDiffersAt | jquery.popover-2.0.0a.js:508-522 | a list of keys differs iff one of its keys differs |
| Lifecycle.SetOptionsFlags | jquery.popover-2.0.0a.js:497-541 | new keys win the merge; `isAjaxPopover` is raised iff the merged `url !== false` and is never lowered; `ajaxFetchNeeded` is raised iff AJAX and one of the six AJAX keys differs; `updateNeeded` iff `markup`, `title` or `content` differs; no flag is cleared; the cue and the view stay |
| Lifecycle.ContentOnlyChange | jquery.popover-2.0.0a.js:517-522 | changing only `content` asks for a rendering but not for a fetch |
| Lifecycle.UrlOnlyChange | jquery.popover-2.0.0a.js:501-515 | setting a url that is not `== false` on a popover without one makes it an AJAX popover needing a fetch, rendering flag unchanged |
| Lifecycle.UrlZeroLooksUnchanged | jquery.popover-2.0.0a.js:509-515 | `url: "0"` makes an AJAX popover yet needs no fetch, since `false == "0"` |
| Lifecycle.PositionWriteBack | jquery.popover-2.0.0a.js:301-312 | a name places iff its normal form is canonical; the canonical name is written back and re-placing is stable; a failure changes no CSS or class, and changes the option only for an inherited name, whose `Object.prototype` member is written back |
| Lifecycle.ProtoAnchorTurnsAbsolute | jquery.popover-2.0.0a.js:217-312 | after `anchorPosition: "__proto__"` fails once, `Object.prototype` is in the option and the next placement passes with every side `auto` and all directional classes removed |
| Lifecycle.InheritedAnchorSticks | jquery.popover-2.0.0a.js:301-312 | any other inherited name leaves its function in the option, and every later placement fails and changes nothing |
| Lifecycle.PositionClasses | jquery.popover-2.0.0a.js:317-322 | an absolute position removes the six directional classes and adds none; a named one adds exactly one point's two |
| Lifecycle.PositionedKeeps | jquery.popover-2.0.0a.js:301-308 | a placement with a known name changes no option but `anchorPosition` and no flag |
| Lifecycle.UpdateUncued | jquery.popover-2.0.0a.js:480-495 | `update` with no cue and a known name passes without a request, writes the name back and keeps every other option and flag |
| Lifecycle.UpdateAwaitsShow | jquery.popover-2.0.0a.js:480-495 | an AJAX popover awaiting its first `show` stays hidden and still needs its fetch after `update` |
| Lifecycle.ShowCuesFetch | jquery.popover-2.0.0a.js:543-552 | `show` needing a fetch cues it, binds one re-show, issues one request and stays hidden |
| Lifecycle.AnswerStored | jquery.popover-2.0.0a.js:454-465 | a plain-text answer becomes the content, with `titleFillMethod` 'plain' and `contentFillMethod` 'ajax', every other option kept, `updateNeeded` set and both fetch flags cleared |
| Lifecycle.AnswerRendered | jquery.popover-2.0.0a.js:466-470 | the following `update` renders the answer, issues no second request, and the re-show then makes the popover visible without fetching |
| Lifecycle.FetchCycle | jquery.popover-2.0.0a.js:440-471 | show, then answer, then update: the update passes, the content is the answer, the name is written back, no fetch is needed or cued |
| Dispatch.RouteOf | jquery.popover-2.0.0a.js:613-621 | a method name routes to it, an inherited `Object.prototype` name is found too, an object or falsy value runs `init` with its properties, anything else fails with `NoSuchMethod` |
| Dispatch.RouteInit | jquery.popover-2.0.0a.js:616-617 | an options object, null, undefined, false, 0 or "" initialise |
| Dispatch.RouteUnknown | jquery.popover-2.0.0a.js:618-619 | a non-empty unknown string, a non-zero number or `true` is an error |
| Dispatch.Call | jquery.popover-2.0.0a.js:613-621 | `$.fn.popover(callee, arg)`: an unknown method fails and changes nothing; an inherited name changes nothing and passes, except `__proto__`, `__defineGetter__` and `__defineSetter__`, which fail with `NotAFunction`; an init route has `init`'s whole effect (`Popovers.InitEffect`); a method name has that method's records, bindings, requests and outcome (`ElementEffect`, `NamedEffect`) |
| Dispatch.CallNamed | jquery.popover-2.0.0a.js:567-611 | `init`, `showAll` and `hideAll` have the records, bindings, requests and outcome their methods state; the field setters, `addClass` and `removeClass` fail and change nothing; `getData` never fails, the getters fail only without data, and none changes anything; only `init` touches the registry |
| Dispatch.CallElement | jquery.popover-2.0.0a.js:613-615 | each of the eight element methods fails with `NotInitialized` and changes nothing on an element without data, and otherwise leaves the record, bindings, requests and outcome its method states; none touches the registry |
| Scenarios.ManualAjaxOptions | jquery.popover-2.0.0a.js:147-177 | `init({url, trigger: "manual"})` configures an AJAX popover, hidden, whose fetch is needed and not cued |
| Scenarios.ManualAjaxBindings | jquery.popover-2.0.0a.js:399-404 | its manual trigger binds without failing and leaves no re-show pending |
| Scenarios.InitOne | jquery.popover-2.0.0a.js:136-189 | `init` on a fresh plugin stores the updated record of its one element and issues no request |
| Scenarios.InitAwaitingShow | jquery.popover-2.0.0a.js:136-189 | `init` with options configuring an uncued AJAX popover leaves it hidden, fetch needed, name written back |
| Scenarios.InitManualAjax | jquery.popover-2.0.0a.js:136-189 | `init({url, trigger: "manual"})` on a fresh plugin leaves one hidden AJAX popover at "bottom-center", nothing requested |
| Scenarios.ShowUntilFetched | jquery.popover-2.0.0a.js:543-557 | `show`, then a plain-text answer: exactly one request, then visible with the answer as content, fetch done, every other popover as it was |
| Scenarios.FetchThenShow | jquery.popover-2.0.0a.js:440-471 | init, show, answer: one request, and the response is shown |
| Scenarios.NorthEastCorner | jquery.popover-2.0.0a.js:272-321 | `anchorPosition: "north-east"` places at the top-right corner (left 120, top 50), styled `popover-top popover-right`, and writes "top-right" back |
| Scenarios.PositionOptionIgnored | jquery.popover-2.0.0a.js:19-42 | `position: "north-east"` is ignored: the popover sits at "bottom-center" |

## Left out

- DOM work is left out. This covers HTML templating and `.html()`, the
  `classes` option, fade animation and its speeds, the 20 ms hover delay, and
  the `markup` element itself. What the DOM shows is reduced to the record's
  `renderedTitle`, `renderedContent`, `visible`, `css` and `posClasses`.
  `.html(value)` is modelled as storing the value.
- `$.ajax` transport and the jQuery event bus are left out. The events
  `popoverCreated`, `updated`, `show`, `hide` and `beforeAjaxFetch` are not
  modelled. The one `ajaxFetchComplete` listener the plugin binds itself is
  modelled. The request becomes a `Request` record, and its answer a separate
  call.
- Modernizr's touch detection becomes the boolean `touchDetected`.
- The JSON branch of the success callback is modelled only as the failure it
  is, `Fail(UndefinedReference)`. The fields it would read are not modelled.
- The `title` and `content` field setters are modelled only as the TypeError
  they throw, `Fail(UndefinedOptions)`.
- Dispatch.CallNamed: does not model the class change that `addClass` and
  `removeClass` make on the popover before their `update` fails. It also does
  not model the strings that `getClasses`, `getPopover` and `getData` return.
  These are thin wrappers over the DOM.
- The anchor re-resolution in `setOptions` is left out. It is dead code,
  because `! options.anchor instanceof jQuery` is always false, so the
  "Not a valid anchor" error cannot occur. The `anchor` option's element is
  reduced to the `Layout` parameter.
- Inert options are left out: `stopChildrenPropagation`'s handler does
  nothing, `hideOnHTMLClick` is commented out, and `position` is never read.
  The first two are kept only as the bindings they add.
- Loose equality turns strings into numbers only for strings made entirely of
  white space and for plain decimal digits. White space here is all of
  ECMAScript's: tab, vertical tab, form feed, the Unicode space separators
  (no-break space included), the byte-order mark and the line terminators.
  Other numeric spellings count as NaN, and so do digits with white space
  around them. Numbers are exact
  reals, with no NaN and no infinities.
- A plugin holds one jQuery collection per call. The model runs a method on
  one element at a time; `showAll`'s walk over several elements is modelled.
- Re-entrant calls from handlers are left out. This covers hover, click and
  scroll firing `show`, `hide` or `updatePosition`. Only the handlers'
  bindings are modelled, not their firing, except the one-shot re-show that
  the success callback fires.
- Widget.Popovers.FetchSucceeded: fires only the re-shows bound on the
  answered element. `.trigger('ajaxFetchComplete')` bubbles up the DOM, so a
  re-show bound on an ancestor element that is itself a popover element fires
  too. The model has no element tree, so nested popover elements are not
  modelled.
- The only functions among the model's values are the members of
  `Object.prototype`. A caller's own function passed as an option is not
  modelled.
