/** `$.fn.popover(method, ...)`: a name found in the `methods` table runs
    that method; an object or a falsy first argument runs `init` with it;
    anything else is an error. The `methods` table is a plain object, so the
    names it inherits from `Object.prototype` are found in it too. */
module Dispatch {
  import opened Common
  import opened JsValues
  import opened Position
  import opened Bindings
  import opened Ajax
  import opened Widget

  /** The names of the `methods` table, the two field setters included. */
  const MethodNames: set<string> := {
    "init", "updateView", "updatePosition", "updateBindings", "fetchAndUpdate",
    "update", "setOptions", "show", "hide", "hideAll", "showAll",
    "getData", "getPopover", "getClasses", "addClass", "removeClass",
    "title", "content"
  }

  /** Where a call of `$.fn.popover` goes. */
  datatype Route =
    | Named(name: string)       // methods[name]
    | InitWith(params: Options) // methods.init(method)
    | Inherited(name: string)   // a function of Object.prototype

  /** The routing of `$.fn.popover(callee)`. Only a string can name a
      method: no other value converts to one of the names. */
  function RouteOf(callee: Value): (r: Result<Route>)
    ensures r.Failure? ==> r.error == NoSuchMethod
    ensures r.Failure? <==>
              Truthy(callee) && !IsObjectTyped(callee)
              && !(callee.Str? && (callee.s in MethodNames || callee.s in InheritedNames))
    ensures r.Ok? && r.value.Named? ==> r.value.name in MethodNames
    ensures r.Ok? && r.value.Inherited? ==> callee == Str(r.value.name) && r.value.name in InheritedNames
    ensures r.Ok? && r.value.InitWith? ==> r.value.params == PropsOf(callee)
  {
    if callee.Str? && callee.s in MethodNames then Ok(Named(callee.s))
    else if callee.Str? && callee.s in InheritedNames then Ok(Inherited(callee.s))
    else if IsObjectTyped(callee) || !Truthy(callee) then Ok(InitWith(PropsOf(callee)))
    else Failure(NoSuchMethod)
  }

  /** An options object, `null`, `undefined`, `false`, `0` and `""` all
      initialise; an object brings its own properties as the parameters. */
  lemma RouteInit(callee: Value)
    requires IsObjectTyped(callee) || !Truthy(callee)
    requires !(callee.Str? && callee.s in MethodNames + InheritedNames)
    ensures RouteOf(callee) == Ok(InitWith(PropsOf(callee)))
    ensures callee.Obj? ==> RouteOf(callee).value.params == callee.props
    ensures !callee.Obj? ==> RouteOf(callee).value.params == map[]
  {
  }

  /** A non-empty string that is no method name is an error, as is any
      number other than 0 and `true`. */
  lemma RouteUnknown(callee: Value)
    requires (callee.Str? && callee.s != "" && callee.s !in MethodNames + InheritedNames)
             || (callee.Num? && callee.n != 0.0) || callee == Bool(true)
    ensures RouteOf(callee) == Failure(NoSuchMethod)
  {
  }

  /** `$.fn.popover(callee, arg)` on the element `e`: `callee` is the first
      argument (a method name or the init options), `arg` the options
      object `init` and `setOptions` take by name, `l` the anchor's layout
      and `order` the document order of the registry that `showAll` walks.
      A method name runs that method with the effect `ElementEffect` or
      `NamedEffect` states, init options run `init` with them. An inherited
      member of `Object.prototype` is applied to the jQuery collection
      without touching the plugin's state: `__proto__` has no `apply`, and
      `__defineGetter__`/`__defineSetter__` find no function among the
      arguments, so those three throw a TypeError; the others return
      normally. `touched` is how far `showAll` got. */
  method Call(p: Popovers, e: ElementId, callee: Value, arg: Options, l: Layout, order: seq<ElementId>)
    returns (out: Outcome, ghost touched: nat)
    requires p.Valid() && DocumentOrder(order, p.registry)
    modifies p
    ensures p.Valid()
    ensures RouteOf(callee).Failure? ==> out == Fail(NoSuchMethod) && unchanged(p)
    ensures RouteOf(callee).Ok? && RouteOf(callee).value.Inherited? ==>
              && out == (if callee.s in ThrowingInherited then Fail(NotAFunction) else Pass)
              && unchanged(p)
    ensures RouteOf(callee).Ok? && RouteOf(callee).value.InitWith? ==>
              p.InitEffect(e, PropsOf(callee), l, out)
    ensures callee.Str? && callee.s in MethodNames ==> RouteOf(callee) == Ok(Named(callee.s))
    ensures callee.Str? && IsElementMethod(callee.s) ==> ElementEffect(p, e, callee.s, arg, l, out)
    ensures callee.Str? && callee.s in MethodNames && !IsElementMethod(callee.s) ==>
              NamedEffect(p, e, callee.s, arg, l, order, out, touched)
  {
    touched := 0;
    match RouteOf(callee)
    case Failure(err) =>
      out := Fail(err);
    case Ok(Inherited(name)) =>
      out := if name in ThrowingInherited then Fail(NotAFunction) else Pass;
    case Ok(InitWith(params)) =>
      out := p.Init(e, params, l);
    case Ok(Named(name)) =>
      if IsElementMethod(name) {
        out := CallElement(p, e, name, arg, l);
      } else {
        out, touched := CallNamed(p, e, name, arg, l, order);
      }
  }

  /** The methods that act on one element's data and fail on an element
      without any. */
  predicate IsElementMethod(name: string) {
    || name == "setOptions" || name == "update" || name == "updateView" || name == "updatePosition"
    || name == "updateBindings" || name == "fetchAndUpdate" || name == "show" || name == "hide"
  }

  /** What the table method `name` (not an element method) does when called
      on `e`, from the state before the call to the state after it, ending
      with outcome `out`; `touched` is how far `showAll` got. */
  twostate predicate NamedEffect(p: Popovers, e: ElementId, name: string, arg: Options, l: Layout,
                                 order: seq<ElementId>, out: Outcome, touched: nat)
    reads p
  {
    && (name != "init" ==> p.registry == old(p.registry))
    && p.completed == old(p.completed)
    && (name in {"title", "content"} ==> out == Fail(UndefinedOptions) && unchanged(p))
    && (name in {"addClass", "removeClass"} ==> out == Fail(NotInitialized) && unchanged(p))
    && (name == "getData" ==> out == Pass && unchanged(p))
    && (name in {"getPopover", "getClasses"} ==>
          out == (if e in old(p.data) then Pass else Fail(NotInitialized)) && unchanged(p))
    && (name == "init" ==> p.InitEffect(e, arg, l, out))
    && (name == "showAll" ==>
          && touched <= |order|
          && (out.Pass? ==> touched == |order|)
          && (out.Fail? ==> 0 < touched && order[touched - 1] in old(p.data) && out == ShowOutcome(old(p.data)[order[touched - 1]]))
          && p.data == ShownOn(old(p.data), order[..touched])
          && p.bindings == old(p.bindings) + PendingShows(order[..touched], old(p.data))
          && p.requests == old(p.requests) + ShowRequests(order[..touched], old(p.data)))
    && (name == "hideAll" ==>
          && out == Pass
          && p.data.Keys == old(p.data).Keys && (forall x :: x in old(p.data) ==> p.data[x] == Hidden(old(p.data)[x]))
          && p.bindings == old(p.bindings) && p.requests == old(p.requests))
  }

  /** `methods[name].apply(this, ...)` for the names of the `methods` table
      that are not element methods: `init`, `showAll` and `hideAll` run with
      the effect their contracts state. The field setters throw a TypeError
      before they change anything, and `addClass`/`removeClass` end by
      calling `update` on the popover node, which has no data. `getData`
      never fails; `getPopover` and `getClasses` fail on an element without
      data; none of the three changes anything. */
  method CallNamed(p: Popovers, e: ElementId, name: string, arg: Options, l: Layout, order: seq<ElementId>)
    returns (out: Outcome, ghost touched: nat)
    requires name in MethodNames && !IsElementMethod(name)
    requires p.Valid() && DocumentOrder(order, p.registry)
    modifies p
    ensures p.Valid()
    ensures NamedEffect(p, e, name, arg, l, order, out, touched)
  {
    touched := 0;
    if name == "init" {
      out := p.Init(e, arg, l);
    } else if name == "showAll" {
      out, touched := p.ShowAll(order);
    } else if name == "hideAll" {
      p.HideAll();
      out := Pass;
    } else if name == "title" || name == "content" {
      out := Fail(UndefinedOptions);
    } else if name == "addClass" || name == "removeClass" {
      out := Fail(NotInitialized);
    } else if name == "getData" || e in p.data {
      out := Pass;
    } else {
      out := Fail(NotInitialized);
    }
  }

  /** What the element method `name` does when called on `e`, from the
      state before the call to the state after it, ending with outcome
      `out`: each fails on an element without data and otherwise has the
      effect of the `Popovers` method of the same name. */
  twostate predicate ElementEffect(p: Popovers, e: ElementId, name: string, arg: Options, l: Layout, out: Outcome)
    reads p
  {
    && p.registry == old(p.registry) && p.completed == old(p.completed)
    && (e !in old(p.data) ==> out == Fail(NotInitialized) && unchanged(p))
    && (name == "setOptions" && e in old(p.data) ==>
          var r := Configured(old(p.data)[e], arg);
          var rb := Rebind(old(p.bindings), r.options, e, p.touchDetected);
          && p.data == old(p.data)[e := r] && p.bindings == rb.bindings && out == rb.outcome
          && p.requests == old(p.requests))
    && (name == "update" && e in old(p.data) ==>
          var r := old(p.data)[e];
          && out == UpdateOutcome(r, l) && p.data == old(p.data)[e := UpdatedRecord(r, l)]
          && p.requests == old(p.requests) + UpdateRequests(e, r) && p.bindings == old(p.bindings))
    && (name == "updateView" && e in old(p.data) ==>
          && out == Pass && p.data == old(p.data)[e := Rendered(old(p.data)[e])]
          && p.bindings == old(p.bindings) && p.requests == old(p.requests))
    && (name == "updatePosition" && e in old(p.data) ==>
          && out == PositionOutcome(old(p.data)[e], l) && p.data == old(p.data)[e := Positioned(old(p.data)[e], l)]
          && p.bindings == old(p.bindings) && p.requests == old(p.requests))
    && (name == "updateBindings" && e in old(p.data) ==>
          var rb := Rebind(old(p.bindings), old(p.data)[e].options, e, p.touchDetected);
          && p.bindings == rb.bindings && out == rb.outcome
          && p.data == old(p.data) && p.requests == old(p.requests))
    && (name == "fetchAndUpdate" && e in old(p.data) ==>
          var r := old(p.data)[e];
          && out == FetchGuard(r.isAjaxPopover, r.options)
          && p.requests == old(p.requests) + (if out.Pass? then [Request(e, SettingsFor(r.options))] else [])
          && p.data == old(p.data) && p.bindings == old(p.bindings))
    && (name == "show" && e in old(p.data) ==>
          var r := old(p.data)[e];
          && p.data == old(p.data)[e := Shown(r)] && p.bindings == old(p.bindings) + ShowBindings(e, r)
          && out == ShowOutcome(r) && p.requests == old(p.requests) + ShowRequest(e, r))
    && (name == "hide" && e in old(p.data) ==>
          && out == Pass && p.data == old(p.data)[e := Hidden(old(p.data)[e])]
          && p.bindings == old(p.bindings) && p.requests == old(p.requests))
  }

  /** `methods[name].apply(this, ...)` for the eight element methods. */
  method CallElement(p: Popovers, e: ElementId, name: string, arg: Options, l: Layout)
    returns (out: Outcome)
    requires IsElementMethod(name)
    requires p.Valid()
    modifies p
    ensures p.Valid()
    ensures ElementEffect(p, e, name, arg, l, out)
  {
    if name == "setOptions" {
      out := p.SetOptions(e, arg);
    } else if name == "update" {
      out := p.Update(e, l);
    } else if name == "updateView" {
      out := p.UpdateView(e);
    } else if name == "updatePosition" {
      out := p.UpdatePosition(e, l);
    } else if name == "updateBindings" {
      out := p.UpdateBindings(e);
    } else if name == "fetchAndUpdate" {
      out := p.FetchAndUpdate(e);
    } else if name == "show" {
      out := p.Show(e);
    } else {
      out := p.Hide(e);
    }
  }
}
