/** The trigger binder, `updateBindings`: it removes every handler the plugin
    bound in its `popoverTrigger` namespace on the element, its popover and
    the body, then binds the handlers the options ask for. The window's
    scroll and resize handlers are not in the cleared set, so they pile up
    across calls. */
module Bindings {
  import opened Common
  import opened JsValues

  /** Where a handler is bound. */
  datatype Target = Element(id: ElementId) | Popover(id: ElementId) | Window

  /** The handlers the plugin binds, all in the `popoverTrigger` namespace. */
  datatype Handler =
    | ShowPopover               // activationMethods.show
    | HideAfterDelay            // hover's mouseleave: hide after the 20 ms queue delay
    | ChildClickNoop            // the stopChildrenPropagation handler, delegated to '*'; it does nothing
    | Reposition(of: ElementId) // the window's scroll/resize handler: updatePosition on that element
    | ShowWhenFetched           // show's one-shot `ajaxFetchComplete` listener

  datatype Binding = Binding(target: Target, event: string, handler: Handler)

  /** Which bindings a filter keeps. */
  datatype Selector =
    | OwnedBy(e: ElementId)      // bound on the element or its popover
    | NotOwnedBy(e: ElementId)
    | OnWindow
    | PendingShowOf(e: ElementId)
    | NotPendingShowOf(e: ElementId)

  predicate Selects(sel: Selector, b: Binding) {
    match sel
    case OwnedBy(e) => b.target == Element(e) || b.target == Popover(e)
    case NotOwnedBy(e) => !(b.target == Element(e) || b.target == Popover(e))
    case OnWindow => b.target == Window
    case PendingShowOf(e) => b == Binding(Element(e), "ajaxFetchComplete", ShowWhenFetched)
    case NotPendingShowOf(e) => b != Binding(Element(e), "ajaxFetchComplete", ShowWhenFetched)
  }

  /** The bindings a selector keeps, in their order. */
  function Keep(bs: seq<Binding>, sel: Selector): (r: seq<Binding>)
    ensures forall b :: b in r <==> b in bs && Selects(sel, b)
  {
    if bs == [] then []
    else
      var rest := Keep(bs[1..], sel);
      if Selects(sel, bs[0]) then [bs[0]] + rest else rest
  }

  /** A filter keeps every copy of a selected binding and none of the others. */
  lemma {:induction false} KeepCount(bs: seq<Binding>, sel: Selector, b: Binding)
    ensures multiset(Keep(bs, sel))[b] == if Selects(sel, b) then multiset(bs)[b] else 0
  {
    if bs != [] {
      KeepCount(bs[1..], sel, b);
      assert bs == [bs[0]] + bs[1..];
    }
  }

  /** The `.off('.popoverTrigger')` on element, popover and body: nothing is
      ever bound on the body, so it removes the element's and the popover's
      bindings. */
  function Unbind(bs: seq<Binding>, e: ElementId): seq<Binding> {
    Keep(bs, NotOwnedBy(e))
  }

  function ClickBindings(e: ElementId): seq<Binding> {
    [Binding(Element(e), "click", ShowPopover)]
  }

  function TouchBindings(e: ElementId): seq<Binding> {
    [Binding(Element(e), "touchstart", ShowPopover)]
  }

  function HoverBindings(e: ElementId): seq<Binding> {
    [Binding(Element(e), "mouseenter", ShowPopover),
     Binding(Element(e), "mouseleave", HideAfterDelay),
     Binding(Popover(e), "mouseleave", HideAfterDelay),
     Binding(Popover(e), "mousemove", ShowPopover)]
  }

  const TriggerNames: set<string> := {"click", "touch", "clicktouch", "hover", "manual"}

  /** `triggerMethods[options.trigger]()`: the bindings of one trigger mode.
      `touch` is what the touch detector reports (false when there is none).
      `triggerMethods` is a plain object, so an inherited name finds a
      function of `Object.prototype`: called with no argument it binds
      nothing and returns, except for the three that throw a TypeError. */
  function TriggerBindings(trigger: Value, e: ElementId, touch: bool): (r: Result<seq<Binding>>)
    ensures r.Ok? <==>
              trigger.Str? && (trigger.s in TriggerNames
                               || (trigger.s in InheritedNames && trigger.s !in ThrowingInherited))
    ensures r.Failure? ==>
              r.error == if trigger.Str? && trigger.s in ThrowingInherited then NotAFunction else InvalidTrigger
    ensures r.Ok? ==> forall b :: b in r.value ==> Selects(OwnedBy(e), b)
    ensures r.Ok? ==> forall b :: b in r.value ==> b.handler == ShowPopover || b.handler == HideAfterDelay
    ensures r.Ok? && trigger.Str? && trigger.s in InheritedNames ==> r.value == []
  {
    if trigger == Str("click") then Ok(ClickBindings(e))
    else if trigger == Str("touch") then Ok(TouchBindings(e))
    else if trigger == Str("clicktouch") then Ok(if touch then TouchBindings(e) else ClickBindings(e))
    else if trigger == Str("hover") then Ok(HoverBindings(e))
    else if trigger == Str("manual") then Ok([])
    else if trigger.Str? && trigger.s in ThrowingInherited then Failure(NotAFunction)
    else if trigger.Str? && trigger.s in InheritedNames then Ok([])
    else Failure(InvalidTrigger)
  }

  /** The bindings the options add besides the trigger's: the children click
      handler and the window's scroll and resize handlers. */
  function OptionBindings(o: Options, e: ElementId): seq<Binding> {
    (if Truthy(Lookup(o, "stopChildrenPropagation")) then [Binding(Popover(e), "click", ChildClickNoop)] else [])
    + (if Truthy(Lookup(o, "autoReposition"))
       then [Binding(Window, "scroll", Reposition(e)), Binding(Window, "resize", Reposition(e))]
       else [])
  }

  datatype Rebound = Rebound(bindings: seq<Binding>, outcome: Outcome)

  /** updateBindings: unbind, bind the option handlers, then the trigger's.
      An unknown trigger fails after the first two steps have happened, so
      the outcome is the trigger's. */
  function Rebind(bs: seq<Binding>, o: Options, e: ElementId, touch: bool): (r: Rebound)
    ensures r.outcome.Pass? <==>
              var t := Lookup(o, "trigger");
              t.Str? && (t.s in TriggerNames || t.s in InheritedNames - ThrowingInherited)
  {
    var base := Unbind(bs, e) + OptionBindings(o, e);
    match TriggerBindings(Lookup(o, "trigger"), e, touch)
    case Ok(tb) => Rebound(base + tb, Pass)
    case Failure(err) => Rebound(base, Fail(err))
  }

  /** What the trigger adds, or nothing when it is unknown. */
  function TriggerPart(o: Options, e: ElementId, touch: bool): seq<Binding> {
    match TriggerBindings(Lookup(o, "trigger"), e, touch)
    case Ok(tb) => tb
    case Failure(_) => []
  }

  // ---- Lemmas -------------------------------------------------------------

  /** The five trigger modes, the inherited names that bind nothing or
      throw, and the error for any other value. */
  lemma TriggerTable(trigger: Value, e: ElementId, touch: bool)
    ensures trigger == Str("click") ==> TriggerBindings(trigger, e, touch) == Ok(ClickBindings(e))
    ensures trigger == Str("touch") ==> TriggerBindings(trigger, e, touch) == Ok(TouchBindings(e))
    ensures trigger == Str("clicktouch") ==>
      TriggerBindings(trigger, e, touch) == TriggerBindings(Str(if touch then "touch" else "click"), e, touch)
    ensures trigger == Str("hover") ==> TriggerBindings(trigger, e, touch) == Ok(HoverBindings(e))
    ensures trigger == Str("manual") ==> TriggerBindings(trigger, e, touch) == Ok([])
    ensures trigger.Str? && trigger.s in InheritedNames - ThrowingInherited ==> TriggerBindings(trigger, e, touch) == Ok([])
    ensures trigger.Str? && trigger.s in ThrowingInherited ==> TriggerBindings(trigger, e, touch) == Failure(NotAFunction)
    ensures !(trigger.Str? && trigger.s in TriggerNames + InheritedNames) ==>
              TriggerBindings(trigger, e, touch) == Failure(InvalidTrigger)
  {
  }

  lemma {:induction false} KeepConcat(a: seq<Binding>, b: seq<Binding>, sel: Selector)
    ensures Keep(a + b, sel) == Keep(a, sel) + Keep(b, sel)
  {
    if a == [] {
      assert a + b == b;
    } else {
      assert (a + b)[1..] == a[1..] + b;
      KeepConcat(a[1..], b, sel);
    }
  }

  /** Filtering with a weaker selector after a stronger one changes nothing. */
  lemma {:induction false} KeepImplied(bs: seq<Binding>, first: Selector, second: Selector)
    requires forall b :: Selects(second, b) ==> Selects(first, b)
    ensures Keep(Keep(bs, first), second) == Keep(bs, second)
  {
    if bs != [] {
      KeepImplied(bs[1..], first, second);
    }
  }

  /** Filtering with a selector that excludes everything the first kept
      leaves nothing. */
  lemma {:induction false} KeepDisjoint(bs: seq<Binding>, first: Selector, second: Selector)
    requires forall b :: Selects(second, b) ==> !Selects(first, b)
    ensures Keep(Keep(bs, first), second) == []
  {
    if bs != [] {
      KeepDisjoint(bs[1..], first, second);
    }
  }

  /** Every binding a selector keeps from a list that holds only such
      bindings. */
  lemma {:induction false} KeepAll(bs: seq<Binding>, sel: Selector)
    requires forall b :: b in bs ==> Selects(sel, b)
    ensures Keep(bs, sel) == bs
  {
    if bs != [] {
      KeepAll(bs[1..], sel);
    }
  }

  /** A filter keeps nothing of a list in which it selects nothing. */
  lemma {:induction false} KeepNone(bs: seq<Binding>, sel: Selector)
    requires forall b :: b in bs ==> !Selects(sel, b)
    ensures Keep(bs, sel) == []
  {
    if bs != [] {
      KeepNone(bs[1..], sel);
    }
  }

  /** The three parts updateBindings leaves, in order. */
  lemma RebindShape(bs: seq<Binding>, o: Options, e: ElementId, touch: bool)
    ensures Rebind(bs, o, e, touch).bindings == Unbind(bs, e) + OptionBindings(o, e) + TriggerPart(o, e, touch)
    ensures Rebind(bs, o, e, touch).outcome
            == if TriggerBindings(Lookup(o, "trigger"), e, touch).Ok? then Pass
               else Fail(TriggerBindings(Lookup(o, "trigger"), e, touch).error)
  {
    var tb := TriggerBindings(Lookup(o, "trigger"), e, touch);
    if tb.Failure? {
      assert TriggerPart(o, e, touch) == [];
    }
  }

  /** After updateBindings the element's and popover's bindings are exactly
      the ones the options ask for, whatever was bound before: earlier ones
      are all removed, so rebinding with the same options is idempotent on
      them. */
  lemma RebindReplacesOwned(bs: seq<Binding>, o: Options, e: ElementId, touch: bool)
    ensures Keep(Rebind(bs, o, e, touch).bindings, OwnedBy(e))
            == Keep(OptionBindings(o, e), OwnedBy(e)) + TriggerPart(o, e, touch)
  {
    RebindShape(bs, o, e, touch);
    var u, ob, tp := Unbind(bs, e), OptionBindings(o, e), TriggerPart(o, e, touch);
    KeepConcat(u + ob, tp, OwnedBy(e));
    KeepConcat(u, ob, OwnedBy(e));
    KeepDisjoint(bs, NotOwnedBy(e), OwnedBy(e));
    assert Keep(u, OwnedBy(e)) == [];
    assert Keep(u + ob, OwnedBy(e)) == Keep(ob, OwnedBy(e));
    KeepAll(tp, OwnedBy(e));
    assert Keep(tp, OwnedBy(e)) == tp;
  }

  /** updateBindings on one element leaves every other element's and
      popover's bindings as they were. */
  lemma RebindKeepsOthers(bs: seq<Binding>, o: Options, e: ElementId, other: ElementId, touch: bool)
    requires other != e
    ensures Keep(Rebind(bs, o, e, touch).bindings, OwnedBy(other)) == Keep(bs, OwnedBy(other))
  {
    RebindShape(bs, o, e, touch);
    var u, ob, tp := Unbind(bs, e), OptionBindings(o, e), TriggerPart(o, e, touch);
    KeepConcat(u + ob, tp, OwnedBy(other));
    KeepConcat(u, ob, OwnedBy(other));
    KeepImplied(bs, NotOwnedBy(e), OwnedBy(other));
    KeepNone(ob, OwnedBy(other));
    KeepNone(tp, OwnedBy(other));
  }

  /** The window's handlers are never removed: each updateBindings with
      autoReposition set adds one scroll and one resize handler more. */
  lemma RebindAccumulatesWindow(bs: seq<Binding>, o: Options, e: ElementId, touch: bool)
    ensures Keep(Rebind(bs, o, e, touch).bindings, OnWindow)
            == Keep(bs, OnWindow)
               + (if Truthy(Lookup(o, "autoReposition"))
                  then [Binding(Window, "scroll", Reposition(e)), Binding(Window, "resize", Reposition(e))]
                  else [])
  {
    RebindShape(bs, o, e, touch);
    var u, ob, tp := Unbind(bs, e), OptionBindings(o, e), TriggerPart(o, e, touch);
    var stop := if Truthy(Lookup(o, "stopChildrenPropagation")) then [Binding(Popover(e), "click", ChildClickNoop)] else [];
    var win := if Truthy(Lookup(o, "autoReposition"))
               then [Binding(Window, "scroll", Reposition(e)), Binding(Window, "resize", Reposition(e))]
               else [];
    assert ob == stop + win;
    KeepConcat(stop, win, OnWindow);
    KeepNone(stop, OnWindow);
    KeepAll(win, OnWindow);
    assert Keep(ob, OnWindow) == win;
    KeepImplied(bs, NotOwnedBy(e), OnWindow);
    assert Keep(u, OnWindow) == Keep(bs, OnWindow);
    KeepNone(tp, OnWindow);
    KeepConcat(u, ob, OnWindow);
    KeepConcat(u + ob, tp, OnWindow);
    assert Keep(u + ob + tp, OnWindow) == Keep(u + ob, OnWindow) + [];
  }

  /** updateBindings removes the one-shot re-show that `show` binds while
      its fetch is pending, and binds none: a `setOptions` between a `show`
      and the answer to its request loses the re-show. */
  lemma RebindDropsPendingShow(bs: seq<Binding>, o: Options, e: ElementId, touch: bool)
    ensures Binding(Element(e), "ajaxFetchComplete", ShowWhenFetched) !in Rebind(bs, o, e, touch).bindings
  {
    var pending := Binding(Element(e), "ajaxFetchComplete", ShowWhenFetched);
    assert pending !in OptionBindings(o, e);
    assert pending !in TriggerPart(o, e, touch);
  }
}
