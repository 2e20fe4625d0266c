/** Anchor-position resolution, the calculation inside `updatePosition`:
    a symbolic name is normalised through the alias table onto one of nine
    canonical points, the point is looked up in the `anchor_points` table
    built from the anchor's offset and outer size, and the result is a
    four-sided CSS box plus two `popover-<vertical>` / `popover-<horizontal>`
    class tokens. An absolute `{top, left, ...}` object bypasses all of it. */
module Position {
  import opened Common
  import opened JsValues

  datatype Vertical = Top | Middle | Bottom
  datatype Horizontal = Left | Center | Right

  /** One of the nine canonical anchor points. */
  datatype Point = Point(v: Vertical, h: Horizontal)

  function VerticalName(v: Vertical): string {
    match v
    case Top => "top"
    case Middle => "middle"
    case Bottom => "bottom"
  }

  function HorizontalName(h: Horizontal): string {
    match h
    case Left => "left"
    case Center => "center"
    case Right => "right"
  }

  /** The canonical name of a point, such as "middle-right". */
  function PointName(p: Point): string {
    VerticalName(p.v) + "-" + HorizontalName(p.h)
  }

  const CanonicalNames: set<string> := {
    "top-left", "top-center", "top-right",
    "middle-left", "middle-center", "middle-right",
    "bottom-left", "bottom-center", "bottom-right"
  }

  /** What updatePosition reads from the DOM: the anchor's document offset and
      outer size, and the window's outer size. */
  datatype Layout = Layout(
    offsetTop: real, offsetLeft: real,
    width: real, height: real,
    windowWidth: real, windowHeight: real)

  datatype Coord = Coord(top: real, left: real)

  /** The `anchor_points` table: the nine points of the anchor's box. */
  function AnchorPoints(l: Layout): (r: map<string, Coord>)
    ensures r.Keys == CanonicalNames
  {
    map[
      "top-left" := Coord(l.offsetTop, l.offsetLeft),
      "top-center" := Coord(l.offsetTop, l.offsetLeft + l.width / 2.0),
      "top-right" := Coord(l.offsetTop, l.offsetLeft + l.width),
      "middle-left" := Coord(l.offsetTop + l.height / 2.0, l.offsetLeft),
      "middle-center" := Coord(l.offsetTop + l.height / 2.0, l.offsetLeft + l.width / 2.0),
      "middle-right" := Coord(l.offsetTop + l.height / 2.0, l.offsetLeft + l.width),
      "bottom-left" := Coord(l.offsetTop + l.height, l.offsetLeft),
      "bottom-center" := Coord(l.offsetTop + l.height, l.offsetLeft + l.width / 2.0),
      "bottom-right" := Coord(l.offsetTop + l.height, l.offsetLeft + l.width)
    ]
  }

  /** The alias table `tmpAlternatives`. */
  const Aliases: map<string, string> := map[
    "topleft" := "top-left",
    "topcenter" := "top-center",
    "topright" := "top-right",
    "middleleft" := "middle-left",
    "middlecenter" := "middle-center",
    "middleright" := "middle-right",
    "bottomleft" := "bottom-left",
    "bottomcenter" := "bottom-center",
    "bottomright" := "bottom-right",
    "top" := "top-center",
    "middle" := "middle-center",
    "center" := "middle-center",
    "bottom" := "bottom-center",
    "north" := "top-center",
    "northeast" := "top-right",
    "north-east" := "top-right",
    "east" := "middle-right",
    "southeast" := "bottom-right",
    "south-east" := "bottom-right",
    "south" := "bottom-center",
    "southwest" := "bottom-left",
    "south-west" := "bottom-left",
    "west" := "middle-left",
    "northwest" := "top-left",
    "north-west" := "top-left"
  ]

  /** The name after the alias step: an alias is replaced by its target,
      any other name is kept. */
  function Normalize(name: string): (n: string)
    ensures n in CanonicalNames <==> name in Aliases || name in CanonicalNames
    ensures name !in Aliases ==> n == name
  {
    AliasesAreCanonical(name);
    if name in Aliases then Aliases[name] else name
  }

  /** The alias step of lines 301-302 for a value that is not an object:
      `tmpAlternatives[v]`, written back into `options.anchorPosition` when
      it is truthy. An alias finds its canonical name, and an inherited name
      finds, through `Object.prototype`, that inherited member; no other
      value is a key of the table. */
  function AliasWriteBack(anchorPosition: Value): (r: Option<Value>)
    ensures r.Some? <==>
              anchorPosition.Str? && (anchorPosition.s in Aliases || anchorPosition.s in InheritedNames)
    ensures anchorPosition.Str? && anchorPosition.s in InheritedNames ==>
              r == Some(InheritedMember(anchorPosition.s))
  {
    if anchorPosition.Str? && anchorPosition.s in InheritedNames then Some(InheritedMember(anchorPosition.s))
    else if anchorPosition.Str? && anchorPosition.s in Aliases then Some(Str(Aliases[anchorPosition.s]))
    else None
  }

  /** `s.split(sep)`. */
  function Split(s: string, sep: char): (r: seq<string>)
    ensures |r| >= 1
  {
    if s == [] then [""]
    else
      var rest := Split(s[1..], sep);
      if s[0] == sep then [""] + rest
      else [[s[0]] + rest[0]] + rest[1..]
  }

  /** Every side of the box starts as 'auto'. */
  const AutoBox: map<string, Value> :=
    map["top" := Str("auto"), "right" := Str("auto"), "bottom" := Str("auto"), "left" := Str("auto")]

  /** The six classes updatePosition removes before adding its own. */
  const DirectionalClasses: set<string> := {
    "popover-top", "popover-middle", "popover-bottom",
    "popover-left", "popover-center", "popover-right"
  }

  /** What updatePosition applies: the value left in `options.anchorPosition`
      (the canonical name after an alias was written back), the CSS box, and
      the classes to add after the directional ones are removed. */
  datatype Placement = Placement(anchorPosition: Value, css: map<string, Value>, classes: set<string>)

  /** The calculation of updatePosition for the given `options.anchorPosition`.
      The window size is part of the layout but takes no part. */
  function ResolvePosition(anchorPosition: Value, l: Layout): (r: Result<Placement>)
    ensures IsObjectTyped(anchorPosition) ==> r.Ok? && r.value.classes == {}
    ensures !IsObjectTyped(anchorPosition) && !anchorPosition.Str? ==> r == Failure(InvalidPosition)
    ensures r.Failure? ==> r.error == InvalidPosition
    ensures r.Ok? ==> r.value.classes <= DirectionalClasses
    ensures r.Ok? ==> r.value.classes == {} || exists p :: r.value.classes == PointClasses(p)
  {
    if IsObjectTyped(anchorPosition) then
      Ok(Placement(anchorPosition, Extend(AutoBox, PropsOf(anchorPosition)), {}))
    else if anchorPosition.Str? && Normalize(anchorPosition.s) in AnchorPoints(l) then
      var name := Normalize(anchorPosition.s);
      var c := AnchorPoints(l)[name];
      var tokens := Split(name, '-');
      // tmpPosSplit[1] is undefined for a name without a dash
      var second := if |tokens| > 1 then tokens[1] else "undefined";
      CanonicalNamesSplit(name);
      Ok(Placement(Str(name),
                   Extend(AutoBox, map["top" := Num(c.top), "left" := Num(c.left)]),
                   {"popover-" + tokens[0], "popover-" + second}))
    else
      Failure(InvalidPosition)
  }

  // ---- Reference definitions -------------------------------------------

  /** The vertical coordinate of a point: the anchor's top edge, its middle,
      or its bottom edge. */
  function VerticalCoordinate(v: Vertical, l: Layout): real {
    match v
    case Top => l.offsetTop
    case Middle => l.offsetTop + l.height / 2.0
    case Bottom => l.offsetTop + l.height
  }

  /** The horizontal coordinate of a point: the anchor's left edge, its
      centre, or its right edge. */
  function HorizontalCoordinate(h: Horizontal, l: Layout): real {
    match h
    case Left => l.offsetLeft
    case Center => l.offsetLeft + l.width / 2.0
    case Right => l.offsetLeft + l.width
  }

  /** The two classes a point is styled with. */
  function PointClasses(p: Point): set<string> {
    {"popover-" + VerticalName(p.v), "popover-" + HorizontalName(p.h)}
  }

  /** The box a point is placed at: its coordinates, the other two sides auto. */
  function PointBox(p: Point, l: Layout): map<string, Value> {
    map["top" := Num(VerticalCoordinate(p.v, l)), "right" := Str("auto"),
        "bottom" := Str("auto"), "left" := Num(HorizontalCoordinate(p.h, l))]
  }

  // ---- Lemmas -------------------------------------------------------------

  /** The point a canonical name names. */
  function PointOfName(name: string): (p: Point)
    requires name in CanonicalNames
    ensures PointName(p) == name
  {
    if name == "top-left" then assert PointName(Point(Top, Left)) == "top-left"; Point(Top, Left)
    else if name == "top-center" then assert PointName(Point(Top, Center)) == "top-center"; Point(Top, Center)
    else if name == "top-right" then assert PointName(Point(Top, Right)) == "top-right"; Point(Top, Right)
    else if name == "middle-left" then assert PointName(Point(Middle, Left)) == "middle-left"; Point(Middle, Left)
    else if name == "middle-center" then assert PointName(Point(Middle, Center)) == "middle-center"; Point(Middle, Center)
    else if name == "middle-right" then assert PointName(Point(Middle, Right)) == "middle-right"; Point(Middle, Right)
    else if name == "bottom-left" then assert PointName(Point(Bottom, Left)) == "bottom-left"; Point(Bottom, Left)
    else if name == "bottom-center" then assert PointName(Point(Bottom, Center)) == "bottom-center"; Point(Bottom, Center)
    else assert PointName(Point(Bottom, Right)) == "bottom-right"; Point(Bottom, Right)
  }

  lemma PointNameIsCanonical(p: Point)
    ensures PointName(p) in CanonicalNames
  {
    match p.v
    case Top =>
      match p.h {
        case Left => assert PointName(p) == "top-left";
        case Center => assert PointName(p) == "top-center";
        case Right => assert PointName(p) == "top-right";
      }
    case Middle =>
      match p.h {
        case Left => assert PointName(p) == "middle-left";
        case Center => assert PointName(p) == "middle-center";
        case Right => assert PointName(p) == "middle-right";
      }
    case Bottom =>
      match p.h {
        case Left => assert PointName(p) == "bottom-left";
        case Center => assert PointName(p) == "bottom-center";
        case Right => assert PointName(p) == "bottom-right";
      }
  }

  /** The canonical names are exactly the names of the nine points. */
  lemma CanonicalNamesArePoints(name: string)
    ensures name in CanonicalNames <==> exists p :: PointName(p) == name
  {
    if name in CanonicalNames {
      assert PointName(PointOfName(name)) == name;
    }
    if exists p :: PointName(p) == name {
      var p :| PointName(p) == name;
      PointNameIsCanonical(p);
    }
  }

  /** The `anchor_points` table has exactly the canonical names as keys, and
      the entry for a point is its vertical and horizontal coordinate. */
  lemma AnchorPointsTable(l: Layout, p: Point)
    ensures AnchorPoints(l).Keys == CanonicalNames
    ensures PointName(p) in AnchorPoints(l)
    ensures AnchorPoints(l)[PointName(p)]
            == Coord(VerticalCoordinate(p.v, l), HorizontalCoordinate(p.h, l))
  {
    var t := AnchorPoints(l);
    match p.v
    case Top =>
      match p.h {
        case Left => assert PointName(p) == "top-left";
        case Center => assert PointName(p) == "top-center";
        case Right => assert PointName(p) == "top-right";
      }
    case Middle =>
      match p.h {
        case Left => assert PointName(p) == "middle-left";
        case Center => assert PointName(p) == "middle-center";
        case Right => assert PointName(p) == "middle-right";
      }
    case Bottom =>
      match p.h {
        case Left => assert PointName(p) == "bottom-left";
        case Center => assert PointName(p) == "bottom-center";
        case Right => assert PointName(p) == "bottom-right";
      }
  }

  /** The two classes of a point are directional ones, one vertical and one
      horizontal. */
  lemma PointClassesDirectional(p: Point)
    ensures "popover-" + VerticalName(p.v) in {"popover-top", "popover-middle", "popover-bottom"}
    ensures "popover-" + HorizontalName(p.h) in {"popover-left", "popover-center", "popover-right"}
    ensures PointClasses(p) <= DirectionalClasses
  {
    match p.v {
      case Top => assert "popover-" + VerticalName(p.v) == "popover-top";
      case Middle => assert "popover-" + VerticalName(p.v) == "popover-middle";
      case Bottom => assert "popover-" + VerticalName(p.v) == "popover-bottom";
    }
    match p.h {
      case Left => assert "popover-" + HorizontalName(p.h) == "popover-left";
      case Center => assert "popover-" + HorizontalName(p.h) == "popover-center";
      case Right => assert "popover-" + HorizontalName(p.h) == "popover-right";
    }
  }

  /** Every alias maps onto a canonical name, and no canonical name is an
      alias, so the alias step never rewrites a canonical name. */
  lemma AliasesAreCanonical(name: string)
    ensures name in Aliases ==> Aliases[name] in CanonicalNames
    ensures name in CanonicalNames ==> name !in Aliases
  {
  }

  /** Normalising twice is normalising once. */
  lemma NormalizeIdempotent(name: string)
    ensures Normalize(Normalize(name)) == Normalize(name)
  {
    AliasesAreCanonical(name);
    AliasesAreCanonical(Normalize(name));
  }

  /** A string without the separator splits into itself. */
  lemma {:induction false} SplitWithoutSeparator(a: string, sep: char)
    requires sep !in a
    ensures Split(a, sep) == [a]
  {
    if a != [] {
      assert sep !in a[1..];
      SplitWithoutSeparator(a[1..], sep);
      assert [a[0]] + a[1..] == a;
    }
  }

  /** Splitting at the first separator. */
  lemma {:induction false} SplitAtFirst(a: string, sep: char, b: string)
    requires sep !in a
    ensures Split(a + [sep] + b, sep) == [a] + Split(b, sep)
  {
    var s := a + [sep] + b;
    if a == [] {
      assert s[1..] == b;
    } else {
      assert s[1..] == a[1..] + [sep] + b;
      assert sep !in a[1..];
      SplitAtFirst(a[1..], sep, b);
      assert [a[0]] + a[1..] == a;
    }
  }

  /** A canonical name splits at its dash into its vertical and its
      horizontal part. */
  lemma SplitPointName(p: Point)
    ensures Split(PointName(p), '-') == [VerticalName(p.v), HorizontalName(p.h)]
  {
    assert '-' !in VerticalName(p.v) by { match p.v { case Top => case Middle => case Bottom => } }
    assert '-' !in HorizontalName(p.h) by { match p.h { case Left => case Center => case Right => } }
    assert PointName(p) == VerticalName(p.v) + ['-'] + HorizontalName(p.h);
    SplitAtFirst(VerticalName(p.v), '-', HorizontalName(p.h));
    SplitWithoutSeparator(HorizontalName(p.h), '-');
  }

  /** A name found in `anchor_points` splits into two tokens whose classes are
      directional. */
  lemma CanonicalNamesSplit(name: string)
    ensures name in CanonicalNames ==>
      var t := Split(name, '-');
      && |t| == 2
      && {"popover-" + t[0], "popover-" + t[1]} == PointClasses(PointOfName(name))
      && PointClasses(PointOfName(name)) <= DirectionalClasses
  {
    if name in CanonicalNames {
      var p := PointOfName(name);
      SplitPointName(p);
      PointClassesDirectional(p);
    }
  }

  /** A name that normalises to a point is placed at that point of the
      anchor: the point's coordinates, 'auto' right and bottom, exactly its
      two classes, and the canonical name written back. */
  lemma ResolveNamed(name: string, p: Point, l: Layout)
    requires Normalize(name) == PointName(p)
    ensures ResolvePosition(Str(name), l) == Ok(Placement(Str(PointName(p)), PointBox(p, l), PointClasses(p)))
  {
    var n := PointName(p);
    AnchorPointsTable(l, p);
    SplitPointName(p);
    var c := AnchorPoints(l)[n];
    ExtendAutoBox(c.top, c.left);
    var r := ResolvePosition(Str(name), l);
    assert r.Ok?;
    assert r.value.anchorPosition == Str(n);
    assert r.value.css == PointBox(p, l);
    assert r.value.classes == PointClasses(p);
  }

  /** Laying a point's coordinates over the 'auto' box. */
  lemma ExtendAutoBox(top: real, left: real)
    ensures Extend(AutoBox, map["top" := Num(top), "left" := Num(left)])
            == map["top" := Num(top), "right" := Str("auto"), "bottom" := Str("auto"), "left" := Num(left)]
  {
    var coords := map["top" := Num(top), "left" := Num(left)];
    assert DefinedKeys(coords) == {"top", "left"};
  }

  /** A name that is neither an alias nor canonical is an error. */
  lemma ResolveUnknown(name: string, l: Layout)
    requires forall p :: Normalize(name) != PointName(p)
    ensures ResolvePosition(Str(name), l) == Failure(InvalidPosition)
  {
    CanonicalNamesArePoints(Normalize(name));
    AnchorPointsTable(l, Point(Top, Left));
  }

  /** An absolute object laid over the all-'auto' box, with no classes. */
  lemma ResolveAbsolute(position: Value, l: Layout)
    requires IsObjectTyped(position)
    ensures ResolvePosition(position, l) == Ok(Placement(position, Extend(AutoBox, PropsOf(position)), {}))
  {
  }

  /** No inherited name is an alias or a canonical name. */
  lemma InheritedNoPositionName(name: string)
    requires name in InheritedNames
    ensures name !in Aliases && name !in CanonicalNames
  {
    if name in {"constructor", "hasOwnProperty", "isPrototypeOf", "propertyIsEnumerable"} {
      ObjectMethodsNoPositionName(name);
    } else if name in {"toLocaleString", "toString", "valueOf", "__proto__"} {
      ConversionsNoPositionName(name);
    } else {
      AccessorsNoPositionName(name);
    }
  }

  lemma ObjectMethodsNoPositionName(name: string)
    requires name in {"constructor", "hasOwnProperty", "isPrototypeOf", "propertyIsEnumerable"}
    ensures name !in Aliases && name !in CanonicalNames
  {
  }

  lemma ConversionsNoPositionName(name: string)
    requires name in {"toLocaleString", "toString", "valueOf", "__proto__"}
    ensures name !in Aliases && name !in CanonicalNames
  {
  }

  lemma AccessorsNoPositionName(name: string)
    requires name in {"__defineGetter__", "__defineSetter__", "__lookupGetter__", "__lookupSetter__"}
    ensures name !in Aliases && name !in CanonicalNames
  {
  }

  /** A name `Object.prototype` provides is no alias and no point: the alias
      step writes back the inherited member it finds, and the lookup fails.
      The member `__proto__` finds is `Object.prototype`, an object with no
      own property: resolved again it is an absolute box with every side
      'auto' and no class. Any other member is a function, which is not an
      object and not in the alias table, so it fails again and again. */
  lemma ResolveInherited(name: string, l: Layout)
    requires name in InheritedNames
    ensures ResolvePosition(Str(name), l) == Failure(InvalidPosition)
    ensures AliasWriteBack(Str(name)) == Some(InheritedMember(name))
    ensures name == "__proto__" ==>
              ResolvePosition(InheritedMember(name), l) == Ok(Placement(ObjectPrototype, AutoBox, {}))
    ensures name != "__proto__" ==>
              && ResolvePosition(InheritedMember(name), l) == Failure(InvalidPosition)
              && AliasWriteBack(InheritedMember(name)) == None
  {
    InheritedNoPositionName(name);
    CanonicalNamesArePoints(name);
    ResolveUnknown(name, l);
    assert Extend(AutoBox, map[]) == AutoBox by {
      assert DefinedKeys(map[]) == {};
    }
  }

  /** Only the anchor's offset and size matter, never the window size. */
  lemma ResolveIgnoresWindow(position: Value, l1: Layout, l2: Layout)
    requires l1.offsetTop == l2.offsetTop && l1.offsetLeft == l2.offsetLeft
    requires l1.width == l2.width && l1.height == l2.height
    ensures ResolvePosition(position, l1) == ResolvePosition(position, l2)
  {
    assert AnchorPoints(l1) == AnchorPoints(l2);
  }

  /** Writing the normalised name back is harmless: resolving the value left
      in `options.anchorPosition` gives the same placement again. */
  lemma ResolveWriteBackStable(position: Value, l: Layout)
    requires ResolvePosition(position, l).Ok?
    ensures ResolvePosition(ResolvePosition(position, l).value.anchorPosition, l) == ResolvePosition(position, l)
  {
    if !IsObjectTyped(position) {
      var n := Normalize(position.s);
      CanonicalNamesArePoints(n);
      var p :| PointName(p) == n;
      NormalizeIdempotent(position.s);
      ResolveNamed(position.s, p, l);
      ResolveNamed(n, p, l);
    }
  }
}
