/** The pure parts of `fetchAndUpdate`: its two guards and the settings object
    it hands to `$.ajax`. */
module Ajax {
  import opened Common
  import opened JsValues

  /** The request payload: the `ajaxData` option itself when it is an object
      (or null), otherwise a fresh empty object literal. */
  datatype Payload = Given(v: Value) | FreshEmptyObject

  /** The `ajaxSettings` object, without its two callbacks. `dataType` is
      present only when it was set. */
  datatype AjaxSettings = AjaxSettings(
    url: Value,
    requestType: string,
    data: Payload,
    cache: bool,
    dataType: Option<string>)

  /** The two guards of fetchAndUpdate, checked in order. */
  function FetchGuard(isAjaxPopover: bool, o: Options): (r: Outcome)
    ensures r.Pass? <==> isAjaxPopover && Truthy(Lookup(o, "url"))
    ensures !isAjaxPopover ==> r == Fail(NotAjaxPopover)
    ensures isAjaxPopover && !Truthy(Lookup(o, "url")) ==> r == Fail(MissingUrl)
  {
    if !isAjaxPopover then Fail(NotAjaxPopover)
    else if !Truthy(Lookup(o, "url")) then Fail(MissingUrl)
    else Pass
  }

  /** The settings of the request fetchAndUpdate issues. */
  function SettingsFor(o: Options): (s: AjaxSettings)
    ensures s.url == Lookup(o, "url")
    ensures s.requestType in {"GET", "POST"}
    ensures s.requestType == "GET" <==> Lookup(o, "method") == Str("GET")
    ensures s.data == if IsObjectTyped(Lookup(o, "ajaxData")) then Given(Lookup(o, "ajaxData")) else FreshEmptyObject
    ensures s.cache <==> Lookup(o, "cache") != Bool(false)
    ensures s.dataType.Some? <==> Lookup(o, "ajaxAsJSON") == Bool(true)
    ensures s.dataType.Some? ==> s.dataType.value == "json"
  {
    var ajaxData := Lookup(o, "ajaxData");
    AjaxSettings(
      Lookup(o, "url"),
      if Lookup(o, "method") == Str("GET") then "GET" else "POST",
      if IsObjectTyped(ajaxData) then Given(ajaxData) else FreshEmptyObject,
      Lookup(o, "cache") != Bool(false),
      if Lookup(o, "ajaxAsJSON") == Bool(true) then Some("json") else None)
  }

  /** Only the exact string "GET" asks for GET; "get", or GET in any other
      case, is sent as POST. */
  lemma OnlyExactGetIsGet(o: Options)
    requires Lookup(o, "method") == Str("get")
    ensures SettingsFor(o).requestType == "POST"
  {
  }

  /** Only `false` itself switches caching off; other falsy values keep it. */
  lemma OnlyFalseDisablesCache(o: Options)
    requires !Truthy(Lookup(o, "cache")) && Lookup(o, "cache") != Bool(false)
    ensures SettingsFor(o).cache
  {
  }
}
