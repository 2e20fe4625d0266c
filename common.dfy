/** Shared vocabulary of the popover model: element identities, the errors the
    plugin raises with `$.error`, and the failure-carrying result types. */
module Common {

  /** A DOM element, identified by an abstract number. */
  type ElementId = nat

  datatype Option<+T> = None | Some(value: T)

  /** Every `$.error` the plugin can raise (it throws, so the call aborts),
      plus the ReferenceError of the JSON success branch, the TypeError
      of the `title`/`content` field setters and the TypeError of calling
      an inherited member that cannot be called. */
  datatype Error =
    | AlreadyInitialized     // init on an element that already has data
    | NotInitialized         // any data method on an element without data
    | InvalidPosition        // anchorPosition is neither an object nor a known name
    | InvalidTrigger         // trigger is not one of the five trigger methods
    | NotAjaxPopover         // fetchAndUpdate on a popover that never had a url
    | MissingUrl             // fetchAndUpdate while options.url is falsy
    | AjaxFailed             // the error callback of the request
    | UndefinedReference     // the JSON success branch reads the undeclared `reponse`
    | UndefinedOptions       // the field setters write into an undefined `options`
    | NoSuchMethod           // $.fn.popover called with an unknown method name
    | NotAFunction           // a TypeError: an inherited member of Object.prototype
                             // that is not a function, or demands one, is called

  datatype Result<+T> = Ok(value: T) | Failure(error: Error)

  datatype Outcome = Pass | Fail(error: Error)
}
