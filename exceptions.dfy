/**
 * The package's exception classes and the message each one builds, plus the
 * built-in exceptions the modelled code raises.  `__str__` of every class
 * returns the stored message, which is `Message` here.
 */
module Exceptions {
  import opened Wrappers
  import opened Text

  /** `DependencyError` accepts one library name or several. */
  datatype Libraries = OneLibrary(name: string) | LibraryList(names: seq<string>)

  datatype Error =
    | DataNotAvailable(dataName: string)
    | EmptyResponse
    | ServiceUnavailable(url: string)
    | ZeroMatched(msg: Option<string>)
    | MissingColumn(columns: seq<string>)
    | Service(err: string, serviceUrl: Option<string>)
    | InputValue(inp: string, validInputs: seq<string>, given: Option<string>)
    | InputType(arg: string, validType: string, example: Option<string>)
    | MissingItem(items: seq<string>)
    | InputRange(variable: string, validRange: string)
    | MissingCrs
    | NoTerminal
    | Dependency(func: string, libraries: Libraries)
    // built-in exceptions raised by the modelled code
    | PyValueError(text: string)
    | PyTypeError(text: string)
    | PyIndexError(text: string)
    | PyAttributeError(text: string)
    | PyZeroDivision
    // a pydantic validation failure, before `read_config` converts it
    | Validation(text: string)

  /** What unpacking an empty `zip(*...)` into two names raises. */
  const UnpackError := "not enough values to unpack (expected 2, got 0)"

  const NotAvailableTail := " is not available for the requested query."
  const NoFeatures := "Service returned no features."
  const NoFeaturesHeader := "Service returned no features with the following error message:\n"
  const ServiceHeader := "Service returned the following error message:\n"
  const ValidOptions := " is invalid. Valid options are:\n"
  const ShouldBeOfType := " argument should be of type "

  function LibraryNames(libraries: Libraries): seq<string>
  {
    match libraries
    case OneLibrary(name) => [name]
    case LibraryList(names) => names
  }

  /** The message each exception stores, which is also what `str(e)` returns. */
  function Message(e: Error): (r: string)
    ensures e.ZeroMatched? && e.msg.None? ==> r == NoFeatures
    ensures e.ZeroMatched? && e.msg.Some? ==>
      |r| == |NoFeaturesHeader| + |e.msg.value| &&
      r[..|NoFeaturesHeader|] == NoFeaturesHeader && r[|NoFeaturesHeader|..] == e.msg.value
    ensures e.Service? ==> |r| >= |ServiceHeader| && r[..|ServiceHeader|] == ServiceHeader
    ensures e.Service? && e.serviceUrl.None? ==> r[|ServiceHeader|..] == e.err
    ensures e.InputType? && e.example.None? ==>
      r == "The " + e.arg + ShouldBeOfType + e.validType
  {
    match e
    case DataNotAvailable(name) => Capitalize(name) + NotAvailableTail
    case EmptyResponse => "The input response is empty."
    case ServiceUnavailable(url) => "Service is currently not available, try again later:\n" + url
    case ZeroMatched(msg) =>
      if msg.None? then NoFeatures else NoFeaturesHeader + msg.value
    case MissingColumn(columns) => "The following columns are missing:\n" + Join(columns, ", ")
    case Service(err, url) =>
      ServiceHeader + (if url.None? then err else "URL: " + url.value + "\nERROR: " + err + "\n")
    case InputValue(inp, valid, given) =>
      (if given.None? then "Given " + inp + ValidOptions
       else "Given " + inp + " (" + given.value + ")" + ValidOptions)
      + Join(valid, "\n")
    case InputType(arg, validType, example) =>
      "The " + arg + ShouldBeOfType + validType
      + (if example.None? then "" else ":\n" + example.value)
    case MissingItem(items) => "The following items are missing:\n" + Join(items, ", ")
    case InputRange(variable, validRange) => "Valid range for " + variable + " is " + validRange + "."
    case MissingCrs => "CRS of the input geometry is missing."
    case NoTerminal => "No terminal COMID was found."
    case Dependency(func, libraries) =>
      "The following dependencies are missing for running " + func + ":\n"
      + Join(LibraryNames(libraries), ", ")
    case PyValueError(text) => text
    case PyTypeError(text) => text
    case PyIndexError(text) => text
    case PyAttributeError(text) => text
    case PyZeroDivision => "division by zero"
    case Validation(text) => text
  }

  /**
   * A `ZeroMatchedError` message tells apart "no message" from every given
   * message, and different given messages give different texts.
   */
  lemma ZeroMatchedMessageInjective(a: Option<string>, b: Option<string>)
    requires Message(ZeroMatched(a)) == Message(ZeroMatched(b))
    ensures a == b
  {
    var ma, mb := Message(ZeroMatched(a)), Message(ZeroMatched(b));
    if a.Some? && b.Some? {
      assert a.value == ma[|NoFeaturesHeader|..] == mb[|NoFeaturesHeader|..] == b.value;
    }
  }

  /**
   * The data name is capitalised, so two names that agree up to ASCII letter
   * case give the same `DataNotAvailableError` message.
   */
  lemma DataNotAvailableCaseInsensitive(a: string, b: string)
    requires Lower(a) == Lower(b)
    ensures Message(DataNotAvailable(a)) == Message(DataNotAvailable(b))
  {
    if |a| > 0 {
      assert LowerChar(a[0]) == LowerChar(b[0]);
      assert UpperChar(a[0]) == UpperChar(b[0]);
      assert Lower(a[1..]) == Lower(a)[1..] == Lower(b)[1..] == Lower(b[1..]);
    }
  }

  /** With a URL, a `ServiceError` message ends with the error line and a newline. */
  lemma ServiceMessageWithUrl(err: string, url: string)
    ensures var r := Message(Service(err, Some(url)));
      |r| == |ServiceHeader| + |url| + |err| + 14 &&
      r[|ServiceHeader|..|ServiceHeader| + 5] == "URL: " &&
      r[|r| - |err| - 1..] == err + "\n"
  {
    var tail := "URL: " + url + "\nERROR: " + err + "\n";
    var r := Message(Service(err, Some(url)));
    assert r == ServiceHeader + tail;
    assert |tail| == |url| + |err| + 14;
    assert r[|ServiceHeader|..|ServiceHeader| + 5] == tail[..5];
    assert r[|r| - |err| - 1..] == tail[|tail| - |err| - 1..];
  }

  /**
   * `InputValueError` names the given value in parentheses exactly when one
   * is given, and always ends with the valid options, one per line.
   */
  lemma InputValueMessageShape(inp: string, valid: seq<string>, given: Option<string>)
    ensures var r := Message(InputValue(inp, valid, given));
      var tail := ValidOptions + Join(valid, "\n");
      && |r| >= 6 + |inp| + |tail|
      && r[..6 + |inp|] == "Given " + inp
      && r[|r| - |tail|..] == tail
      && (given.None? ==> |r| == 6 + |inp| + |tail|)
      && (given.Some? ==> Contains(r, " (" + given.value + ")"))
  {
    var r := Message(InputValue(inp, valid, given));
    var tail := ValidOptions + Join(valid, "\n");
    var head := if given.None? then "Given " + inp else "Given " + inp + " (" + given.value + ")";
    assert r == head + tail;
    assert r[..6 + |inp|] == head[..6 + |inp|];
    assert r[|r| - |tail|..] == tail;
    if given.Some? {
      var mid := " (" + given.value + ")";
      assert r[6 + |inp|..6 + |inp| + |mid|] == mid;
      assert OccursAt(r, mid, 6 + |inp|);
    }
  }

  /** `InputTypeError` appends the example after a colon and a newline only when given. */
  lemma InputTypeMessageExample(arg: string, validType: string, example: string)
    ensures var plain := Message(InputType(arg, validType, None));
      Message(InputType(arg, validType, Some(example))) == plain + ":\n" + example
  {
  }

  /** `DependencyError` treats one library name as a one-element list. */
  lemma DependencySingleLibrary(func: string, name: string)
    ensures Message(Dependency(func, OneLibrary(name))) == Message(Dependency(func, LibraryList([name])))
    ensures Message(Dependency(func, OneLibrary(name)))[|Message(Dependency(func, OneLibrary(name)))| - |name|..] == name
  {
    var head := "The following dependencies are missing for running " + func + ":\n";
    assert LibraryNames(OneLibrary(name)) == LibraryNames(LibraryList([name])) == [name];
    assert Join([name], ", ") == name;
    var r := Message(Dependency(func, OneLibrary(name)));
    assert r == head + name;
    assert r[|r| - |name|..] == name;
  }
}
