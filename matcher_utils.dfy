/** The argument normaliser shared by the text matchers of expect-playwright
    (src/matchers/utils.ts): classify the object under test, default the
    wait options, quote strings for messages, and resolve a variadic argument
    list into an element handle, an optional selector and an expected value.

    The two Playwright calls the source awaits, `page.$` and
    `page.waitForSelector`, are not part of this model: they are the two
    fields of a `Browser` value passed in, and every call issued to them is
    recorded in order, so that the model can say which calls happen. */
module MatcherUtils {
  import opened Wrappers
  import Decimal

  // ---------------------------------------------------------------------
  // Handles and their classification

  /** A Playwright object. `className` is what the source reads through
      `value.constructor.name`; `id` stands for the object's identity. */
  datatype Handle = Handle(className: string, id: nat)

  /** The two kinds of object under test the matchers accept. */
  datatype ExpectType = PageType | ElementHandleType

  const PageClassName: string := "Page"
  const ElementHandleClassName: string := "ElementHandle"

  /** The runtime class name that identifies each kind. */
  function ClassNameOf(t: ExpectType): (name: string) {
    match t
    case PageType => PageClassName
    case ElementHandleType => ElementHandleClassName
  }

  const UnrecognizedTypePrefix: string := "could not recognize type: "

  function UnrecognizedTypeMessage(className: string): (m: string) {
    UnrecognizedTypePrefix + className
  }

  /** `detectExpectType`: a page or an element handle by class name, and an
      error naming the class for anything else. */
  function DetectExpectType(value: Handle): (r: Outcome<ExpectType>)
    ensures r.Ok? <==> value.className == PageClassName || value.className == ElementHandleClassName
    ensures r.Ok? ==> ClassNameOf(r.value) == value.className
    ensures r.Err? ==> r.message == UnrecognizedTypeMessage(value.className)
  {
    match value.className
    case "Page" => Ok(PageType)
    case "ElementHandle" => Ok(ElementHandleType)
    case _ => Err(UnrecognizedTypeMessage(value.className))
  }

  /** ClassNameOf is the inverse of the classification: a handle carrying a
      kind's class name is classified as that kind. */
  lemma DetectClassNameOf(t: ExpectType, id: nat)
    ensures DetectExpectType(Handle(ClassNameOf(t), id)) == Ok(t)
  {
  }

  // ---------------------------------------------------------------------
  // Wait options

  /** A value of a `PageWaitForSelectorOptions` property (`timeout` is a
      number, `state` a string, `strict` a boolean); any of them may be
      present with the value `undefined`. */
  datatype OptionValue = Number(n: int) | Text(s: string) | Flag(b: bool) | Undefined

  /** An options object, keyed by property name. */
  type WaitOptions = map<string, OptionValue>

  const TimeoutKey: string := "timeout"

  /** The default timeout, `1 * 1000` milliseconds. */
  const DefaultTimeout: int := 1 * 1000

  /** The caller's options, with the parameter default `{}` applied when the
      argument is `undefined`. */
  function Supplied(options: Option<WaitOptions>): (o: WaitOptions) {
    match options
    case None => map[]
    case Some(o) => o
  }

  /** `getDefaultWaitForSelectorOptions`: `{timeout: 1000, ...options}`. The
      result has the caller's keys plus `timeout`; every caller key keeps the
      caller's value, and `timeout` is 1000 when the caller gave none. */
  function DefaultWaitOptions(options: Option<WaitOptions>): (r: WaitOptions)
    ensures r.Keys == Supplied(options).Keys + {TimeoutKey}
    ensures options.Some? ==> forall k :: k in options.value ==> r[k] == options.value[k]
    ensures (options.None? || TimeoutKey !in options.value) ==> r[TimeoutKey] == Number(DefaultTimeout)
  {
    map[TimeoutKey := Number(DefaultTimeout)] + Supplied(options)
  }

  /** With no argument the options are exactly `{timeout: 1000}`, the same as
      with an explicit empty object. */
  lemma NoOptionsGiveDefaultTimeout()
    ensures DefaultWaitOptions(None) == map[TimeoutKey := Number(1000)]
    ensures DefaultWaitOptions(Some(map[])) == DefaultWaitOptions(None)
  {
  }

  /** Defaulting is idempotent: the defaults of a defaulted object are that
      object again. */
  lemma DefaultWaitOptionsIdempotent(options: Option<WaitOptions>)
    ensures DefaultWaitOptions(Some(DefaultWaitOptions(options))) == DefaultWaitOptions(options)
  {
  }

  /** A caller that supplies a `timeout` always gets it, whatever else the
      options hold. */
  lemma CallerTimeoutWins(o: WaitOptions, t: int)
    ensures DefaultWaitOptions(Some(o[TimeoutKey := Number(t)]))[TimeoutKey] == Number(t)
  {
  }

  /** The spread copies a key whose value is `undefined` as it copies any
      other: `{timeout: undefined}` replaces the default timeout, and the
      result is not `{timeout: 1000}`. */
  lemma UndefinedTimeoutOverridesDefault(o: WaitOptions)
    ensures DefaultWaitOptions(Some(o[TimeoutKey := Undefined]))[TimeoutKey] == Undefined
    ensures DefaultWaitOptions(Some(map[TimeoutKey := Undefined])) != DefaultWaitOptions(None)
  {
  }

  // ---------------------------------------------------------------------
  // Quoting

  /** JavaScript's string conversion of `string | null`. */
  function JsString(val: Option<string>): (s: string) {
    match val
    case None => "null"
    case Some(s) => s
  }

  /** `quote`: the value between single quotes, with nothing escaped. */
  function Quote(val: Option<string>): (r: string)
    ensures |r| == |JsString(val)| + 2
    ensures r[0] == '\'' && r[|r| - 1] == '\''
    ensures r[1..|r| - 1] == JsString(val)
  {
    "'" + JsString(val) + "'"
  }

  /** No escaping takes place: quoting `null` and quoting the string "null"
      give the same text, and a quote inside the value stays as it is. */
  lemma QuoteDoesNotEscape()
    ensures Quote(None) == Quote(Some("null"))
    ensures Quote(Some("a'b")) == "'a'b'"
  {
  }

  // ---------------------------------------------------------------------
  // Error messages

  const TimeoutPrefix: string := "Timeout exceed for element "
  const InvalidLengthPrefix: string := "Invalid input length: "

  /** The message thrown when the wait for `selector` fails. */
  function TimeoutMessage(selector: string): (m: string)
    ensures m == "Timeout exceed for element '" + selector + "'"
  {
    TimeoutPrefix + Quote(Some(selector))
  }

  /** The message thrown for an unsupported argument count. */
  function InvalidLengthMessage(n: nat): (m: string)
    ensures |m| > |InvalidLengthPrefix| && m[..|InvalidLengthPrefix|] == InvalidLengthPrefix
    ensures Decimal.IsNumeral(m[|InvalidLengthPrefix|..])
  {
    InvalidLengthPrefix + Decimal.NatToString(n)
  }

  /** The timeout message carries the selector verbatim: it can be read back
      from between the quotes. */
  lemma TimeoutMessageNamesSelector(selector: string)
    ensures var m := TimeoutMessage(selector);
      m[..|TimeoutPrefix|] == TimeoutPrefix && m[|TimeoutPrefix| + 1 .. |m| - 1] == selector
  {
    var m := TimeoutMessage(selector);
    assert m == TimeoutPrefix + Quote(Some(selector));
  }

  /** The arity message carries the argument count: the numeral after the
      prefix denotes `n`, and distinct counts give distinct messages. */
  lemma {:induction false} InvalidLengthMessageNamesCount(n: nat, n': nat)
    ensures var m := InvalidLengthMessage(n);
      Decimal.ParseDecimal(m[|InvalidLengthPrefix|..]) == n
    ensures InvalidLengthMessage(n) == InvalidLengthMessage(n') ==> n == n'
  {
    var m := InvalidLengthMessage(n);
    assert m[|InvalidLengthPrefix|..] == Decimal.NatToString(n);
    Decimal.ParseNatToString(n);
    var m' := InvalidLengthMessage(n');
    assert m'[|InvalidLengthPrefix|..] == Decimal.NatToString(n');
    Decimal.ParseNatToString(n');
  }

  /** The three kinds of error can be told apart by their messages. */
  lemma ErrorKindsDistinct(className: string, selector: string, n: nat)
    ensures UnrecognizedTypeMessage(className) != TimeoutMessage(selector)
    ensures UnrecognizedTypeMessage(className) != InvalidLengthMessage(n)
    ensures TimeoutMessage(selector) != InvalidLengthMessage(n)
  {
    assert UnrecognizedTypeMessage(className)[0] == 'c';
    assert TimeoutMessage(selector)[0] == 'T';
    assert InvalidLengthMessage(n)[0] == 'I';
  }

  // ---------------------------------------------------------------------
  // The element resolver

  /** One argument of `getElementText`: the object under test, a string
      (a selector or an expected value), or an options object. */
  datatype Arg = Target(handle: Handle) | Str(text: string) | Opts(options: WaitOptions)

  /** The TypeScript type `InputArguments` of the rest parameter, position by
      position: a page or element handle, then a string, then a string or
      options, then options. The length itself is not constrained, since the
      source answers every other length with an error. */
  predicate InputArguments(args: seq<Arg>) {
    && (|args| > 0 ==> args[0].Target?)
    && (|args| > 1 ==> args[1].Str?)
    && (|args| > 2 ==> !args[2].Target?)
    && (|args| > 3 ==> args[3].Opts?)
  }

  /** The options object at position `i`, or `None` for the `undefined` that
      JavaScript reads past the end of the arguments. */
  function OptionsArgument(args: seq<Arg>, i: nat): (r: Option<WaitOptions>)
    requires InputArguments(args) && 3 <= i
    requires i < |args| ==> args[i].Opts?
    ensures r.Some? <==> i < |args|
    ensures i < |args| ==> r == Some(args[i].options)
  {
    if i < |args| then Some(args[i].options) else None
  }

  /** The record `getElementText` returns. `elementHandle` is `None` where
      `page.$` found nothing (its `null`); `selector` is present only when a
      selector was looked up; `expectedValue` is the argument as passed. */
  datatype ElementText = ElementText(elementHandle: Option<Handle>, selector: Option<string>, expectedValue: Arg)

  /** The page's query and its selector wait, as the test sees them: what
      `page.$(selector)` resolves to, and whether `page.waitForSelector`
      resolves (true) or rejects (false) for a selector and options. */
  datatype Browser = Browser(
    query: (Handle, string) -> Option<Handle>,
    waitSucceeds: (Handle, string, WaitOptions) -> bool)

  /** A call issued to the browser. */
  datatype BrowserCall =
    | Query(page: Handle, selector: string)
    | WaitForSelector(page: Handle, selector: string, options: WaitOptions)

  /** What one call of `getElementText` does: its outcome and the browser
      calls it issued, in order. */
  datatype Run = Run(outcome: Outcome<ElementText>, calls: seq<BrowserCall>)

  const BodySelector: string := "body"

  /** The two-argument shape `(target, expectedValue)`. */
  function ResolveDirect(b: Browser, target: Handle, expectedValue: Arg): (r: Run)
    ensures r.outcome.Ok? ==> r.outcome.value.selector == None && r.outcome.value.expectedValue == expectedValue
    ensures forall c :: c in r.calls ==> c == Query(target, BodySelector)
    ensures target.className == ElementHandleClassName ==>
      r == Run(Ok(ElementText(Some(target), None, expectedValue)), [])
    ensures target.className == PageClassName ==>
      r == Run(Ok(ElementText(b.query(target, BodySelector), None, expectedValue)), [Query(target, BodySelector)])
    ensures target.className != PageClassName && target.className != ElementHandleClassName ==>
      r == Run(Err(UnrecognizedTypePrefix + target.className), [])
  {
    match DetectExpectType(target)
    case Err(message) => Run(Err(message), [])
    case Ok(ElementHandleType) => Run(Ok(ElementText(Some(target), None, expectedValue)), [])
    case Ok(PageType) =>
      Run(Ok(ElementText(b.query(target, BodySelector), None, expectedValue)), [Query(target, BodySelector)])
  }

  /** The three-argument shape `(page, selector, expectedValue)`, with the
      options object the source reads (which may be absent). */
  function ResolveBySelector(b: Browser, page: Handle, selector: string, expectedValue: Arg,
                             options: Option<WaitOptions>): (r: Run)
    ensures |r.calls| > 0 && r.calls[0] == WaitForSelector(page, selector, DefaultWaitOptions(options))
    ensures r.outcome.Err? <==> !b.waitSucceeds(page, selector, DefaultWaitOptions(options))
    ensures r.outcome.Err? ==> r.outcome.message == TimeoutMessage(selector) && |r.calls| == 1
    ensures r.outcome.Ok? ==>
      && r.outcome.value == ElementText(b.query(page, selector), Some(selector), expectedValue)
      && r.calls == [r.calls[0], Query(page, selector)]
  {
    var waitOptions := DefaultWaitOptions(options);
    var wait := WaitForSelector(page, selector, waitOptions);
    if !b.waitSucceeds(page, selector, waitOptions) then
      Run(Err(TimeoutMessage(selector)), [wait])
    else
      Run(Ok(ElementText(b.query(page, selector), Some(selector), expectedValue)), [wait, Query(page, selector)])
  }

  /** `getElementText`: dispatch on the number of arguments. */
  function GetElementText(b: Browser, args: seq<Arg>): (r: Run)
    requires InputArguments(args)
    ensures r.outcome.Ok? ==> |args| == 2 || |args| == 3
    ensures r.outcome.Ok? ==> (r.outcome.value.selector.Some? <==> |args| == 3)
    ensures forall c :: c in r.calls && c.WaitForSelector? ==> c.options == map[TimeoutKey := Number(1000)]
    ensures |r.calls| <= 2
  {
    if |args| == 2 then
      ResolveDirect(b, args[0].handle, args[1])
    else if |args| == 3 then
      // The source reads `args[3]` here, past the end of a three-element list.
      ResolveBySelector(b, args[0].handle, args[1].text, args[2], OptionsArgument(args, 3))
    else
      Run(Err(InvalidLengthMessage(|args|)), [])
  }

  /** Two arguments with an element target: the target itself is the result
      and the browser is not touched. */
  lemma ElementTargetPassesThrough(b: Browser, args: seq<Arg>)
    requires InputArguments(args) && |args| == 2
    requires args[0].handle.className == ElementHandleClassName
    ensures GetElementText(b, args) == Run(Ok(ElementText(Some(args[0].handle), None, args[1])), [])
  {
  }

  /** Two arguments with a page target: the page's `body` is queried, once,
      and no selector is recorded. */
  lemma PageTargetQueriesBody(b: Browser, args: seq<Arg>)
    requires InputArguments(args) && |args| == 2
    requires args[0].handle.className == PageClassName
    ensures var page := args[0].handle;
      GetElementText(b, args) ==
      Run(Ok(ElementText(b.query(page, "body"), None, args[1])), [Query(page, "body")])
  {
  }

  /** Two arguments with any other class: the classification error, with no
      browser call. */
  lemma UnrecognizedTargetFails(b: Browser, args: seq<Arg>)
    requires InputArguments(args) && |args| == 2
    requires args[0].handle.className != PageClassName && args[0].handle.className != ElementHandleClassName
    ensures GetElementText(b, args) == Run(Err("could not recognize type: " + args[0].handle.className), [])
  {
  }

  /** Three arguments: the wait is always issued first, on the selector, with
      a timeout of 1000, because the options the source reads (`args[3]`)
      are never there. */
  lemma ThreeArgumentsWaitWithDefaultTimeout(b: Browser, args: seq<Arg>)
    requires InputArguments(args) && |args| == 3
    ensures OptionsArgument(args, 3) == None
    ensures var r := GetElementText(b, args);
      |r.calls| > 0 && r.calls[0] == WaitForSelector(args[0].handle, args[1].text, map["timeout" := Number(1000)])
  {
  }

  /** Three arguments and a failed wait: the fixed timeout message, the
      selector quoted without escaping, and no query. */
  lemma ThreeArgumentsWaitFails(b: Browser, args: seq<Arg>)
    requires InputArguments(args) && |args| == 3
    requires !b.waitSucceeds(args[0].handle, args[1].text, map["timeout" := Number(1000)])
    ensures var r := GetElementText(b, args);
      r.outcome == Err("Timeout exceed for element '" + args[1].text + "'") && |r.calls| == 1
  {
  }

  /** Three arguments and a successful wait: the same selector is queried
      and recorded, and `args[2]` is the expected value. */
  lemma ThreeArgumentsWaitSucceeds(b: Browser, args: seq<Arg>)
    requires InputArguments(args) && |args| == 3
    requires b.waitSucceeds(args[0].handle, args[1].text, map["timeout" := Number(1000)])
    ensures var page, selector := args[0].handle, args[1].text;
      GetElementText(b, args).outcome == Ok(ElementText(b.query(page, selector), Some(selector), args[2]))
  {
  }

  /** The three-argument path never classifies its target: whatever the
      target's class name, the only error it can raise is the timeout. */
  lemma ThreeArgumentsNeverClassify(b: Browser, args: seq<Arg>)
    requires InputArguments(args) && |args| == 3
    ensures var r := GetElementText(b, args);
      r.outcome.Err? ==>
        && r.outcome.message == TimeoutMessage(args[1].text)
        && r.outcome.message != UnrecognizedTypeMessage(args[0].handle.className)
  {
    ErrorKindsDistinct(args[0].handle.className, args[1].text, 0);
  }

  /** Any count other than 2 or 3 fails at once with the count in the
      message, and the count can be read back from it. */
  lemma {:induction false} OtherLengthsFail(b: Browser, args: seq<Arg>)
    requires InputArguments(args) && |args| != 2 && |args| != 3
    ensures var r := GetElementText(b, args);
      && r.calls == []
      && r.outcome == Err("Invalid input length: " + Decimal.NatToString(|args|))
      && Decimal.ParseDecimal(r.outcome.message[|InvalidLengthPrefix|..]) == |args|
  {
    InvalidLengthMessageNamesCount(|args|, |args|);
  }

  /** The lengths a typed caller can still get wrong give these messages. */
  lemma InvalidLengthExamples()
    ensures InvalidLengthMessage(0) == "Invalid input length: 0"
    ensures InvalidLengthMessage(1) == "Invalid input length: 1"
    ensures InvalidLengthMessage(4) == "Invalid input length: 4"
  {
  }

  // ---------------------------------------------------------------------
  // The options argument (see the findings in README.md)

  /** As written, a four-argument call `(page, selector, expectedValue,
      options)`, which `InputArguments` admits, is refused as an invalid
      length, so the caller's options never reach the wait. */
  lemma FourArgumentCallRejected(b: Browser, page: Handle, selector: string, expectedValue: Arg, o: WaitOptions)
    requires !expectedValue.Target?
    ensures var args := [Target(page), Str(selector), expectedValue, Opts(o)];
      InputArguments(args) && GetElementText(b, args) == Run(Err("Invalid input length: 4"), [])
  {
  }

  /** The resolver with the options argument honoured: a fourth argument is
      accepted and passed to the wait, as `InputArguments` and the read of
      `args[3]` intend. */
  function GetElementTextWithOptions(b: Browser, args: seq<Arg>): (r: Run)
    requires InputArguments(args)
    ensures r.outcome.Ok? ==> 2 <= |args| <= 4
    ensures |args| == 4 ==> |r.calls| > 0 && r.calls[0] == WaitForSelector(args[0].handle, args[1].text, DefaultWaitOptions(Some(args[3].options)))
  {
    if |args| == 2 then
      ResolveDirect(b, args[0].handle, args[1])
    else if |args| == 3 || |args| == 4 then
      ResolveBySelector(b, args[0].handle, args[1].text, args[2], OptionsArgument(args, 3))
    else
      Run(Err(InvalidLengthMessage(|args|)), [])
  }

  /** With the options honoured, a caller's timeout is the one the wait
      receives, and every call shape other than four arguments behaves as
      the source does. */
  lemma OptionsHonoured(b: Browser, args: seq<Arg>, t: int)
    requires InputArguments(args)
    ensures |args| == 4 && args[3].options == map[TimeoutKey := Number(t)] ==>
      GetElementTextWithOptions(b, args).calls[0].options[TimeoutKey] == Number(t)
    ensures |args| != 4 ==> GetElementTextWithOptions(b, args) == GetElementText(b, args)
  {
  }
}
