# expect-playwright: the matcher argument normaliser, in Dafny

This project models `src/matchers/utils.ts` of expect-playwright. The text matchers use this file to turn their
variadic arguments into one element handle, an optional selector and an expected value. The file has four
operations:

- `detectExpectType` sorts the object under test into a page or an element handle by its runtime class name.
  Any other class name is an error.
- `getDefaultWaitForSelectorOptions` merges the caller's options over `{timeout: 1000}`.
- `quote` puts single quotes around a string for error messages.
- `getElementText` chooses what to do from the number of arguments:
  - 2 arguments with an element: return the element unchanged.
  - 2 arguments with a page: query the page for `body`.
  - 3 arguments: wait for the selector, then query it.
  - any other count: an error.

The source is pure apart from two awaited Playwright calls, `page.$` and `page.waitForSelector`. The model is
therefore written as datatypes, functions and lemmas:

- `Wrappers` (`wrappers.dfy`): `Option` and `Outcome`. `Outcome` is `Ok(value)` or `Err(message)`, where `Err`
  stands for a thrown `Error`.
- `Decimal` (`decimal.dfy`): prints a natural number as a decimal numeral, as a JavaScript template literal
  prints `args.length`. The lemmas prove that the numeral can be read back.
- `MatcherUtils` (`matcher_utils.dfy`): the four operations of the source file.
  - A `Handle` carries the class name that the source reads through `value.constructor.name`.
  - A `Browser` value holds two functions. One gives what `page.$` returns for a selector. The other says
    whether `page.waitForSelector` resolves for a selector and options.
  - `GetElementText` returns a `Run`: the outcome together with the browser calls issued, in order. This is how
    the model states which queries and waits happen.
  - The argument list is a `seq<Arg>`. Its precondition `InputArguments` is the TypeScript type of the rest
    parameter, position by position. It puts no bound on the length, so 0, 1, 4 or more arguments reach the
    arity error, as they do in the source.

## Model

| member | source | states |
|---|---|---|
| `MatcherUtils.DetectExpectType` | src/matchers/utils.ts:10-19 | the result is a kind exactly when the class name is `Page` or `ElementHandle`; the kind's class name is the handle's; otherwise the error is `could not recognize type: <name>` |
| `MatcherUtils.DetectClassNameOf` | src/matchers/utils.ts:3-16 | a handle whose class name is that of a kind is classified as that kind (the class name is the inverse of the classification) |
| `MatcherUtils.DefaultWaitOptions` | src/matchers/utils.ts:30-33 | the result's keys are the caller's keys plus `timeout`; every caller key keeps the caller's value; `timeout` is 1000 when the caller gave none |
| `MatcherUtils.NoOptionsGiveDefaultTimeout` | src/matchers/utils.ts:30-33 | with no argument the options are exactly `{timeout: 1000}`, the same as for an explicit `{}` |
| `MatcherUtils.DefaultWaitOptionsIdempotent` | src/matchers/utils.ts:30-33 | defaulting options that were already defaulted changes nothing |
| `MatcherUtils.CallerTimeoutWins` | src/matchers/utils.ts:30-33 | a `timeout` the caller supplies is the one in the result, whatever other keys are present |
| `MatcherUtils.UndefinedTimeoutOverridesDefault` | src/matchers/utils.ts:30-33 | a `timeout` key present with the value `undefined` is copied by the spread and replaces the default, so the result is not `{timeout: 1000}` |
| `MatcherUtils.Quote` | src/matchers/utils.ts:77 | the result is the value's string form (`null` for null) between two single quotes, two characters longer, with nothing escaped |
| `MatcherUtils.QuoteDoesNotEscape` | src/matchers/utils.ts:77 | quoting null and quoting the string `null` give the same text; a single quote inside the value is kept as it is |
| `MatcherUtils.TimeoutMessage` | src/matchers/utils.ts:66 | the wait-failure message is exactly `Timeout exceed for element '` + selector + `'` |
| `MatcherUtils.TimeoutMessageNamesSelector` | src/matchers/utils.ts:66 | the selector can be read back verbatim from between the quotes of the timeout message |
| `MatcherUtils.InvalidLengthMessage` | src/matchers/utils.ts:74 | the arity message is the prefix `Invalid input length: ` followed by a canonical decimal numeral |
| `MatcherUtils.InvalidLengthMessageNamesCount` | src/matchers/utils.ts:74 | the numeral in the arity message denotes the argument count, so different counts give different messages |
| `MatcherUtils.ErrorKindsDistinct` | src/matchers/utils.ts:18-74 | no message of one error kind (unrecognized type, timeout, invalid length) equals a message of another |
| `MatcherUtils.OptionsArgument` | src/matchers/utils.ts:62 | reading position `i` gives exactly the options object `args[i]` when `i` is within the argument list, and `undefined` otherwise |
| `MatcherUtils.ResolveDirect` | src/matchers/utils.ts:41-54 | the two-argument shape: an `ElementHandle` target is itself the result with no call; a `Page` target gives its `body` query, the only call; any other class name gives `could not recognize type: <name>` with no call; no selector is recorded and the expected value passes through |
| `MatcherUtils.ResolveBySelector` | src/matchers/utils.ts:59-73 | the wait is issued first with the defaulted options; it fails exactly when the wait does, with the timeout message and no query; otherwise the result is the query of the same selector, with that selector recorded, and the query is the second and last call |
| `MatcherUtils.GetElementText` | src/matchers/utils.ts:35-75 | success only for 2 or 3 arguments; a selector is recorded exactly when there were 3; every wait is issued with exactly `{timeout: 1000}`; at most two browser calls |
| `MatcherUtils.ElementTargetPassesThrough` | src/matchers/utils.ts:41-48 | 2 arguments and an element: the target itself is the element handle, `args[1]` the expected value, no selector and no browser call |
| `MatcherUtils.PageTargetQueriesBody` | src/matchers/utils.ts:49-53 | 2 arguments and a page: the element is the page's query for `body`, which is the only call; `args[1]` is the expected value; no selector |
| `MatcherUtils.UnrecognizedTargetFails` | src/matchers/utils.ts:41-42 | 2 arguments and any other class name: the error `could not recognize type: <name>`, with no browser call |
| `MatcherUtils.ThreeArgumentsWaitWithDefaultTimeout` | src/matchers/utils.ts:59-64 | 3 arguments: `args[3]` is absent, and the first call is the wait on `args[1]` with exactly `{timeout: 1000}` |
| `MatcherUtils.ThreeArgumentsWaitFails` | src/matchers/utils.ts:63-67 | 3 arguments and a failed wait: the error is exactly `Timeout exceed for element '<selector>'`, and the wait is the only call |
| `MatcherUtils.ThreeArgumentsWaitSucceeds` | src/matchers/utils.ts:68-72 | 3 arguments and a successful wait: the element is the query of `args[1]`, the selector is `args[1]`, and the expected value is `args[2]` |
| `MatcherUtils.ThreeArgumentsNeverClassify` | src/matchers/utils.ts:59-72 | 3 arguments: whatever the target's class name, the only possible error is the timeout, never the unrecognized-type error |
| `MatcherUtils.OtherLengthsFail` | src/matchers/utils.ts:74 | any count other than 2 or 3 fails with `Invalid input length: <n>` and no browser call, and `n` can be read back from the message |
| `MatcherUtils.InvalidLengthExamples` | src/matchers/utils.ts:74 | counts 0, 1 and 4 give `Invalid input length: 0`, `: 1` and `: 4` |
| `MatcherUtils.FourArgumentCallRejected` | src/matchers/utils.ts:28-74 | a four-argument call that the argument type admits, `(page, selector, expected, options)`, fails with `Invalid input length: 4` and never reaches the wait |
| `MatcherUtils.GetElementTextWithOptions` | src/matchers/utils.ts:59-73 | corrected resolver: succeeds only for 2 to 4 arguments; a fourth argument's options, defaulted, are the ones the wait receives |
| `MatcherUtils.OptionsHonoured` | src/matchers/utils.ts:62 | with the correction, a caller's `timeout` reaches the wait, and every other argument count behaves exactly as the source does |
| `Decimal.NatToString` | src/matchers/utils.ts:74 | the printed count is a canonical decimal numeral, and it is `0` exactly for zero |
| `Decimal.ParseNatToString` | src/matchers/utils.ts:74 | the printed numeral denotes the number that was printed |
| `Decimal.NatToStringParse` | src/matchers/utils.ts:74 | every canonical numeral is printed back from its own value, so printing is a bijection onto canonical numerals |

## Left out

- The Playwright calls `page.$` and `page.waitForSelector` (src/matchers/utils.ts:51,64,69). They belong to a
  foreign library. The `Browser` value stands for what they return. The model does not describe their behaviour.
- `async`/`await`, polling and the real passage of time. A wait is a single success-or-failure answer. A
  rejection of `page.$` itself is not modelled.
- The reason a wait failed. The source discards the underlying error, and the model has nothing to discard.
- JavaScript reflection through `value.constructor.name`. Each `Handle` carries its class name as a plain string.
- TypeScript casts (`as string`, `as Page`, `as HTMLOrSVGElementHandle`). They change nothing at run time, so
  `expectedValue` keeps the argument as passed. In the three-argument shape that argument may be an options
  object. A `null` from `page.$` appears as `None`.
- Arguments passed explicitly as `undefined`, and arguments of a type other than the declared one.
  `InputArguments` admits only the declared type at each position.
- Option values that are numbers other than integers (a fractional or `NaN` timeout). `OptionValue.Number` holds
  an integer. Option values equal to `undefined` are modelled (`OptionValue.Undefined`).
- Object key order, getters and non-enumerable properties in the `{timeout, ...options}` spread. Options are a
  map, so only keys and values are modelled.
- The matcher implementations that call `getElementText`. They are not part of this model.

## Findings

| source | as written | input that shows it | evidently intended | confidence | as-written member | corrected member |
|---|---|---|---|---|---|---|
| src/matchers/utils.ts:59-62 | the branch runs only when `args.length === 3`, yet it reads the options from `args[3]`, which is always `undefined` there; a four-argument call is rejected | `getElementText(page, "#foo", "bar", {timeout: 5000})` throws `Invalid input length: 4`, and no call can give the wait a timeout other than 1000 | accept 3 or 4 arguments and pass `args[3]`, when present, to the options defaulter, as the `InputArguments` type (4th element: wait options) and the read of `args[3]` indicate | medium, not executed | `MatcherUtils.FourArgumentCallRejected` | `MatcherUtils.GetElementTextWithOptions` |

`MatcherUtils.GetElementText` models the code as written. `MatcherUtils.OptionsHonoured` proves the intended
property of the corrected resolver. The same lemma proves that the correction changes nothing for any other
argument count.
