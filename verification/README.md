# pypi_intercept response hook, modelled in Dafny

The repository's test setup runs a proxy addon, `ChangeHTTPCode`, whose
`response` hook rules on every finished HTTP exchange:

- with no response the hook raises an error;
- when the upstream status is 400 or above it writes a diagnostic line
  (`[pypi_intercept] ...`, the status and the response data) to stderr;
- when the request URL contains `"pypi"` or `"pythonhosted"`, and separately
  when it contains `"numpy"`, it overwrites the status with 400.

The model turns that hook into a pure function. `Intercept.Hook` takes a
`Flow` (URL string plus optional `Response` of status and opaque body) and
returns either `Failed(NoResponse)` or `Done(flow', log)`: the flow as the
hook left it and the diagnostic `LogEvent` it emitted, if any. The two
rewrite rules are kept as two functions applied in the source's order.

URL matching is Python's `str` containment. `Substring.Contains` defines it
recursively. `Substring.OccursAt` is a positional reference definition, and
`Substring.ContainsIffOccurs` proves the two agree. `Substring.Find` is a
loop that finds the first occurrence and is proved against both.

Files: `wrappers.dfy` (Option), `substring.dfy` (containment),
`intercept.dfy` (the hook and its properties).

## Model

| member | source | states |
|---|---|---|
| Intercept.Hook | tests/pypi_intercept.py:6-21 | Fails exactly when the flow has no response. Otherwise only the status may change: URL and body are untouched. The final status is 400 when the URL contains a blocked pattern and the upstream status otherwise. A log event is emitted exactly when the upstream status is at least 400, and it carries that pre-rewrite status and the body. |
| Substring.ContainsIffOccurs | tests/pypi_intercept.py:17-20 | The `in` test on the URL holds exactly when the pattern occurs at some index, in both directions. |
| Substring.Find | tests/pypi_intercept.py:17-20 | The search returns a non-negative index exactly when the pattern is contained. The pattern starts the URL's suffix at that index, and at no earlier index. Otherwise it returns -1. |
| Substring.LongerNotContained | tests/pypi_intercept.py:17-20 | A pattern longer than the URL never matches. |
| Substring.MissingCharNotContained | tests/pypi_intercept.py:17-20 | If some character of the pattern is absent from the URL, the pattern does not match. Characters are compared exactly, with no case folding. |
| Substring.ContainsExtend | tests/pypi_intercept.py:17-20 | A match survives any text added before or after the URL. Matching is plain containment, with no host or path parsing. |
| Intercept.BlockedIffOccurs | tests/pypi_intercept.py:17-21 | A URL is blocked exactly when one of "pypi", "pythonhosted" or "numpy" occurs in it at some index. |
| Intercept.IndexOccurrenceBlocks | tests/pypi_intercept.py:17-18 | An occurrence of "pypi" or "pythonhosted" anywhere in the URL gives final status 400, whatever the upstream status was. |
| Intercept.NumpyOccurrenceBlocks | tests/pypi_intercept.py:20-21 | An occurrence of "numpy" anywhere in the URL gives final status 400, whatever the upstream status was. |
| Intercept.NoOccurrencePassesThrough | tests/pypi_intercept.py:17-21 | When no pattern occurs in the URL, the hook returns the flow unchanged. |
| Intercept.LogIndependentOfUrl | tests/pypi_intercept.py:9-14 | Two flows with the same response get the same success/failure and the same log event, whatever their URLs. The log decision depends only on the upstream response. |
| Intercept.HookIdempotent | tests/pypi_intercept.py:17-21 | Running the hook on its own output leaves the flow as it is. The second run logs exactly when the first run's final status is 400 or above. |
| Intercept.UpperCaseNotBlocked | tests/pypi_intercept.py:17-20 | "PyPI" does not contain "pypi". An upper-case index URL passes through with its status unchanged. |
| Intercept.ScenarioIndexOk | tests/pypi_intercept.py:9-21 | An index URL answered 200 ends at 400 with no log event. |
| Intercept.ScenarioFileHostNotFound | tests/pypi_intercept.py:9-21 | A file-host URL answered 404 ends at 400, and the log event reports 404. |
| Intercept.ScenarioNumpyPath | tests/pypi_intercept.py:20-21 | "numpy" in the path of an unrelated host ends at 400 with no log event. |
| Intercept.ScenarioUnrelatedServerError | tests/pypi_intercept.py:9-21 | An unrelated URL answered 500 keeps 500, and the log event reports 500. |
| Intercept.ScenarioNoResponse | tests/pypi_intercept.py:7-8 | A flow without a response fails with `NoResponse`. |

## Left out

- The proxy library's flow types and addon registration (`tests/pypi_intercept.py:2`, `:24`). A flow is a plain record, and the hook is a function the host would call.
- How the proxy computes `pretty_url`. The URL is an opaque input string.
- The stderr write and the f-string text (`tests/pypi_intercept.py:10-14`). Logging is the `LogEvent` value (tag, status, body) the hook returns. The source prints the response's `data` object; the model keeps the body bytes instead.
- Body contents. The body is an opaque byte sequence that is only passed through.
- Python truthiness of `flow.response`. The model assumes a present response object is truthy. With that assumption, `not flow.response` means "no response".
- Mutation in place. The source changes `flow.response.status_code` on the host's object. The model returns the new flow. On failure it returns no flow, which stands for "nothing was changed".
- Concurrent invocation by the proxy. Each call is independent and shares no state.
