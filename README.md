# AI trading gateway: the /signal reply normalisation

This project models the core of `ai_trader_server.py`, a FastAPI gateway.
The gateway asks a chat-completion API for a trading decision about a
market snapshot and returns that decision as JSON. The model covers what
happens to the completion reply between the API and the HTTP response:

- `call_gpt` returns the stripped reply text. When the API call raises,
  it returns the fixed JSON text `{"action":"HOLD","lot":0.0,"reason":"API error"}`.
- `get_signal` removes Markdown code fences from that text (every
  "```json", then every "```", then `strip()`), decodes it with
  `json.loads` and checks it:
  - a reply without "action" is replaced whole by a HOLD decision;
  - a missing "lot" becomes 0.01;
  - a JSONDecodeError gives a HOLD decision with reason "JSON parsing failed".
- The decision is stamped with the server time and with the request's
  symbol and price.
- Any other exception is caught by the outer handler. It returns a HOLD
  record with reason "Server error: <message>" and the server time, and
  with no symbol and no price.

The modules are:

- `Text` (text.dfy): the Python `str` operations used by the handler.
  These are `isspace`, `sub in s`, `s.replace(sub, '')`, `lstrip`,
  `rstrip` and `strip`.
- `Fences` (fences.dfy): the fence-stripping expression and what it
  guarantees.
- `JsonData` (json.dfy): the values `json.loads` returns, as Python
  holds them. It also models Python's `key in value` and the TypeErrors
  that `in` and item assignment raise on values that are not dicts.
- `TraderServer` (trader_server.dfy): `call_gpt`, the inner `try`, the
  stamps and the outer `try`/`except` of `get_signal`, with lemmas for
  every path a request can take.

The completion API is an `Upstream` value: either a reply text or a
failed call. `json.loads` is a function parameter `loads` that returns a
value, a JSONDecodeError or another exception with its text. The clock
reading `time.time()` is a `real` parameter.

`get_signal` updates its `decision` dict in place. It has no loops: the
lot default and the three stamps are four straight-line assignments. The
model therefore writes the dict as a `map` value and the assignments as
map updates (`m[k := v]`), and each step is a function over that value.

The system prompt (ai_trader_server.py:25) asks the model for a reply of
the shape `{"action":"BUY|SELL|HOLD","lot":0.01,"reason":"..."}`. The
code does not enforce that shape, and the Dafny model follows the code:

- A reply that has "action" but no "reason" is kept, so the response
  then has no reason (`ModelDecisionKept`).
- The action is passed on unchecked, whatever it is
  (`ModelDecisionKept`, `GetSignal`).
- The server-error record of lines 92-97 echoes neither the symbol nor
  the price (`DecoderCrashIsServerError`, `GetSignal`).
- Some malformed replies do not take one of the inner HOLD paths (no
  "action", or a JSONDecodeError). They raise a TypeError instead:
  - a number, a boolean or null raises at line 74 (`"action" in decision`);
  - a list or string that holds "action" but not "lot" raises at line 77
    (`decision["lot"] = 0.01`);
  - a list or string that holds both raises at the first stamp, line 84.

  The outer handler turns that TypeError into the four-key server-error
  record. Its action is still HOLD, and it has no symbol and no price
  (`ScalarReplyIsServerError`, `ContainerWithActionIsServerError`,
  `UnstampableDecision`).

## Model

| member | source | states |
|---|---|---|
| Text.AsciiWhitespace | ai_trader_server.py:70 | `IsSpace`, the set of characters `strip()` removes, agrees with Python's `str.isspace` on ASCII: exactly tab, newline, vertical tab, form feed, carriage return, the four separators 0x1C-0x1F and space |
| Text.Contains | ai_trader_server.py:74-76 | Python's `pat in s` on strings: the empty string is in every string, and nothing longer than `s` is in `s` |
| Text.RemoveAll | ai_trader_server.py:70 | `s.replace(pat, '')`, defined as the left-to-right deletion of non-overlapping occurrences; ensures the result is never longer than the text, and a text in which `pat` cannot start is left unchanged |
| Text.RemoveAllAfterPlain | ai_trader_server.py:70 | a prefix holding no first character of `pat` passes through `replace` unchanged, and the rest is processed on its own |
| Text.ContainsWithin | ai_trader_server.py:70 | an occurrence inside a substring is an occurrence in the whole text |
| Text.TrimStart | ai_trader_server.py:70 | `lstrip()` returns a suffix whose cut-off prefix is all whitespace and which does not itself start with whitespace |
| Text.TrimEnd | ai_trader_server.py:70 | `rstrip()` returns a prefix whose cut-off suffix is all whitespace and which does not itself end with whitespace |
| Text.Trim | ai_trader_server.py:70 | `strip()` returns a piece `s[i..j]` of its input with no whitespace at either end, where everything before `i` and after `j` is whitespace; it returns its input when there is nothing to remove |
| Text.TrimStartSkipsSpace | ai_trader_server.py:70 | leading whitespace does not change what `lstrip()` returns |
| Text.TrimEndSkipsSpace | ai_trader_server.py:70 | trailing whitespace does not change what `rstrip()` returns |
| Text.TrimPadded | ai_trader_server.py:70 | `strip()` of whitespace + body + whitespace is exactly the body, when the body has no whitespace at its ends |
| Fences.FenceRemoval | ai_trader_server.py:70 | after `replace('```', '')` no three backticks in a row remain; every run of backticks is cut to its length modulo 3, shown for the leading run |
| Fences.StripFences | ai_trader_server.py:70 | the whole fence-stripping expression: its result contains no "```" and has no whitespace at either end, for every reply |
| Fences.FencedReplyRoundTrip | ai_trader_server.py:70 | "```json" + whitespace + body + whitespace + "```" strips to exactly the body, when the body holds no backtick and has no whitespace at its ends |
| JsonData.TypeErrorTextInjective | ai_trader_server.py:74-95 | different TypeErrors have different texts, so the reason `"Server error: " + str(e)` tells which error the validation or the stamps raised |
| JsonData.AssignmentError | ai_trader_server.py:77-86 | `v[key] = item` on a non-dict raises "list indices must be integers" exactly when `v` is a list, and otherwise "does not support item assignment" naming the type of `v` |
| JsonData.HasKey | ai_trader_server.py:74-76 | Python's `key in v` raises exactly on numbers, booleans and None, and on a dict tests the keys |
| TraderServer.HoldDecision | ai_trader_server.py:75 | the fallback decision has exactly the keys action, lot and reason, with HOLD, 0.0 and the given reason |
| TraderServer.ServerErrorRecord | ai_trader_server.py:92-97 | the server-error record has exactly action, lot, reason and server_time, with HOLD, 0.0, "Server error: " + message and the time, and no symbol or received_price |
| TraderServer.Truncate | ai_trader_server.py:84 | `int(x)` on a float truncates toward zero: the result is the integer at most 1 away from `x` on the side of 0 |
| TraderServer.CallGpt | ai_trader_server.py:29-44 | `call_gpt` returns a text with no whitespace at its ends: `strip()` of the reply, which is a piece of it, or the fixed "API error" JSON text when the call failed |
| TraderServer.ParserInput | ai_trader_server.py:64-71 | the text handed to `json.loads` contains no "```" and has no whitespace at its ends; after a failed call it is the fixed "API error" text unchanged |
| TraderServer.Validate | ai_trader_server.py:74-77 | a dict without "action" becomes the "Invalid response structure" HOLD decision; a dict with it keeps every key and value and gains lot 0.01 only when lot is missing; numbers, booleans and None raise the `in` TypeError; lists and strings follow Python's `in`; a dict result always holds action and lot, and a non-HOLD action comes from the decoded dict |
| TraderServer.Decide | ai_trader_server.py:68-81 | the inner `try`: a dict decision always holds action and lot, and an action other than HOLD is the one the decoder returned for the stripped reply |
| TraderServer.Stamp | ai_trader_server.py:84-86 | stamping succeeds exactly on a dict; it adds server_time, symbol and received_price with the clock, the request's symbol and its price, overwriting keys of those names and keeping all others; the decision's own action, lot and reason are never overwritten; on a non-dict it raises the item-assignment TypeError |
| TraderServer.Handle | ai_trader_server.py:53-88 | the body of the outer `try`: a response holds action, lot and the three stamps with their values, and a non-HOLD action was named by the decoded reply |
| TraderServer.GetSignal | ai_trader_server.py:50-97 | every response holds action, lot and the server time; an action other than HOLD always comes from the decoded reply; symbol and received_price are echoed together or not at all; without them the response is exactly the server-error record of some exception text |
| TraderServer.Respond | ai_trader_server.py:88-97 | the outer `except`: a response of the `try` is returned unchanged; an exception becomes the four-key HOLD record with reason "Server error: " + its text and the server time |
| TraderServer.EscapedIsServerError | ai_trader_server.py:90-97 | an exception escaping the body of the outer `try` yields the server-error record with its text |
| TraderServer.DecidedEscape | ai_trader_server.py:68-97 | an exception that escapes the inner `try` ends as the server-error record with its text |
| TraderServer.UnstampableDecision | ai_trader_server.py:84-97 | a decision that is not a dict fails at the first stamp and ends as the server-error record of the item-assignment TypeError |
| TraderServer.HandledIsResponse | ai_trader_server.py:88 | a response produced by the body of the outer `try` is returned unchanged |
| TraderServer.DecidedHold | ai_trader_server.py:74-86 | a HOLD decision reached in the inner `try` is returned as the six-key HOLD response with the stamps |
| TraderServer.StampedHold | ai_trader_server.py:84-86 | stamping a fallback decision gives exactly action, lot, reason, server_time, symbol and received_price |
| TraderServer.FencedAnswerParsedAsBody | ai_trader_server.py:41-70 | a reply fenced as "```json … ```" reaches `json.loads` as its bare body |
| TraderServer.UpstreamFailureHolds | ai_trader_server.py:42-86 | when the completion call fails, the response is HOLD, lot 0.0 (present, so not defaulted), reason "API error", with the symbol and price echoed |
| TraderServer.UndecodableReplyHolds | ai_trader_server.py:79-81 | a reply that does not decode gives HOLD, lot 0.0, reason "JSON parsing failed", with the stamps |
| TraderServer.MissingActionDiscardsReply | ai_trader_server.py:74-75 | a dict without "action" is discarded whole: the response is the "Invalid response structure" HOLD with the stamps and none of the reply's keys |
| TraderServer.ModelDecisionKept | ai_trader_server.py:74-86 | a dict with "action" is kept: its keys plus lot plus the stamps, every key not stamped unchanged (the action unchecked), lot 0.01 when missing, the stamps with their values |
| TraderServer.DecoderCrashIsServerError | ai_trader_server.py:71-97 | an exception from the decoder other than JSONDecodeError gives the server-error record, which has no symbol |
| TraderServer.ScalarReplyIsServerError | ai_trader_server.py:74-97 | a reply decoding to a number, a boolean or null gives the server-error record of the `in` TypeError |
| TraderServer.ContainerWithoutActionHolds | ai_trader_server.py:74-86 | a list or string reply in which "action" is not found is treated like a dict without "action" |
| TraderServer.ContainerWithActionIsServerError | ai_trader_server.py:74-97 | a list or string reply in which "action" is found gives the server-error record of the item-assignment TypeError |

## Left out

- The completion API call (model name, temperature, token limit, the
  API key): it is a network call, modelled only as a reply text or a
  failure. A reply whose content is None makes `.strip()` raise inside
  the `try`, so it is one more failure.
- FastAPI routing, pydantic validation of the request body, `read_root`,
  `health_check` and `uvicorn.run`: framework plumbing.
- Building the prompt: it depends on Python's float formatting and on
  `json.dumps`, which are library code.
- The internals of `json.loads`: it is the parameter `loads`.
- `print` logging. A `print` that raised would also end in the outer
  handler; the model assumes logging does not fail.
- `time.time()` and `os.getenv`: the clock is the parameter `clock`. One
  value stands for both clock reads, since only one of them ever
  reaches a response.
- Dict key order of the response, and JSON NaN and Infinity values.
- TraderServer.Truncate: a clock reading is a `real`, so `int()` of an
  infinite or NaN float (which raises) is not modelled.
- JsonData.TypeErrorText: the exception texts follow CPython 3.12.
  Other versions word them differently.
- TraderServer.UpstreamFailureHolds: assumes `loads` decodes the fixed
  "API error" text to the dict it spells out, because the decoder is a
  parameter.
- TraderServer.Validate: for a list or string reply that holds "action",
  the contract says only that the reply comes back unchanged or raises
  the item-assignment TypeError. `ContainerWithActionIsServerError`
  states the outcome after stamping exactly.
