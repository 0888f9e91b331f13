# Temp-Mail session model

A Dafny model of the local logic of a Streamlit front-end for a disposable-email
service (`app.py`). The app lists the service's mail domains, mints a mailbox
address from a chosen domain and a custom or random local part, and polls the
mailbox for messages. Everything the remote service does is outside the model:
its answers (the domain list, the allocated address, each `check_messages`
response) are inputs.

Modules, one per concern of `app.py`:

- `Optional` (`optional.dfy`): `Option`, and Python truthiness of a `str | None`.
- `Names` (`names.dfy`): `random_word` as a nondeterministic method,
  `validate_email_name` with the exact language Python's `re` accepts for
  `^[a-zA-Z0-9_-]+$`, and `str.strip()`.
- `Domains` (`domains.dfy`): the domain-name list and the dropdown's default
  index (text after the last `@`, its first position, or 0).
- `Polling` (`polling.dfy`): the `Message` record, whose fields the model
  never reads, and facts about a script of poll responses (first non-empty
  response, number of calls made).
- `Session` (`session.dfy`): `st.session_state` as the class `SessionState`.
  Its field `present` records which keys exist, so initialization can "fill in
  only missing keys". Its methods are the transitions: `Init`, `Generate` and
  `GenerateTab`, `PerformPolling`, `ManualCheck` and `CheckTab`, and `Run`
  (one top-to-bottom script run). `st.stop()` is an early return: nothing
  after it runs, so a stop in the first tab also skips the second
  (`GenerateOutcome.Stopped`). The stop on an invalid name comes after the
  custom name was stored, so that field is the only one it changes.
  `Invariant` is what every reachable state satisfies. Every transition
  preserves it. Nine client methods (`SixthAttemptScenario`, `ExhaustedScenario`,
  `ManualCheckScenario`, `ReallocateScenario`, `InvalidNameScenario`,
  `FirstRunScenario`, `SecondRunScenario`, `FirstRequestScenario`,
  `PreselectionScenario`) derive concrete runs of polling, the manual check,
  reallocation, the invalid-name stop, the allocation request, the domain
  preselection and whole script runs from the contracts alone.

Behaviour worth noting:

- `validate_email_name` also accepts a valid name followed by one `"\n"`,
  because `$` without MULTILINE matches before a final newline. The help text
  (app.py:130) and the error message (app.py:145) mention only letters,
  numbers, underscores and hyphens.
- `perform_polling` sleeps 5 seconds after every empty response, including the
  last one, which is what the comment at app.py:74 ("6 attempts x 5 seconds")
  and the footer at app.py:266 describe. `waits` equals the number of calls when
  nothing is found.
- That the attempt counter never exceeds `max_attempts` is not a property of
  `perform_polling` alone: the loop makes up to `max_attempts` calls, however high the counter
  already is. It holds for reachable states, because polling only starts from
  a counter of 0 (`Invariant`, `PerformPolling`).
- An allocated address that is the empty string counts as a failure
  (app.py:154), and an empty address gives no domain preselection (app.py:111).

## Model

| member | source | states |
|---|---|---|
| `Names.RandomWord` | app.py:47-50 | the word has exactly the requested length and every character is in `a`..`z` |
| `Names.NameRunLength` | app.py:55 | the greedy `[a-zA-Z0-9_-]+` run: every character before it is in the class, the one after it is not |
| `Names.ValidateEmailName` | app.py:53-56 | true iff the name is a non-empty run of letters, digits, `_` or `-`, optionally followed by one final newline; so the empty string, `@` and spaces are rejected |
| `Names.LeadingSpaceCount` | app.py:134 | length of the longest whitespace prefix |
| `Names.TrailingSpaceCount` | app.py:134 | length of the longest whitespace suffix |
| `Names.Strip` | app.py:134 | the result is the slice left after removing the longest whitespace prefix and suffix; it neither starts nor ends with whitespace, and everything removed is whitespace |
| `Names.StripIdempotent` | app.py:134 | stripping the stored custom name again changes nothing |
| `Names.StripOfValidName` | app.py:134-142 | for a name that passes validation, the stripped name is the name without its tolerated final newline |
| `Domains.DomainNames` | app.py:110 | one name per domain, in order |
| `Domains.AfterLastAt` | app.py:113 | the result is a suffix of the address with no `@`, and the character before it, if any, is `@` |
| `Domains.IndexOf` | app.py:115 | a position holding the element, with no earlier one |
| `Domains.DefaultDomainIndex` | app.py:102-119 | always a valid index; the first occurrence of the current address's domain part when there is an address and the domain part is listed, 0 otherwise |
| `Domains.DefaultIndexOfAllocatedAddress` | app.py:111-115 | for `local@domain` with a listed `domain`, the preselected entry names that domain |
| `Domains.AfterLastAtOfSuffix` | app.py:113 | the domain part of `prefix@domain` is `domain` when `domain` has no `@` |
| `Polling.FirstNonEmpty` | app.py:199-212 | none exactly when every response is empty; otherwise the position of a non-empty response preceded only by empty ones |
| `Polling.CallsMade` | app.py:199-212 | at most one call per response; all of them when all are empty; otherwise the last call made got the first non-empty response |
| `Polling.FirstNonEmptyAt` | app.py:199-212 | a non-empty response preceded only by empty ones is the one polling stops at |
| `Polling.CallsMadeBound` | app.py:199-222 | polling makes all `max_attempts` calls exactly when the first `max_attempts - 1` responses are empty |
| `Session.SessionState.constructor` | app.py:65 | a new session has no keys |
| `Session.SessionState.Init` | app.py:65-76 | each missing key gets its default (`None`, `False`, `[]`, `0`, `6`, `""`), present keys keep their values, a second run changes nothing, and a fresh session satisfies the invariant |
| `Session.SessionState.Generate` | app.py:139-161 | an invalid custom name is rejected before any allocation request and changes nothing; otherwise the request carries the selected domain and the custom name, or a random name of the configured length in `a`..`z`; a truthy address is stored and resets messages, attempts, completion and the custom name; a failure changes nothing |
| `Session.SessionState.GenerateTab` | app.py:98-161 | no domains stops with the state unchanged; otherwise the preselection is `DefaultDomainIndex` of the address held before the pass; a click exists exactly when the button was pressed; it is rejected (and the pass stops) exactly for a non-empty invalid name; a request carries the user's pick or the preselection and the custom or a random lowercase name of the configured length, and is stored exactly for a truthy address, which resets messages, attempts, completion and the custom name; otherwise only the custom name changes, to the stripped input |
| `Session.SessionState.PerformPolling` | app.py:198-222 | the calls made are those up to the first non-empty response, or all `max_attempts`; the counter grows by the calls; one wait per empty response; messages become the first non-empty response or stay; polling ends complete; from a reset the invariant holds afterwards |
| `Session.SessionState.ManualCheck` | app.py:249-261 | a non-empty response replaces the messages wholesale, an empty one keeps them; counter and completion are untouched |
| `Session.SessionState.CheckTab` | app.py:180-261 | without an address nothing changes; auto-polling runs exactly when polling is incomplete and attempts remain, with the calls, waits, counter growth and messages of `PerformPolling`; the manual check is offered only once polling is complete; with an address, a reachable state always ends complete, so auto-polling never runs again until a new address is stored |
| `Session.SessionState.Run` | app.py:59-261 | from a fresh or reachable session: keeps the invariant; the first tab decides as `GenerateTab` does on the address held after initialization (the same preselected index, rejection, request domain and name, and stored flag), and the second tab runs exactly when the first did not stop; a stop leaves the initialized state except for the custom name; a stored address is polled in the same run from a zero counter and an empty message list, so the counter ends at the calls made; otherwise the address is the one held before the run, auto-polling resumes only if polling was incomplete (so a completed poll never runs again on later runs), and the counter and messages are kept unless that poll or the manual check changes them; whenever the second tab finds an address, polling ends complete, so a manual press always makes its call and a non-empty result replaces the messages |

## Left out

- The HTTP calls in `get_domains`, `generate_email` and `check_messages` (app.py:14-44) are network I/O. Their results are inputs: the domain list, an optional address, one response per poll call. Transport failures and non-2xx answers are the empty or `None` results they are converted to.
- `st.cache_data(ttl=3600)` (app.py:13) is a time-based framework cache. The domain list is an input of each run.
- `st.secrets` and the base URL (app.py:9) are configuration.
- All rendering (`st.error`, `st.info`, `st.success`, expanders, columns, spinners, placeholders, the message display at app.py:233-241) is left out. So are the page setup and the footer.
- `time.sleep(5)` (app.py:218) is wall-clock time. `PerformPolling` counts the waits instead.
- Names.RandomWord: each letter is an arbitrary choice. The uniform distribution of `random.choice` is not modelled.
- JSON decoding, and a non-string `email` field in the allocation response, are left out. Messages are records whose `from`, `subject` and `body_text` fields the model never reads; they only matter for display.
- Streamlit widget internals are left out: the selectbox key, the text field's default value and the number-input clamping. The selected domain is an input (an index into the list, or the preselection), and so are the name-length setting and the button clicks.
- A run interrupted part-way (Streamlit aborts the running script when the user interacts, for example during a poll's sleep) is not modelled. Every run in the model completes or stops at an `st.stop()`.
- `str.strip()` whitespace: the table in `Names.IsSpace` is that of Python's `str.isspace`, written out as fixed code points. A different Unicode database version of Python is not modelled.
