# Option-chain poller: price extraction and strike ladder

This project models the computational core of an option-chain poller for
the Indian index and equity markets (`main.py`). On every poll the bot
fetches a quote for an instrument and extracts its last traded price (LTP)
from a response whose shape it does not know in advance. It then lays out
an option chain of strikes around that spot price and sends it to a chat.

The model covers:

- **The deep scan** `_deep_search_numeric_candidates`
  (`deep_scan.dfy`, `deep_scan_props.dfy`). This is a depth-bounded
  (depth 0 to 4), width-bounded (first 200 list elements) pre-order walk.
  It collects every dict entry whose lower-cased key contains `ltp`,
  `last`, `price` or `lt`, and whose value is an int, a float, a bool, or
  a string that `float()` accepts once commas are removed and white space
  is stripped. It is written twice:
  - `Scan` is the specification;
  - `DeepSearch` is the source's loops, proved equal to `Scan`.
  
  Lemmas prove the scan sound and complete with respect to `HitSource`, an
  independent "matching entry within the bounds" predicate. They also prove
  that it ignores list elements from 200 on and that it respects dict
  iteration order.
- **The decision logic of `get_ltp`** (`ltp.dfy`, `ltp_props.dfy`,
  `ltp_examples.dfy`, `value_tests.dfy`).
  - On the vendor-client path, a falsy or non-dict reply gives no price.
    Otherwise the bot probes the containers `data`, `result`, `response`
    and `payload` (those present, in that order) and then the root. Each
    body is probed with the six well-known keys, and the first usable value
    wins. Failing that, the first deep-scan hit is converted, and an
    overflow there ends in no price.
  - On the HTTP path, only `j["data"]` (when that key is present) or `j` is
    probed, with four keys. The bot then takes the first deep-scan hit that
    converts, skipping those that do not.
  - The quote fetch is an input: `Transport` says which path ran and what
    it produced.
  - The specification functions `VendorLtp`, `HttpLtp` and `LtpOf` are
    characterised exactly: the lemmas `VendorLtpExact` and `HttpLtpExact`
    give both directions. The methods `VendorExtract`, `HttpExtract` and
    `GetLtp` mirror the source's loops and are proved equal to them.
- **`build_option_chain` and the `get_option_data` placeholder**
  (`strike_ladder.dfy`, `strike_ladder_props.dfy`).
  - The at-the-money strike is `round(spot / 50) * 50`, with Python's
    round-half-to-even. It is proved to be the nearest multiple of 50
    (ties go to a multiple of 100), and to be the only multiple of 50
    strictly within 25 of the spot.
  - The chain holds `2 * STRIKE_WINDOW + 1` rows. Their strikes rise by 50,
    are symmetric around the at-the-money strike and cover every multiple
    of 50 in that range.
  - Exactly the middle row is marked at the money.
  - A negative window gives no rows.

Python's `float(str)` is a parameter, `parse: string -> Option<real>`.
`None` stands for the `ValueError` that the source catches. Python's
`float(int)` raises `OverflowError` exactly when the magnitude is at least
2^1024 - 2^970, the midpoint between the largest double and 2^1024; the
model uses that bound, and `FloatOverflowValue` (`float_bound.dfy`) pins
the constant to it.

Three facts about the extractor's code shape the model:
- the vendor path appends the root body to the candidate list after the
  containers (main.py:146-149), so the root is probed last;
- only the top-level `data`, `result`, `response` and `payload` values are
  probed by key (main.py:146-148); no nested `quote`, `market` or `result`
  body is;
- the key test contains the bare pattern `lt` (main.py:97), so keys such
  as `result` and `alt` match too.

## Model

| member | source | states |
|---|---|---|
| Text.RemoveCommas | main.py:101 | `s.replace(",", "")`: no comma is left, nothing else is added, and a string without commas is unchanged |
| Text.TrimStart | main.py:101 | the leading half of `strip()`: a suffix of the input, with only white space dropped and no white space at its start |
| Text.TrimEnd | main.py:101 | the trailing half of `strip()`: a prefix of the input, with only white space dropped and no white space at its end |
| Text.Lower | main.py:97 | the ASCII lower-casing keeps the length of the key |
| Text.LowerChars | main.py:97 | after lower-casing no ASCII capital is left: each capital becomes its small letter (code + 32) and every other character is kept |
| Text.LowerKeeps | main.py:97 | a key without upper-case letters is its own lower-case form |
| Text.LowerAppend | main.py:97 | lower-casing works piece by piece |
| Text.StripPiece | main.py:101 | `strip()` leaves the piece of the string after its leading white space, with only white space before and after it |
| Text.StripEnds | main.py:101 | the result of `strip()` neither starts nor ends with white space, and a string without white space at its ends is unchanged |
| Text.ContainsIff | main.py:97 | the recursive substring test `t in s` holds exactly when `t` occurs at some position of `s` |
| JsonValue.FalsyByKind | main.py:138 | `not resp` holds exactly for None, False, zero, and the empty string, list and dict |
| JsonValue.Find | main.py:147-148 | `k in d` / `d.get(k)`: no value exactly when no entry has key `k`, and a value found is stored under `k` |
| ValueTests.KeyMatchesIff | main.py:97 | the key test holds exactly when the lower-cased key has `lt`, `last` or `price` at some position; the `ltp` pattern adds nothing |
| ValueTests.NumericValueKinds | main.py:96-107 | the value test: an int, float or bool counts as itself; a string counts, as the float it parses to, exactly when its comma-free, stripped text parses; nothing else counts |
| ValueTests.CollectedConverts | main.py:170-173 | of the values the scan collects, `float(v)` fails exactly for an int outside the double range |
| ValueTests.ProbeAgreesWithScan | main.py:157 | the probe's `float(str(v).replace(",", ""))` and the scan's conversion agree on an int in the double range, a float, and a string needing no stripping |
| ValueTests.StrFloatCommaFree | main.py:157 | commas anywhere in a string value do not change the probe's conversion |
| DeepScan.FloatOf | main.py:171 | `float(v)` of a hit: a float is itself, a bool is 1.0 or 0.0, and an int converts exactly when its magnitude is below the overflow bound |
| FloatBound.FloatOverflowValue | main.py:171 | the overflow bound of `float(int)` is 2^1024 - 2^970, i.e. (2^54 - 1) * 2^970 |
| DeepScan.DeepSearch | main.py:89-113 | the recursive search returns the specification's pre-order hit list `Scan` |
| DeepScan.SearchEntries | main.py:93-109 | the `for k, v in obj.items()` loop appends each entry's own hit and then the hits inside its value, for every entry in order |
| DeepScan.SearchEntry | main.py:95-109 | the body of the entry loop contributes the entry's own hit, when its key matches and its value is numeric, followed by the hits inside its value |
| DeepScan.SearchItems | main.py:110-112 | the loop over `obj[:200]` appends the hits of each of the first 200 elements in order |
| DeepScanProps.ScanSound | main.py:89-113 | every hit extends the starting path by the path of a matching entry: key pattern matched, value numeric, within depth 4 and below list position 200 |
| DeepScanProps.ScanComplete | main.py:89-113 | every matching entry within the depth and width bounds is collected, with its path and value |
| DeepScanProps.RootHits | main.py:164 | from the root, a hit is collected exactly when it names a matching entry within the bounds |
| DeepScanProps.RootSound | main.py:164 | a hit collected from the root names a matching entry within the bounds |
| DeepScanProps.RootComplete | main.py:164 | a matching entry within the bounds is collected from the root |
| DeepScanProps.ScanIgnoresTail | main.py:111 | list elements from position 200 on never change the result |
| DeepScanProps.ScanObjectConcat | main.py:94 | dict entries are searched in iteration order: the hits of `a + b` are those of `a` followed by those of `b` |
| DeepScanProps.ScanObjectPreorder | main.py:94-109 | an entry's own hit comes first, then the hits inside its value, then those of the later entries |
| DeepScanProps.EntriesSound | main.py:93-109 | soundness of the hits of the dict entries from position `i` on |
| DeepScanProps.ItemsSound | main.py:110-112 | soundness of the hits of the list elements from position `i` on |
| Ltp.StrFloat | main.py:157 | `float(str(v).replace(",", ""))`: the text of an int or float reads back as the same number (exact reals, see Left out); a string converts as `parse` of its comma-free text; `str(True)`, a list's or a dict's text never converts |
| Ltp.TryKeys | main.py:154-161 | the key loop returns the first of the keys, in order, that is present, neither None nor "", and converts |
| Ltp.VendorExtract | main.py:138-177 | the vendor-client branch returns the specification's `VendorLtp` |
| Ltp.HttpExtract | main.py:196-214 | the HTTP branch returns the specification's `HttpLtp` |
| Ltp.GetLtp | main.py:122-214 | `get_ltp` dispatches on the transport and every failure of the transport gives no price |
| Ltp.NonObjectProbe | main.py:153 | a body that is not a dict yields no probe result |
| LtpProps.ProbeKeysNone | main.py:154-161 | the probe of one body finds nothing exactly when no key's probe succeeds |
| LtpProps.ProbeKeysFirst | main.py:154-161 | the probe of one body gives `x` exactly when the first usable key, in the fixed order, gives `x` |
| LtpProps.ProbeBodiesNone | main.py:152-161 | the probe of the candidate bodies finds nothing exactly when no (body, key) pair is usable |
| LtpProps.ProbeBodiesFirst | main.py:152-161 | the probe of the candidate bodies gives `x` exactly when the first usable pair, in body-then-key order, gives `x` |
| LtpProps.ProbeBodiesAppend | main.py:145-152 | all earlier bodies are probed before any later one |
| LtpProps.VendorRootLast | main.py:145-152 | a usable key in any present container wins over the root's keys, which count only when every container fails |
| LtpProps.ContainersInOrder | main.py:146-148 | the containers present are tried in the order data, result, response, payload |
| LtpProps.VendorLtpExact | main.py:138-177 | the vendor path gives `x` exactly when the reply is a non-empty dict and either the first usable pair gives `x`, or no pair is usable and the first hit converts to `x` |
| LtpProps.VendorFallbackSource | main.py:163-173 | a price from the vendor fallback is the conversion of a matching entry of the reply within the bounds |
| LtpProps.NoCandidateNoPrice | main.py:163-177 | with no usable key and no matching entry within the bounds, both paths report no price |
| LtpProps.FirstFloatFirst | main.py:206-213 | the HTTP fallback gives the conversion of the first hit that converts, all earlier hits failing |
| LtpProps.HttpLtpExact | main.py:196-214 | the HTTP path gives `x` exactly when the first usable key of `data` (or of the root) gives `x`, or none is usable and the first converting hit gives `x` |
| LtpProps.TransportFailureNoPrice | main.py:124-140 | a failed quote call, a failed HTTP request and no transport at all each give no price |
| LtpExamples.SeparatorDropped | main.py:157 | removing the commas of `whole + "," + rest` leaves `whole + rest` |
| LtpExamples.ThousandsSeparator | main.py:157 | `{"data": {"ltp": "19,245.75"}}` gives `float("19245.75")` on both paths |
| LtpExamples.MatchesAt | main.py:97 | a key without upper-case letters matches when a pattern occurs at some position |
| LtpExamples.KeyVerdicts | main.py:97 | `ltp`, `lt`, `price`, `lastPrice` match, and so does `result`, through `lt` |
| LtpExamples.LastPriceMatches | main.py:97 | `lastPrice` lower-cases to a key that starts with `last` |
| LtpExamples.NoPatternStart | main.py:97 | a lower-case key with neither `l` nor `p` in it never matches, since every pattern starts with one of them |
| LtpExamples.KeyNonVerdicts | main.py:97 | `a`, `data` and `quote` do not match |
| LtpExamples.RootAfterData | main.py:145-161 | `{"LTP": 1, "data": {"ltp": 2}}` gives 2.0 on both paths: the root is probed only after `data` |
| LtpExamples.BoolIsNumeric | main.py:96-98 | `{"ltp": true}`: the probe skips the bool but the scan counts it, so both paths give 1.0 |
| LtpExamples.ListResponse | main.py:144 | `[{"ltp": 7}]` gives no price on the vendor path and 7.0 on the HTTP path |
| LtpExamples.OverflowingFirstHit | main.py:170-173 | `{"price": 2**1024 - 2**970, "lt": 3}`: the vendor path gives up on the overflowing first hit, the HTTP path moves on to 3.0 |
| LtpExamples.LargestConvertibleFirstHit | main.py:170-171 | `{"price": 2**1024 - 2**970 - 1, "lt": 3}`: one below the bound the first hit converts, and both paths return it |
| LtpExamples.PriceThenLtScan | main.py:89-113 | the scan of `{"price": x, "lt": 3}` is both entries, in order |
| StrikeLadder.StrikeInterval | main.py:229 | both branches of the symbol test give an interval of 50 |
| StrikeLadder.GetOptionData | main.py:224-226 | the placeholder leg has zero price, zero open interest, no implied volatility and zero volume |
| StrikeLadder.RoundHalfEven | main.py:230 | `round(x)` is within 1/2 of `x` and even on a tie |
| StrikeLadder.Atm | main.py:230 | the at-the-money strike is a multiple of 50 within 25 of the spot, and a multiple of 100 on a tie |
| StrikeLadder.BuildOptionChain | main.py:228-238 | the loop over `range(-STRIKE_WINDOW, STRIKE_WINDOW + 1)` builds exactly the chain `Ladder` |
| StrikeLadderProps.RoundUnique | main.py:230 | an integer within 1/2 of `x`, and even on a tie, is `round(x)` |
| StrikeLadderProps.AtmUnique | main.py:230 | a multiple of 50 strictly within 25 of the spot is the at-the-money strike |
| StrikeLadderProps.LadderRows | main.py:233-237 | row `k` is the row for offset `k - window` |
| StrikeLadderProps.LadderLength | main.py:233 | the chain has `2 * window + 1` rows, and none for a negative window |
| StrikeLadderProps.LadderStrikes | main.py:234 | row `k` holds the strike `(k - window) * 50` from the at-the-money strike; strikes are multiples of 50 rising by 50 |
| StrikeLadderProps.LadderEnds | main.py:233-234 | the first and last strikes are `window` intervals below and above the at-the-money strike |
| StrikeLadderProps.LadderCovers | main.py:233-234 | every multiple of 50 between the first and the last strike is in the chain |
| StrikeLadderProps.LadderAtm | main.py:237 | exactly the middle row is marked at the money, and it holds the at-the-money strike |
| StrikeLadderProps.LadderSymmetric | main.py:233-234 | the strikes lie symmetrically around the at-the-money strike |
| StrikeLadderProps.LadderLegs | main.py:235-236 | every call and put leg is the placeholder |
| StrikeLadderProps.PlaceholderConstant | main.py:224-226 | `get_option_data` returns the same leg whatever it is asked for |
| StrikeLadderProps.AtmExamples | main.py:230 | ties go to the even multiple: 25 gives 0, 75 and 125 give 100, and 19245.75 gives 19250 |
| StrikeLadderProps.DefaultChain | main.py:228-238 | a spot of 17650 with the default window of 5 gives the eleven strikes 17400 to 17900, with the middle row at the money |

## Left out

- The quote fetch itself is not modelled. The `dhanhq` call, the HTTP
  request, `raise_for_status` and `r.json()` are I/O. Their outcome is the
  `Transport` input: an exception in the quote call is a `None` reply, and
  a failing request is `HttpFallback(None)`.
- The choice between the two paths is an input. It is made from the
  environment (client present, access token set).
- Logging and the `json.dumps`/`repr` dumps with their truncation are left
  out. They do not affect the result.
- The outer `except Exception` of `get_ltp` is not modelled. It catches
  only failures that cannot arise for decoded JSON values, such as
  non-string dict keys, which would make `k.lower()` raise.
- The hit paths are kept as lists of keys and positions, not as the
  `"root.k[i]"` strings. The strings are only logged.
- Floating point is modelled with exact reals:
  - the rounding of `float()` and of `spot_price / interval`;
  - infinities and NaN, e.g. `float(str(10**400))` is `inf`;
  - `str(float)` round trips.
- Ltp.StrFloat: reads the text of an int or float back as the exact same
  number. It therefore does not model `float(str(10**400))` being `inf`,
  nor the rounding of an int too wide for a double.
- Ints of more than 4300 decimal digits are outside the model. Python's
  JSON decoder refuses them, so no decoded response holds one. A vendor
  response holding one would make both `json.dumps` and `repr` raise at
  main.py:132-135, and the outer handler at main.py:216-218 would return
  `None`.
- Text.Lower: lower-cases ASCII letters only. Python's `str.lower()` also
  folds other letters, and two of them fold to ASCII text: U+212A (Kelvin
  sign) becomes `k`, and U+0130 becomes `i` followed by U+0307, two
  characters, so Python's result can be longer than the key. Neither can
  complete a pattern (`k` is in none, and the `i` of `price` must be
  followed by `c`), so the verdict of the key test is unchanged.
- Python dicts have distinct keys. An association list with duplicate keys
  is outside what a dict can be. With one, `Find` answers with the first
  entry and the scan visits every entry.
- The following are outside this core:
  - the poll loop, `start`/`stop`, the signal handlers and `main`;
  - the random jitter and the clock;
  - `format_message` and the Telegram send.
- `get_nearest_expiry` reads the environment. Its result is the `expiry`
  parameter of `BuildOptionChain`, and `STRIKE_WINDOW` is the `window`
  parameter.
