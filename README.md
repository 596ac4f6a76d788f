# OpenRouter client: provider filter, attribution headers, model display

This project models the logic of an OpenRouter API client that has nothing to do with the network.
The client fetches the catalog of models the OpenRouter service offers.
It picks the most popular models of one provider and builds two optional attribution headers.
It also turns a catalog record into a one-line display record for a UI.
The model covers four pieces:

- **Provider filter.** `OpenRouter.SelectByPrefix` and `OpenRouter.TopModelsByProvider` take the already-fetched catalog. They keep the records whose `id` starts with `provider + "/"`, in upstream order, and cut the result to `limit`. The test `model["id"].startswith(...)` runs eagerly over the whole catalog. So a record without an `id` raises `KeyError`, and a record whose `id` is not a string raises `AttributeError`. The first such record, in list order, ends the call, even one that comes after the first `limit` matches.
- **Extra headers.** `OpenRouter.OpenRouterClient.GetExtraHeaders` starts from an empty map and inserts `HTTP-Referer` and `X-Title` one at a time, each one only when its configuration field is truthy.
- **Tool-capability heuristic.** The model's own `supports_tools` or `supports_function_calling` flag marks it. Otherwise the lower-cased id may contain one of twelve fixed fragments, and then `supports_tools` is overwritten with `True`. A marked model's display gets the wrench prefix `"🔧 "`.
- **Context length and assembly.** A positive `int`, `float` or `bool` (Python counts a bool as an int) is cut to its integer part. It is then written with commas between groups of three digits, followed by `" ctx"`. The float `+inf` raises `OverflowError` (`int(inf)`); `-inf` is not positive and gives `"Unknown ctx"`. Every other value, including a missing key, gives `"Unknown ctx"`. The display is `indicator + name + " | " + pricing + " | " + context`. The other fields pass through, with their defaults.

Values are Python's decoded JSON (`Values.Value`), and a catalog record is a `map<string, Value>`.
An exception that escapes a call is an `Err` of `Values.Result`.
Records are immutable values, so the formatter cannot change its input.

The model follows the code in these corners:

- The returned `context_length` of a record without one is the string `"Unknown"` (line 95), not an absent value.
- The `"Unknown"` default for the name on line 92 is never seen: the next line fails with `KeyError` first.
- A `pricing` value that is not a dict makes `.get` raise `AttributeError`. The `(ValueError, TypeError)` handler does not catch it, so it escapes.

## Model

| member | source | states |
|---|---|---|
| `Text.Lower` | mcp_playground/llm_bridge/openrouter_client.py:109 | the model's ASCII stand-in for `model_id.lower()` keeps the length and lower-cases each character in place (Python's full Unicode `lower()` may change the length) |
| `Text.LowerIdempotent` | mcp_playground/llm_bridge/openrouter_client.py:109 | lower-casing an already lower-cased id changes nothing |
| `Text.ContainsIff` | mcp_playground/llm_bridge/openrouter_client.py:110-114 | the search behind `pattern in model_lower` is true exactly when the pattern occurs at some offset |
| `Text.OccursInLowered` | mcp_playground/llm_bridge/openrouter_client.py:109-114 | if some piece of an id lower-cases to a pattern, the lower-cased id contains that pattern, whatever surrounds the piece |
| `Text.DecimalRoundTrip` | mcp_playground/llm_bridge/openrouter_client.py:132 | the decimal digits of `int(context_length)` are digits only, have no leading zero, and read back as the number |
| `Text.GroupThousandsUngroups` | mcp_playground/llm_bridge/openrouter_client.py:132 | removing the commas from the `:,` form gives the plain decimal numeral |
| `Text.GroupThousandsShape` | mcp_playground/llm_bridge/openrouter_client.py:132 | the `:,` form starts with a digit (not a leading zero) and has commas exactly every four places from the right, digits elsewhere |
| `Text.Decimal` | mcp_playground/llm_bridge/openrouter_client.py:132 | `str(n)` for a natural number, most significant digit first (partner: `DecimalRoundTrip`) |
| `Text.GroupThousands` | mcp_playground/llm_bridge/openrouter_client.py:132 | `f"{n:,}"`: the digits of `n` with a comma before every group of three from the right (partners: `GroupThousandsUngroups`, `GroupThousandsShape`) |
| `Text.Contains` | mcp_playground/llm_bridge/openrouter_client.py:110 | the search behind `pattern in model_lower`, offset by offset (partner: the reference `Occurs`, through `ContainsIff`) |
| `Values.Truthy` | mcp_playground/llm_bridge/openrouter_client.py:104-118 | Python's `bool(v)`: None, False, zero, `""`, `[]` and `{}` are false, everything else (NaN too) is true |
| `Values.FormatValue` | mcp_playground/llm_bridge/openrouter_client.py:137 | the text `f"{name}"` gives a name value (partner: `FormatValueReadsBack`) |
| `Values.FormatValueReadsBack` | mcp_playground/llm_bridge/openrouter_client.py:137 | in the display, a string name appears as itself, a bool as `True`/`False`, an int as a signed numeral without leading zeros that reads back as the int |
| `OpenRouter.SelectByPrefix` | mcp_playground/llm_bridge/openrouter_client.py:60-63 | the comprehension, record by record in list order, ending at the first record without a string id; on success it keeps no more records than the catalog has, each with an id that starts with the prefix (partners: `SelectOkIff`, `SelectKeepsMatches`, `SelectAppend`) |
| `OpenRouter.SelectOkIff` | mcp_playground/llm_bridge/openrouter_client.py:60-63 | the comprehension succeeds exactly when every catalog record has a string `id` |
| `OpenRouter.SelectFirstError` | mcp_playground/llm_bridge/openrouter_client.py:60-63 | on failure, the exception is `KeyError('id')` or `AttributeError` from the first record, in list order, without a string id |
| `OpenRouter.SelectKeepsMatches` | mcp_playground/llm_bridge/openrouter_client.py:60-63 | on success, a record is in the result exactly when it is in the catalog and its id starts with the prefix, and the result has as many records as the catalog has matches |
| `OpenRouter.SelectAppend` | mcp_playground/llm_bridge/openrouter_client.py:59-63 | filtering a concatenation is filtering each part and concatenating, in order, with the first failure winning |
| `OpenRouter.SelectAllMatch` | mcp_playground/llm_bridge/openrouter_client.py:60-63 | a catalog whose ids all carry the prefix comes back whole and in order |
| `OpenRouter.TopModelsByProvider` | mcp_playground/llm_bridge/openrouter_client.py:47-66 | `limit` defaults to 5; succeeds iff every record has a string id; the result holds `min(limit, k)` records for `k` matches, at most `limit`; each is a catalog record whose id starts with `provider + "/"`; it is a prefix of the full filtered list |
| `OpenRouter.TopModelsAllWhenFew` | mcp_playground/llm_bridge/openrouter_client.py:60-66 | with no more than `limit` matches, every match comes back |
| `OpenRouter.TopModelsNoMatch` | mcp_playground/llm_bridge/openrouter_client.py:60-66 | a provider with no record in the catalog gets an empty list |
| `OpenRouter.TopModelsFirstMatches` | mcp_playground/llm_bridge/openrouter_client.py:59-66 | once the leading part of the catalog holds `limit` matches, later records change nothing if they raise nothing: these are the first matches in upstream order |
| `OpenRouter.OpenRouterClient.constructor` | mcp_playground/llm_bridge/openrouter_client.py:12-22 | the client keeps the API key, site URL and site name it is given; the site URL and name default to `None` |
| `OpenRouter.OpenRouterClient.GetExtraHeaders` | mcp_playground/llm_bridge/openrouter_client.py:68-79 | keys are drawn from `HTTP-Referer` and `X-Title` only; `HTTP-Referer` is present iff `site_url` is truthy, with value `site_url`; the same holds for `X-Title` and `site_name` |
| `ModelDisplay.MatchesToolPattern` | mcp_playground/llm_bridge/openrouter_client.py:109-114 | the lower-cased id holds one of the twelve fragments at some offset; a non-string id never matches |
| `ModelDisplay.ToolCapable` | mcp_playground/llm_bridge/openrouter_client.py:104-118 | the wrench is shown: a truthy `supports_tools` or `supports_function_calling`, or an id that matches (partner: `MarkerAgreesWithReport`) |
| `ModelDisplay.ReportedSupportsTools` | mcp_playground/llm_bridge/openrouter_client.py:104-115 | the reported `supports_tools`: `True` when both flags are falsy and the id matches, otherwise the model's own flag (default `False`) |
| `ModelDisplay.MarkerAgreesWithReport` | mcp_playground/llm_bridge/openrouter_client.py:104-118 | the marker is shown iff the reported `supports_tools` or `supports_function_calling` is truthy; a truthy function-calling flag alone leaves the model's own `supports_tools` in place |
| `ModelDisplay.PatternMatchIgnoresCase` | mcp_playground/llm_bridge/openrouter_client.py:109-114 | an id that contains one of the twelve fragments, in any mix of letter case, matches |
| `ModelDisplay.PatternMatchUpToCase` | mcp_playground/llm_bridge/openrouter_client.py:109-114 | ids that lower-case alike match alike, and the same as their lower-cased form |
| `ModelDisplay.MatchWithoutFlags` | mcp_playground/llm_bridge/openrouter_client.py:104-115 | with neither flag present and a fragment in the id, the model is marked and its reported `supports_tools` becomes `True` |
| `ModelDisplay.ClaudeMatchesByName` | mcp_playground/llm_bridge/openrouter_client.py:108-118 | `anthropic/claude-3.5-sonnet` with no flags is marked and reported as supporting tools |
| `ModelDisplay.ShortIdNeverMatches` | mcp_playground/llm_bridge/openrouter_client.py:108-118 | an id shorter than every fragment never matches; without flags, such a model is not marked and keeps `supports_tools` False |
| `ModelDisplay.IsPositiveNumber` | mcp_playground/llm_bridge/openrouter_client.py:131 | `isinstance(v, (int, float)) and v > 0`, a bool counting as an int; NaN and `-inf` are not positive, `+inf` is |
| `ModelDisplay.TruncatesTo` | mcp_playground/llm_bridge/openrouter_client.py:132 | `int(v) == n` for a positive number: an int as it is, `True` as 1, a finite float its integer part |
| `ModelDisplay.GroupedContext` | mcp_playground/llm_bridge/openrouter_client.py:132 | a rendered context length ends in `" ctx"`, is grouped in threes, starts with a digit, has no leading zero unless it is `"0 ctx"`, reads back as its number without the commas, and is never `"Unknown ctx"` |
| `ModelDisplay.ContextLengthText` | mcp_playground/llm_bridge/openrouter_client.py:130-134 | raises `OverflowError` iff the value is `+inf`; `"Unknown ctx"` iff the value is not a positive number; otherwise grouped digits plus `" ctx"`, starting with a digit, with no leading zero unless it is `"0 ctx"` (a float below 1), whose value without the commas is `int(context_length)` |
| `ModelDisplay.ContextLengthExample` | mcp_playground/llm_bridge/openrouter_client.py:131-132 | a context length of 128000 renders as `"128,000 ctx"` |
| `ModelDisplay.FormatModelDisplay` | mcp_playground/llm_bridge/openrouter_client.py:82-147 | the indicator defaults to off; no `id`: `KeyError('id')`; non-dict pricing: `AttributeError`; an exception from the pricing text escapes as it is; `+inf` context: `OverflowError`; otherwise `display == marker-if-capable + name + " | " + pricing + " | " + context`; the name falls back to the id; id, pricing (default `{}`), context length (default `"Unknown"`) and description (default `""`) pass through; `supports_tools` is None without the indicator, else the reported flag |

## Left out

- `fetch_models` (lines 25-45) is left out. It does an HTTP GET with a bearer header and a 30-second timeout, decodes the JSON and prints a message on any error. It returns `[]` on any error. The filter takes the fetched catalog as a parameter instead. `async` is not modelled.
- `base_url` and the API key are only stored; they have no other use outside `fetch_models`.
- `ModelDisplay.FormatModelDisplay`: the pricing text (lines 122-128) is a parameter, a function from the pricing dict to a text or an exception. It needs float parsing, multiplication by 10^6 and `:.2f` rounding, which are not modelled. So which prices give `"Pricing unavailable"` (a `ValueError` or `TypeError` from `float()`) and which raise (an `OverflowError` from `float()` of an integer too large for a double, which that handler does not catch) is left to the parameter. So is the source's reading of a missing `prompt` or `completion` price as 0 (lines 124-125), not as the `"Pricing unavailable"` fallback. The model keeps the `AttributeError` that a non-dict `pricing` raises, and lets any exception from the pricing text escape before the context length is looked at.
- `OpenRouter.TopModelsByProvider`: `limit` is a natural number, so Python slices with a negative bound are not modelled.
- Catalog entries that are not dicts, which would make `model["id"]` raise `TypeError`, are not modelled: a record is always a map.
- Dict insertion order is not modelled. That covers the order of the headers and the key order of the returned dict. The returned dict becomes the `ModelDisplay.DisplayRecord` datatype.
- `Values.FormatValue`: a `name` that is a float, list or dict is rendered as a placeholder text (`<float>`, `<list>`, `<dict>`), not as Python's repr.
- `Text.Lower` lower-cases ASCII letters only, not all of Unicode. For the twelve ASCII fragments this gives the same match result. No fragment contains `k`, the only ASCII letter a non-ASCII capital (the Kelvin sign) lowers to. No fragment ends in `i`, the letter that `İ` lowers to before a combining dot.
- Floats are modelled as real numbers, infinities and NaN, without double-precision rounding. `int()` of a finite float is its integer part (for a positive float, its floor).
- The `try/except Exception` around the heuristic (lines 102-120) can only fire when the id is not a string. In that case the id simply does not match, and the model's own `supports_tools` stays in place.
