# Website outreach agent: the text-handling core

The outreach agent scrapes a company's website and asks a text-completion
service for a JSON description of the company. It then asks the service for
two cold emails, one in a professional tone and one in a friendly tone, and
shows each email as a subject and a body. This project models the three
pieces of that pipeline that are plain text processing, and the handler code
that connects them:

- `extract_json` (module `Insights`) takes the text from the first `{` to the
  last `}` of a reply and decodes it. It fills in `company_name` and
  `ideal_customers` when they are missing, and returns `None` on any failure.
- The prompt construction in `groq_ai_generate_email` (module `EmailPrompt`)
  reads five insight fields with `.get` defaults. It joins the products with
  `", "` and the customers with `"\n• "`, and fills one of two fixed
  f-string templates. The template is chosen by whether the lower-cased tone
  contains "professional".
- `parse_email` (module `EmailParser`) loops over the lines of a reply. It
  takes the subject from the first line whose lower-cased text starts with
  `subject:` and the body from all later lines, and strips both.
- The two handlers (module `Callers`) compute the company summary, build both
  prompts and parse both replies. The single-URL handler displays each reply
  as `Subject: {s}\n\n{b}`. It never displays its `company_summary` variable,
  but it shows the whole insights object, summary field included, at
  app.py:208. The bulk handler puts the summary, subjects and bodies in its
  results table. `Analyze` is the
  handler with the two defects under "## Findings" corrected.

Module `PyStr` states the Python `str` behaviour the code depends on:
- `isspace`, `strip` and `splitlines`;
- `join` and `lower`;
- `startswith` and `in`;
- `find` and `rfind`;
- slicing with negative indices.

`Wrappers` holds `Option`.

The decoder behind `json.loads` is a parameter, `Decoder`: a function from
text to an optional JSON object. The completion service's replies are inputs.

`app.py` has two tones, and `extract_json` defaults only two fields
(`company_name` and `ideal_customers`).

## Model

| member | source | states |
|---|---|---|
| PyStr.Strip | app.py:179-180 | `str.strip()` leaves no whitespace at either end, using Python's `isspace` set, and never lengthens the string |
| PyStr.StripPadded | app.py:179-180 | whitespace added on both sides of an already stripped string is exactly what `strip()` removes |
| PyStr.StripSpaceSuffix | app.py:180 | trailing whitespace does not change what `strip()` returns |
| PyStr.SplitLines | app.py:176 | `splitlines()` yields lines without line breaks, and yields no lines exactly for the empty string |
| PyStr.SplitLinesAppend | app.py:176 | splitting text that follows a line break gives the lines before it followed by the lines after it |
| PyStr.JoinSplitLines | app.py:176-180 | `"\n".join(s.splitlines())` gives `s` back, minus one trailing line break |
| PyStr.JoinSplitLinesStrip | app.py:180 | splitting into lines, rejoining and stripping gives the same as stripping |
| PyStr.Lower | app.py:178 | the model's `lower()`: keeps the length and lower-cases each ASCII letter (see "## Left out") |
| PyStr.StartsWithLowerIsLowerPrefix | app.py:178 | the character-wise test is `line.lower().startswith(p)` |
| PyStr.Join | app.py:94-98 | `sep.join(parts)`: the parts in order with the separator between neighbours (also `"\n".join` at app.py:180); `JoinContainsParts` and `JoinSplitLines` pin it down |
| PyStr.AfterFirst | app.py:179 | `line.split(":", 1)[1]`: the text after the first colon; `SubjectLineColon` fixes it on subject lines |
| PyStr.Slice | app.py:34 | `content[start:end]` with Python's rules: negative bounds count from the end, bounds are clamped, an empty range gives `""`; `Insights.JsonSlice` states its three outcomes |
| PyStr.Find | app.py:32 | `find` returns -1 exactly when the character is absent, and otherwise returns its first index |
| PyStr.RFind | app.py:33 | `rfind` returns -1 exactly when the character is absent, and otherwise returns its last index |
| PyStr.JoinContainsParts | app.py:94-98 | every part of `sep.join(parts)` occurs in the joined text |
| PyStr.SepJoinContainsParts | app.py:98 | after a leading separator, every part of the joined text follows a separator |
| EmailParser.FirstSubjectLine | app.py:177-178 | returns the index of the first line that starts with `subject:` in any case, or None exactly when no line does |
| EmailParser.SubjectLineColon | app.py:179 | on a subject line, `split(":", 1)[1]` is the text after the eighth character |
| EmailParser.Parsed | app.py:173-182 | without a subject line, both the subject and the body are empty |
| EmailParser.ParsedLines | app.py:176-182 | the result over the lines: the first subject line gives the subject and the later lines give the body, and no subject line gives `("", "")`; `ParseAfterPrefix` and `DisplayFixedPoint` pin it down |
| EmailParser.SubjectText | app.py:179 | `line.split(":", 1)[1].strip()`; on a subject line it is the stripped text after `subject:` (`ParseAfterPrefix`) |
| EmailParser.BodyText | app.py:180 | `"\n".join(rest).strip()`; for the lines after a line break it is that text, stripped (`BodyTextAfterBreak`) |
| EmailParser.BodyTextAfterBreak | app.py:176-180 | joining the lines of the text after a line break and stripping gives that text stripped |
| EmailParser.ParsedShape | app.py:179-180 | the parsed subject is one line, and both parts are stripped |
| EmailParser.ParseEmail | app.py:173-182 | the loop stops at the first subject line and returns the pair `Parsed` defines |
| EmailParser.ParseAfterPrefix | app.py:176-180 | after subject-free lines, a subject line gives its stripped text after `subject:` and the stripped rest as the body |
| EmailParser.Display | app.py:213 | `f"Subject: {s}\n\n{b}"`, also at app.py:216; `DisplayRoundTrip` and `DisplayFixedPoint` state that `parse_email` reads it back |
| EmailParser.DisplayRoundTrip | app.py:213 | parsing the displayed `Subject: {s}\n\n{b}` gives back `(s, b)` when s is one stripped line and b is stripped |
| EmailParser.DisplayPaddedRoundTrip | app.py:213 | the same holds with any whitespace after the body |
| EmailParser.DisplayFixedPoint | app.py:203-216 | re-parsing the displayed text of a parsed reply gives the same subject and body |
| Insights.JsonSlice | app.py:31-34 | the slice runs from the first `{` to the last `}` when both exist in that order; it is empty when the last `}` comes first; it is `content[-1:]` or empty when there is no `{` |
| Insights.WithDefaults | app.py:36-39 | adds `company_name = "This Company"` and `ideal_customers = []` only when missing, and keeps every other key and value |
| Insights.ExtractJson | app.py:30-42 | returns None exactly when the slice does not decode, and otherwise the decoded object with the defaults added |
| Insights.CommentaryIgnored | app.py:31-35 | text around the object that has no `{` before it and no `}` after it does not change the result |
| Insights.NoObjectNoInsights | app.py:31-42 | a reply without `{`, or whose last `}` comes before its first `{`, gives None |
| Insights.DefaultsOnlyTwoKeys | app.py:36-39 | every key other than the two defaulted ones is present only when it was decoded |
| EmailPrompt.GetStrings | app.py:94-96 | `insights.get(k, [])` gives the listed strings in order, or nothing when the key is absent |
| EmailPrompt.FieldsOf | app.py:92-98 | each field is the stored value or its default ("This Company", "A growing organization", "your industry"); the product line is empty and the customer line is "Your ideal clients" when the list is absent or empty |
| EmailPrompt.EmptyInsightsFields | app.py:92-98 | an insights object with no keys takes every default |
| EmailPrompt.Prompt | app.py:92-155 | reads the fields with their defaults and fills the professional template when the lower-cased tone contains "professional", the friendly one otherwise; `TemplateChoice`, `CustomersListed` and `ProductsListed` pin it down |
| EmailPrompt.ProfessionalTemplate | app.py:101-126 | the shared header with the five fields, then the professional example email; `ProfessionalTemplateShape` and `ProfessionalEmailParses` pin it down |
| EmailPrompt.FriendlyTemplate | app.py:128-155 | the shared header with the five fields, then the friendly example email; `FriendlyTemplateShape` and `FriendlyEmailParses` pin it down |
| EmailPrompt.TemplateChoice | app.py:100-155 | both prompts open with the shared header; the example email starts with the professional subject exactly when the lower-cased tone contains "professional", and with the friendly subject exactly when it does not; that subject line ends with the company name and a blank line |
| EmailPrompt.ProfessionalTemplateShape | app.py:101-126 | the professional template is the header followed by "Subject: Enhance Your Outreach with Targeted Contacts at {company_name}" and a blank line, not by the friendly subject |
| EmailPrompt.FriendlyTemplateShape | app.py:128-155 | the friendly template is the header followed by "Subject: Connect with Key Decision-Makers at {company_name}" and a blank line, not by the professional subject |
| EmailPrompt.ProfessionalEmailParses | app.py:114-126 | `parse_email` reads the professional example email as subject "Enhance Your Outreach with Targeted Contacts at {company}" and the text below it |
| EmailPrompt.FriendlyEmailParses | app.py:141-155 | `parse_email` reads the friendly example email as subject "Connect with Key Decision-Makers at {company}" and the text below it |
| EmailPrompt.ProfessionalCallerTone | app.py:200 | the tone "Professional Corporate Tone" selects the professional template |
| EmailPrompt.FriendlyCallerTone | app.py:201 | the tone "Friendly Conversational Tone" selects the friendly template |
| EmailPrompt.CustomersListed | app.py:97-120 | for either tone, every ideal customer appears in the prompt right after a `"\n• "` bullet |
| EmailPrompt.ProductsListed | app.py:94-109 | for either tone, every main product appears in the prompt |
| Callers.SummaryAsWritten | app.py:198 | raises `KeyError` exactly when the insights are truthy but lack `company_summary`, and gives the default without insights |
| Callers.SummaryKeyError | app.py:198 | the reply `{}` decodes to an object without a summary, so the handler raises `KeyError` |
| Callers.SummaryOrDefault | app.py:198 | the stored summary when present, and "A growing organization" otherwise |
| Callers.SummaryAgrees | app.py:198 | the corrected summary equals the written one wherever that one does not raise |
| Callers.SummaryMatchesPrompt | app.py:198 | the summary the handlers compute (a column of the bulk handler's results, app.py:250, and a field of the insights the single-URL handler shows, app.py:208) is the one the prompts interpolate |
| Callers.PromptAsWritten | app.py:92 | building the prompt raises `AttributeError` exactly when `extract_json` returned None |
| Callers.NoInsightsRaises | app.py:196-200 | a reply without braces leaves no insights, and the handler then raises |
| Callers.PromptGuarded | app.py:92-155 | the prompt with missing insights read as `{}`, so every field takes its default; `PromptGuardedAgrees` and `NoInsightsDefaults` pin it down |
| Callers.PromptGuardedAgrees | app.py:92-155 | the guarded prompt equals the written one wherever that one does not raise |
| Callers.NoInsightsDefaults | app.py:92-98 | without insights, the guarded prompt is the chosen template filled with every default |
| Callers.GuardedTemplates | app.py:200-201 | the handlers' two tones produce the professional and the friendly template respectively |
| Callers.Analyze | app.py:196-216 | for the corrected handler: the summary and both prompts are read from the same fields, which are every default when extraction fails; the summary is "A growing organization" then; each reply is parsed, and its displayed text re-parses to the pair shown |
| Callers.AnalyzeAgrees | app.py:196-201 | wherever the handler as written does not raise, the corrected handler computes the same summary and the same two prompts |

## Left out

- The Streamlit widgets, the CSV upload and download, and the progress bar are outside the model. They only display values the model computes.
- The API key is outside the model; it only configures the connection.
- The HTTP calls to the completion service are replaced by inputs (`Analyze` takes the three replies). The service's error path returns `""`; the model covers it as an empty reply.
- `scrape_website` is outside the model: it is fetching and HTML stripping.
- `groq_ai_generate_insights` is outside the model. Its prompt is a fixed template around the URL and the scraped text, and its reply is an input.
- `json.loads` is a parameter (`Decoder`). JSON syntax is not modelled.
- The `url` and `text` arguments of `groq_ai_generate_email` are not modelled, because the prompt does not use them.
- The bulk handler is modelled only through the per-URL members it shares with the single-URL handler (`Analyze`, `SummaryAsWritten`, `PromptAsWritten`).
- PyStr.SplitLines: splits on `"\n"` only. Python's `splitlines()` also breaks at `\r`, `\r\n`, `\v`, `\f`, `\x1c`-`\x1e`, `\x85`, U+2028 and U+2029. `DisplayRoundTrip` and `DisplayPaddedRoundTrip` depend on this: in Python, a subject or body holding one of those other breaks is not read back as it was (`parse_email("Subject: x\n\na\rb")` gives `("x", "a\nb")`). `DisplayFixedPoint` does not, because every body `parse_email` returns has only `"\n"` breaks.
- PyStr.Lower: lower-cases ASCII letters only. The only Unicode lower-casing that matters here is U+0130 (İ), which becomes two characters, and the Kelvin sign, which becomes `k`. Neither changes whether a line starts with `subject:` or a tone contains `professional`.
- EmailPrompt.FieldsOf: requires scalar fields to be JSON strings and list fields to be arrays of strings; other values are not modelled. In the source, a non-string scalar field is formatted with `str()`. A string in `main_products` or a truthy string in `ideal_customers` is joined one character at a time (`", ".join("CRM")` is `"C, R, M"`), and a non-empty object in either is joined over its keys. An `ideal_customers` value that is falsy but not a list (`null`, `""`, `0`, `false`, `{}`) is kept by `extract_json`, because the key is present, and then gives "Your ideal clients". `join` raises `TypeError` only for a `null`, number or boolean in `main_products`, a truthy number or boolean in `ideal_customers`, or a list element that is not a string.
- EmailPrompt.CustomersListed: the bullet may come from the header line instead of the example email. Only containment is stated, not the position.
- Callers.Analyze: models the handler with both defects corrected, not as written. Where app.py:198 raises `KeyError` (decoded insights without `company_summary`) it returns the default summary, and where app.py:92 raises `AttributeError` (no insights) it builds both prompts from the defaults. The handler as written is `SummaryAsWritten` and `PromptAsWritten`; `AnalyzeAgrees` states that the two coincide wherever the written one does not raise.
- PyStr.AfterFirst: returns `""` when there is no colon, where Python would raise `IndexError`. It is applied only to subject lines, which always contain a colon (`SubjectLineColon`).

## Findings

| source | as written | input that shows it | evidently intended | confidence | as-written member | corrected member |
|---|---|---|---|---|---|---|
| app.py:198 | `insights["company_summary"] if insights else ...` (and the same at app.py:240) subscripts a key that `extract_json` never defaults | a reply `{}` (or any decodable object without `company_summary`) | the `"A growing organization"` default used at app.py:93 | medium (not executed) | Callers.SummaryAsWritten, Callers.SummaryKeyError | Callers.SummaryOrDefault, Callers.SummaryAgrees, Callers.Analyze |
| app.py:92 | `groq_ai_generate_email`, called at app.py:200-201 and 242-243, calls `insights.get` when `extract_json` returned `None` | an insights reply with no `{`, such as the `""` returned when the service call fails | build the prompt from the defaults, as app.py:198 already does for the summary | high (not executed) | Callers.PromptAsWritten, Callers.NoInsightsRaises | Callers.PromptGuarded, Callers.PromptGuardedAgrees, Callers.Analyze |
