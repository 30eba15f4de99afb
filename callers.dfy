/**
  The single-URL and bulk handlers (app.py:187-216, 221-255) as far as they
  combine the core: the summary (computed by both; the bulk handler shows it
  in its results table, the single-URL handler only as a field of the
  insights object it shows), the two prompts built from the extracted
  insights, and the two replies read back by `parse_email`. Scraping, the
  completion service and the widgets stay outside; the service's replies are
  inputs.

  Two call sites fail on inputs the rest of the code prepares for. Each is
  modelled as written, with an `Outcome` that records the exception, and
  next to it as evidently intended; `Analyze` is the handler with both
  corrected, and `AnalyzeAgrees` ties it to the handler as written.
 */
module Callers {
  import opened Wrappers
  import opened Insights
  import opened EmailParser
  import opened EmailPrompt

  /** The Python exceptions the call sites can raise. */
  datatype PyError = KeyError(key: string) | AttributeError(attribute: string)

  /** A value, or the exception raised instead of producing it. */
  datatype Outcome<T> = Done(value: T) | Raised(error: PyError)

  /** Python truthiness of the value `extract_json` returns: `None` and `{}` are false. */
  predicate Truthy(insights: Option<JsonObject>) {
    insights.Some? && insights.value != map[]
  }

  /**
    `insights["company_summary"] if insights else "A growing organization"`
    as written (app.py:198, 240): subscripting raises `KeyError` when the
    decoded object has no summary.
   */
  function SummaryAsWritten(insights: Option<JsonObject>): (r: Outcome<Json>)
    ensures r.Raised? <==> Truthy(insights) && "company_summary" !in insights.value
    ensures r.Raised? ==> r.error == KeyError("company_summary")
    ensures !Truthy(insights) ==> r == Done(JString(DefaultSummary))
  {
    if Truthy(insights) then
      if "company_summary" in insights.value then Done(insights.value["company_summary"])
      else Raised(KeyError("company_summary"))
    else Done(JString(DefaultSummary))
  }

  /**
    A reply that is the bare object `{}` decodes to an object without a
    summary; `extract_json` adds only a name and a customer list, so the
    handler raises `KeyError`.
   */
  lemma SummaryKeyError(decode: Decoder)
    requires decode("{}") == Some(map[])
    ensures SummaryAsWritten(ExtractJson("{}", decode)) == Raised(KeyError("company_summary"))
  {
    CommentaryIgnored([], "{}", [], decode);
    assert [] + "{}" + [] == "{}";
    var r := ExtractJson("{}", decode);
    assert "company_name" in r.value;
  }

  /** The summary with the default `groq_ai_generate_email` already uses (app.py:93). */
  function SummaryOrDefault(insights: Option<JsonObject>): (r: Json)
    ensures insights.Some? && "company_summary" in insights.value ==> r == insights.value["company_summary"]
    ensures insights.None? || "company_summary" !in insights.value ==> r == JString(DefaultSummary)
  {
    if insights.Some? && "company_summary" in insights.value then insights.value["company_summary"]
    else JString(DefaultSummary)
  }

  /** The intended summary agrees with the one as written wherever that one does not raise. */
  lemma SummaryAgrees(insights: Option<JsonObject>)
    ensures SummaryAsWritten(insights).Done? ==> SummaryAsWritten(insights).value == SummaryOrDefault(insights)
  {
    if insights.Some? && insights.value == map[] {
      assert "company_summary" !in insights.value;
    }
  }

  /** The intended summary is the one the prompts interpolate. */
  lemma SummaryMatchesPrompt(insights: JsonObject)
    requires Renderable(insights)
    ensures SummaryOrDefault(Some(insights)) == JString(FieldsOf(insights).companySummary)
  {
  }

  /**
    `groq_ai_generate_email(url, text, tone, insights)` as written
    (app.py:86-98): when `extract_json` returned `None`, the first
    `insights.get` raises `AttributeError` before any request is made.
   */
  function PromptAsWritten(tone: string, insights: Option<JsonObject>): (r: Outcome<string>)
    requires insights.Some? ==> Renderable(insights.value)
    ensures r.Raised? <==> insights.None?
    ensures r.Raised? ==> r.error == AttributeError("get")
  {
    if insights.None? then Raised(AttributeError("get")) else Done(Prompt(tone, insights.value))
  }

  /**
    A reply without braces (an empty one is what the insights call returns
    when the service fails) leaves no insights, and both handlers then
    raise inside `groq_ai_generate_email` instead of using the defaults.
   */
  lemma NoInsightsRaises(content: string, decode: Decoder, tone: string)
    requires decode("") == None && decode("}") == None
    requires '{' !in content
    ensures PromptAsWritten(tone, ExtractJson(content, decode)) == Raised(AttributeError("get"))
  {
    NoObjectNoInsights(content, decode);
  }

  /** The object the corrected handler reads its fields from: missing insights read as `{}`. */
  function InsightsOrEmpty(insights: Option<JsonObject>): JsonObject {
    if insights.Some? then insights.value else map[]
  }

  /** The prompt with missing insights read as an empty object, so every field takes its default. */
  function PromptGuarded(tone: string, insights: Option<JsonObject>): string
    requires insights.Some? ==> Renderable(insights.value)
  {
    Prompt(tone, InsightsOrEmpty(insights))
  }

  /** The guarded prompt is the prompt as written wherever that one does not raise. */
  lemma PromptGuardedAgrees(tone: string, insights: Option<JsonObject>)
    requires insights.Some? ==> Renderable(insights.value)
    ensures PromptAsWritten(tone, insights).Done? ==> PromptAsWritten(tone, insights).value == PromptGuarded(tone, insights)
  {
  }

  /** Without insights the guarded prompt is a template filled with every default of app.py:92-98. */
  lemma NoInsightsDefaults(tone: string)
    ensures PromptGuarded(tone, None)
      == if IsProfessional(tone) then ProfessionalTemplate(DefaultFields) else FriendlyTemplate(DefaultFields)
  {
    EmptyInsightsFields();
  }

  /**
    What the handlers compute for one URL: the summary (the bulk handler's
    `company_summary` column, app.py:250), the two prompts, and the two
    replies read back as subject and body.
   */
  datatype Analysis = Analysis(
    summary: Json,
    professionalPrompt: string,
    friendlyPrompt: string,
    professional: (string, string),
    friendly: (string, string))

  /** The tone labels both handlers pass (app.py:200-201, 242-243). */
  const ProfessionalTone := "Professional Corporate Tone"
  const FriendlyTone := "Friendly Conversational Tone"

  /**
    One URL through the handlers (app.py:196-216, 239-254) with both call
    sites corrected: where app.py:198 raises `KeyError` the summary takes its
    default, and where app.py:92 raises `AttributeError` the prompts take
    every default. The insights reply, decoded, gives the summary and both
    prompts; the service's two replies are parsed into subject and body.
   */
  function Analyze(insightsReply: string, decode: Decoder, professionalReply: string, friendlyReply: string): (r: Analysis)
    requires var x := ExtractJson(insightsReply, decode); x.Some? ==> Renderable(x.value)
    ensures var f := FieldsOf(InsightsOrEmpty(ExtractJson(insightsReply, decode)));
      && r.summary == JString(f.companySummary)
      && r.professionalPrompt == ProfessionalTemplate(f)
      && r.friendlyPrompt == FriendlyTemplate(f)
    ensures ExtractJson(insightsReply, decode).None? ==> r.summary == JString(DefaultSummary)
    ensures r.professional == Parsed(professionalReply) && r.friendly == Parsed(friendlyReply)
    ensures Parsed(Display(r.professional.0, r.professional.1)) == r.professional
    ensures Parsed(Display(r.friendly.0, r.friendly.1)) == r.friendly
  {
    var insights := ExtractJson(insightsReply, decode);
    EmptyInsightsFields();
    SummaryMatchesPrompt(InsightsOrEmpty(insights));
    GuardedTemplates(insights);
    DisplayFixedPoint(professionalReply);
    DisplayFixedPoint(friendlyReply);
    Analysis(
      SummaryOrDefault(insights),
      PromptGuarded(ProfessionalTone, insights),
      PromptGuarded(FriendlyTone, insights),
      Parsed(professionalReply),
      Parsed(friendlyReply))
  }

  /**
    Wherever the handler as written gets past app.py:198 and app.py:200-201
    without raising, the corrected handler computes the same summary and
    prompts.
   */
  lemma AnalyzeAgrees(insightsReply: string, decode: Decoder, professionalReply: string, friendlyReply: string)
    requires var x := ExtractJson(insightsReply, decode); x.Some? ==> Renderable(x.value)
    ensures var x := ExtractJson(insightsReply, decode);
      var r := Analyze(insightsReply, decode, professionalReply, friendlyReply);
      SummaryAsWritten(x).Done? && PromptAsWritten(ProfessionalTone, x).Done? ==>
        && r.summary == SummaryAsWritten(x).value
        && r.professionalPrompt == PromptAsWritten(ProfessionalTone, x).value
        && r.friendlyPrompt == PromptAsWritten(FriendlyTone, x).value
  {
    var x := ExtractJson(insightsReply, decode);
    SummaryAgrees(x);
    PromptGuardedAgrees(ProfessionalTone, x);
    PromptGuardedAgrees(FriendlyTone, x);
  }

  /** The handlers' two tones pick the professional and the friendly template respectively. */
  lemma GuardedTemplates(insights: Option<JsonObject>)
    requires insights.Some? ==> Renderable(insights.value)
    ensures var f := FieldsOf(InsightsOrEmpty(insights));
      PromptGuarded(ProfessionalTone, insights) == ProfessionalTemplate(f)
      && PromptGuarded(FriendlyTone, insights) == FriendlyTemplate(f)
  {
    ProfessionalCallerTone();
    FriendlyCallerTone();
  }
}
