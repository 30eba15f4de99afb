/**
  The prompt that `groq_ai_generate_email` (app.py:86-155) sends to the
  completion service, as a function of the tone and the insights object.
  Fields are read with `.get` defaults, products are joined with `", "`,
  customers become bullets joined with `"\n• "`, and the professional
  template is chosen exactly when the lower-cased tone mentions
  "professional". The HTTP call that follows is not part of the model.
 */
module EmailPrompt {
  import opened PyStr
  import opened Insights
  import opened EmailParser

  /** `k` is absent or holds a JSON string. */
  predicate IsStringField(m: JsonObject, k: string) {
    k in m ==> m[k].JString?
  }

  /** `k` is absent or holds an array of JSON strings. */
  predicate IsStringListField(m: JsonObject, k: string) {
    k in m ==> m[k].JArray? && forall j :: 0 <= j < |m[k].items| ==> m[k].items[j].JString?
  }

  /** The field types the prompt interpolates without raising or re-formatting. */
  predicate Renderable(m: JsonObject) {
    && IsStringField(m, "company_name")
    && IsStringField(m, "company_summary")
    && IsStringField(m, "industry")
    && IsStringListField(m, "main_products")
    && IsStringListField(m, "ideal_customers")
  }

  /** `m.get(k, default)` for a string field. */
  function GetString(m: JsonObject, k: string, default: string): string
    requires IsStringField(m, k)
  {
    if k in m then m[k].s else default
  }

  /** `m.get(k, [])` for a list-of-strings field. */
  function GetStrings(m: JsonObject, k: string): (r: seq<string>)
    requires IsStringListField(m, k)
    ensures k in m ==> |r| == |m[k].items| && forall j :: 0 <= j < |r| ==> JString(r[j]) == m[k].items[j]
    ensures k !in m ==> r == []
  {
    if k in m then seq(|m[k].items|, j requires 0 <= j < |m[k].items| => m[k].items[j].s) else []
  }

  const Bullet := "\n\U{2022} "

  /** The values interpolated into both templates (app.py:92-98). */
  datatype PromptFields = PromptFields(
    companyName: string,
    companySummary: string,
    industry: string,
    products: string,
    customersBullets: string)

  /** The defaults `groq_ai_generate_email` reads for missing fields (app.py:92-98); the company name's is `DefaultCompanyName`. */
  const DefaultSummary := "A growing organization"
  const DefaultIndustry := "your industry"
  const DefaultCustomers := "Your ideal clients"

  /** Reads the insights with the defaults of app.py:92-98. */
  function FieldsOf(m: JsonObject): (f: PromptFields)
    requires Renderable(m)
    ensures JString(f.companyName) == if "company_name" in m then m["company_name"] else JString(DefaultCompanyName)
    ensures JString(f.companySummary) == if "company_summary" in m then m["company_summary"] else JString(DefaultSummary)
    ensures JString(f.industry) == if "industry" in m then m["industry"] else JString(DefaultIndustry)
    ensures "main_products" !in m || m["main_products"].items == [] ==> f.products == ""
    ensures "ideal_customers" !in m || m["ideal_customers"].items == [] ==> f.customersBullets == DefaultCustomers
  {
    var customers := GetStrings(m, "ideal_customers");
    PromptFields(
      GetString(m, "company_name", DefaultCompanyName),
      GetString(m, "company_summary", DefaultSummary),
      GetString(m, "industry", DefaultIndustry),
      Join(", ", GetStrings(m, "main_products")),
      if customers != [] then Join(Bullet, customers) else DefaultCustomers)
  }

  /*
    The fixed text of the two f-strings, cut at the interpolated fields.
    Line breaks and the double spaces at the end of some lines are the
    source's own.
   */
  const HeaderIntro := "\nYou are a B2B sales outreach expert.\n\n"
    + "Analyze the following company and generate an outreach email in EXACT format.\n\n"
    + "Company Name: "
  const HeaderOutro := "\n\nReturn ONLY the email in this format:\n\n"

  /** The subject texts the example emails put after "Subject: ". */
  const ProfessionalTopic := "Enhance Your Outreach " + "with Targeted Contacts at "
  const FriendlyTopic := "Connect with Key Decision-Makers at "
  const ProfessionalSubject := "Subject: " + ProfessionalTopic
  const FriendlySubject := "Subject: " + FriendlyTopic

  const ProfessionalGreeting := "Hello [First Name],\n\n"
  const ProfessionalOffer := "We provide targeted email lists to help you connect with:" + Bullet
  const ProfessionalClosing := "If this aligns with your outreach strategy, I\U{2019}d be happy to share more details"
    + " along with a small sample for your review.\n\n"
  const ProfessionalSignOff := "Looking forward to your thoughts,  \nRanjith"

  const FriendlyGreeting := "Hi [First Name],  \n\n"
  const FriendlyOffer := "We provide targeted email lists to help you reach:" + Bullet
  const FriendlyClosing := "If you're open to it, I\U{2019}d love to share more details \U{2014} plus a small sample list"
    + " so you can see the fit firsthand.\n\n"
    + "What do you say \U{2014} should we give it a quick try? \U{1F60A}\n\n"
  const FriendlySignOff := "Cheers,  \nRanjith \U{1F680}"

  /** The fields of an insights object that has none of the five keys. */
  const DefaultFields := PromptFields(DefaultCompanyName, DefaultSummary, DefaultIndustry, "", DefaultCustomers)

  /** Reading an empty insights object gives every default. */
  lemma EmptyInsightsFields()
    ensures FieldsOf(map[]) == DefaultFields
  {
  }

  /** The text shared by both templates, up to the subject line of the example email (app.py:101-113, 128-140). */
  function Header(f: PromptFields): string {
    HeaderIntro + f.companyName
    + "\nIndustry: " + f.industry
    + "\nSummary: " + f.companySummary
    + "\nMain Products/Services: " + f.products
    + "\nIdeal Customers: " + f.customersBullets
    + HeaderOutro
  }

  /** The example email of the professional template (app.py:114-126). */
  function ProfessionalEmail(f: PromptFields): string {
    "Subject: " + ProfessionalTopic + f.companyName + "\n\n"
    + ProfessionalBody(f) + "\n"
  }

  /** The professional example email below its subject line, without its last line break. */
  function ProfessionalBody(f: PromptFields): string {
    ProfessionalGreeting + ProfessionalPitch(f) + ProfessionalSignOff
  }

  /** The paragraphs between the greeting and the sign-off (app.py:118-123). */
  function ProfessionalPitch(f: PromptFields): string {
    "I noticed " + f.companyName + " is focusing on " + f.products + ".  \n"
    + ProfessionalOffer + f.customersBullets + "\n\n"
    + ProfessionalClosing
  }

  /** The professional template (app.py:101-126). */
  function ProfessionalTemplate(f: PromptFields): string {
    Header(f) + ProfessionalEmail(f)
  }

  /** The example email of the friendly template (app.py:141-155). */
  function FriendlyEmail(f: PromptFields): string {
    "Subject: " + FriendlyTopic + f.companyName + "\n\n"
    + FriendlyBody(f) + "\n"
  }

  /** The friendly example email below its subject line, without its last line break. */
  function FriendlyBody(f: PromptFields): string {
    FriendlyGreeting + FriendlyPitch(f) + FriendlySignOff
  }

  /** The paragraphs between the greeting and the sign-off (app.py:145-152). */
  function FriendlyPitch(f: PromptFields): string {
    "I came across " + f.companyName + " and noticed you\U{2019}re doing exciting work in " + f.industry + ".  \n"
    + FriendlyOffer + f.customersBullets + "\n\n"
    + FriendlyClosing
  }

  /** The friendly template (app.py:128-155). */
  function FriendlyTemplate(f: PromptFields): string {
    Header(f) + FriendlyEmail(f)
  }

  /** `"professional" in tone.lower()` (app.py:100). */
  predicate IsProfessional(tone: string) {
    Contains(Lower(tone), "professional")
  }

  /** The prompt built from `tone` and `insights` (app.py:92-155). */
  function Prompt(tone: string, insights: JsonObject): string
    requires Renderable(insights)
  {
    var f := FieldsOf(insights);
    if IsProfessional(tone) then ProfessionalTemplate(f) else FriendlyTemplate(f)
  }

  /**
    An example email opens with its subject line, "Subject: ", the topic and
    the company name, followed by a blank line.
   */
  lemma {:induction false} EmailOpening(topic: string, name: string, body: string)
    requires topic != []
    ensures var e := "Subject: " + topic + name + "\n\n" + body + "\n";
      && StartsWith(e, "Subject: " + topic + name + "\n\n")
      && StartsWith(e, "Subject: " + topic) && e[9] == topic[0]
  {
    var subject := "Subject: " + topic;
    var line := subject + name + "\n\n";
    var e := line + body + "\n";
    assert e == line + (body + "\n");
    HeadThenRest(line, body + "\n");
    assert line == subject + (name + "\n\n");
    HeadThenRest(subject, name + "\n\n");
    assert e[..|subject|] == line[..|subject|];
  }

  /** The two subject lines first differ at their tenth character. */
  lemma SubjectsDiffer()
    ensures |ProfessionalSubject| > 9 && |FriendlySubject| > 9
    ensures ProfessionalSubject[9] != FriendlySubject[9]
  {
    TopicsShape();
  }

  /** The professional example email opens with the professional subject line. */
  lemma ProfessionalOpening(f: PromptFields)
    ensures StartsWith(ProfessionalEmail(f), ProfessionalSubject + f.companyName + "\n\n")
    ensures StartsWith(ProfessionalEmail(f), ProfessionalSubject)
  {
    EmailOpening(ProfessionalTopic, f.companyName, ProfessionalBody(f));
  }

  /** The friendly example email opens with the friendly subject line. */
  lemma FriendlyOpening(f: PromptFields)
    ensures StartsWith(FriendlyEmail(f), FriendlySubject + f.companyName + "\n\n")
    ensures StartsWith(FriendlyEmail(f), FriendlySubject)
  {
    EmailOpening(FriendlyTopic, f.companyName, FriendlyBody(f));
  }

  /**
    The professional template is the header followed by the professional,
    not the friendly, subject line, which ends with the company name.
   */
  lemma ProfessionalTemplateShape(f: PromptFields)
    ensures StartsWith(ProfessionalTemplate(f), Header(f))
    ensures var e := ProfessionalTemplate(f)[|Header(f)|..];
      && StartsWith(e, ProfessionalSubject + f.companyName + "\n\n")
      && StartsWith(e, ProfessionalSubject) && !StartsWith(e, FriendlySubject)
  {
    HeadThenRest(Header(f), ProfessionalEmail(f));
    ProfessionalOpening(f);
    SubjectsDiffer();
    PrefixesClash(ProfessionalEmail(f), ProfessionalSubject, FriendlySubject, 9);
  }

  /**
    The friendly template is the header followed by the friendly, not the
    professional, subject line, which ends with the company name.
   */
  lemma FriendlyTemplateShape(f: PromptFields)
    ensures StartsWith(FriendlyTemplate(f), Header(f))
    ensures var e := FriendlyTemplate(f)[|Header(f)|..];
      && StartsWith(e, FriendlySubject + f.companyName + "\n\n")
      && StartsWith(e, FriendlySubject) && !StartsWith(e, ProfessionalSubject)
  {
    HeadThenRest(Header(f), FriendlyEmail(f));
    FriendlyOpening(f);
    SubjectsDiffer();
    PrefixesClash(FriendlyEmail(f), FriendlySubject, ProfessionalSubject, 9);
  }

  /**
    Both prompts open with the shared header, and the example email after
    it carries the professional subject exactly when the tone mentions
    "professional", the friendly one otherwise; either subject line ends
    with the company name.
   */
  lemma {:induction false} TemplateChoice(tone: string, m: JsonObject)
    requires Renderable(m)
    ensures StartsWith(Prompt(tone, m), Header(FieldsOf(m)))
    ensures StartsWith(Prompt(tone, m)[|Header(FieldsOf(m))|..], ProfessionalSubject) <==> IsProfessional(tone)
    ensures StartsWith(Prompt(tone, m)[|Header(FieldsOf(m))|..], FriendlySubject) <==> !IsProfessional(tone)
    ensures var subject := if IsProfessional(tone) then ProfessionalSubject else FriendlySubject;
      StartsWith(Prompt(tone, m)[|Header(FieldsOf(m))|..], subject + FieldsOf(m).companyName + "\n\n")
  {
    if IsProfessional(tone) {
      ProfessionalTemplateShape(FieldsOf(m));
    } else {
      FriendlyTemplateShape(FieldsOf(m));
    }
  }

  /** Both subject topics are single lines that start with a capital letter. */
  lemma TopicsShape()
    ensures NoBreak(ProfessionalTopic) && ProfessionalTopic[0] == 'E'
    ensures NoBreak(FriendlyTopic) && FriendlyTopic[0] == 'C'
  {
    assert NoBreak("Enhance Your Outreach ") && NoBreak("with Targeted Contacts at ");
    NoBreakAppend("Enhance Your Outreach ", "with Targeted Contacts at ");
    assert NoBreak(FriendlyTopic);
  }

  /**
    An example email in the format `parse_email` reads: a subject topic
    followed by the company name, a blank line and a body.
   */
  lemma {:induction false} ExampleEmailParses(topic: string, name: string, body: string)
    requires topic != [] && !IsSpace(topic[0]) && NoBreak(topic)
    requires name != [] && NoBreak(name) && IsStripped(name)
    requires IsStripped(body)
    ensures Parsed("Subject: " + topic + name + "\n\n" + body + "\n") == (topic + name, body)
  {
    var subject := topic + name;
    assert NoBreak(subject) by {
      assert forall i :: |topic| <= i < |subject| ==> subject[i] == name[i - |topic|];
    }
    assert subject[|subject| - 1] == name[|name| - 1];
    assert "Subject: " + topic + name + "\n\n" + body + "\n" == Display(subject, body) + "\n";
    DisplayPaddedRoundTrip(subject, body, "\n");
  }

  /**
    The professional example email is in the format `parse_email` reads: it
    yields the advertised subject line and the text below it.
   */
  lemma {:induction false} ProfessionalEmailParses(f: PromptFields)
    requires NoBreak(f.companyName) && IsStripped(f.companyName) && f.companyName != []
    ensures Parsed(ProfessionalEmail(f)) == (ProfessionalTopic + f.companyName, ProfessionalBody(f))
  {
    TopicsShape();
    StrippedFrame(ProfessionalGreeting, ProfessionalPitch(f), ProfessionalSignOff);
    ExampleEmailParses(ProfessionalTopic, f.companyName, ProfessionalBody(f));
  }

  /**
    The friendly example email is in the format `parse_email` reads: it
    yields the advertised subject line and the text below it.
   */
  lemma {:induction false} FriendlyEmailParses(f: PromptFields)
    requires NoBreak(f.companyName) && IsStripped(f.companyName) && f.companyName != []
    ensures Parsed(FriendlyEmail(f)) == (FriendlyTopic + f.companyName, FriendlyBody(f))
  {
    TopicsShape();
    StrippedFrame(FriendlyGreeting, FriendlyPitch(f), FriendlySignOff);
    ExampleEmailParses(FriendlyTopic, f.companyName, FriendlyBody(f));
  }

  /** The professional tone used by both callers picks the professional template (app.py:200, 242). */
  lemma ProfessionalCallerTone()
    ensures IsProfessional("Professional Corporate Tone")
  {
    var p := Lower("Professional Corporate Tone");
    assert forall i :: 0 <= i < 12 ==> p[i] == "professional"[i];
    assert p[0..][..12] == "professional";
  }

  /** The friendly tone used by both callers picks the friendly template (app.py:201, 243). */
  lemma FriendlyCallerTone()
    ensures !IsProfessional("Friendly Conversational Tone")
  {
    var t := "Friendly Conversational Tone";
    assert forall i :: 0 <= i < |t| ==> t[i] != 'p' && t[i] != 'P';
    var q := Lower(t);
    assert forall i :: 0 <= i < |q| ==> q[i] != "professional"[0];
    NotContainsFirst(q, "professional");
  }

  /** An example email contains the pitch between its greeting and sign-off. */
  lemma {:induction false} EmailContainsPitch(h: string, topic: string, name: string, g: string, p: string, z: string)
    ensures Contains(h + ("Subject: " + topic + name + "\n\n" + (g + p + z) + "\n"), p)
  {
    var pre := h + "Subject: " + topic + name + "\n\n" + g;
    var post := z + "\n";
    assert h + ("Subject: " + topic + name + "\n\n" + (g + p + z) + "\n") == pre + p + post;
    ContainsAt(pre, p, post);
  }

  /** A pitch lists the customers after the offer, which ends in a bullet. */
  lemma {:induction false} PitchContainsBullets(a: string, w: string, bullets: string, z: string)
    ensures Contains(a + (w + Bullet) + bullets + "\n\n" + z, Bullet + bullets)
  {
    assert a + (w + Bullet) + bullets + "\n\n" + z == (a + w) + (Bullet + bullets) + ("\n\n" + z);
    ContainsAt(a + w, Bullet + bullets, "\n\n" + z);
  }

  /** The professional template lists the customer bullets behind a bullet. */
  lemma ProfessionalListsCustomers(f: PromptFields)
    ensures Contains(ProfessionalTemplate(f), Bullet + f.customersBullets)
  {
    var pitch := ProfessionalPitch(f);
    EmailContainsPitch(Header(f), ProfessionalTopic, f.companyName, ProfessionalGreeting, pitch, ProfessionalSignOff);
    PitchContainsBullets("I noticed " + f.companyName + " is focusing on " + f.products + ".  \n",
      "We provide targeted email lists to help you connect with:", f.customersBullets, ProfessionalClosing);
    ContainsTrans(ProfessionalTemplate(f), pitch, Bullet + f.customersBullets);
  }

  /** The friendly template lists the customer bullets behind a bullet. */
  lemma FriendlyListsCustomers(f: PromptFields)
    ensures Contains(FriendlyTemplate(f), Bullet + f.customersBullets)
  {
    var pitch := FriendlyPitch(f);
    EmailContainsPitch(Header(f), FriendlyTopic, f.companyName, FriendlyGreeting, pitch, FriendlySignOff);
    PitchContainsBullets("I came across " + f.companyName + " and noticed you\U{2019}re doing exciting work in " + f.industry + ".  \n",
      "We provide targeted email lists to help you reach:", f.customersBullets, FriendlyClosing);
    ContainsTrans(FriendlyTemplate(f), pitch, Bullet + f.customersBullets);
  }

  /** Whatever the tone, every ideal customer appears in the prompt as a bullet of its own. */
  lemma {:induction false} CustomersListed(tone: string, m: JsonObject)
    requires Renderable(m)
    ensures forall j :: 0 <= j < |GetStrings(m, "ideal_customers")| ==>
      Contains(Prompt(tone, m), Bullet + GetStrings(m, "ideal_customers")[j])
  {
    var f := FieldsOf(m);
    var cs := GetStrings(m, "ideal_customers");
    if cs != [] {
      if IsProfessional(tone) {
        ProfessionalListsCustomers(f);
      } else {
        FriendlyListsCustomers(f);
      }
      ContainsSepJoinedParts(Prompt(tone, m), Bullet, cs);
    }
  }

  /** The header carries the products line. */
  lemma {:induction false} HeaderContainsProducts(f: PromptFields)
    ensures Contains(Header(f), f.products)
  {
    var a := HeaderIntro + f.companyName + "\nIndustry: " + f.industry + "\nSummary: " + f.companySummary
      + "\nMain Products/Services: ";
    var b := "\nIdeal Customers: " + f.customersBullets + HeaderOutro;
    assert Header(f) == a + f.products + b;
    ContainsAt(a, f.products, b);
  }

  /** A template that opens with the header names the products. */
  lemma {:induction false} HeaderThenProducts(t: string, f: PromptFields)
    requires StartsWith(t, Header(f))
    ensures Contains(t, f.products)
  {
    StartsWithContains(t, Header(f));
    HeaderContainsProducts(f);
    ContainsTrans(t, Header(f), f.products);
  }

  /** Whatever the tone, every main product appears in the prompt. */
  lemma {:induction false} ProductsListed(tone: string, m: JsonObject)
    requires Renderable(m)
    ensures forall j :: 0 <= j < |GetStrings(m, "main_products")| ==>
      Contains(Prompt(tone, m), GetStrings(m, "main_products")[j])
  {
    var f := FieldsOf(m);
    TemplateChoice(tone, m);
    HeaderThenProducts(Prompt(tone, m), f);
    ContainsJoinedParts(Prompt(tone, m), ", ", GetStrings(m, "main_products"));
  }
}
