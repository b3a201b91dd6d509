/** The first tool catalogue of the Python agent: pricing for the starter, pro and agency
    plans, the six feature categories, and the demo-scheduling stub. Lower-casing is
    ASCII; every key looked up here is ASCII without a `k`, so the results agree with
    Python's full `str.lower()`. */
module Tools {
  import opened PyValues
  import Text

  /** A Python list of strings. */
  function Strings(xs: seq<string>): (r: PyValue)
    ensures r.PyList? && |r.items| == |xs|
    ensures forall i :: 0 <= i < |xs| ==> r.items[i] == PyStr(xs[i])
  {
    PyList(seq(|xs|, i requires 0 <= i < |xs| => PyStr(xs[i])))
  }

  const StarterPlan: map<string, PyValue> := map[
    "price" := PyStr("\U{20b9}99/month"),
    "features" := Strings(["500 leads/month", "5 email templates", "Basic analytics", "Email support",
                           "Business intelligence integration"]),
    "best_for" := PyStr("Freelancers and small businesses")]

  const ProPlan: map<string, PyValue> := map[
    "price" := PyStr("\U{20b9}1,499/month"),
    "features" := Strings(["2,000 leads/month", "Unlimited templates", "Advanced analytics", "Priority support",
                           "AI email generation", "Lead scoring", "Custom domain email"]),
    "best_for" := PyStr("Growing businesses"),
    "popular" := PyBool(true)]

  const AgencyPlan: map<string, PyValue> := map[
    "price" := PyStr("\U{20b9}3,999/month"),
    "features" := Strings(["Unlimited leads", "Unlimited templates", "White-label solution", "API access",
                           "Team accounts", "Dedicated support"]),
    "best_for" := PyStr("Agencies and large teams")]

  /** The `pricing` dictionary of `get_pricing_service`. */
  const Pricing: map<string, PyValue> :=
    map["starter" := PyDict(StarterPlan), "pro" := PyDict(ProPlan), "agency" := PyDict(AgencyPlan)]

  const PlanNotFound: PyValue := PyDict(map["error" := PyStr("Plan not found. Available plans: starter, pro, agency")])

  /** `get_pricing_service`: the plan named, in any letter case, or the error dictionary. */
  function GetPricingService(plan: string): (r: PyValue)
    ensures Text.Lower(plan) in Pricing ==> r == Pricing[Text.Lower(plan)]
    ensures Text.Lower(plan) !in Pricing ==> r == PlanNotFound
  {
    Get(Pricing, Text.Lower(plan), PlanNotFound)
  }

  /** The lookup ignores letter case. */
  lemma PricingIgnoresCase(plan: string)
    ensures GetPricingService(Text.Upper(plan)) == GetPricingService(plan)
  {
    Text.LowerUpper(plan);
  }

  /** An unknown plan yields a dictionary with the single key `error`. */
  lemma UnknownPlanIsError(plan: string)
    requires Text.Lower(plan) != "starter" && Text.Lower(plan) != "pro" && Text.Lower(plan) != "agency"
    ensures GetPricingService(plan).PyDict? && GetPricingService(plan).entries.Keys == {"error"}
  {
  }

  /** Only the pro plan carries `popular: True`. */
  lemma OnlyProIsPopular()
    ensures forall p :: p in Pricing ==> Pricing[p].PyDict? && ("popular" in Pricing[p].entries <==> p == "pro")
    ensures Pricing["pro"].entries["popular"] == PyBool(true)
  {
    assert "popular" !in StarterPlan && "popular" !in AgencyPlan;
  }

  lemma PlanNamesLowercase()
    ensures Text.Lower("starter") == "starter" && Text.Lower("pro") == "pro" && Text.Lower("agency") == "agency"
  {
    Text.LowerOfLowercase("starter");
    Text.LowerOfLowercase("pro");
    Text.LowerOfLowercase("agency");
  }

  /** The service answers each plan name with that plan. */
  lemma ServicePlans()
    ensures GetPricingService("starter") == Pricing["starter"]
    ensures GetPricingService("pro") == Pricing["pro"]
    ensures GetPricingService("agency") == Pricing["agency"]
  {
    PlanNamesLowercase();
  }

  const TrialNote: string := "7-day free trial available with no credit card required"

  /** The `get_pricing` tool: `all` in any letter case lists the three plans and the trial
      note; anything else is `get_pricing_service`. */
  function GetPricing(plan: string): (r: PyValue)
    ensures Text.Lower(plan) == "all" ==>
      && r.PyDict? && r.entries.Keys == {"starter", "pro", "agency", "trial"}
      && r.entries["starter"] == Pricing["starter"] && r.entries["pro"] == Pricing["pro"]
      && r.entries["agency"] == Pricing["agency"]
      && r.entries["trial"] == PyStr(TrialNote)
    ensures Text.Lower(plan) != "all" ==> r == GetPricingService(plan)
  {
    ServicePlans();
    if Text.Lower(plan) == "all" then
      PyDict(map["starter" := GetPricingService("starter"), "pro" := GetPricingService("pro"),
                 "agency" := GetPricingService("agency"), "trial" := PyStr(TrialNote)])
    else GetPricingService(plan)
  }

  lemma GetPricingIgnoresCase(plan: string)
    ensures GetPricing(Text.Upper(plan)) == GetPricing(plan)
  {
    Text.LowerUpper(plan);
  }

  function Category(name: string, description: string, highlights: seq<string>): PyValue
  {
    PyDict(map["name" := PyStr(name), "description" := PyStr(description), "highlights" := Strings(highlights)])
  }

  /** The `features` dictionary of `get_features_service`. */
  const Features: map<string, PyValue> := map[
    "lead_generation" := Category("AI Lead Generation",
      "4 powerful campaign modes: Location-based, Category-focused, Keyword search, and Custom targeting with AI analysis",
      ["110+ business categories", "Geographic targeting", "AI lead scoring"]),
    "email" := Category("Smart Email Generation",
      "AI-powered personalized emails with batch generation and industry-specific messaging",
      ["Personalized content", "Batch email creation", "Industry templates"]),
    "crm" := Category("Client Management",
      "Convert leads to clients seamlessly. Manage relationships and track interactions",
      ["Lead-to-client conversion", "Relationship tracking", "Business profiles"]),
    "projects" := Category("Project Management",
      "Complete project lifecycle with task tracking, time logging, and milestone management",
      ["Task management", "Time tracking", "Progress monitoring"]),
    "invoicing" := Category("Professional Invoicing",
      "Create professional invoices with multiple templates and tax calculations",
      ["Multiple templates", "PDF generation", "Payment tracking"]),
    "support" := Category("Support System",
      "Built-in ticketing system with priority levels and conversation tracking",
      ["Priority tickets", "Conversation history", "Email notifications"])]

  const CategoryNotFound: PyValue := PyDict(map["error" := PyStr("Category not found")])

  /** `get_features_service`: the whole catalogue only for exactly `all`; otherwise the
      category named, in any letter case, or the error dictionary. */
  function GetFeaturesService(category: string): (r: PyValue)
    ensures category == "all" ==> r == PyDict(map["features" := PyDict(Features)])
    ensures category != "all" && Text.Lower(category) in Features ==> r == Features[Text.Lower(category)]
    ensures category != "all" && Text.Lower(category) !in Features ==> r == CategoryNotFound
  {
    if category == "all" then PyDict(map["features" := PyDict(Features)])
    else Get(Features, Text.Lower(category), CategoryNotFound)
  }

  /** `all` in any other letter case is looked up as a category, and there is none. */
  lemma FeaturesAllIsCaseSensitive(category: string)
    requires category != "all" && Text.Lower(category) == "all"
    ensures GetFeaturesService(category) == CategoryNotFound
  {
    assert "all" !in Features;
  }

  lemma FeaturesUpperAll()
    ensures GetFeaturesService("ALL") == CategoryNotFound
  {
    assert Text.Lower("ALL") == "all";
    FeaturesAllIsCaseSensitive("ALL");
  }

  /** `schedule_demo_service`: always `scheduled`, naming the person and the address. */
  function ScheduleDemoService(name: string, email: string, preferredTime: string): (r: PyValue)
    ensures r.PyDict? && r.entries.Keys == {"status", "message", "next_steps", "contact"}
    ensures r.entries["status"] == PyStr("scheduled")
    ensures r.entries["message"] == PyStr("Demo scheduled for " + name + " (" + email + ")")
  {
    PyDict(map["status" := PyStr("scheduled"),
               "message" := PyStr("Demo scheduled for " + name + " (" + email + ")"),
               "next_steps" := PyStr("Our team will contact you within 24 hours to confirm the demo time"),
               "contact" := PyStr("support@leadgenlite.com")])
  }

  /** The preferred time has no effect on the answer. */
  lemma ScheduleIgnoresPreferredTime(name: string, email: string, t1: string, t2: string)
    ensures ScheduleDemoService(name, email, t1) == ScheduleDemoService(name, email, t2)
  {
  }
}
