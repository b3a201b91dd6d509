/** The second tool catalogue of the Python agent: integer prices for the basic, pro and
    enterprise plans, per-plan features, and demo scheduling that proposes three slots when
    no date is given. The clock is the `today` parameter (the date part of
    `datetime.now()`). Lower-casing is ASCII, which agrees with Python's on these keys. */
module ToolsEnhanced {
  import opened Wrappers
  import opened PyValues
  import Text
  import Calendar
  import Tools

  function Plan(price: int, features: seq<string>, bestFor: string): PyValue
  {
    PyDict(map["price" := PyInt(price), "billing" := PyStr("monthly"), "features" := Tools.Strings(features),
               "best_for" := PyStr(bestFor)])
  }

  /** The `pricing` dictionary of `get_pricing_service`. */
  const Pricing: map<string, PyValue> := map[
    "basic" := Plan(29, ["10 leads/day", "Email support", "Basic analytics"], "Small businesses and startups"),
    "pro" := Plan(99, ["100 leads/day", "Priority support", "API access", "Advanced analytics", "Custom integrations"],
                  "Growing businesses"),
    "enterprise" := Plan(299, ["Unlimited leads", "24/7 support", "Custom integration", "Dedicated account manager",
                               "SLA guarantee"], "Large enterprises")]

  const PlanNotFound: PyValue := PyDict(map["error" := PyStr("Plan not found. Available plans: basic, pro, enterprise")])

  /** `get_pricing_service`: the plan named, in any letter case, or the error dictionary. */
  function GetPricingService(plan: string): (r: PyValue)
    ensures Text.Lower(plan) in Pricing ==> r == Pricing[Text.Lower(plan)]
    ensures Text.Lower(plan) !in Pricing ==> r == PlanNotFound
  {
    Get(Pricing, Text.Lower(plan), PlanNotFound)
  }

  lemma PricingIgnoresCase(plan: string)
    ensures GetPricingService(Text.Upper(plan)) == GetPricingService(plan)
  {
    Text.LowerUpper(plan);
  }

  /** Monthly prices are the integers 29, 99 and 299. */
  predicate PriceIs(plan: string, price: int)
  {
    var r := GetPricingService(plan);
    r.PyDict? && "price" in r.entries && r.entries["price"] == PyInt(price)
  }

  lemma MonthlyPrices()
    ensures PriceIs("basic", 29) && PriceIs("PRO", 99) && PriceIs("Enterprise", 299)
    ensures forall p :: p in Pricing ==> Pricing[p].PyDict? && Pricing[p].entries["billing"] == PyStr("monthly")
  {
    Text.LowerOfLowercase("basic");
    assert Text.Lower("PRO") == "pro";
    assert Text.Lower("Enterprise") == "enterprise";
  }

  function PlanFeatures(leadCapture: string, platforms: seq<string>, analytics: string, support: string,
                        integrations: string): PyValue
  {
    PyDict(map["lead_capture" := PyStr(leadCapture), "platforms" := Tools.Strings(platforms),
               "analytics" := PyStr(analytics), "support" := PyStr(support), "integrations" := PyStr(integrations)])
  }

  /** The `features` dictionary of `get_features_service`. */
  const Features: map<string, PyValue> := map[
    "basic" := PlanFeatures("10 leads per day", ["Web chat"], "Basic dashboard", "Email support (24h response)", "None"),
    "pro" := PlanFeatures("100 leads per day", ["Web chat", "Telegram", "WhatsApp"], "Advanced analytics with exports",
                          "Priority email + chat support", "Zapier, Webhooks, REST API"),
    "enterprise" := PlanFeatures("Unlimited", ["All platforms + custom"], "Full analytics suite + custom reports",
                                 "24/7 phone + dedicated manager", "All integrations + custom development")]

  const FeaturesNotFound: PyValue := PyDict(map["error" := PyStr("Plan not found")])

  /** `get_features_service`: `all` in any letter case is the whole map, not wrapped;
      otherwise the plan named, in any letter case, or the error dictionary. */
  function GetFeaturesService(plan: string): (r: PyValue)
    ensures Text.Lower(plan) == "all" ==> r == PyDict(Features)
    ensures Text.Lower(plan) != "all" && Text.Lower(plan) in Features ==> r == Features[Text.Lower(plan)]
    ensures Text.Lower(plan) != "all" && Text.Lower(plan) !in Features ==> r == FeaturesNotFound
  {
    if Text.Lower(plan) == "all" then PyDict(Features)
    else Get(Features, Text.Lower(plan), FeaturesNotFound)
  }

  /** Unlike the first catalogue, `ALL` here is the whole map. */
  lemma FeaturesIgnoreCase(plan: string)
    ensures GetFeaturesService(Text.Upper(plan)) == GetFeaturesService(plan)
    ensures GetFeaturesService("ALL") == PyDict(Features)
  {
    Text.LowerUpper(plan);
    assert Text.Lower("ALL") == "all";
  }

  /** The three proposed days: tomorrow and the two after it; `None` where a date would
      pass the last one `datetime` represents. */
  function SlotDates(today: Calendar.CivilDate): (r: Option<seq<Calendar.CivilDate>>)
    requires Calendar.ValidDate(today)
    ensures r.Some? ==> |r.value| == 3 && forall i :: 0 <= i < 3 ==> Calendar.AddDays(today, i + 1) == Some(r.value[i])
    ensures r.None? <==> today.year == 9999 && today.month == 12 && today.day >= 29
  {
    Calendar.LastThreeDays(today);
    var one := Calendar.AddDays(today, 1);
    var two := Calendar.AddDays(today, 2);
    var three := Calendar.AddDays(today, 3);
    if one.None? || two.None? || three.None? then None
    else Some([one.value, two.value, three.value])
  }

  /** The slots lie on consecutive days, the first of them tomorrow. */
  lemma SlotDatesConsecutive(today: Calendar.CivilDate)
    requires Calendar.ValidDate(today) && SlotDates(today).Some?
    ensures Calendar.NextDay(today) == Some(SlotDates(today).value[0])
    ensures forall i :: 0 <= i < 2 ==> Calendar.NextDay(SlotDates(today).value[i]) == Some(SlotDates(today).value[i + 1])
  {
    var dates := SlotDates(today).value;
    Calendar.AddDaysSucc(today, 0);
    Calendar.AddDaysSucc(today, 1);
    Calendar.AddDaysSucc(today, 2);
  }

  /** `(tomorrow + timedelta(days=i)).strftime("%Y-%m-%d 10:00 AM")`. */
  function Slot(d: Calendar.CivilDate): (r: string)
    requires Calendar.ValidDate(d)
    ensures r == Calendar.Format(d) + " 10:00 AM"
  {
    Calendar.Format(d) + " 10:00 AM"
  }

  const NextStep: string := "We'll send a calendar invite to {email}"

  /** `schedule_demo_service`. Without a preferred date (`None` or empty) the answer is
      `pending` with three slots; with one it is `scheduled`. `None` stands for the
      `OverflowError` raised when a slot would pass the last representable date. */
  function ScheduleDemoService(name: string, email: string, preferredDate: Option<string>, today: Calendar.CivilDate): (r: Option<PyValue>)
    requires Calendar.ValidDate(today)
    ensures (preferredDate.Some? && preferredDate.value != "") ==>
      && r.Some? && r.value.PyDict?
      && r.value.entries.Keys == {"status", "message", "attendee", "email", "calendar_invite", "meeting_link"}
      && r.value.entries["status"] == PyStr("scheduled")
      && r.value.entries["message"] == PyStr("Demo scheduled for " + preferredDate.value)
      && r.value.entries["attendee"] == PyStr(name) && r.value.entries["email"] == PyStr(email)
    ensures (preferredDate.None? || preferredDate.value == "") ==> (r.Some? <==> SlotDates(today).Some?)
    ensures (preferredDate.None? || preferredDate.value == "") && r.Some? ==>
      && r.value.PyDict?
      && r.value.entries.Keys == {"status", "message", "available_slots", "next_step"}
      && r.value.entries["status"] == PyStr("pending")
      && r.value.entries["message"] == PyStr("Thank you " + name + "! Please choose a time slot.")
      && r.value.entries["available_slots"] == Tools.Strings(seq(3, i requires 0 <= i < 3 => Slot(SlotDates(today).value[i])))
      && r.value.entries["next_step"] == PyStr(NextStep)
  {
    if preferredDate.None? || preferredDate.value == "" then
      var dates := SlotDates(today);
      if dates.None? then None
      else Some(Pending(name, seq(3, i requires 0 <= i < 3 => Slot(dates.value[i]))))
    else
      Some(Scheduled(name, email, preferredDate.value))
  }

  /** The answer without a preferred date. */
  function Pending(name: string, slots: seq<string>): (r: PyValue)
    ensures r.PyDict? && r.entries.Keys == {"status", "message", "available_slots", "next_step"}
    ensures r.entries["status"] == PyStr("pending") && r.entries["next_step"] == PyStr(NextStep)
    ensures r.entries["message"] == PyStr("Thank you " + name + "! Please choose a time slot.")
    ensures r.entries["available_slots"] == Tools.Strings(slots)
  {
    PyDict(map["status" := PyStr("pending"),
               "message" := PyStr("Thank you " + name + "! Please choose a time slot."),
               "available_slots" := Tools.Strings(slots),
               "next_step" := PyStr(NextStep)])
  }

  /** The answer with a preferred date. */
  function Scheduled(name: string, email: string, date: string): (r: PyValue)
    ensures r.PyDict? && r.entries.Keys == {"status", "message", "attendee", "email", "calendar_invite", "meeting_link"}
    ensures r.entries["status"] == PyStr("scheduled") && r.entries["message"] == PyStr("Demo scheduled for " + date)
    ensures r.entries["attendee"] == PyStr(name) && r.entries["email"] == PyStr(email)
  {
    PyDict(map["status" := PyStr("scheduled"),
               "message" := PyStr("Demo scheduled for " + date),
               "attendee" := PyStr(name),
               "email" := PyStr(email),
               "calendar_invite" := PyStr("sent"),
               "meeting_link" := PyStr("https://meet.leadgenlite.com/demo-xyz123")])
  }

  /** `next_step` is not an f-string: the pending answer is the same whatever the email is,
      and it carries the placeholder text itself. */
  lemma NextStepNotInterpolated(name: string, email1: string, email2: string, today: Calendar.CivilDate)
    requires Calendar.ValidDate(today)
    ensures ScheduleDemoService(name, email1, None, today) == ScheduleDemoService(name, email2, None, today)
    ensures Text.OccursAt(NextStep, "{email}", |NextStep| - 7)
  {
    assert NextStep[|NextStep| - 7..] == "{email}";
  }

  /** The three slots are three different strings, each at 10:00 AM. */
  lemma SlotsDistinct(today: Calendar.CivilDate)
    requires Calendar.ValidDate(today) && SlotDates(today).Some?
    ensures forall i, j :: 0 <= i < j < 3 ==> Slot(SlotDates(today).value[i]) != Slot(SlotDates(today).value[j])
  {
    var dates := SlotDates(today).value;
    SlotDatesConsecutive(today);
    forall i, j | 0 <= i < j < 3 ensures Slot(dates[i]) != Slot(dates[j]) {
      assert Calendar.Before(dates[i], dates[j]);
      if Slot(dates[i]) == Slot(dates[j]) {
        var a, b := Calendar.Format(dates[i]), Calendar.Format(dates[j]);
        assert a + " 10:00 AM" == b + " 10:00 AM";
        assert |a| == |b|;
        assert a == (a + " 10:00 AM")[..|a|];
        Calendar.FormatInjective(dates[i], dates[j]);
      }
    }
  }
}
