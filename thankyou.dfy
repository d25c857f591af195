/** The thank-you page (`src/routes/ThankYou.tsx`): the `type` parameter with its
    default, the conversion event logged on arrival and the content record the
    `getContent` switch selects. */
module ThankYou {
  import opened Wrappers
  import opened Effects

  /** `searchParams.get('type') || 'contact'`: a missing or empty parameter
      means 'contact'. */
  function PageType(param: Option<string>): (r: string)
    ensures r != ""
    ensures param.Some? && param.value != "" ==> r == param.value
    ensures param.None? || param.value == "" ==> r == "contact"
  {
    if param.Some? && param.value != "" then param.value else "contact"
  }

  /** The conversion logged when the page shows: `thank_you_` plus the type, from
      'thank_you_page'. */
  function ConversionEvent(pageType: string): (r: Effect)
    ensures r.ButtonClick? && r.location == Some("thank_you_page")
    ensures |r.buttonName| == 10 + |pageType| && r.buttonName[10..] == pageType
    ensures r.buttonName[..10] == "thank_you_"
  {
    ButtonClick("thank_you_" + pageType, Some("thank_you_page"))
  }

  /** The three contents `getContent` chooses between. */
  datatype Screen = DemoReceived | ApplicationReceived | MessageSent

  /** The `switch (type)`: 'demo' and 'application' have their own contents,
      every other type the generic one. */
  function ScreenFor(pageType: string): (r: Screen)
    ensures r == DemoReceived <==> pageType == "demo"
    ensures r == ApplicationReceived <==> pageType == "application"
    ensures r == MessageSent <==> pageType != "demo" && pageType != "application"
  {
    if pageType == "demo" then DemoReceived
    else if pageType == "application" then ApplicationReceived
    else MessageSent
  }

  /** The heading of each content. */
  function Title(s: Screen): string {
    match s
    case DemoReceived => "Demo Request Received!"
    case ApplicationReceived => "Application Received!"
    case MessageSent => "Message Sent Successfully!"
  }

  /** The "next steps" list of each content. */
  function NextSteps(s: Screen): seq<string> {
    match s
    case DemoReceived =>
      [ "Check your email for confirmation",
        "Our team will contact you within 24 hours",
        "We'll schedule a 30-minute personalized demo",
        "Explore how our LMS fits your specific needs" ]
    case ApplicationReceived =>
      [ "Your application is being reviewed",
        "We'll contact you within 5 business days",
        "Follow us on LinkedIn for company updates",
        "Feel free to reach out with any questions" ]
    case MessageSent =>
      [ "We've received your message",
        "Our team will respond within 24 hours",
        "Check your email for our reply",
        "Explore our products while you wait" ]
  }

  /** Every content lists exactly four next steps. */
  lemma FourNextSteps(s: Screen)
    ensures |NextSteps(s)| == 4
  {
  }

  /** The three contents have different headings. */
  lemma TitlesDiffer(s: Screen, t: Screen)
    requires s != t
    ensures Title(s) != Title(t)
  {
    assert |Title(DemoReceived)| == 22 && |Title(ApplicationReceived)| == 21 &&
           |Title(MessageSent)| == 26;
  }

  /** Arriving without a type, or with any type but 'demo' and 'application',
      shows the generic "message sent" content and logs that type. */
  lemma DefaultContent(param: Option<string>)
    requires param.None? || param.value == "" || (param.value != "demo" && param.value != "application")
    ensures ScreenFor(PageType(param)) == MessageSent
  {
  }
}
