/** `POST /api/test-email` of app/api/test-email/route.js: the latest ten
    feed items, enriched with their distributors, sent to every configured
    recipient whose distributor filter keeps something; the first failed
    send ends the request. */
module TestEmail {
  import opened Wrappers
  import opened Lists
  import opened Strings
  import opened Feed
  import opened EmailTemplate
  import opened Email
  import opened Cron

  const TestSubject: string := "Rappel Conso RSS test: latest 10 items"
  const TestIntro: string := "Manual test email: latest 10 items from the RSS feed."
  const TestTitle: string := "RappelConso latest items"

  /** `buildTestingEmailContent` of this route. */
  function ManualTestingContent(items: seq<FeedItem>): (c: Content)
    ensures c.subject == TestSubject
    ensures c.html == EmailDocument(TestTitle, TestIntro, [Section("Latest 10 items", items)], FooterText)
  {
    LatestItemsContent(TestSubject, TestIntro, items)
  }

  /** The text is the intro, an empty line, then one line per item, or
      "- none" for an empty list. */
  lemma ManualTestingText(items: seq<FeedItem>)
    ensures ManualTestingContent(items).text == Join([TestIntro, ""] + SectionLines(items), "\n")
    ensures items == [] ==> ManualTestingContent(items).text == TestIntro + "\n\n" + NoneLine
  {
    LatestItemsTextJoin(TestSubject, TestIntro, items);
    if items == [] {
      assert [TestIntro, ""] + SectionLines(items) == [TestIntro, "", NoneLine];
      assert Join([TestIntro, "", NoneLine], "\n") == TestIntro + "\n" + Join(["", NoneLine], "\n");
      assert Join(["", NoneLine], "\n") == "" + "\n" + Join([NoneLine], "\n");
    }
  }

  /** The content one recipient gets: null when its filter keeps nothing. */
  function RecipientContent(enriched: seq<FeedItem>, filterFor: (seq<FeedItem>, seq<string>) -> seq<FeedItem>,
                            recipient: RecipientConfig): (r: Option<Content>)
    ensures r.None? <==> filterFor(enriched, recipient.distributeurs) == []
    ensures r.Some? ==> r.value == ManualTestingContent(filterFor(enriched, recipient.distributeurs))
  {
    var filteredItems := filterFor(enriched, recipient.distributeurs);
    if |filteredItems| == 0 then None else Some(ManualTestingContent(filteredItems))
  }

  /** The answers of the route. */
  datatype TestEmailResponse =
    | FeedError(error: string)
    | NoItems
    | NoRecipientConfigs
    | SendError(error: string)
    | Sent(emailMessageId: Option<string>, emailMessages: seq<SentMessage>, emailMode: string)

  function StatusOf(r: TestEmailResponse): (status: nat)
    ensures status == 200 <==> r.Sent?
    ensures r.FeedError? || r.SendError? ==> status == 502
    ensures r.NoItems? ==> status == 404
    ensures r.NoRecipientConfigs? ==> status == 400
  {
    match r
    case FeedError(_) => 502
    case NoItems => 404
    case NoRecipientConfigs => 400
    case SendError(_) => 502
    case Sent(_, _, _) => 200
  }

  /** The answer once the loop has run. */
  function AnswerOf(outcome: Result<seq<SentMessage>, string>): (r: TestEmailResponse)
    ensures outcome.Err? <==> r.SendError?
    ensures outcome.Ok? ==> r == Sent(FirstMessageId(outcome.value), outcome.value, "manual-test")
  {
    if outcome.Err? then SendError(outcome.error)
    else Sent(FirstMessageId(outcome.value), outcome.value, "manual-test")
  }

  /** The recipients that get an e-mail, with their content. */
  function TestPlan(items: seq<FeedItem>, recipients: seq<RecipientConfig>,
                    filterFor: (seq<FeedItem>, seq<string>) -> seq<FeedItem>,
                    fetchInfo: string -> Result<DistributorInfo, string>): seq<Planned>
  {
    var enriched := Enrich(Take(items, 10), fetchInfo);
    Plan(recipients, recipient => RecipientContent(enriched, filterFor, recipient))
  }

  /** `POST` once authorised, `feed` being what `fetchRssItems` returned and
      `recipients` what `getEmailRecipientConfigs` returned: a failed feed is
      502 and an empty one 404, both before any distributor page is read; no
      recipients is 400 with nothing sent; otherwise each recipient in turn
      whose filtered list is not empty is sent its e-mail, the first
      failure answering 502 at once, and a full pass answers 200 with the
      messages sent. */
  method PostTestEmail(mailer: Mailer, feed: Result<seq<FeedItem>, string>, recipients: seq<RecipientConfig>,
                       filterFor: (seq<FeedItem>, seq<string>) -> seq<FeedItem>,
                       fetchInfo: string -> Result<DistributorInfo, string>)
    returns (resp: TestEmailResponse)
    modifies mailer
    ensures feed.Err? ==> resp == FeedError(feed.error) && mailer.handedOver == old(mailer.handedOver)
    ensures feed.Ok? && feed.value == [] ==> resp == NoItems && mailer.handedOver == old(mailer.handedOver)
    ensures feed.Ok? && feed.value != [] && recipients == [] ==>
      resp == NoRecipientConfigs && mailer.handedOver == old(mailer.handedOver)
    ensures feed.Ok? && feed.value != [] && recipients != [] ==>
      var plan := TestPlan(feed.value, recipients, filterFor, fetchInfo);
      && mailer.handedOver == old(mailer.handedOver) + HandedOver(SenderOf(mailer), |old(mailer.handedOver)|, plan)
      && resp == AnswerOf(SendOutcome(SenderOf(mailer), |old(mailer.handedOver)|, plan))
  {
    if feed.Err? {
      return FeedError(feed.error);
    }
    var items := Take(feed.value, 10);
    if |items| == 0 {
      return NoItems;
    }
    var enrichedItems := Enrich(items, fetchInfo);
    if |recipients| == 0 {
      return NoRecipientConfigs;
    }
    ghost var build := (recipient: RecipientConfig) => RecipientContent(enrichedItems, filterFor, recipient);
    ghost var sender := SenderOf(mailer);
    ghost var start := |mailer.handedOver|;
    ghost var before := mailer.handedOver;
    var emailMessages: seq<SentMessage> := [];
    var i := 0;
    while i < |recipients|
      invariant 0 <= i <= |recipients|
      invariant SendOutcome(sender, start, Plan(recipients[..i], build)) == Ok(emailMessages)
      invariant mailer.handedOver == before + HandedOver(sender, start, Plan(recipients[..i], build))
    {
      ghost var done := Plan(recipients[..i], build);
      var recipient := recipients[i];
      var filteredItems := filterFor(enrichedItems, recipient.distributeurs);
      PlanStep(recipients, i, build);
      if |filteredItems| != 0 {
        var content := ManualTestingContent(filteredItems);
        ghost var planned := Planned(recipient.email, content);
        ghost var handedBefore := mailer.handedOver;
        var sent := mailer.SendAlertEmail(content, [recipient.email]);
        SendStep(sender, start, before, done, planned, emailMessages, handedBefore, mailer.handedOver, sent);
        if sent.Err? {
          PlanSplit(recipients, i + 1, build);
          ErrPersists(sender, start, done + [planned], Plan(recipients[i + 1..], build));
          return SendError(sent.error);
        }
        emailMessages := emailMessages + [SentMessage(recipient.email, sent.value)];
      }
      i := i + 1;
    }
    assert recipients[..i] == recipients;
    resp := Sent(FirstMessageId(emailMessages), emailMessages, "manual-test");
  }

  /** Only the first ten feed items reach the e-mails, enriched one for one
      in feed order. */
  lemma TestItemsAreLatestTen(items: seq<FeedItem>, fetchInfo: string -> Result<DistributorInfo, string>)
    ensures var enriched := Enrich(Take(items, 10), fetchInfo);
      && |enriched| == (if |items| < 10 then |items| else 10)
      && forall k :: 0 <= k < |enriched| ==> enriched[k] == EnrichItem(items[k], fetchInfo)
  {
    var first := Take(items, 10);
    assert forall k :: 0 <= k < |first| ==> first[k] == items[k];
  }
}
