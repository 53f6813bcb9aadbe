/** What the reply engine promises, stated over `ChatEngine.GenerateResponse`
    and proved through its table reading in `ReplyTable`. */
module ChatProperties {
  import opened JsString
  import opened ChatEngine
  import opened ReplyTable
  import opened Wrappers

  /** The reply depends only on the lowercased message. */
  lemma CaseInsensitive(userMessage: string)
    ensures GenerateResponse(userMessage) == GenerateResponse(Lower(userMessage))
  {
    LowerIdempotent(userMessage);
    GenerateResponseFollowsTable(userMessage);
    GenerateResponseFollowsTable(Lower(userMessage));
  }

  /** Every message gets one of the thirteen literal replies. */
  lemma ReplyRange(userMessage: string)
    ensures GenerateResponse(userMessage) in AllReplies
  {
    GenerateResponseFollowsTable(userMessage);
  }

  /** A topic is the one chosen exactly when its row is the first row whose
      trigger occurs in the lowercased message. */
  lemma TopicFirstMatch(userMessage: string, k: int)
    requires 0 <= k < |TopicTable|
    ensures TopicOf(Classify(userMessage)) == Some(TopicTable[k].0) <==> FirstHitAt(Lower(userMessage), TopicTable, k)
  {
    var l := Lower(userMessage);
    if FirstHitAt(l, TopicTable, k) {
      FirstMatchAt(l, TopicTable, k);
    } else if FirstMatch(l, TopicTable) == Some(TopicTable[k].0) {
      var j :| FirstHitAt(l, TopicTable, j) && TopicTable[j].0 == TopicTable[k].0;
      TopicLabelsDistinct(j, k);
    }
  }

  /** A message that hits two topics is answered from the earlier one. */
  lemma EarlierTopicWins(userMessage: string, j: int, k: int)
    requires 0 <= j < k < |TopicTable|
    requires Hits(Lower(userMessage), TopicTable[j].1) && Hits(Lower(userMessage), TopicTable[k].1)
    ensures TopicOf(Classify(userMessage)) != Some(TopicTable[k].0)
  {
    TopicFirstMatch(userMessage, k);
  }

  /** Inside the pricing topic, a tier is chosen exactly when its row is the
      first tier row whose trigger occurs in the lowercased message. */
  lemma PricingTierFirstMatch(userMessage: string, k: int)
    requires Hits(Lower(userMessage), TopicTable[0].1)
    requires 0 <= k < |PricingTable|
    ensures Classify(userMessage) == PricingIntent(Some(PricingTable[k].0)) <==> FirstHitAt(Lower(userMessage), PricingTable, k)
  {
    var l := Lower(userMessage);
    PricingFollowsTable(userMessage);
    if FirstHitAt(l, PricingTable, k) {
      FirstMatchAt(l, PricingTable, k);
    }
    match FirstMatch(l, PricingTable)
    case None =>
    case Some(t) =>
      var j :| FirstHitAt(l, PricingTable, j) && PricingTable[j].0 == t;
      if t == PricingTable[k].0 {
        assert j == k;
      }
  }

  /** The reply-level reading of `TopicFirstMatch`: a topic after pricing gives
      its reply exactly when its row is the first whose trigger occurs. */
  lemma TopicReplyFirstMatch(userMessage: string, k: int)
    requires 1 <= k < |TopicTable|
    ensures GenerateResponse(userMessage) == Compose(TopicIntent(TopicTable[k].0)) <==> FirstHitAt(Lower(userMessage), TopicTable, k)
  {
    var i := Classify(userMessage);
    var t := TopicTable[k].0;
    GenerateResponseFollowsTable(userMessage);
    TopicFirstMatch(userMessage, k);
    if i != TopicIntent(t) {
      ComposeInjective(i, TopicIntent(t));
    }
  }

  /** The reply-level reading of `PricingTierFirstMatch`: inside pricing, a tier
      gives its reply exactly when its row is the first tier row that hits. */
  lemma PricingTierReplyFirstMatch(userMessage: string, k: int)
    requires Hits(Lower(userMessage), TopicTable[0].1)
    requires 0 <= k < |PricingTable|
    ensures GenerateResponse(userMessage) == Compose(PricingIntent(Some(PricingTable[k].0))) <==> FirstHitAt(Lower(userMessage), PricingTable, k)
  {
    var i := Classify(userMessage);
    var p := PricingIntent(Some(PricingTable[k].0));
    GenerateResponseFollowsTable(userMessage);
    PricingTierFirstMatch(userMessage, k);
    if i != p {
      ComposeInjective(i, p);
    }
  }

  /** Inside the pricing topic, the generic tier list is the answer exactly
      when no tier row hits. */
  lemma PricingGenericReply(userMessage: string)
    requires Hits(Lower(userMessage), TopicTable[0].1)
    ensures GenerateResponse(userMessage) == ServiceTiersReply <==> NoHitBefore(Lower(userMessage), PricingTable, |PricingTable|)
  {
    PricingFollowsTable(userMessage);
    GenerateResponseFollowsTable(userMessage);
  }

  /** Pricing comes first: a pricing keyword anywhere in the message yields a
      pricing reply, whatever else the message contains, and only a pricing
      keyword does. */
  lemma PricingPriority(userMessage: string)
    ensures var l := Lower(userMessage);
      GenerateResponse(userMessage) in PricingReplies <==> Contains(l, "price") || Contains(l, "pricing") || Contains(l, "cost")
  {
    var l := Lower(userMessage);
    TableRows(l);
    GenerateResponseFollowsTable(userMessage);
    ComposePricing(Classify(userMessage));
    TopicFirstMatch(userMessage, 0);
  }

  /** The fallback menu is given exactly when no trigger of any topic occurs. */
  lemma FallbackExactly(userMessage: string)
    ensures GenerateResponse(userMessage) == FallbackReply <==> NoHitBefore(Lower(userMessage), TopicTable, |TopicTable|)
  {
    var i := Classify(userMessage);
    GenerateResponseFollowsTable(userMessage);
    if i != NoMatch {
      ComposeInjective(i, NoMatch);
    }
  }

  /** "ai" occurs inside "maintenance" and inside "email". */
  lemma AiInsideMaintenanceAndEmail()
    ensures Contains("maintenance", "ai") && Contains("email", "ai")
  {
    ContainsAt("maintenance", "ai", 1);
    ContainsAt("email", "ai", 2);
  }

  /** Without a pricing keyword, a message naming "maintenance" gets the AI reply. */
  lemma MaintenanceWordSelectsAI(userMessage: string)
    requires var l := Lower(userMessage); !(Contains(l, "price") || Contains(l, "pricing") || Contains(l, "cost"))
    requires Contains(Lower(userMessage), "maintenance")
    ensures GenerateResponse(userMessage) == AIReply
  {
    AiInsideMaintenanceAndEmail();
    ContainsTransitive(Lower(userMessage), "maintenance", "ai");
  }

  /** Without a pricing keyword, a message naming "email" gets the AI reply. */
  lemma EmailWordSelectsAI(userMessage: string)
    requires var l := Lower(userMessage); !(Contains(l, "price") || Contains(l, "pricing") || Contains(l, "cost"))
    requires Contains(Lower(userMessage), "email")
    ensures GenerateResponse(userMessage) == AIReply
  {
    AiInsideMaintenanceAndEmail();
    ContainsTransitive(Lower(userMessage), "email", "ai");
  }

  /** The maintenance-plans reply is reached only through "support" or "update",
      never through the word "maintenance". */
  lemma MaintenanceReplyNeedsSupportOrUpdate(userMessage: string)
    requires GenerateResponse(userMessage) == MaintenanceReply
    ensures var l := Lower(userMessage);
      !Contains(l, "maintenance") && (Contains(l, "support") || Contains(l, "update"))
  {
    GenerateResponseFollowsTable(userMessage);
    if Classify(userMessage) != TopicIntent(Maintenance) {
      ComposeInjective(Classify(userMessage), TopicIntent(Maintenance));
    }
    MaintenanceIntentNeeds(userMessage);
  }

  /** The table side of `MaintenanceReplyNeedsSupportOrUpdate`. */
  lemma MaintenanceIntentNeeds(userMessage: string)
    requires Classify(userMessage) == TopicIntent(Maintenance)
    ensures var l := Lower(userMessage);
      !Contains(l, "maintenance") && (Contains(l, "support") || Contains(l, "update"))
  {
    var l := Lower(userMessage);
    TopicFirstMatch(userMessage, 3);
    TableRows(l);
    if Contains(l, "maintenance") {
      AiInsideMaintenanceAndEmail();
      ContainsTransitive(l, "maintenance", "ai");
    }
  }

  /** The contact reply is reached only through "contact" or "reach", never
      through "email". */
  lemma ContactReplyNeedsContactOrReach(userMessage: string)
    requires GenerateResponse(userMessage) == ContactReply
    ensures var l := Lower(userMessage);
      !Contains(l, "email") && (Contains(l, "contact") || Contains(l, "reach"))
  {
    GenerateResponseFollowsTable(userMessage);
    if Classify(userMessage) != TopicIntent(Contact) {
      ComposeInjective(Classify(userMessage), TopicIntent(Contact));
    }
    ContactIntentNeeds(userMessage);
  }

  /** The table side of `ContactReplyNeedsContactOrReach`. */
  lemma ContactIntentNeeds(userMessage: string)
    requires Classify(userMessage) == TopicIntent(Contact)
    ensures var l := Lower(userMessage);
      !Contains(l, "email") && (Contains(l, "contact") || Contains(l, "reach"))
  {
    var l := Lower(userMessage);
    TopicFirstMatch(userMessage, 6);
    TableRows(l);
    if Contains(l, "email") {
      AiInsideMaintenanceAndEmail();
      ContainsTransitive(l, "email", "ai");
    }
  }

  /** "timeline" contains "time", so the timeline row hits exactly when "how long" or "time" occurs. */
  lemma TimelineKeywordRedundant(messageLower: string)
    ensures Hits(messageLower, TopicTable[4].1) <==> Contains(messageLower, "how long") || Contains(messageLower, "time")
  {
    TableRows(messageLower);
    if Contains(messageLower, "timeline") {
      ContainsAt("timeline", "time", 0);
      ContainsTransitive(messageLower, "timeline", "time");
    }
  }

  /** "technology" contains "tech", so the technology row hits exactly when "tech" or "stack" occurs. */
  lemma TechnologyKeywordRedundant(messageLower: string)
    ensures Hits(messageLower, TopicTable[5].1) <==> Contains(messageLower, "tech") || Contains(messageLower, "stack")
  {
    TableRows(messageLower);
    if Contains(messageLower, "technology") {
      ContainsAt("technology", "tech", 0);
      ContainsTransitive(messageLower, "technology", "tech");
    }
  }

  /** The message "pricing" holds neither "price" nor "cost", so the "pricing"
      trigger is the one that sends it to the pricing topic. */
  lemma PricingKeywordNeeded()
    ensures !Contains("pricing", "price") && !Contains("pricing", "cost")
    ensures GenerateResponse("pricing") == ServiceTiersReply
  {
    PricingWordHitsOnlyPricing();
    PricingWordNamesNoSmallTier();
    PricingWordNamesNoLargeTier();
  }

  /** Of the pricing triggers, only "pricing" itself occurs in "pricing". */
  lemma PricingWordHitsOnlyPricing()
    ensures Lower("pricing") == "pricing"
    ensures !Contains("pricing", "price") && !Contains("pricing", "cost") && Contains("pricing", "pricing")
  {
  }

  /** No keyword of the last two tiers occurs in "pricing". */
  lemma PricingWordNamesNoLargeTier()
    ensures !Contains("pricing", "large") && !Contains("pricing", "advanced") && !Contains("pricing", "complex")
    ensures !Contains("pricing", "maintenance")
  {
  }

  /** No keyword of the first two tiers occurs in "pricing". */
  lemma PricingWordNamesNoSmallTier()
    ensures !Contains("pricing", "simple") && !Contains("pricing", "one page") && !Contains("pricing", "1 page")
    ensures !Contains("pricing", "medium") && !Contains("pricing", "3") && !Contains("pricing", "5")
  {
  }

  /** A keyword whose first character is a letter or digit does not occur in a
      message without letters and digits. */
  lemma AbsentWithoutLeadingChar(messageLower: string, keyword: string)
    requires forall i :: 0 <= i < |messageLower| ==> !IsAsciiAlnum(messageLower[i])
    requires |keyword| > 0 && IsAsciiAlnum(keyword[0])
    ensures !Contains(messageLower, keyword)
  {
    if Contains(messageLower, keyword) {
      ContainsCharsOf(messageLower, keyword, 0);
    }
  }

  /** A message without ASCII letters and digits (whitespace only, say) gets
      the fallback menu: every trigger starts with a letter or a digit. */
  lemma NoAlnumGetsFallback(userMessage: string)
    requires forall i :: 0 <= i < |userMessage| ==> !IsAsciiAlnum(userMessage[i])
    ensures GenerateResponse(userMessage) == FallbackReply
  {
    var l := Lower(userMessage);
    assert l == userMessage;
    AbsentWithoutLeadingChar(l, "price");
    AbsentWithoutLeadingChar(l, "pricing");
    AbsentWithoutLeadingChar(l, "cost");
    AbsentWithoutLeadingChar(l, "ai");
    AbsentWithoutLeadingChar(l, "chatbot");
    AbsentWithoutLeadingChar(l, "automation");
    AbsentWithoutLeadingChar(l, "service");
    AbsentWithoutLeadingChar(l, "what do you");
    AbsentWithoutLeadingChar(l, "what can you");
    AbsentWithoutLeadingChar(l, "maintenance");
    AbsentWithoutLeadingChar(l, "support");
    AbsentWithoutLeadingChar(l, "update");
    AbsentWithoutLeadingChar(l, "how long");
    AbsentWithoutLeadingChar(l, "timeline");
    AbsentWithoutLeadingChar(l, "time");
    AbsentWithoutLeadingChar(l, "tech");
    AbsentWithoutLeadingChar(l, "technology");
    AbsentWithoutLeadingChar(l, "stack");
    AbsentWithoutLeadingChar(l, "contact");
    AbsentWithoutLeadingChar(l, "reach");
    AbsentWithoutLeadingChar(l, "email");
    AbsentWithoutLeadingChar(l, "why");
    AbsentWithoutLeadingChar(l, "choose");
    AbsentWithoutLeadingChar(l, "better");
  }
}
