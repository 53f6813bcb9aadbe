/** A table-driven reading of the reply engine: each topic is a row holding
    its trigger keywords, rows are tried in priority order and the first row
    with a trigger present in the lowercased message wins; the pricing topic
    has its own table of tiers, tried the same way. `Compose` turns the
    resulting intent into reply text. `GenerateResponseFollowsTable` proves
    that the if-chain of `ChatEngine.GenerateResponse` computes exactly this. */
module ReplyTable {
  import opened JsString
  import opened ChatEngine
  import opened Wrappers

  /** The topics of the if-chain. */
  datatype Topic = Pricing | AIIntegration | Services | Maintenance | Timeline | Technology | Contact | WhyChoose

  /** The sub-topics of the pricing topic. */
  datatype PricingTier = SimpleSite | MediumSite | LargeSite | MaintenancePlans

  /** What the matcher decided: a pricing question (with the tier it names, if any),
      another topic, or nothing recognised. */
  datatype Intent = PricingIntent(tier: Option<PricingTier>) | TopicIntent(topic: Topic) | NoMatch

  /** Pricing questions always carry their tier in `PricingIntent`. */
  predicate WellFormed(i: Intent) {
    i.TopicIntent? ==> i.topic != Pricing
  }

  /** The topics in priority order, each with its trigger keywords. */
  const TopicTable: seq<(Topic, seq<string>)> := [
    (Pricing, ["price", "pricing", "cost"]),
    (AIIntegration, ["ai", "chatbot", "automation"]),
    (Services, ["service", "what do you", "what can you"]),
    (Maintenance, ["maintenance", "support", "update"]),
    (Timeline, ["how long", "timeline", "time"]),
    (Technology, ["tech", "technology", "stack"]),
    (Contact, ["contact", "reach", "email"]),
    (WhyChoose, ["why", "choose", "better"])
  ]

  /** Each topic labels one row only. */
  lemma TopicLabelsDistinct(j: int, k: int)
    requires 0 <= j < |TopicTable| && 0 <= k < |TopicTable|
    requires TopicTable[j].0 == TopicTable[k].0
    ensures j == k
  {
  }

  /** The pricing tiers in the order they are tried, each with its trigger keywords. */
  const PricingTable: seq<(PricingTier, seq<string>)> := [
    (SimpleSite, ["simple", "one page", "1 page"]),
    (MediumSite, ["medium", "3", "5"]),
    (LargeSite, ["large", "advanced", "complex"]),
    (MaintenancePlans, ["maintenance"])
  ]

  /** Some trigger of the list occurs in `msg` (the `a || b || c` of a topic test). */
  function Hits(msg: string, triggers: seq<string>): (r: bool)
    ensures r <==> exists k :: 0 <= k < |triggers| && Contains(msg, triggers[k])
  {
    if triggers == [] then false
    else
      assert forall k :: 1 <= k < |triggers| ==> triggers[k] == triggers[1..][k - 1];
      Contains(msg, triggers[0]) || Hits(msg, triggers[1..])
  }

  /** Row `k` is the first row of `table` with a trigger in `msg`. */
  predicate FirstHitAt<T>(msg: string, table: seq<(T, seq<string>)>, k: int) {
    && 0 <= k < |table|
    && Hits(msg, table[k].1)
    && NoHitBefore(msg, table, k)
  }

  /** The label of the first row with a trigger in `msg`, if any row has one. */
  function FirstMatch<T>(msg: string, table: seq<(T, seq<string>)>): (r: Option<T>)
    ensures r.None? <==> forall k :: 0 <= k < |table| ==> !Hits(msg, table[k].1)
    ensures r.Some? ==> exists k :: FirstHitAt(msg, table, k) && table[k].0 == r.value
  {
    if table == [] then None
    else if Hits(msg, table[0].1) then
      assert FirstHitAt(msg, table, 0);
      Some(table[0].0)
    else
      var r := FirstMatch(msg, table[1..]);
      assert forall k :: 1 <= k < |table| ==> table[k] == table[1..][k - 1];
      assert r.Some? ==> exists k :: FirstHitAt(msg, table, k) && table[k].0 == r.value by {
        if r.Some? {
          var k :| FirstHitAt(msg, table[1..], k) && table[1..][k].0 == r.value;
          assert FirstHitAt(msg, table, k + 1);
        }
      }
      r
  }

  /** Conversely, the first row with a trigger is the one `FirstMatch` picks. */
  lemma {:induction false} FirstMatchAt<T>(msg: string, table: seq<(T, seq<string>)>, k: int)
    requires FirstHitAt(msg, table, k)
    ensures FirstMatch(msg, table) == Some(table[k].0)
  {
    if k > 0 {
      assert FirstHitAt(msg, table[1..], k - 1) by {
        assert forall j :: 0 <= j < k - 1 ==> table[1..][j] == table[j + 1];
      }
      FirstMatchAt(msg, table[1..], k - 1);
    }
  }

  /** The intent of a message: the first topic whose trigger occurs in the
      lowercased message and, for pricing, the first tier whose trigger occurs. */
  function Classify(userMessage: string): (i: Intent)
    ensures WellFormed(i)
    ensures i.NoMatch? <==> forall k :: 0 <= k < |TopicTable| ==> !Hits(Lower(userMessage), TopicTable[k].1)
  {
    var messageLower := Lower(userMessage);
    match FirstMatch(messageLower, TopicTable)
    case None => NoMatch
    case Some(t) => if t == Pricing then PricingIntent(FirstMatch(messageLower, PricingTable)) else TopicIntent(t)
  }

  /** The topic an intent belongs to. */
  function TopicOf(i: Intent): Option<Topic> {
    match i
    case PricingIntent(_) => Some(Pricing)
    case TopicIntent(t) => Some(t)
    case NoMatch => None
  }

  /** The reply text for an intent. */
  function Compose(i: Intent): (r: string)
    requires WellFormed(i)
    ensures r in AllReplies
  {
    match i
    case PricingIntent(Some(SimpleSite)) => SimpleSiteReply
    case PricingIntent(Some(MediumSite)) => MediumSiteReply
    case PricingIntent(Some(LargeSite)) => LargeSiteReply
    case PricingIntent(Some(MaintenancePlans)) => MaintenancePricingReply
    case PricingIntent(None) => ServiceTiersReply
    case TopicIntent(AIIntegration) => AIReply
    case TopicIntent(Services) => ServicesReply
    case TopicIntent(Maintenance) => MaintenanceReply
    case TopicIntent(Timeline) => TimelineReply
    case TopicIntent(Technology) => TechnologyReply
    case TopicIntent(Contact) => ContactReply
    case TopicIntent(WhyChoose) => WhyChooseReply
    case NoMatch => FallbackReply
  }

  /** Different intents get different replies. */
  lemma ComposeInjective(i: Intent, j: Intent)
    requires WellFormed(i) && WellFormed(j) && i != j
    ensures Compose(i) != Compose(j)
  {
    RepliesDistinct();
  }

  /** The pricing replies are exactly the replies of pricing intents. */
  lemma ComposePricing(i: Intent)
    requires WellFormed(i)
    ensures i.PricingIntent? <==> Compose(i) in PricingReplies
  {
    RepliesDistinct();
  }

  /** The thirteen replies are pairwise different texts. */
  lemma RepliesDistinct()
    ensures forall i, j :: 0 <= i < j < |AllReplies| ==> AllReplies[i] != AllReplies[j]
  {
  }

  /** A three-keyword row hits exactly when one of its keywords occurs. */
  lemma HitsThree(msg: string, a: string, b: string, c: string)
    ensures Hits(msg, [a, b, c]) <==> Contains(msg, a) || Contains(msg, b) || Contains(msg, c)
  {
    assert [a, b, c][1..] == [b, c] && [b, c][1..] == [c] && [c][1..] == [];
    assert Hits(msg, [c]) == Contains(msg, c);
    assert Hits(msg, [b, c]) == (Contains(msg, b) || Contains(msg, c));
  }

  /** The rows of both tables, spelled out as the tests of the if-chain. */
  lemma TableRows(l: string)
    ensures Hits(l, TopicTable[0].1) <==> Contains(l, "price") || Contains(l, "pricing") || Contains(l, "cost")
    ensures Hits(l, TopicTable[1].1) <==> Contains(l, "ai") || Contains(l, "chatbot") || Contains(l, "automation")
    ensures Hits(l, TopicTable[2].1) <==> Contains(l, "service") || Contains(l, "what do you") || Contains(l, "what can you")
    ensures Hits(l, TopicTable[3].1) <==> Contains(l, "maintenance") || Contains(l, "support") || Contains(l, "update")
    ensures Hits(l, TopicTable[4].1) <==> Contains(l, "how long") || Contains(l, "timeline") || Contains(l, "time")
    ensures Hits(l, TopicTable[5].1) <==> Contains(l, "tech") || Contains(l, "technology") || Contains(l, "stack")
    ensures Hits(l, TopicTable[6].1) <==> Contains(l, "contact") || Contains(l, "reach") || Contains(l, "email")
    ensures Hits(l, TopicTable[7].1) <==> Contains(l, "why") || Contains(l, "choose") || Contains(l, "better")
    ensures Hits(l, PricingTable[0].1) <==> Contains(l, "simple") || Contains(l, "one page") || Contains(l, "1 page")
    ensures Hits(l, PricingTable[1].1) <==> Contains(l, "medium") || Contains(l, "3") || Contains(l, "5")
    ensures Hits(l, PricingTable[2].1) <==> Contains(l, "large") || Contains(l, "advanced") || Contains(l, "complex")
    ensures Hits(l, PricingTable[3].1) <==> Contains(l, "maintenance")
  {
    HitsThree(l, "price", "pricing", "cost");
    HitsThree(l, "ai", "chatbot", "automation");
    HitsThree(l, "service", "what do you", "what can you");
    HitsThree(l, "maintenance", "support", "update");
    HitsThree(l, "how long", "timeline", "time");
    HitsThree(l, "tech", "technology", "stack");
    HitsThree(l, "contact", "reach", "email");
    HitsThree(l, "why", "choose", "better");
    HitsThree(l, "simple", "one page", "1 page");
    HitsThree(l, "medium", "3", "5");
    HitsThree(l, "large", "advanced", "complex");
    assert ["maintenance"][1..] == [];
  }

  /** No row before row `k` has a trigger in `msg`. */
  predicate NoHitBefore<T>(msg: string, table: seq<(T, seq<string>)>, k: int) {
    forall j :: 0 <= j < k && j < |table| ==> !Hits(msg, table[j].1)
  }

  /** Passing over one more row without a hit. */
  lemma NoHitBeforeNext<T>(msg: string, table: seq<(T, seq<string>)>, k: int)
    requires 0 <= k < |table| && NoHitBefore(msg, table, k) && !Hits(msg, table[k].1)
    ensures NoHitBefore(msg, table, k + 1)
  {
  }

  /** The pricing part of the if-chain and the pricing table agree. */
  lemma PricingFollowsTable(userMessage: string)
    requires Hits(Lower(userMessage), TopicTable[0].1)
    ensures Classify(userMessage) == PricingIntent(FirstMatch(Lower(userMessage), PricingTable))
  {
    FirstMatchAt(Lower(userMessage), TopicTable, 0);
  }

  /** The branches after pricing: the first topic row that hits decides both readings. */
  lemma TopicBranchFollowsTable(userMessage: string, k: int)
    requires 1 <= k < |TopicTable| && FirstHitAt(Lower(userMessage), TopicTable, k)
    ensures GenerateResponse(userMessage) == Compose(Classify(userMessage))
  {
    var l := Lower(userMessage);
    TableRows(l);
    FirstMatchAt(l, TopicTable, k);
    assert forall j :: 0 <= j < k ==> !Hits(l, TopicTable[j].1);
    if k == 1 {
      assert Classify(userMessage) == TopicIntent(AIIntegration);
    } else if k == 2 {
      assert Classify(userMessage) == TopicIntent(Services);
    } else if k == 3 {
      assert Classify(userMessage) == TopicIntent(Maintenance);
    } else if k == 4 {
      assert Classify(userMessage) == TopicIntent(Timeline);
    } else if k == 5 {
      assert Classify(userMessage) == TopicIntent(Technology);
    } else if k == 6 {
      assert Classify(userMessage) == TopicIntent(Contact);
    } else {
      assert Classify(userMessage) == TopicIntent(WhyChoose);
    }
  }

  /** No topic row hits: both readings give the fallback menu. */
  lemma NoTopicFollowsTable(userMessage: string)
    requires NoHitBefore(Lower(userMessage), TopicTable, |TopicTable|)
    ensures GenerateResponse(userMessage) == Compose(Classify(userMessage))
  {
    TableRows(Lower(userMessage));
  }

  /** The if-chain of `generateResponse` and the table reading agree on every message. */
  lemma GenerateResponseFollowsTable(userMessage: string)
    ensures GenerateResponse(userMessage) == Compose(Classify(userMessage))
  {
    var l := Lower(userMessage);
    match FirstMatch(l, TopicTable)
    case None =>
      NoTopicFollowsTable(userMessage);
    case Some(t) =>
      var k :| FirstHitAt(l, TopicTable, k) && TopicTable[k].0 == t;
      if k == 0 {
        PricingBranchFollowsTable(userMessage);
      } else {
        TopicBranchFollowsTable(userMessage, k);
      }
  }

  /** The pricing branch: the first tier row that hits decides both readings. */
  lemma PricingBranchFollowsTable(userMessage: string)
    requires Hits(Lower(userMessage), TopicTable[0].1)
    ensures GenerateResponse(userMessage) == Compose(Classify(userMessage))
  {
    var l := Lower(userMessage);
    TableRows(l);
    PricingFollowsTable(userMessage);
    if Contains(l, "simple") || Contains(l, "one page") || Contains(l, "1 page") {
      FirstMatchAt(l, PricingTable, 0);
      return;
    }
    NoHitBeforeNext(l, PricingTable, 0);
    if Contains(l, "medium") || Contains(l, "3") || Contains(l, "5") {
      FirstMatchAt(l, PricingTable, 1);
      return;
    }
    NoHitBeforeNext(l, PricingTable, 1);
    if Contains(l, "large") || Contains(l, "advanced") || Contains(l, "complex") {
      FirstMatchAt(l, PricingTable, 2);
      return;
    }
    NoHitBeforeNext(l, PricingTable, 2);
    if Contains(l, "maintenance") {
      FirstMatchAt(l, PricingTable, 3);
      return;
    }
    NoHitBeforeNext(l, PricingTable, 3);
  }
}
