# Chat assistant reply engine — Dafny model

The site's chat assistant answers a visitor with one of thirteen fixed replies. The
`POST` handler of `app/api/chat/route.ts` checks the `message` field of the request body
and hands it to `generateResponse`. That function lowercases the message and walks an
ordered chain of `includes` tests. Pricing comes first and has its own tiers: simple,
medium, large, maintenance, then a generic tier list. Then come AI integration, services,
maintenance, timeline, technology, contact and "why choose". The first test that succeeds
picks the reply. If none succeeds, the reply is a fixed menu.

Files:

- `wrappers.dfy`: `Option`.
- `js_string.dfy` (module `JsString`): `includes` as `Contains`, a left-to-right scan,
  proved equal to "occurs at some position". `toLowerCase` as `Lower`, restricted to ASCII.
- `chat_engine.dfy` (module `ChatEngine`): the thirteen reply texts and
  `GenerateResponse`, written as the same if-chain as the source.
- `reply_table.dfy` (module `ReplyTable`): an independent, table-driven reading of the
  same engine. `TopicTable` and `PricingTable` list the rows in priority order, each row
  with its trigger keywords. `FirstMatch` picks the first row with a trigger present,
  `Classify` gives the intent and `Compose` gives its reply. `GenerateResponseFollowsTable`
  proves that the if-chain and the table agree on every message.
- `chat_properties.dfy` (module `ChatProperties`): what the engine promises: case
  insensitivity, range, first-match order, pricing priority, fallback, and the effects
  of substring matching.
- `chat_route.dfy` (module `ChatRoute`): the validation and dispatch of `POST`.

Substring matching has consequences that the model proves:

- "ai" occurs inside "maintenance" and "email". So, without a pricing keyword, a message
  with either word gets the AI reply. The maintenance reply is reachable only through
  "support" or "update", and the contact reply only through "contact" or "reach".
- "tech" occurs inside "technology" and "time" inside "timeline", so those two longer
  triggers never change the outcome.
- "price" does not occur inside "pricing" (p-r-i-c-i-n-g), so that trigger is not
  redundant. The message "pricing" reaches the pricing topic only through it.

Blank input: the route rejects only a missing, falsy or non-string `message`
(`app/api/chat/route.ts:76`). A message of blanks reaches `generateResponse` and gets the
fallback menu (`ChatRoute.BlankMessageGetsFallback`). Only the chat widget trims input
(`components/chatbot.tsx:37`), and the widget is not part of this model.

## Model

| member | source | states |
|---|---|---|
| `ChatEngine.GenerateResponse` | app/api/chat/route.ts:91-152 | the if-chain of `generateResponse`, branch for branch and keyword for keyword; it has no `ensures` of its own, and its contract is stated by `ReplyRange`, `CaseInsensitive`, `GenerateResponseFollowsTable`, `PricingPriority` and `FallbackExactly` |
| `JsString.Contains` | app/api/chat/route.ts:95-146 | `includes` as a scan over the start positions from left to right, with the empty needle found everywhere; it has no `ensures` of its own and is characterised by `ContainsOccurs` |
| `JsString.ContainsOccurs` | app/api/chat/route.ts:95-146 | `includes` as a left-to-right scan is true exactly when the needle occurs at some position of the message |
| `JsString.ContainsCharsOf` | app/api/chat/route.ts:95-146 | every character of a found keyword is a character of the message |
| `JsString.ContainsTransitive` | app/api/chat/route.ts:112 | a keyword found inside a found keyword is itself found; this is why the "ai" test catches "maintenance" and "email" |
| `JsString.LowerChar` | app/api/chat/route.ts:92 | ASCII capitals move to their lower-case letter (code + 32); every other character is unchanged; no capital remains |
| `JsString.Lower` | app/api/chat/route.ts:92 | lowercasing keeps the length and lowers each character at its own position |
| `JsString.LowerIdempotent` | app/api/chat/route.ts:92 | lowercasing an already lowercased message changes nothing |
| `ReplyTable.Hits` | app/api/chat/route.ts:95-146 | a row's chain of `includes` tests joined by "or" is true exactly when one of its keywords occurs |
| `ReplyTable.HitsThree` | app/api/chat/route.ts:95-146 | a three-keyword row hits exactly when its first, second or third keyword occurs |
| `ReplyTable.TableRows` | app/api/chat/route.ts:95-146 | each row of the topic and tier tables hits exactly when the corresponding `includes` tests of the source succeed |
| `ReplyTable.FirstMatch` | app/api/chat/route.ts:94-151 | no label is returned exactly when no row hits; a returned label is that of a row that hits with no earlier row hitting |
| `ReplyTable.FirstMatchAt` | app/api/chat/route.ts:94-151 | the first row that hits is the one whose label is returned |
| `ReplyTable.NoHitBeforeNext` | app/api/chat/route.ts:94-151 | passing over one more row without a hit extends the "no earlier row hits" prefix by one |
| `ReplyTable.Classify` | app/api/chat/route.ts:92-151 | the intent is well formed (pricing always carries its tier choice); there is no match exactly when no topic row hits the lowercased message |
| `ReplyTable.Compose` | app/api/chat/route.ts:97-151 | every intent is answered with one of the thirteen literal replies |
| `ReplyTable.ComposeInjective` | app/api/chat/route.ts:97-151 | different intents get different reply texts |
| `ReplyTable.ComposePricing` | app/api/chat/route.ts:95-109 | a reply is one of the five pricing replies exactly when the intent is a pricing intent |
| `ReplyTable.RepliesDistinct` | app/api/chat/route.ts:97-151 | the thirteen reply texts are pairwise different |
| `ReplyTable.PricingFollowsTable` | app/api/chat/route.ts:95-109 | once a pricing keyword occurs, the intent is pricing, with the tier that the tier table picks |
| `ReplyTable.TopicBranchFollowsTable` | app/api/chat/route.ts:111-148 | when a non-pricing topic row is the first to hit, the if-chain and the table give the same reply |
| `ReplyTable.NoTopicFollowsTable` | app/api/chat/route.ts:150-151 | when no topic row hits, the if-chain and the table both give the fallback |
| `ReplyTable.PricingBranchFollowsTable` | app/api/chat/route.ts:95-109 | inside pricing, the if-chain and the tier table give the same reply |
| `ReplyTable.GenerateResponseFollowsTable` | app/api/chat/route.ts:91-152 | for every message, the if-chain of `generateResponse` equals the reply of the table-driven first-match classification |
| `ChatProperties.CaseInsensitive` | app/api/chat/route.ts:92 | the reply to a message equals the reply to its lowercased form |
| `ChatProperties.ReplyRange` | app/api/chat/route.ts:95-151 | every message, including the empty one, gets one of the thirteen literal replies |
| `ChatProperties.TopicFirstMatch` | app/api/chat/route.ts:111-148 | a topic is chosen exactly when its row is the first whose keyword occurs in the lowercased message (both directions) |
| `ChatProperties.EarlierTopicWins` | app/api/chat/route.ts:111-148 | a message hitting two topics is never answered from the later one |
| `ChatProperties.TopicReplyFirstMatch` | app/api/chat/route.ts:111-148 | for each topic after pricing, the reply is that topic's reply exactly when its row is the first whose keyword occurs in the lowercased message (both directions) |
| `ChatProperties.PricingTierFirstMatch` | app/api/chat/route.ts:96-107 | inside pricing, a tier is chosen exactly when its row is the first tier row whose keyword occurs |
| `ChatProperties.PricingTierReplyFirstMatch` | app/api/chat/route.ts:95-107 | once a pricing keyword occurs, the reply is a tier's reply exactly when that tier's row is the first tier row whose keyword occurs (both directions) |
| `ChatProperties.PricingGenericReply` | app/api/chat/route.ts:108 | inside pricing, the generic tier list is the reply exactly when no tier keyword occurs |
| `ChatProperties.PricingPriority` | app/api/chat/route.ts:95-109 | the reply is a pricing reply exactly when "price", "pricing" or "cost" occurs, whatever other keywords are present |
| `ChatProperties.FallbackExactly` | app/api/chat/route.ts:150-151 | the fixed menu is the reply exactly when no trigger of any topic occurs |
| `ChatProperties.AiInsideMaintenanceAndEmail` | app/api/chat/route.ts:112 | "ai" occurs in "maintenance" and in "email" |
| `ChatProperties.MaintenanceWordSelectsAI` | app/api/chat/route.ts:112-128 | without a pricing keyword, a message containing "maintenance" gets the AI reply |
| `ChatProperties.EmailWordSelectsAI` | app/api/chat/route.ts:112-143 | without a pricing keyword, a message containing "email" gets the AI reply |
| `ChatProperties.MaintenanceReplyNeedsSupportOrUpdate` | app/api/chat/route.ts:126-127 | the maintenance reply implies "maintenance" is absent and "support" or "update" is present |
| `ChatProperties.ContactReplyNeedsContactOrReach` | app/api/chat/route.ts:141-142 | the contact reply implies "email" is absent and "contact" or "reach" is present |
| `ChatProperties.TimelineKeywordRedundant` | app/api/chat/route.ts:131 | the timeline row hits exactly when "how long" or "time" occurs; "timeline" adds nothing |
| `ChatProperties.TechnologyKeywordRedundant` | app/api/chat/route.ts:136 | the technology row hits exactly when "tech" or "stack" occurs; "technology" adds nothing |
| `ChatProperties.PricingKeywordNeeded` | app/api/chat/route.ts:95-108 | "pricing" contains neither "price" nor "cost", and the message "pricing" gets the generic tier list; the evaluation of the literal is split over three helpers: `PricingWordHitsOnlyPricing` (of the pricing keywords only "pricing" occurs), `PricingWordNamesNoSmallTier` and `PricingWordNamesNoLargeTier` (no tier keyword occurs) |
| `ChatProperties.AbsentWithoutLeadingChar` | app/api/chat/route.ts:95-146 | a keyword starting with a letter or digit is absent from a message that has neither |
| `ChatProperties.NoAlnumGetsFallback` | app/api/chat/route.ts:150-151 | a message without ASCII letters and digits, for example whitespace only, gets the fallback menu |
| `ChatRoute.Post` | app/api/chat/route.ts:76-83 | status 400 with `{error: "Invalid message"}` exactly when `message` is not a non-empty string; otherwise status 200 with the engine's reply, which is one of the thirteen |
| `ChatRoute.BlankMessageGetsFallback` | app/api/chat/route.ts:76-83 | a non-empty message made of blanks is accepted, not rejected, and answered with the fallback menu |

## Left out

- `toLowerCase` outside ASCII. `Lower` maps only `A`-`Z`. JavaScript also lowers other
  characters, and a few of them become ASCII letters: U+212A KELVIN SIGN becomes `k`
  (which matters for "stack"), and U+0130 becomes `i` plus a combining dot (which matters
  for "ai"). Every trigger keyword is ASCII.
- JavaScript strings are UTF-16 code-unit sequences. Here a string is a sequence of
  Unicode scalar values. The two agree for matching ASCII keywords, except that the model
  has no lone surrogates.
- JSON parsing of the request body and the `catch` that answers status 500
  (`app/api/chat/route.ts:73-74,84-86`), including a body that cannot be destructured.
  `ChatRoute.Post` takes the already destructured `message` field; `None` stands for
  `undefined`.
- The `async`/`Promise` wrappers and the error logging to the console.
- `WEBSITE_CONTEXT` (`app/api/chat/route.ts:4-70`) is defined but never used.
- The chat widget, `components/chatbot.tsx`, is not part of this model. It holds the
  transcript state, trims input and skips blank input before sending, and adds a typing
  delay.
- The contact and audit relay routes and all page components are not part of this model.
  They do network I/O or display only.
- Worked examples on long sentences are not stated. Each reply is
  characterised for all inputs instead, by `GenerateResponseFollowsTable` and the
  first-match lemmas.
